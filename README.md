# SkyWars configuration loading, in Dafny

This project models how the SkyWars plugin loads its configuration. The core is
`SkyWarsConfiguration.load()`:

- It reads `main-config.yml` part by part with get-or-set reads. A get-or-set returns the stored
  value, or writes the default back and returns it.
- It refuses an unknown settings version, an unknown arena order, inconsistent save toggles,
  empty queue settings and a command-whitelist pattern that does not compile.
- It migrates the document: it resets the version, translates the message prefix, adjusts the
  score save interval to the SQL setting and removes the deprecated keys.
- It saves the result and then loads every arena of every queue.

The project also models:

- the pattern source that `createCommandRegex` builds for the command whitelist;
- `loadArena`, `reload`, `getArenasForQueue` and `getQueueNames`;
- the two join-queue event records, `PlayerJoinQueueInfo` and `PlayerJoinSecondaryQueueInfo`.

Modules:

- `Wrappers`: `Option`, `Result` and `Outcome`. Java's `null` is `None`, and a thrown exception is
  `Failure`/`Fail` carrying the error.
- `MainConfigKeys` and `MainConfigDefaults`: one key per constant of the key class, plus the
  defaults.
- `SettingsStore`: the settings document as a map from key to value, and the get-or-set read.
- `MainConfigSettings`: what each part of `load()` reads, and what it writes back. It shows step by
  step that each part reads, from the document it finds, exactly what it would read from the file
  on disk. It also shows what reading the saved document again gives:
  - the same general, queue, gameplay, economy, whitelist, message, kit, timer, report and hook
    settings, with two exceptions;
  - the save interval comes back adjusted to the SQL setting, so a file with the non-SQL default
    and SQL on reloads with the SQL default;
  - the message prefix comes back translated, so a second load translates it once more.

  The saved document holds every key a get-or-set read, the enabled-arenas list included
  whenever a single queue is used.
- `Configuration`: the checks of `load()` as one function, `LoadCheck`, and the class
  `SkyWarsConfiguration`. The class's methods follow the source step by step and are proved
  against those functions.
- `CommandRegex`: the whitelist pattern and its round trip back to the command list.
- `Events`: the event records.

## Model

| member | source | states |
|---|---|---|
| Configuration.SkyWarsConfiguration.Load | src/main/java/net/daboross/bukkitdev/skywars/config/SkyWarsConfiguration.java:110-264 | The arena folder is set only when it was null. When `LoadCheck` names an error, load fails with exactly that error and saves nothing. Otherwise the saved document is `CanonicalDocument(file)`, every settings field holds what the file gives it, and the arenas are loaded as `ArenasLoaded` states. |
| Configuration.SkyWarsConfiguration.LoadMainConfig | src/main/java/net/daboross/bukkitdev/skywars/config/SkyWarsConfiguration.java:124-253 | The failure is exactly `MainConfigCheck(file)`: the checks of lines 125-166, then a whitelist pattern Pattern.compile refuses. A failure saves nothing. On success: all settings fields are loaded from the file; the queue descriptions are the ones of the queue settings; enabledArenas is the empty list; the saved document is the canonical one. |
| Configuration.SkyWarsConfiguration.LoadCheckedSettings | src/main/java/net/daboross/bukkitdev/skywars/config/SkyWarsConfiguration.java:124-169 | It runs the version, arena-order, save-toggle and queue checks in source order, and its failure equals `SettingsCheck`. On success the general, save and queue fields hold the file's values, the queues are `QueueDescriptionsOf`, and enabledArenas is a new empty list. |
| Configuration.SkyWarsConfiguration.LoadOtherSettings | src/main/java/net/daboross/bukkitdev/skywars/config/SkyWarsConfiguration.java:171-244 | It fails exactly when the stored command list is not empty and Pattern.compile refuses its pattern (line 275), with that pattern as the error. Otherwise the score, economy, whitelist, message, kit, timer, report and hook fields hold what the file gives them. The whitelist field is the pattern built from the stored command list, and score recovery is the negation of its stored switch. |
| Configuration.SkyWarsConfiguration.Reload | src/main/java/net/daboross/bukkitdev/skywars/config/SkyWarsConfiguration.java:279-282 | Reload has the same outcome as load, and an arena folder that was already set keeps its path. |
| Configuration.SkyWarsConfiguration.LoadArenas | src/main/java/net/daboross/bukkitdev/skywars/config/SkyWarsConfiguration.java:255-263 | The load passes exactly when every arena of every queue loads, and a failure is some queue's error. On a pass: each queue maps to its arenas in name order; enabledArenas holds all of them, queue after queue in iteration order, one per name. The settings fields are unchanged. |
| Configuration.SkyWarsConfiguration.LoadQueueArenas | src/main/java/net/daboross/bukkitdev/skywars/config/SkyWarsConfiguration.java:257-262 | The result is `QueueArenas(names)`: all arenas in name order, or the first failure. On success enabledArenas is the old list with those arenas appended. |
| Configuration.SkyWarsConfiguration.LoadArena | src/main/java/net/daboross/bukkitdev/skywars/config/SkyWarsConfiguration.java:284-302 | A null enabledArenas fails with the illegal-state error. Otherwise: a missing file with no bundled copy fails; a file the arena loader rejects fails; a loaded arena is returned and appended to enabledArenas. The list is unchanged on failure. |
| Configuration.SkyWarsConfiguration.GetArenasForQueue | src/main/java/net/daboross/bukkitdev/skywars/config/SkyWarsConfiguration.java:355-363 | It returns null exactly for a name that is not a queue, and otherwise that queue's arenas. |
| Configuration.SkyWarsConfiguration.GetQueueNames | src/main/java/net/daboross/bukkitdev/skywars/config/SkyWarsConfiguration.java:350-353 | The queue names are exactly the names getArenasForQueue answers for with a non-null list. |
| Configuration.SkyWarsConfiguration.Init | src/main/java/net/daboross/bukkitdev/skywars/config/SkyWarsConfiguration.java:105-106 | The object as it is before its first load: the arena folder and enabledArenas are null, and there are no queues. |
| Configuration.NewSkyWarsConfiguration | src/main/java/net/daboross/bukkitdev/skywars/config/SkyWarsConfiguration.java:105-108 | Construction runs load, so an object exists only when that load succeeds. When `LoadCheck` names an error, construction fails with exactly that error. On success the object is new, its arena folder is the default one, every settings field holds what the file gives it, and the arenas are loaded as `ArenasLoaded` states. Once the checks pass, the outcome and the queues are related as `QueuesLoaded` states. |
| Configuration.LoadCheckVersion | src/main/java/net/daboross/bukkitdev/skywars/config/SkyWarsConfiguration.java:125-128 | With a usable arena folder, a stored version above 2 fails load with that version. A file with no version never fails the version check. |
| Configuration.InventorySaveCheck | src/main/java/net/daboross/bukkitdev/skywars/config/SkyWarsConfiguration.java:146-151 | Load fails with the save-toggle error only when experience or position-gamemode-health saving is on and inventory saving is off. Once the earlier checks pass, that is an if-and-only-if. A file that sets neither dependent toggle never fails it, because both default to the inventory toggle. |
| Configuration.QueueDescriptionsOf | src/main/java/net/daboross/bukkitdev/skywars/config/SkyWarsConfiguration.java:155-163 | With several queues there is one named queue per description, with its arena list. With a single queue there is exactly one queue, named null, whose arenas are the enabled arenas. |
| Configuration.QueueCheck | src/main/java/net/daboross/bukkitdev/skywars/config/SkyWarsConfiguration.java:156-166 | Several queues pass exactly when there is at least one description, and a single queue passes exactly when it has an arena. Each failure carries its own error. |
| Configuration.SavedDocumentReloads | src/main/java/net/daboross/bukkitdev/skywars/config/SkyWarsConfiguration.java:124-253 | Loading the saved document again meets the same checks with the same result and builds the same queues. |
| Configuration.LoadCheck | src/main/java/net/daboross/bukkitdev/skywars/config/SkyWarsConfiguration.java:119-122 | The first check of load that fails: an arena folder that exists but is not a directory fails first, and then the settings checks of `MainConfigCheck` run. |
| Configuration.SettingsCheck | src/main/java/net/daboross/bukkitdev/skywars/config/SkyWarsConfiguration.java:125-166 | The settings checks in source order: an unknown version, then an arena order the registry does not know, then experience or position saving without inventory saving, then the queue check. Each check names its own error. |
| Configuration.CommandPatternCheck | src/main/java/net/daboross/bukkitdev/skywars/config/SkyWarsConfiguration.java:266-277 | Only a non-empty command list has a pattern to compile. The check fails exactly when Pattern.compile refuses that pattern, and the error carries the pattern. |
| Configuration.MainConfigCheck | src/main/java/net/daboross/bukkitdev/skywars/config/SkyWarsConfiguration.java:125-210 | The checks of the settings file in source order: those of `SettingsCheck`, then the compilation of the whitelist pattern at line 210. |
| Configuration.ArenaFor | src/main/java/net/daboross/bukkitdev/skywars/config/SkyWarsConfiguration.java:284-297 | Loading one arena fails only with the missing-file error or the invalid-arena error for that name. It succeeds exactly when the arena file exists or is bundled and the arena loader accepts it, and then it yields the loader's arena. |
| Configuration.QueueArenas | src/main/java/net/daboross/bukkitdev/skywars/config/SkyWarsConfiguration.java:258-261 | One queue's arenas, loaded in list order: on success there is one arena per name. `QueueArenasByName` states the rest. |
| Configuration.QueueArenasByName | src/main/java/net/daboross/bukkitdev/skywars/config/SkyWarsConfiguration.java:257-262 | A queue loads exactly when each of its arenas loads, and then holds arena i at position i. Otherwise its error is that of the first arena that fails. |
| Configuration.QueueArenasFirstFailure | src/main/java/net/daboross/bukkitdev/skywars/config/SkyWarsConfiguration.java:259-261 | When the first i arenas load and arena i does not, the queue fails with arena i's error. |
| Configuration.QueueFailureFailsLoad | src/main/java/net/daboross/bukkitdev/skywars/config/SkyWarsConfiguration.java:257-262 | One queue whose arenas do not all load makes the whole load fail with that queue's error. |
| Configuration.AllQueuesLoaded | src/main/java/net/daboross/bukkitdev/skywars/config/SkyWarsConfiguration.java:256-263 | When every queue is recorded with its arenas, and the order lists each queue once, the load has passed. enabledArenas is then the queues' arenas in that order, one per arena name. |
| Configuration.FlattenExtend | src/main/java/net/daboross/bukkitdev/skywars/config/SkyWarsConfiguration.java:262 | Recording a new queue appends its arenas after the ones already loaded and leaves the rest as it was. |
| Configuration.FlattenSameLength | src/main/java/net/daboross/bukkitdev/skywars/config/SkyWarsConfiguration.java:257-262 | Queues with lists of the same lengths, queue by queue, give concatenations of the same length. |
| Configuration.ArenaFolderPath | src/main/java/net/daboross/bukkitdev/skywars/config/SkyWarsConfiguration.java:117 | The default arena folder: the arenas directory inside the plugin's data folder, used when no folder was set before. |
| Configuration.ArenaFilePath | src/main/java/net/daboross/bukkitdev/skywars/config/SkyWarsConfiguration.java:288 | The file of an arena: its name with the yml extension, inside the arena folder. |
| Configuration.GeneralFieldsOf | src/main/java/net/daboross/bukkitdev/skywars/config/SkyWarsConfiguration.java:131-142 | The debug, statistics and skip-uuid fields take the values read, and the arena order is the one the stored name resolves to (none for an unknown name). |
| Configuration.SaveToggleFieldsOf | src/main/java/net/daboross/bukkitdev/skywars/config/SkyWarsConfiguration.java:144-148 | The message prefix field is the stored prefix with its colour codes translated; the three save fields take the toggles read. |
| Configuration.EconomyCommandFieldsOf | src/main/java/net/daboross/bukkitdev/skywars/config/SkyWarsConfiguration.java:200-212 | The economy, spacing, whitelist and join-sign fields take the values read. Of the command list only the pattern `CommandRegexSource` builds from it is kept. |
| Configuration.ReportHookFieldsOf | src/main/java/net/daboross/bukkitdev/skywars/config/SkyWarsConfiguration.java:233-244 | The report, hook and developer fields take the values read, and score recovery is the negation of the disable-score-recovery switch. `ScoreRecoveryUnlessDisabled` states that in terms of the document. |
| Configuration.ScoreRecoveryUnlessDisabled | src/main/java/net/daboross/bukkitdev/skywars/config/SkyWarsConfiguration.java:234 | Score recovery is off exactly when the disable-score-recovery switch is stored as true, or, when no boolean is stored there, when its default is true. |
| MainConfigSettings.SqlAdjustedInterval | src/main/java/net/daboross/bukkitdev/skywars/config/SkyWarsConfiguration.java:192-198 | The interval changes only as the source swaps it: the non-SQL default becomes the SQL default when SQL is on, and the reverse when SQL is off. |
| MainConfigSettings.SqlAdjustedIntervalIdempotent | src/main/java/net/daboross/bukkitdev/skywars/config/SkyWarsConfiguration.java:192-198 | Adjusting the interval twice for the same SQL setting gives the same result as adjusting once. |
| MainConfigSettings.GameplayScoreStoresAdjustedInterval | src/main/java/net/daboross/bukkitdev/skywars/config/SkyWarsConfiguration.java:182-198 | The score part stores the adjusted interval, computed from the interval and SQL setting it read. |
| MainConfigSettings.CanonicalSaveInterval | src/main/java/net/daboross/bukkitdev/skywars/config/SkyWarsConfiguration.java:192-198 | The saved document holds the file's save interval, adjusted to the file's SQL setting. |
| MainConfigSettings.CanonicalKeepsVersion | src/main/java/net/daboross/bukkitdev/skywars/config/SkyWarsConfiguration.java:129 | The saved document holds the version entry the version reset wrote, the current version. |
| MainConfigSettings.CanonicalVersionAndDeprecated | src/main/java/net/daboross/bukkitdev/skywars/config/SkyWarsConfiguration.java:249-250 | The saved document holds the current version and none of the deprecated keys. |
| MainConfigSettings.CanonicalKeepsUnwrittenKeys | src/main/java/net/daboross/bukkitdev/skywars/config/SkyWarsConfiguration.java:233-234 | The switches read with a plain getBoolean (skip-uuid-check, disable-report, disable-score-recovery, developer-options) are saved exactly as they were in the file, as is every key load() does not know. |
| MainConfigSettings.ReadOnlyKeysStep | src/main/java/net/daboross/bukkitdev/skywars/config/SkyWarsConfiguration.java:233-234 | The keys read only with getBoolean are written by no step of load(). |
| MainConfigSettings.CanonicalGeneral | src/main/java/net/daboross/bukkitdev/skywars/config/SkyWarsConfiguration.java:131-139 | Reading the general settings from the saved document gives what was read from the file. |
| MainConfigSettings.CanonicalSave | src/main/java/net/daboross/bukkitdev/skywars/config/SkyWarsConfiguration.java:144-148 | Reading the save settings from the saved document gives the file's toggles and the colour-translated prefix. |
| MainConfigSettings.CanonicalQueues | src/main/java/net/daboross/bukkitdev/skywars/config/SkyWarsConfiguration.java:153-168 | Reading the queue settings from the saved document gives what was read from the file. |
| MainConfigSettings.CanonicalHooks | src/main/java/net/daboross/bukkitdev/skywars/config/SkyWarsConfiguration.java:233-244 | Reading the report and hook settings from the saved document gives what was read from the file. |
| MainConfigSettings.CanonicalDocument | src/main/java/net/daboross/bukkitdev/skywars/config/SkyWarsConfiguration.java:125-253 | The document load saves: the file with the version reset, each part's get-or-set writes applied in source order, and the two deprecated keys removed. Its properties are the `Canonical...` lemmas. |
| MainConfigSettings.CanonicalGameplayScore | src/main/java/net/daboross/bukkitdev/skywars/config/SkyWarsConfiguration.java:171-198 | Reading the locale, gamerule and score settings from the saved document gives what was read from the file, except that the save interval is the one adjusted to the SQL setting. |
| MainConfigSettings.CanonicalEconomyCommands | src/main/java/net/daboross/bukkitdev/skywars/config/SkyWarsConfiguration.java:200-212 | Reading the economy, arena-spacing, whitelist and join-sign settings from the saved document gives what was read from the file. |
| MainConfigSettings.CanonicalMessagesKitsTimers | src/main/java/net/daboross/bukkitdev/skywars/config/SkyWarsConfiguration.java:215-230 | Reading the message, kit and timer settings from the saved document gives what was read from the file. |
| MainConfigSettings.CanonicalHoldsGetSetKeys | src/main/java/net/daboross/bukkitdev/skywars/config/SkyWarsConfiguration.java:125-244 | The saved document holds the version and every key that a get-or-set of load reads, the queue descriptions included in both branches (lines 157 and 167). The enabled-arenas list is among them when a single queue is used. |
| MainConfigSettings.CanonicalHoldsEnabledArenas | src/main/java/net/daboross/bukkitdev/skywars/config/SkyWarsConfiguration.java:161-163 | With a single queue, the enabled-arenas list is read with get-or-set and so is in the saved document. |
| MainConfigSettings.GeneralReadsLoadedFile | src/main/java/net/daboross/bukkitdev/skywars/config/SkyWarsConfiguration.java:129-139 | Overwriting the version does not change what the general part reads. |
| MainConfigSettings.SaveReadsLoadedFile | src/main/java/net/daboross/bukkitdev/skywars/config/SkyWarsConfiguration.java:144-148 | The save part reads from the document it finds exactly what the file holds. |
| MainConfigSettings.QueueReadsLoadedFile | src/main/java/net/daboross/bukkitdev/skywars/config/SkyWarsConfiguration.java:153-168 | The queue part reads from the document it finds exactly what the file holds. |
| MainConfigSettings.GameplayScoreReadsLoadedFile | src/main/java/net/daboross/bukkitdev/skywars/config/SkyWarsConfiguration.java:171-190 | The locale, gamerule and score part reads from the document it finds exactly what the file holds. |
| MainConfigSettings.EconomyCommandReadsLoadedFile | src/main/java/net/daboross/bukkitdev/skywars/config/SkyWarsConfiguration.java:200-212 | The economy and whitelist part reads from the document it finds exactly what the file holds. |
| MainConfigSettings.MessageKitTimerReadsLoadedFile | src/main/java/net/daboross/bukkitdev/skywars/config/SkyWarsConfiguration.java:215-230 | The message, kit and timer part reads from the document it finds exactly what the file holds. |
| MainConfigSettings.HookReadsLoadedFile | src/main/java/net/daboross/bukkitdev/skywars/config/SkyWarsConfiguration.java:233-244 | The report and hook part reads from the document it finds exactly what the file holds. |
| MainConfigSettings.GeneralReadBack | src/main/java/net/daboross/bukkitdev/skywars/config/SkyWarsConfiguration.java:131-138 | Reading the general keys again after the general part's writes gives what it read. |
| MainConfigSettings.SaveReadBack | src/main/java/net/daboross/bukkitdev/skywars/config/SkyWarsConfiguration.java:144-148 | Reading the save keys again gives what was read, except that the prefix is now the translated one. |
| MainConfigSettings.QueueReadBack | src/main/java/net/daboross/bukkitdev/skywars/config/SkyWarsConfiguration.java:153-168 | Reading the queue keys again after the queue part's writes gives what it read, in both branches. |
| MainConfigSettings.GameplayScoreReadBack | src/main/java/net/daboross/bukkitdev/skywars/config/SkyWarsConfiguration.java:171-198 | Reading the locale, gamerule and score keys again after that part's writes gives what it read, with the save interval adjusted to the SQL setting. |
| MainConfigSettings.EconomyCommandReadBack | src/main/java/net/daboross/bukkitdev/skywars/config/SkyWarsConfiguration.java:200-212 | Reading the economy, arena-spacing, whitelist and join-sign keys again after that part's writes gives what it read. |
| MainConfigSettings.MessageKitTimerReadBack | src/main/java/net/daboross/bukkitdev/skywars/config/SkyWarsConfiguration.java:215-230 | Reading the message, kit and timer keys again after that part's writes gives what it read. |
| MainConfigSettings.HookReadBack | src/main/java/net/daboross/bukkitdev/skywars/config/SkyWarsConfiguration.java:233-244 | Reading the report and hook keys again after the hook writes gives what was read. |
| MainConfigSettings.GeneralRunsFirst | src/main/java/net/daboross/bukkitdev/skywars/config/SkyWarsConfiguration.java:125-139 | The general part runs on the file with its version reset. |
| MainConfigSettings.GeneralOf | src/main/java/net/daboross/bukkitdev/skywars/config/SkyWarsConfiguration.java:131-142 | What the general part reads: debug, report-statistics and arena-order with get-or-set and their defaults, and skip-uuid-check with a plain getBoolean. `CanonicalGeneral` and `GeneralReadBack` state its properties. |
| MainConfigSettings.SaveSettingsOf | src/main/java/net/daboross/bukkitdev/skywars/config/SkyWarsConfiguration.java:144-148 | What the save part reads: the stored prefix, the inventory toggle with its default, and the experience and position-gamemode-health toggles with the inventory toggle as their default. `SaveTogglesDefaultToInventory` states the default rule. |
| MainConfigSettings.SaveTogglesDefaultToInventory | src/main/java/net/daboross/bukkitdev/skywars/config/SkyWarsConfiguration.java:146-147 | A stored boolean for the experience or the position-gamemode-health toggle is taken as it is. When there is none, the toggle takes the inventory toggle's value. |
| MainConfigSettings.QueueSettingsOf | src/main/java/net/daboross/bukkitdev/skywars/config/SkyWarsConfiguration.java:153-168 | What the queue part reads: the multiple-queues switch, the queue descriptions and the single queue's enabled-arenas list, each with its default. `QueueDescriptionsOf` and `QueueCheck` decide which of them is used. |
| MainConfigSettings.GameplayScoreOf | src/main/java/net/daboross/bukkitdev/skywars/config/SkyWarsConfiguration.java:171-198 | What the locale, gamerule, respawn and score part reads, each key with its default. |
| MainConfigSettings.EconomyCommandsOf | src/main/java/net/daboross/bukkitdev/skywars/config/SkyWarsConfiguration.java:200-212 | What the economy, spacing, whitelist and join-sign part reads, each key with its default. |
| MainConfigSettings.MessagesKitsTimersOf | src/main/java/net/daboross/bukkitdev/skywars/config/SkyWarsConfiguration.java:215-230 | What the message, kit and timer part reads, each key with its default. |
| MainConfigSettings.HooksOf | src/main/java/net/daboross/bukkitdev/skywars/config/SkyWarsConfiguration.java:233-244 | What the report and hook part reads: the hooks with get-or-set and their defaults; disable-report, disable-score-recovery and developer-options with a plain getBoolean. |
| MainConfigSettings.VersionSet | src/main/java/net/daboross/bukkitdev/skywars/config/SkyWarsConfiguration.java:129 | The version entry is overwritten with the current version and nothing else changes (`VersionSetFrame`). |
| MainConfigSettings.GeneralWrites | src/main/java/net/daboross/bukkitdev/skywars/config/SkyWarsConfiguration.java:131-138 | The general get-or-sets store the values read under their keys and change no other key (`GeneralWritesOnlyItsKeys`, `GeneralReadBack`). |
| MainConfigSettings.SaveWrites | src/main/java/net/daboross/bukkitdev/skywars/config/SkyWarsConfiguration.java:144-148 | The save part stores the translated prefix (setStringIfNot) and the three toggles read, and changes no other key (`SaveWritesOnlyItsKeys`, `SaveReadBack`). |
| MainConfigSettings.QueueWrites | src/main/java/net/daboross/bukkitdev/skywars/config/SkyWarsConfiguration.java:153-168 | The queue part stores the switch and the descriptions, and the enabled-arenas list only for a single queue. `QueueWritesByMode` states the two branches. |
| MainConfigSettings.QueueWritesByMode | src/main/java/net/daboross/bukkitdev/skywars/config/SkyWarsConfiguration.java:155-167 | The switch and the queue descriptions are stored in both branches. The enabled-arenas list is stored with the value read when a single queue is used; with several queues its entry is left as it was. |
| MainConfigSettings.GameplayScoreWritten | src/main/java/net/daboross/bukkitdev/skywars/config/SkyWarsConfiguration.java:171-198 | The score part stores each value read, the save interval adjusted to the SQL setting, and changes no other key (`GameplayScoreWritesOnlyItsKeys`, `GameplayScoreReadBack`). |
| MainConfigSettings.EconomyCommandWritten | src/main/java/net/daboross/bukkitdev/skywars/config/SkyWarsConfiguration.java:200-212 | The economy, spacing, whitelist and join-sign part stores each value read and changes no other key (`EconomyCommandWritesOnlyItsKeys`, `EconomyCommandReadBack`). |
| MainConfigSettings.MessageKitTimerWritten | src/main/java/net/daboross/bukkitdev/skywars/config/SkyWarsConfiguration.java:215-230 | The message, kit and timer part stores each value read and changes no other key (`MessageKitTimerWritesOnlyItsKeys`, `MessageKitTimerReadBack`). |
| MainConfigSettings.HookWrites | src/main/java/net/daboross/bukkitdev/skywars/config/SkyWarsConfiguration.java:237-241 | The hook get-or-sets store the values read; the three getBoolean switches are not written (`HookWritesOnlyItsKeys`, `HookReadBack`). |
| SettingsStore.Stored | src/main/java/net/daboross/bukkitdev/skywars/config/SkyWarsConfiguration.java:131 | A get-or-set returns the stored value when it has the default's kind, and otherwise the default. `GetSetRoundTrip` states its laws. |
| SettingsStore.PeekBool | src/main/java/net/daboross/bukkitdev/skywars/config/SkyWarsConfiguration.java:137 | A plain getBoolean returns the stored boolean, or the default when there is none, and writes nothing. `CanonicalKeepsUnwrittenKeys` states that its keys are saved as they were. |
| SettingsStore.GetSetRoundTrip | src/main/java/net/daboross/bukkitdev/skywars/config/SkyWarsConfiguration.java:125 | A get-or-set returns a value of the default's kind, and the default when the key is missing. The document holds that value afterwards, and a second get-or-set returns it again and changes nothing. |
| CommandRegex.CommandRegexSource | src/main/java/net/daboross/bukkitdev/skywars/config/SkyWarsConfiguration.java:266-277 | There is no pattern exactly for an empty command list. Otherwise the pattern starts with the case-insensitive anchored prefix and ends with the suffix that allows a space and arguments. |
| CommandRegex.QuoteReplacement | src/main/java/net/daboross/bukkitdev/skywars/config/SkyWarsConfiguration.java:270-272 | Matcher.quoteReplacement puts a backslash before every backslash and dollar sign and keeps every other character, so the result is never shorter than the input. `UnquoteQuoteReplacement` gives its inverse. |
| CommandRegex.CreateCommandRegex | src/main/java/net/daboross/bukkitdev/skywars/config/SkyWarsConfiguration.java:266-277 | There is no pattern exactly for an empty command list. Otherwise the builder loop yields the case-insensitive anchored prefix, the quoted commands in list order joined by the separator, and the suffix that allows a space and arguments. |
| CommandRegex.CommandRegexRoundTrip | src/main/java/net/daboross/bukkitdev/skywars/config/SkyWarsConfiguration.java:266-277 | When no command contains the separator, decoding the pattern source gives back the command list, in order. |
| CommandRegex.SeparatorInCommandIsAmbiguous | src/main/java/net/daboross/bukkitdev/skywars/config/SkyWarsConfiguration.java:270-272 | The separator is not quoted, so the one command "a\|b" gives the same pattern as the two commands "a" and "b". |
| CommandRegex.UnquoteQuoteReplacement | src/main/java/net/daboross/bukkitdev/skywars/config/SkyWarsConfiguration.java:270 | Matcher.quoteReplacement is undone by dropping each escaping backslash. |
| CommandRegex.QuoteReplacementLength | src/main/java/net/daboross/bukkitdev/skywars/config/SkyWarsConfiguration.java:272 | Quoting adds exactly one character per backslash or dollar sign. |
| CommandRegex.QuoteReplacementKeeps | src/main/java/net/daboross/bukkitdev/skywars/config/SkyWarsConfiguration.java:272 | A character other than the backslash occurs in the quoted string exactly when it occurs in the original. `QuoteReplacementLength` states the counts. |
| CommandRegex.AlternationSeparators | src/main/java/net/daboross/bukkitdev/skywars/config/SkyWarsConfiguration.java:270-273 | With no separator inside the commands, the alternation holds one separator fewer than there are commands. |
| CommandRegex.SplitAlternation | src/main/java/net/daboross/bukkitdev/skywars/config/SkyWarsConfiguration.java:270-273 | With no separator inside the commands, splitting the alternation at the separator gives the quoted commands. |
| Events.NewPlayerJoinQueueInfo | src/main/java/net/daboross/bukkitdev/skywars/events/events/PlayerJoinQueueInfo.java:28-45 | Construction fails exactly for a null player. Otherwise the three accessors return the player, queue-full flag and min-players flag given. |
| Events.PlayerJoinQueueInfoAccessorsDetermine | src/main/java/net/daboross/bukkitdev/skywars/events/events/PlayerJoinQueueInfo.java:28-45 | Two infos with equal accessors are equal, and constructing from an info's accessors rebuilds it. |
| Events.NewPlayerJoinSecondaryQueueInfo | src/main/java/net/daboross/bukkitdev/skywars/events/events/PlayerJoinSecondaryQueueInfo.java:27-39 | Construction fails exactly for a null player; a null queue name is accepted. Otherwise the accessors return the player and queue name given. |
| Events.PlayerJoinSecondaryQueueInfoAccessorsDetermine | src/main/java/net/daboross/bukkitdev/skywars/events/events/PlayerJoinSecondaryQueueInfo.java:27-39 | Two infos with equal accessors are equal, and constructing from an info's accessors rebuilds it. |

## Left out

- File and YAML I/O are not modelled:
  - the settings file is a `Document` parameter, `DataFolder.mainConfig`, as read;
  - the save is a returned document;
  - creating the arena folder, `plugin.saveResource` and `saveArena` become conditions on `DataFolder` or are dropped. `saveArena` only logs its failures.
- Logging, the debug statics (`SkyStatic.setDebug`, `ProtobufStatic.setDebug`) and the file headers are not modelled.
- `Pattern.compile` and regex matching belong to java.util.regex and are not part of this model. `CreateCommandRegex` yields the pattern's source string, and whether `Pattern.compile` accepts it is the parameter `compilesPattern` of `Collaborators`. A refused pattern fails load with `InvalidCommandPattern`, before the save.
- `ArenaOrder.getOrder`, `ConfigColorCode.translateCodes` and `SkyArenaConfigLoader.loadArena` are not part of this model. They are the function parameters in `Collaborators`, with `compilesPattern` for `Pattern.compile`.
- `SkyFileConfig` is not part of this model. Get-or-set is modelled as "the stored value when it has the default's kind, else store the default".
- getSetFixedArray's length rule is not part of this model: the join-sign lines are read as a string list.
- The string behind each key constant and most default values are not part of this model. Keys are one constructor per constant, and defaults are uninterpreted constants. The exceptions:
  - the current version is 2;
  - the two save-interval defaults are given the values 30 and 300. The source's remark that 31 and 301 are non-default values shows only that those two are not the defaults. The concrete pair is a placeholder: the proofs use only that the two defaults differ, and which one is the SQL default follows the source's swap at lines 194-197.
- Configuration.SkyWarsConfiguration.Init: the Java constructor runs load() itself (line 107). `Init` gives only the state before that call; `NewSkyWarsConfiguration` runs `Init` and then `Load`, and fails with load's error. The document saved by that first load is not returned by `NewSkyWarsConfiguration`; `Load` states it.
- Configuration.SkyWarsConfiguration.Load: Java `int` and `long` widths are not modelled; settings values are unbounded integers.
- Configuration.SkyWarsConfiguration.Load: after a failed load the model promises nothing about the settings fields. The source assigns some fields (debug, arena order, the save toggles, the score settings) before a later check or the pattern compilation throws, so the partial state after a failed load is not captured.
- Configuration.SkyWarsConfiguration.Load: each part reads from the file on disk, not from the document as the earlier parts left it. The `...ReadsLoadedFile` lemmas prove the two readings equal.
- Configuration.SkyWarsConfiguration.LoadArenas: HashMap iteration order is left open. The loop takes the queues in any order, and the ghost `order` records the one taken.
- The error message texts are not modelled; each exception is a `ConfigError` constructor with the value it names.
- The trivial settings getters and `toString` of every class are not modelled; only `getArenasForQueue` and `getQueueNames` are.
- The code rejects only an empty queue-descriptions map (line 158), so a named queue with an empty arena list loads. The model follows the code.
