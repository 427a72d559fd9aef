/**
 * SkyWarsConfiguration: load() reads the main settings file part by part, applies
 * defaults, validates, migrates, saves the resulting document and then loads every
 * arena of every queue. LoadCheck says, from the file as it was on disk, which check
 * load() fails; the class does the work step by step, in the source's order, and is
 * proved against LoadCheck and the settings functions of MainConfigSettings.
 */
module Configuration {
  import opened Wrappers
  import opened SettingsStore
  import opened MainConfigSettings
  import K = MainConfigKeys
  import D = MainConfigDefaults
  import CommandRegex

  /** An ArenaOrder constant, known by its name; the enum's members are not part of this model. */
  datatype ArenaOrder = ArenaOrder(name: string)

  /** A loaded arena: what SkyArenaConfigLoader made of the arena's file. */
  datatype SkyArenaConfig = SkyArenaConfig(arenaName: string, file: string, settings: map<string, Value>)

  /** What is found at a path. */
  datatype PathKind = Missing | Directory | NotADirectory

  /** The plugin's data folder, as load() finds it. */
  datatype DataFolder = DataFolder(
    path: string,              // plugin.getDataFolder()
    mainConfig: Document,      // main-config.yml as SkyFileConfig.load() reads it (empty when absent)
    arenaFolderKind: PathKind, // what exists at the arena folder's path
    arenaFiles: set<string>,   // the arenas whose <name>.yml exists in the arena folder
    bundledArenas: set<string> // the arenas the plugin bundles an arenas/<name>.yml resource for
  )

  /** The helpers load() calls whose code is not part of this model. */
  datatype Collaborators = Collaborators(
    arenaOrderOf: string -> Option<ArenaOrder>,             // ArenaOrder.getOrder; None for an unknown name
    translateCodes: string -> string,                       // ConfigColorCode.translateCodes
    loadArena: (string, string) -> Option<SkyArenaConfig>,  // SkyArenaConfigLoader.loadArena(file, name); None when it throws
    compilesPattern: string -> bool                         // whether Pattern.compile accepts a pattern source
  )

  /** The SkyConfigurationException (and IllegalStateException) cases of load() and loadArena(). */
  datatype ConfigError =
    | ArenaFolderNotADirectory
    | UnknownVersion(version: int)
    | InvalidArenaOrder(orderName: string)
    | InventorySaveRequired
    | NoQueueDescriptions
    | NoArenasEnabled
    | ArenaFileMissing(arena: string)
    | ArenaConfigInvalid(arena: string)
    | InvalidCommandPattern(pattern: string)   // the PatternSyntaxException of Pattern.compile
    | EnabledArenasNull

  /** The highest settings version load() accepts. */
  const MaxVersion: int := 2

  function ArenaFolderPath(dataFolder: string): string
  {
    dataFolder + "/arenas"
  }

  function ArenaFilePath(arenaFolder: string, name: string): string
  {
    arenaFolder + "/" + name + ".yml"
  }

  /** Queue names as map keys; the single implicit queue has the null (`None`) name. */
  function Named(queues: map<string, seq<string>>): (r: map<Option<string>, seq<string>>)
    ensures None !in r
    ensures forall q :: q in r <==> q.Some? && q.value in queues
    ensures forall n :: n in queues ==> r[Some(n)] == queues[n]
  {
    map n | n in queues :: Some(n) := queues[n]
  }

  /**
   * The queues load() builds: with several queues, one per queue description; with a
   * single queue, one null-named queue whose arenas are the enabled arenas.
   */
  function QueueDescriptionsOf(q: QueueSettings): (r: map<Option<string>, seq<string>>)
    ensures q.multipleQueues ==> None !in r && forall n :: Some(n) in r <==> n in q.descriptions
    ensures q.multipleQueues ==> forall n :: n in q.descriptions ==> r[Some(n)] == q.descriptions[n]
    ensures !q.multipleQueues ==> r.Keys == {None} && r[None] == q.enabledArenas
  {
    if q.multipleQueues then Named(q.descriptions) else map[None := q.enabledArenas]
  }

  /** The check of the queue settings: several queues need a description, a single queue an arena. */
  function QueueCheck(q: QueueSettings): (r: Option<ConfigError>)
    ensures r.None? <==> if q.multipleQueues then |q.descriptions| > 0 else |q.enabledArenas| > 0
    ensures r.Some? ==> r.value == if q.multipleQueues then NoQueueDescriptions else NoArenasEnabled
  {
    if q.multipleQueues then
      if |q.descriptions| <= 0 then Some(NoQueueDescriptions) else None
    else if |q.enabledArenas| == 0 then Some(NoArenasEnabled)
    else None
  }

  /** The first check of the settings file that `file` fails, in the order load() makes them; None when all pass. */
  function SettingsCheck(file: Document, arenaOrderOf: string -> Option<ArenaOrder>): Option<ConfigError>
  {
    var version := StoredInt(file, K.Version, D.Version);
    var general := GeneralOf(file);
    var save := SaveSettingsOf(file);
    if version > MaxVersion then Some(UnknownVersion(version))
    else if arenaOrderOf(general.arenaOrderName).None? then Some(InvalidArenaOrder(general.arenaOrderName))
    else if (save.pgh || save.experience) && !save.inventory then Some(InventorySaveRequired)
    else QueueCheck(QueueSettingsOf(file))
  }

  /**
   * Lines 210 and 266-277: the whitelist pattern is compiled when the command list is
   * not empty, and a source Pattern.compile refuses makes load() throw.
   */
  function CommandPatternCheck(commands: seq<string>, compilesPattern: string -> bool): (r: Option<ConfigError>)
    ensures r.Some? <==> |commands| > 0 && !compilesPattern(CommandRegex.CommandRegexSource(commands).value)
    ensures r.Some? ==> r.value == InvalidCommandPattern(CommandRegex.CommandRegexSource(commands).value)
  {
    match CommandRegex.CommandRegexSource(commands)
    case None => None
    case Some(source) => if compilesPattern(source) then None else Some(InvalidCommandPattern(source))
  }

  /** The checks of the settings file in the order load() makes them: those of lines 125-166, then the pattern. */
  function MainConfigCheck(file: Document, c: Collaborators): Option<ConfigError>
  {
    var checked := SettingsCheck(file, c.arenaOrderOf);
    if checked.Some? then checked
    else CommandPatternCheck(EconomyCommandsOf(file).whitelistCommands, c.compilesPattern)
  }

  /** The check of load() that fails first: an arena folder that is a file, then the settings checks. */
  function LoadCheck(arenaFolderKind: PathKind, file: Document, c: Collaborators): Option<ConfigError>
  {
    if arenaFolderKind == NotADirectory then Some(ArenaFolderNotADirectory) else MainConfigCheck(file, c)
  }

  /**
   * Lines 125-128: a version above 2 is refused (once the arena folder is usable), and
   * a file without a version counts as the current one.
   */
  lemma LoadCheckVersion(arenaFolderKind: PathKind, file: Document, c: Collaborators)
    requires arenaFolderKind != NotADirectory
    ensures StoredInt(file, K.Version, D.Version) > MaxVersion
            ==> LoadCheck(arenaFolderKind, file, c) == Some(UnknownVersion(StoredInt(file, K.Version, D.Version)))
    ensures K.Version !in file ==>
              forall v :: LoadCheck(arenaFolderKind, file, c) != Some(UnknownVersion(v))
  {
  }

  /**
   * Lines 146-151: the save-toggle check fails exactly when experience or
   * position-gamemode-health saving is on while inventory saving is off; because both
   * default to the inventory setting, a file that sets neither never fails it.
   */
  lemma InventorySaveCheck(arenaFolderKind: PathKind, file: Document, c: Collaborators)
    ensures LoadCheck(arenaFolderKind, file, c) == Some(InventorySaveRequired) ==>
              var s := SaveSettingsOf(file); (s.experience || s.pgh) && !s.inventory
    ensures arenaFolderKind != NotADirectory && StoredInt(file, K.Version, D.Version) <= MaxVersion
            && c.arenaOrderOf(GeneralOf(file).arenaOrderName).Some? ==>
              (LoadCheck(arenaFolderKind, file, c) == Some(InventorySaveRequired) <==>
               var s := SaveSettingsOf(file); (s.experience || s.pgh) && !s.inventory)
    ensures K.SaveExperience !in file && K.SavePositionGamemodeHealth !in file ==>
              LoadCheck(arenaFolderKind, file, c) != Some(InventorySaveRequired)
  {
  }

  /**
   * Loading the saved document again meets the same checks with the same outcome: the
   * version is then the current one, and the settings the checks read are saved as read.
   */
  lemma {:induction false} SavedDocumentReloads(arenaFolderKind: PathKind, file: Document, c: Collaborators)
    requires StoredInt(file, K.Version, D.Version) <= MaxVersion
    ensures LoadCheck(arenaFolderKind, CanonicalDocument(file, c.translateCodes), c)
         == LoadCheck(arenaFolderKind, file, c)
    ensures QueueDescriptionsOf(QueueSettingsOf(CanonicalDocument(file, c.translateCodes)))
         == QueueDescriptionsOf(QueueSettingsOf(file))
  {
    CanonicalVersionAndDeprecated(file, c.translateCodes);
    CanonicalGeneral(file, c.translateCodes);
    CanonicalSave(file, c.translateCodes);
    CanonicalQueues(file, c.translateCodes);
    CanonicalEconomyCommands(file, c.translateCodes);
  }

  /** What loadArena(name) yields when enabledArenas is not null. */
  function ArenaFor(name: string, arenaFolder: string, folder: DataFolder, c: Collaborators)
    : (r: Result<SkyArenaConfig, ConfigError>)
    ensures r.Failure? ==> r.error == ArenaFileMissing(name) || r.error == ArenaConfigInvalid(name)
    ensures r.Success? <==>
              && (name in folder.arenaFiles || name in folder.bundledArenas)
              && c.loadArena(ArenaFilePath(arenaFolder, name), name).Some?
    ensures r.Success? ==> c.loadArena(ArenaFilePath(arenaFolder, name), name) == Some(r.value)
  {
    if name !in folder.arenaFiles && name !in folder.bundledArenas then Failure(ArenaFileMissing(name))
    else match c.loadArena(ArenaFilePath(arenaFolder, name), name)
      case None => Failure(ArenaConfigInvalid(name))
      case Some(arena) => Success(arena)
  }

  /** Loading one queue's arenas in list order: all of them, or the error of the first that fails. */
  function QueueArenas(names: seq<string>, arenaFolder: string, folder: DataFolder, c: Collaborators)
    : (r: Result<seq<SkyArenaConfig>, ConfigError>)
    ensures r.Success? ==> |r.value| == |names|
  {
    if names == [] then Success([])
    else
      var last := |names| - 1;
      match QueueArenas(names[..last], arenaFolder, folder, c)
      case Failure(e) => Failure(e)
      case Success(arenas) =>
        match ArenaFor(names[last], arenaFolder, folder, c)
        case Failure(e) => Failure(e)
        case Success(arena) => Success(arenas + [arena])
  }

  /**
   * A queue loads exactly when each of its arenas does, and then holds them in name
   * order; otherwise its error is that of the first arena that fails.
   */
  lemma {:induction false} QueueArenasByName(names: seq<string>, arenaFolder: string, folder: DataFolder, c: Collaborators)
    ensures var r := QueueArenas(names, arenaFolder, folder, c);
            && (r.Success? <==> forall i :: 0 <= i < |names| ==> ArenaFor(names[i], arenaFolder, folder, c).Success?)
            && (r.Success? ==> forall i :: 0 <= i < |names| ==> r.value[i] == ArenaFor(names[i], arenaFolder, folder, c).value)
            && (r.Failure? ==> exists i :: 0 <= i < |names| && ArenaFor(names[i], arenaFolder, folder, c) == Failure(r.error)
                                           && forall j :: 0 <= j < i ==> ArenaFor(names[j], arenaFolder, folder, c).Success?)
    decreases |names|
  {
    if names != [] {
      var last := |names| - 1;
      var init := names[..last];
      QueueArenasByName(init, arenaFolder, folder, c);
      assert forall i :: 0 <= i < last ==> names[i] == init[i];
    }
  }

  /** The lists of `lists`, concatenated in the order `order` names them. */
  function Flatten<T>(order: seq<Option<string>>, lists: map<Option<string>, seq<T>>): seq<T>
    requires forall q :: q in order ==> q in lists
  {
    if order == [] then [] else Flatten(order[..|order| - 1], lists) + lists[order[|order| - 1]]
  }

  predicate Distinct<T(==)>(s: seq<T>)
  {
    forall i, j :: 0 <= i < j < |s| ==> s[i] != s[j]
  }

  /** The fields load() sets in lines 131-139; the arena order is the one its stored name resolves to. */
  datatype GeneralFields = GeneralFields(
    debug: bool,
    reportPluginStatistics: bool,
    skipUuidCheck: bool,
    arenaOrder: Option<ArenaOrder>)

  function GeneralFieldsOf(s: GeneralSettings, arenaOrderOf: string -> Option<ArenaOrder>): GeneralFields
  {
    GeneralFields(s.debug, s.reportStatistics, s.skipUuidCheck, arenaOrderOf(s.arenaOrderName))
  }

  /** The fields set in lines 144-148: the prefix with its colour codes translated, and the save toggles. */
  datatype SaveToggleFields = SaveToggleFields(
    messagePrefix: string,
    inventorySaveEnabled: bool,
    experienceSaveEnabled: bool,
    pghSaveEnabled: bool)

  function SaveToggleFieldsOf(s: SaveSettings, translateCodes: string -> string): SaveToggleFields
  {
    SaveToggleFields(translateCodes(s.storedPrefix), s.inventory, s.experience, s.pgh)
  }

  /** The fields set in lines 200-212; of the whitelisted commands only the pattern built from them is kept. */
  datatype EconomyCommandFields = EconomyCommandFields(
    economyEnabled: bool,
    economyKillReward: int,
    economyWinReward: int,
    economyRewardMessages: bool,
    arenaDistanceApart: int,
    arenaCopyingBlockSize: int,
    commandWhitelistEnabled: bool,
    commandWhitelistABlacklist: bool,
    commandWhitelistCommandRegex: Option<string>,
    joinSignLines: seq<string>)

  function EconomyCommandFieldsOf(s: EconomyCommandSettings): EconomyCommandFields
  {
    EconomyCommandFields(
      s.economyEnabled, s.killReward, s.winReward, s.rewardMessages, s.arenaDistanceApart, s.copyingBlockSize,
      s.whitelistEnabled, s.whitelistIsBlacklist, CommandRegex.CommandRegexSource(s.whitelistCommands), s.joinSignLines)
  }

  /** The fields set in lines 233-244: score recovery is on unless the stored switch disables it. */
  datatype ReportHookFields = ReportHookFields(
    disableReport: bool,
    recoverFromScoreErrors: bool,
    multiverseCoreHookEnabled: bool,
    worldeditHookEnabled: bool,
    multiinvWorkaroundPossible: bool,
    multiinvWorkaroundForced: bool,
    developerOptions: bool)

  function ReportHookFieldsOf(s: HookSettings): ReportHookFields
  {
    ReportHookFields(
      s.disableReport, !s.disableScoreRecovery, s.multiverseCore, s.worldedit,
      s.multiinvWorkaround, s.forceMultiinvWorkaround, s.developerOptions)
  }

  /** Line 234: score recovery is off exactly when disable-score-recovery holds true, or is absent and defaults to true. */
  lemma ScoreRecoveryUnlessDisabled(doc: Document)
    ensures ReportHookFieldsOf(HooksOf(doc)).recoverFromScoreErrors
            <==> !(if K.DisableScoreRecovery in doc && doc[K.DisableScoreRecovery].BoolValue?
                   then doc[K.DisableScoreRecovery].b
                   else D.DisableScoreRecovery)
  {
  }

  /**
   * The arenas of `queues` are loaded: load succeeded exactly when every arena of
   * every queue loads; a failure is the failure of some queue; on success each queue
   * maps to its arenas in name order, and enabledArenas holds all of them, one per
   * name, queue after queue in `order` (the map's iteration order, which the source
   * leaves open).
   */
  ghost predicate QueuesLoaded(outcome: Outcome<ConfigError>, queues: map<Option<string>, seq<string>>,
                               arenaFolder: string, folder: DataFolder, c: Collaborators, order: seq<Option<string>>,
                               arenasPerQueue: map<Option<string>, seq<SkyArenaConfig>>,
                               enabledArenas: Option<seq<SkyArenaConfig>>)
  {
    && (outcome.Pass? <==> forall q :: q in queues ==> QueueArenas(queues[q], arenaFolder, folder, c).Success?)
    && (outcome.Fail? ==>
          exists q :: q in queues && QueueArenas(queues[q], arenaFolder, folder, c) == Failure(outcome.error))
    && (outcome.Pass? ==>
          && arenasPerQueue.Keys == queues.Keys
          && (forall q :: q in queues ==> Success(arenasPerQueue[q]) == QueueArenas(queues[q], arenaFolder, folder, c))
          && Distinct(order)
          && (forall q :: q in order <==> q in queues)
          && enabledArenas == Some(Flatten(order, arenasPerQueue))
          && |enabledArenas.value| == |Flatten(order, queues)|)
  }

  /** One queue whose arenas do not all load makes the whole load fail with that queue's error. */
  lemma QueueFailureFailsLoad(queues: map<Option<string>, seq<string>>, key: Option<string>, arenaFolder: string,
                              folder: DataFolder, c: Collaborators, order: seq<Option<string>>,
                              arenasPerQueue: map<Option<string>, seq<SkyArenaConfig>>,
                              enabledArenas: Option<seq<SkyArenaConfig>>)
    requires key in queues && QueueArenas(queues[key], arenaFolder, folder, c).Failure?
    ensures QueuesLoaded(Fail(QueueArenas(queues[key], arenaFolder, folder, c).error), queues, arenaFolder, folder, c,
                         order, arenasPerQueue, enabledArenas)
  {
  }

  /** Once every queue has loaded, in `order`, the load has passed. */
  lemma AllQueuesLoaded(queues: map<Option<string>, seq<string>>, arenaFolder: string, folder: DataFolder,
                        c: Collaborators, order: seq<Option<string>>,
                        arenasPerQueue: map<Option<string>, seq<SkyArenaConfig>>)
    requires arenasPerQueue.Keys == queues.Keys
    requires forall q :: q in arenasPerQueue ==> Success(arenasPerQueue[q]) == QueueArenas(queues[q], arenaFolder, folder, c)
    requires Distinct(order)
    requires forall q :: q in order <==> q in arenasPerQueue
    ensures QueuesLoaded(Pass, queues, arenaFolder, folder, c, order, arenasPerQueue, Some(Flatten(order, arenasPerQueue)))
  {
    FlattenSameLength(order, arenasPerQueue, queues);
  }

  /**
   * The state of SkyWarsConfiguration. Its settings fields are grouped by the part of
   * load() that sets them; the locale, gamerules and score fields, and the message,
   * kit and timer fields, hold exactly the values read, so they use the settings records.
   */
  class SkyWarsConfiguration {
    var arenaFolder: Option<string>
    var enabledArenas: Option<seq<SkyArenaConfig>>
    var arenasPerQueue: map<Option<string>, seq<SkyArenaConfig>>
    var enableMultipleQueues: bool
    var general: GeneralFields
    var saveToggles: SaveToggleFields
    var gameplayScore: GameplayScoreSettings
    var economyCommands: EconomyCommandFields
    var messagesKitsTimers: MessageKitTimerSettings
    var reportsHooks: ReportHookFields

    /** The fields before the first load (lines 105-106): the reference fields are still null. */
    constructor Init()
      ensures arenaFolder.None? && enabledArenas.None? && arenasPerQueue == map[]
    {
      arenaFolder := None;
      enabledArenas := None;
      arenasPerQueue := map[];
    }

    /** The fields set by the checked parts of load(), lines 131-169, hold what `file` gives them. */
    ghost predicate CheckedSettingsLoadedFrom(file: Document, c: Collaborators)
      reads this`general, this`saveToggles, this`enableMultipleQueues
    {
      && general == GeneralFieldsOf(GeneralOf(file), c.arenaOrderOf)
      && saveToggles == SaveToggleFieldsOf(SaveSettingsOf(file), c.translateCodes)
      && enableMultipleQueues == QueueSettingsOf(file).multipleQueues
    }

    /** The fields set by the unchecked parts of load(), lines 171-244, hold what `file` gives them. */
    ghost predicate OtherSettingsLoadedFrom(file: Document, c: Collaborators)
      reads this`gameplayScore, this`economyCommands, this`messagesKitsTimers, this`reportsHooks
    {
      && gameplayScore == GameplayScoreOf(file)
      && economyCommands == EconomyCommandFieldsOf(EconomyCommandsOf(file))
      && messagesKitsTimers == MessagesKitsTimersOf(file)
      && reportsHooks == ReportHookFieldsOf(HooksOf(file))
    }

    /** Every field load() reads from the settings file holds what `file` gives it. */
    ghost predicate SettingsLoadedFrom(file: Document, c: Collaborators)
      reads this`general, this`saveToggles, this`enableMultipleQueues
      reads this`gameplayScore, this`economyCommands, this`messagesKitsTimers, this`reportsHooks
    {
      CheckedSettingsLoadedFrom(file, c) && OtherSettingsLoadedFrom(file, c)
    }

    /** The arenas of `queues` are loaded into this object's arenasPerQueue and enabledArenas. */
    ghost predicate ArenasLoaded(outcome: Outcome<ConfigError>, queues: map<Option<string>, seq<string>>,
                                 folder: DataFolder, c: Collaborators, order: seq<Option<string>>)
      reads this`arenaFolder, this`arenasPerQueue, this`enabledArenas
      requires arenaFolder.Some?
    {
      QueuesLoaded(outcome, queues, arenaFolder.value, folder, c, order, arenasPerQueue, enabledArenas)
    }

    /** load(): read, validate and save the main settings, then load every arena of every queue. */
    method Load(folder: DataFolder, c: Collaborators)
      returns (outcome: Outcome<ConfigError>, saved: Option<Document>, ghost order: seq<Option<string>>)
      modifies this
      ensures arenaFolder == Some(if old(arenaFolder).Some? then old(arenaFolder).value else ArenaFolderPath(folder.path))
      ensures LoadCheck(folder.arenaFolderKind, folder.mainConfig, c).Some? ==>
                outcome == Fail(LoadCheck(folder.arenaFolderKind, folder.mainConfig, c).value) && saved == None
      ensures LoadCheck(folder.arenaFolderKind, folder.mainConfig, c).None? ==>
                && saved == Some(CanonicalDocument(folder.mainConfig, c.translateCodes))
                && SettingsLoadedFrom(folder.mainConfig, c)
                && ArenasLoaded(outcome, QueueDescriptionsOf(QueueSettingsOf(folder.mainConfig)), folder, c, order)
    {
      order := [];
      if arenaFolder.None? {
        arenaFolder := Some(ArenaFolderPath(folder.path));
      }
      // A missing arena folder is created; creating directories is I/O and not modelled.
      if folder.arenaFolderKind == NotADirectory {
        return Fail(ArenaFolderNotADirectory), None, [];
      }
      var failure, queueDescriptions;
      failure, queueDescriptions, saved := LoadMainConfig(folder.mainConfig, c);
      if failure.Some? {
        return Fail(failure.value), None, [];
      }
      outcome, order := LoadArenas(queueDescriptions, folder, c);
    }

    /**
     * Lines 124-250: the settings file, from the version check to the save. On a failed
     * check nothing is saved; otherwise every setting holds what the file gives it and
     * the saved document is the file with defaults filled in and deprecated keys removed.
     * Each part reads its settings from the document as the earlier parts left it, which
     * holds the file's values for them (MainConfigSettings proves this part by part).
     */
    method LoadMainConfig(file: Document, c: Collaborators)
      returns (failure: Option<ConfigError>, queueDescriptions: map<Option<string>, seq<string>>, saved: Option<Document>)
      modifies this`general, this`saveToggles, this`enableMultipleQueues, this`enabledArenas
      modifies this`gameplayScore, this`economyCommands, this`messagesKitsTimers, this`reportsHooks
      ensures failure == MainConfigCheck(file, c)
      ensures failure.Some? ==> saved == None
      ensures failure.None? ==>
                && SettingsLoadedFrom(file, c)
                && queueDescriptions == QueueDescriptionsOf(QueueSettingsOf(file))
                && enabledArenas == Some([])
                && saved == Some(CanonicalDocument(file, c.translateCodes))
    {
      failure, queueDescriptions := LoadCheckedSettings(file, c);
      if failure.Some? {
        return failure, map[], None;
      }
      failure := LoadOtherSettings(file, c);
      if failure.Some? {
        return failure, map[], None;
      }
      saved := Some(CanonicalDocument(file, c.translateCodes));
    }

    /** Lines 124-169: the version, general, save and queue parts, each with its check. */
    method LoadCheckedSettings(file: Document, c: Collaborators)
      returns (failure: Option<ConfigError>, queueDescriptions: map<Option<string>, seq<string>>)
      modifies this`general, this`saveToggles, this`enableMultipleQueues, this`enabledArenas
      ensures failure == SettingsCheck(file, c.arenaOrderOf)
      ensures failure.None? ==>
                && CheckedSettingsLoadedFrom(file, c)
                && queueDescriptions == QueueDescriptionsOf(QueueSettingsOf(file))
                && enabledArenas == Some([])
    {
      var version := StoredInt(file, K.Version, D.Version);
      if version > MaxVersion {
        return Some(UnknownVersion(version)), map[];
      }
      var generalSettings := GeneralOf(file);
      var generalFields := GeneralFieldsOf(generalSettings, c.arenaOrderOf);
      if generalFields.arenaOrder.None? {
        return Some(InvalidArenaOrder(generalSettings.arenaOrderName)), map[];
      }
      var toggles := SaveToggleFieldsOf(SaveSettingsOf(file), c.translateCodes);
      if (toggles.pghSaveEnabled || toggles.experienceSaveEnabled) && !toggles.inventorySaveEnabled {
        return Some(InventorySaveRequired), map[];
      }
      var queues := QueueSettingsOf(file);
      failure := QueueCheck(queues);
      if failure.Some? {
        return failure, map[];
      }
      general, saveToggles, enableMultipleQueues := generalFields, toggles, queues.multipleQueues;
      queueDescriptions := QueueDescriptionsOf(queues);
      enabledArenas := Some([]);
    }

    /**
     * Lines 171-244: the parts of the settings file after the queue check. Their only
     * failure is a whitelist pattern that Pattern.compile refuses (line 275).
     */
    method LoadOtherSettings(file: Document, c: Collaborators) returns (failure: Option<ConfigError>)
      modifies this`gameplayScore, this`economyCommands, this`messagesKitsTimers, this`reportsHooks
      ensures failure == CommandPatternCheck(EconomyCommandsOf(file).whitelistCommands, c.compilesPattern)
      ensures failure.None? ==> OtherSettingsLoadedFrom(file, c)
    {
      gameplayScore := GameplayScoreOf(file);
      var economy := EconomyCommandsOf(file);
      var commandWhitelistCommandRegex := CommandRegex.CreateCommandRegex(economy.whitelistCommands);
      if commandWhitelistCommandRegex.Some? && !c.compilesPattern(commandWhitelistCommandRegex.value) {
        return Some(InvalidCommandPattern(commandWhitelistCommandRegex.value));
      }
      failure := None;
      economyCommands := EconomyCommandFieldsOf(economy).(commandWhitelistCommandRegex := commandWhitelistCommandRegex);
      messagesKitsTimers := MessagesKitsTimersOf(file);
      reportsHooks := ReportHookFieldsOf(HooksOf(file));
    }

    /** reload(): load() once more; the arena folder keeps the path it was first given. */
    method Reload(folder: DataFolder, c: Collaborators)
      returns (outcome: Outcome<ConfigError>, saved: Option<Document>, ghost order: seq<Option<string>>)
      modifies this
      ensures old(arenaFolder).Some? ==> arenaFolder == old(arenaFolder)
      ensures LoadCheck(folder.arenaFolderKind, folder.mainConfig, c).Some? ==>
                outcome == Fail(LoadCheck(folder.arenaFolderKind, folder.mainConfig, c).value) && saved == None
      ensures LoadCheck(folder.arenaFolderKind, folder.mainConfig, c).None? ==>
                && saved == Some(CanonicalDocument(folder.mainConfig, c.translateCodes))
                && SettingsLoadedFrom(folder.mainConfig, c)
                && arenaFolder.Some?
                && ArenasLoaded(outcome, QueueDescriptionsOf(QueueSettingsOf(folder.mainConfig)), folder, c, order)
    {
      outcome, saved, order := Load(folder, c);
    }

    /** Lines 255-263: for every queue, load its arenas in order and record them under the queue's name. */
    method LoadArenas(queues: map<Option<string>, seq<string>>, folder: DataFolder, c: Collaborators)
      returns (outcome: Outcome<ConfigError>, ghost order: seq<Option<string>>)
      requires arenaFolder.Some? && enabledArenas == Some([])
      modifies this`arenasPerQueue, this`enabledArenas
      ensures ArenasLoaded(outcome, queues, folder, c, order)
      ensures unchanged(this`general, this`saveToggles, this`enableMultipleQueues, this`gameplayScore,
                        this`economyCommands, this`messagesKitsTimers, this`reportsHooks)
    {
      arenasPerQueue := map[];
      order := [];
      var remaining := queues.Keys;
      while remaining != {}
        invariant remaining <= queues.Keys
        invariant arenasPerQueue.Keys == queues.Keys - remaining
        invariant forall q :: q in arenasPerQueue ==>
                    Success(arenasPerQueue[q]) == QueueArenas(queues[q], arenaFolder.value, folder, c)
        invariant Distinct(order)
        invariant forall q :: q in order <==> q in arenasPerQueue
        invariant enabledArenas == Some(Flatten(order, arenasPerQueue))
        decreases remaining
      {
        var key :| key in remaining;
        var result := LoadQueueArenas(queues[key], folder, c);
        if result.Failure? {
          QueueFailureFailsLoad(queues, key, arenaFolder.value, folder, c, order, arenasPerQueue, enabledArenas);
          return Fail(result.error), order;
        }
        var arenas := result.value;
        FlattenExtend(order, arenasPerQueue, key, arenas);
        arenasPerQueue := arenasPerQueue[key := arenas];
        order := order + [key];
        remaining := remaining - {key};
      }
      AllQueuesLoaded(queues, arenaFolder.value, folder, c, order, arenasPerQueue);
      outcome := Pass;
    }

    /**
     * Lines 257-260: the arenas of one queue, loaded in name order; each one loaded is
     * appended to enabledArenas, and the first that fails ends the load.
     */
    method LoadQueueArenas(names: seq<string>, folder: DataFolder, c: Collaborators)
      returns (result: Result<seq<SkyArenaConfig>, ConfigError>)
      requires arenaFolder.Some? && enabledArenas.Some?
      modifies this`enabledArenas
      ensures result == QueueArenas(names, arenaFolder.value, folder, c)
      ensures result.Success? ==> enabledArenas == Some(old(enabledArenas).value + result.value)
    {
      var arenas: seq<SkyArenaConfig> := [];
      ghost var loaded := enabledArenas.value;
      assert loaded + arenas == loaded;
      for i := 0 to |names|
        invariant QueueArenas(names[..i], arenaFolder.value, folder, c) == Success(arenas)
        invariant enabledArenas == Some(loaded + arenas)
      {
        var arena := LoadArena(names[i], folder, c);
        if arena.Failure? {
          QueueArenasFirstFailure(names, i, arenaFolder.value, folder, c);
          return Failure(arena.error);
        }
        assert names[..i + 1][..i] == names[..i];
        assert loaded + arenas + [arena.value] == loaded + (arenas + [arena.value]);
        arenas := arenas + [arena.value];
      }
      assert names[..|names|] == names;
      result := Success(arenas);
    }

    /** loadArena(name): find or extract the arena's file, load it, and append it to enabledArenas. */
    method LoadArena(name: string, folder: DataFolder, c: Collaborators) returns (result: Result<SkyArenaConfig, ConfigError>)
      requires arenaFolder.Some?
      modifies this`enabledArenas
      ensures old(enabledArenas).None? ==> result == Failure(EnabledArenasNull)
      ensures old(enabledArenas).Some? ==> result == ArenaFor(name, arenaFolder.value, folder, c)
      ensures enabledArenas == if result.Success? then Some(old(enabledArenas).value + [result.value]) else old(enabledArenas)
    {
      if enabledArenas.None? {
        return Failure(EnabledArenasNull);
      }
      var file := ArenaFilePath(arenaFolder.value, name);
      if name !in folder.arenaFiles {
        // plugin.saveResource extracts the bundled file, or throws when there is none.
        if name !in folder.bundledArenas {
          return Failure(ArenaFileMissing(name));
        }
      }
      var loaded := c.loadArena(file, name);
      if loaded.None? {
        return Failure(ArenaConfigInvalid(name));
      }
      enabledArenas := Some(enabledArenas.value + [loaded.value]);
      // saveArena writes the arena back; that is I/O, and its failures are only logged.
      result := Success(loaded.value);
    }

    /** getArenasForQueue: the queue's arenas, or null (`None`) for a name that is not a queue. */
    function GetArenasForQueue(queueName: Option<string>): (r: Option<seq<SkyArenaConfig>>)
      reads this
      ensures r.None? <==> queueName !in arenasPerQueue
      ensures r.Some? ==> r.value == arenasPerQueue[queueName]
    {
      if queueName in arenasPerQueue then Some(arenasPerQueue[queueName]) else None
    }

    /** getQueueNames: exactly the names getArenasForQueue answers for. */
    function GetQueueNames(): (names: set<Option<string>>)
      reads this
      ensures forall q :: q in names <==> GetArenasForQueue(q).Some?
    {
      arenasPerQueue.Keys
    }
  }

  /**
   * `new SkyWarsConfiguration(plugin)` (lines 105-108): the constructor runs load() on
   * the new object, so an object exists only when that load succeeds; otherwise the
   * constructor throws load's error. The arena folder is then the default one.
   */
  method NewSkyWarsConfiguration(folder: DataFolder, c: Collaborators)
    returns (r: Result<SkyWarsConfiguration, ConfigError>, ghost order: seq<Option<string>>)
    ensures LoadCheck(folder.arenaFolderKind, folder.mainConfig, c).Some? ==>
              r == Failure(LoadCheck(folder.arenaFolderKind, folder.mainConfig, c).value)
    ensures r.Success? ==>
              && fresh(r.value)
              && r.value.arenaFolder == Some(ArenaFolderPath(folder.path))
              && r.value.SettingsLoadedFrom(folder.mainConfig, c)
              && r.value.ArenasLoaded(Pass, QueueDescriptionsOf(QueueSettingsOf(folder.mainConfig)), folder, c, order)
    ensures LoadCheck(folder.arenaFolderKind, folder.mainConfig, c).None? ==>
              QueuesLoaded(if r.Success? then Pass else Fail(r.error), QueueDescriptionsOf(QueueSettingsOf(folder.mainConfig)),
                           ArenaFolderPath(folder.path), folder, c, order,
                           if r.Success? then r.value.arenasPerQueue else map[],
                           if r.Success? then r.value.enabledArenas else None)
  {
    var config := new SkyWarsConfiguration.Init();
    var outcome, saved;
    outcome, saved, order := config.Load(folder, c);
    if outcome.Fail? {
      return Failure(outcome.error), order;
    }
    r := Success(config);
  }

  /** When the first i arenas load and arena i does not, the queue fails with arena i's error. */
  lemma {:induction false} QueueArenasFirstFailure(names: seq<string>, i: nat, arenaFolder: string, folder: DataFolder,
                                                   c: Collaborators)
    requires i < |names|
    requires QueueArenas(names[..i], arenaFolder, folder, c).Success?
    requires ArenaFor(names[i], arenaFolder, folder, c).Failure?
    ensures QueueArenas(names, arenaFolder, folder, c) == Failure(ArenaFor(names[i], arenaFolder, folder, c).error)
    decreases |names|
  {
    var last := |names| - 1;
    if i < last {
      assert names[..last][..i] == names[..i];
      QueueArenasFirstFailure(names[..last], i, arenaFolder, folder, c);
    } else {
      assert names[..last] == names[..i];
    }
  }

  /** Adding a new queue at the end of the order appends its list and leaves the others as they were. */
  lemma {:induction false} FlattenExtend<T>(order: seq<Option<string>>, lists: map<Option<string>, seq<T>>,
                                            key: Option<string>, l: seq<T>)
    requires forall q :: q in order ==> q in lists
    requires key !in order
    ensures Flatten(order + [key], lists[key := l]) == Flatten(order, lists) + l
    ensures Flatten(order, lists[key := l]) == Flatten(order, lists)
    decreases |order|
  {
    assert (order + [key])[..|order|] == order;
    if order != [] {
      FlattenExtend(order[..|order| - 1], lists, key, l);
    }
  }

  /** Lists of the same lengths, queue by queue, flatten to sequences of the same length. */
  lemma {:induction false} FlattenSameLength<S, T>(order: seq<Option<string>>, a: map<Option<string>, seq<S>>,
                                                   b: map<Option<string>, seq<T>>)
    requires forall q :: q in order ==> q in a && q in b && |a[q]| == |b[q]|
    ensures |Flatten(order, a)| == |Flatten(order, b)|
    decreases |order|
  {
    if order != [] {
      FlattenSameLength(order[..|order| - 1], a, b);
    }
  }
}
