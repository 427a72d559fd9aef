/**
 * The settings load() reads from main-config.yml, part by part, and what it writes
 * back. Each part of load() reads a handful of keys with get-or-set; the record of a
 * part is what those reads return from a document, and the part's write function is
 * the document after its get-or-sets (and overwrites). Starting from the file as
 * loaded, the After functions give the document as each part finds it, and
 * CanonicalDocument the document load() saves.
 */
module MainConfigSettings {
  import opened SettingsStore
  import K = MainConfigKeys
  import D = MainConfigDefaults

  /** The save interval load() writes back: the default of the other mode when the SQL setting changed. */
  function SqlAdjustedInterval(interval: int, useSql: bool): (r: int)
    ensures r != interval ==>
              || (interval == D.ScoreSaveInterval && useSql && r == D.ScoreSaveIntervalWithSql)
              || (interval == D.ScoreSaveIntervalWithSql && !useSql && r == D.ScoreSaveInterval)
    ensures useSql && interval == D.ScoreSaveInterval ==> r == D.ScoreSaveIntervalWithSql
    ensures !useSql && interval == D.ScoreSaveIntervalWithSql ==> r == D.ScoreSaveInterval
  {
    if interval == D.ScoreSaveInterval && useSql then D.ScoreSaveIntervalWithSql
    else if interval == D.ScoreSaveIntervalWithSql && !useSql then D.ScoreSaveInterval
    else interval
  }

  /** Adjusting twice for the same SQL setting changes nothing more. */
  lemma SqlAdjustedIntervalIdempotent(interval: int, useSql: bool)
    ensures SqlAdjustedInterval(SqlAdjustedInterval(interval, useSql), useSql) == SqlAdjustedInterval(interval, useSql)
  {
  }

  /** Lines 131-139: what load() reads first. */
  datatype GeneralSettings = GeneralSettings(
    debug: bool,
    reportStatistics: bool,
    skipUuidCheck: bool,     // read with getBoolean: no default is written back
    arenaOrderName: string)

  function GeneralOf(doc: Document): GeneralSettings
  {
    GeneralSettings(
      StoredBool(doc, K.Debug, D.Debug),
      StoredBool(doc, K.ReportStatistics, D.ReportStatistics),
      PeekBool(doc, K.SkipUuidCheck, D.SkipUuidCheck),
      StoredString(doc, K.ArenaOrder, D.ArenaOrder))
  }

  /** Lines 144-148: the message prefix as stored, and the three save toggles. */
  datatype SaveSettings = SaveSettings(storedPrefix: string, inventory: bool, experience: bool, pgh: bool)

  /** The experience and position-gamemode-health toggles default to the inventory toggle. */
  function SaveSettingsOf(doc: Document): SaveSettings
  {
    var inventory := StoredBool(doc, K.SaveInventory, D.SaveInventory);
    SaveSettings(
      StoredString(doc, K.MessagePrefix, D.MessagePrefix),
      inventory,
      StoredBool(doc, K.SaveExperience, inventory),
      StoredBool(doc, K.SavePositionGamemodeHealth, inventory))
  }

  /**
   * Lines 146-147: a stored boolean is taken as it is, and an experience or
   * position-gamemode-health toggle with none takes the inventory toggle.
   */
  lemma SaveTogglesDefaultToInventory(doc: Document)
    ensures var s := SaveSettingsOf(doc);
            && s.experience
               == (if K.SaveExperience in doc && doc[K.SaveExperience].BoolValue? then doc[K.SaveExperience].b
                   else s.inventory)
            && s.pgh
               == (if K.SavePositionGamemodeHealth in doc && doc[K.SavePositionGamemodeHealth].BoolValue?
                   then doc[K.SavePositionGamemodeHealth].b
                   else s.inventory)
  {
  }

  /** Lines 153-167: whether several queues are used, the queue descriptions and the single queue's arenas. */
  datatype QueueSettings = QueueSettings(
    multipleQueues: bool,
    descriptions: map<string, seq<string>>,
    enabledArenas: seq<string>)

  function QueueSettingsOf(doc: Document): QueueSettings
  {
    QueueSettings(
      StoredBool(doc, K.EnableMultipleQueues, D.EnableMultipleQueues),
      StoredStringListMap(doc, K.QueueDescriptions, D.QueueDescriptions),
      StoredStrings(doc, K.EnabledArenas, D.EnabledArenas))
  }

  /** Lines 171-190: locale, gamerules, respawning and the score settings. */
  datatype GameplayScoreSettings = GameplayScoreSettings(
    locale: string,
    arenaGamerules: map<string, string>,
    respawnImmediately: bool,
    scoreEnabled: bool,
    winDiff: int,
    deathDiff: int,
    killDiff: int,
    saveInterval: int,
    useSql: bool,
    sqlHost: string,
    sqlPort: int,
    sqlDatabase: string,
    sqlUsername: string,
    sqlPassword: string,
    rankUpdateInterval: int)

  function GameplayScoreOf(doc: Document): GameplayScoreSettings
  {
    GameplayScoreSettings(
      StoredString(doc, K.Locale, D.Locale),
      StoredStringMap(doc, K.ArenaGamerules, D.ArenaGamerules),
      StoredBool(doc, K.RespawnPlayersImmediately, D.RespawnPlayersImmediately),
      StoredBool(doc, K.ScoreEnable, D.ScoreEnable),
      StoredInt(doc, K.ScoreWinDiff, D.ScoreWinDiff),
      StoredInt(doc, K.ScoreDeathDiff, D.ScoreDeathDiff),
      StoredInt(doc, K.ScoreKillDiff, D.ScoreKillDiff),
      StoredInt(doc, K.ScoreSaveInterval, D.ScoreSaveInterval),
      StoredBool(doc, K.ScoreUseSql, D.ScoreUseSql),
      StoredString(doc, K.ScoreSqlHost, D.ScoreSqlHost),
      StoredInt(doc, K.ScoreSqlPort, D.ScoreSqlPort),
      StoredString(doc, K.ScoreSqlDatabase, D.ScoreSqlDatabase),
      StoredString(doc, K.ScoreSqlUsername, D.ScoreSqlUsername),
      StoredString(doc, K.ScoreSqlPassword, D.ScoreSqlPassword),
      StoredInt(doc, K.ScoreSqlUpdateIndividualsRankInterval, D.ScoreSqlUpdateIndividualsRankInterval))
  }

  /** Lines 200-212: economy, arena spacing, the command whitelist and the join-sign lines. */
  datatype EconomyCommandSettings = EconomyCommandSettings(
    economyEnabled: bool,
    killReward: int,
    winReward: int,
    rewardMessages: bool,
    arenaDistanceApart: int,
    copyingBlockSize: int,
    whitelistEnabled: bool,
    whitelistIsBlacklist: bool,
    whitelistCommands: seq<string>,
    joinSignLines: seq<string>)

  function EconomyCommandsOf(doc: Document): EconomyCommandSettings
  {
    EconomyCommandSettings(
      StoredBool(doc, K.EconomyEnable, D.EconomyEnable),
      StoredInt(doc, K.EconomyKillReward, D.EconomyKillReward),
      StoredInt(doc, K.EconomyWinReward, D.EconomyWinReward),
      StoredBool(doc, K.EconomyMessage, D.EconomyMessage),
      StoredInt(doc, K.ArenaDistanceApart, D.ArenaDistanceApart),
      StoredInt(doc, K.ArenaCopyingBlockSize, D.ArenaCopyingBlockSize),
      StoredBool(doc, K.CommandWhitelistEnabled, D.CommandWhitelistEnabled),
      StoredBool(doc, K.CommandWhitelistIsBlacklist, D.CommandWhitelistIsBlacklist),
      StoredStrings(doc, K.CommandWhitelistCommands, D.CommandWhitelistCommands),
      StoredStrings(doc, K.JoinSignLines, D.JoinSignLines))
  }

  /** Lines 215-230: per-arena messages, the kit GUI and the start timer. */
  datatype MessageKitTimerSettings = MessageKitTimerSettings(
    limitStartMessages: bool,
    limitDeathMessages: bool,
    limitEndMessages: bool,
    limitStartTimerMessages: bool,
    showUnavailableKits: bool,
    replaceKitCommand: bool,
    showKitGuiOnJoin: bool,
    tillStartAfterMaxPlayers: int,
    tillStartAfterMinPlayers: int,
    beforeStartToCopyArena: int,
    playerFreezeTime: int,
    startTimerMessageTimes: seq<int>)

  function MessagesKitsTimersOf(doc: Document): MessageKitTimerSettings
  {
    MessageKitTimerSettings(
      StoredBool(doc, K.LimitStartMessagesToArena, D.LimitStartMessagesToArena),
      StoredBool(doc, K.LimitDeathMessagesToArena, D.LimitDeathMessagesToArena),
      StoredBool(doc, K.LimitEndMessagesToArena, D.LimitEndMessagesToArena),
      StoredBool(doc, K.LimitStartTimerMessagesToArena, D.LimitStartTimerMessagesToArena),
      StoredBool(doc, K.KitGuiShowUnavailableKits, D.KitGuiShowUnavailableKits),
      StoredBool(doc, K.KitGuiReplaceKitCommand, D.KitGuiReplaceKitCommand),
      StoredBool(doc, K.KitGuiAutoShowOnJoin, D.KitGuiAutoShowOnJoin),
      StoredInt(doc, K.TimeTillStartAfterMaxPlayers, D.TimeTillStartAfterMaxPlayers),
      StoredInt(doc, K.TimeTillStartAfterMinPlayers, D.TimeTillStartAfterMinPlayers),
      StoredInt(doc, K.TimeBeforeGameStartsToCopyArena, D.TimeBeforeGameStartsToCopyArena),
      StoredInt(doc, K.InGamePlayerFreezeTime, D.InGamePlayerFreezeTime),
      StoredInts(doc, K.StartTimerMessageTimes, D.StartTimerMessageTimes))
  }

  /** Lines 233-244: the report switches, the plugin hooks and the developer options. */
  datatype HookSettings = HookSettings(
    disableReport: bool,          // getBoolean: no default written back
    disableScoreRecovery: bool,   // getBoolean: no default written back
    multiverseCore: bool,
    worldedit: bool,
    multiinvWorkaround: bool,
    forceMultiinvWorkaround: bool,
    developerOptions: bool)       // getBoolean: no default written back

  function HooksOf(doc: Document): HookSettings
  {
    HookSettings(
      PeekBool(doc, K.DisableReport, D.DisableReport),
      PeekBool(doc, K.DisableScoreRecovery, D.DisableScoreRecovery),
      StoredBool(doc, K.HooksMultiverseCore, D.HooksMultiverseCore),
      StoredBool(doc, K.HooksWorldedit, D.HooksWorldedit),
      StoredBool(doc, K.HooksMultiinvWorkaround, D.HooksMultiinvWorkaroundWhenFound),
      StoredBool(doc, K.HooksForceMultiinvWorkaround, D.HooksForceMultiinvWorkaround),
      PeekBool(doc, K.DeveloperOptions, D.DeveloperOptions))
  }

  /*
   * What each part of load() leaves in the document it finds: every get-or-set key
   * holds the value read (the stored one, or the default when the key held none of
   * the right kind); the keys read with getBoolean are left alone.
   */

  function GeneralWrites(doc: Document): Document
  {
    var s := GeneralOf(doc);
    doc[K.Debug := BoolValue(s.debug)]
       [K.ReportStatistics := BoolValue(s.reportStatistics)]
       [K.ArenaOrder := StringValue(s.arenaOrderName)]
  }

  /** The stored prefix is replaced by its colour-translated form (setStringIfNot). */
  function SaveWrites(doc: Document, translateCodes: string -> string): Document
  {
    var s := SaveSettingsOf(doc);
    doc[K.MessagePrefix := StringValue(translateCodes(s.storedPrefix))]
       [K.SaveInventory := BoolValue(s.inventory)]
       [K.SaveExperience := BoolValue(s.experience)]
       [K.SavePositionGamemodeHealth := BoolValue(s.pgh)]
  }

  /** The enabled-arenas list is read only for a single queue; the queue descriptions are filled in either way. */
  function QueueWrites(doc: Document): Document
  {
    var s := QueueSettingsOf(doc);
    var d := doc[K.EnableMultipleQueues := BoolValue(s.multipleQueues)];
    var d' := if s.multipleQueues then d else d[K.EnabledArenas := StringListValue(s.enabledArenas)];
    d'[K.QueueDescriptions := StringListMapValue(s.descriptions)]
  }

  /**
   * Lines 155-167: the queue descriptions are stored in both branches; the
   * enabled-arenas list is stored only for a single queue, and otherwise left as it was.
   */
  lemma QueueWritesByMode(doc: Document)
    ensures var s := QueueSettingsOf(doc);
            var w := QueueWrites(doc);
            && K.EnableMultipleQueues in w && w[K.EnableMultipleQueues] == BoolValue(s.multipleQueues)
            && K.QueueDescriptions in w && w[K.QueueDescriptions] == StringListMapValue(s.descriptions)
            && (s.multipleQueues ==> SameEntry(w, doc, K.EnabledArenas))
            && (!s.multipleQueues ==> K.EnabledArenas in w && w[K.EnabledArenas] == StringListValue(s.enabledArenas))
  {
  }

  /** The save interval is stored adjusted to the SQL setting (lines 192-198). */
  function GameplayScoreWrites(doc: Document): Document
  {
    GameplayScoreWritten(doc, GameplayScoreOf(doc))
  }

  /** The document after the get-or-sets of the part have stored the values `s`. */
  function GameplayScoreWritten(doc: Document, s: GameplayScoreSettings): Document
  {
    doc[K.Locale := StringValue(s.locale)]
       [K.ArenaGamerules := StringMapValue(s.arenaGamerules)]
       [K.RespawnPlayersImmediately := BoolValue(s.respawnImmediately)]
       [K.ScoreEnable := BoolValue(s.scoreEnabled)]
       [K.ScoreWinDiff := IntValue(s.winDiff)]
       [K.ScoreDeathDiff := IntValue(s.deathDiff)]
       [K.ScoreKillDiff := IntValue(s.killDiff)]
       [K.ScoreSaveInterval := IntValue(SqlAdjustedInterval(s.saveInterval, s.useSql))]
       [K.ScoreUseSql := BoolValue(s.useSql)]
       [K.ScoreSqlHost := StringValue(s.sqlHost)]
       [K.ScoreSqlPort := IntValue(s.sqlPort)]
       [K.ScoreSqlDatabase := StringValue(s.sqlDatabase)]
       [K.ScoreSqlUsername := StringValue(s.sqlUsername)]
       [K.ScoreSqlPassword := StringValue(s.sqlPassword)]
       [K.ScoreSqlUpdateIndividualsRankInterval := IntValue(s.rankUpdateInterval)]
  }

  function EconomyCommandWrites(doc: Document): Document
  {
    EconomyCommandWritten(doc, EconomyCommandsOf(doc))
  }

  /** The document after the get-or-sets of the part have stored the values `s`. */
  function EconomyCommandWritten(doc: Document, s: EconomyCommandSettings): Document
  {
    doc[K.EconomyEnable := BoolValue(s.economyEnabled)]
       [K.EconomyKillReward := IntValue(s.killReward)]
       [K.EconomyWinReward := IntValue(s.winReward)]
       [K.EconomyMessage := BoolValue(s.rewardMessages)]
       [K.ArenaDistanceApart := IntValue(s.arenaDistanceApart)]
       [K.ArenaCopyingBlockSize := IntValue(s.copyingBlockSize)]
       [K.CommandWhitelistEnabled := BoolValue(s.whitelistEnabled)]
       [K.CommandWhitelistIsBlacklist := BoolValue(s.whitelistIsBlacklist)]
       [K.CommandWhitelistCommands := StringListValue(s.whitelistCommands)]
       [K.JoinSignLines := StringListValue(s.joinSignLines)]
  }

  function MessageKitTimerWrites(doc: Document): Document
  {
    MessageKitTimerWritten(doc, MessagesKitsTimersOf(doc))
  }

  /** The document after the get-or-sets of the part have stored the values `s`. */
  function MessageKitTimerWritten(doc: Document, s: MessageKitTimerSettings): Document
  {
    doc[K.LimitStartMessagesToArena := BoolValue(s.limitStartMessages)]
       [K.LimitDeathMessagesToArena := BoolValue(s.limitDeathMessages)]
       [K.LimitEndMessagesToArena := BoolValue(s.limitEndMessages)]
       [K.LimitStartTimerMessagesToArena := BoolValue(s.limitStartTimerMessages)]
       [K.KitGuiShowUnavailableKits := BoolValue(s.showUnavailableKits)]
       [K.KitGuiReplaceKitCommand := BoolValue(s.replaceKitCommand)]
       [K.KitGuiAutoShowOnJoin := BoolValue(s.showKitGuiOnJoin)]
       [K.TimeTillStartAfterMaxPlayers := IntValue(s.tillStartAfterMaxPlayers)]
       [K.TimeTillStartAfterMinPlayers := IntValue(s.tillStartAfterMinPlayers)]
       [K.TimeBeforeGameStartsToCopyArena := IntValue(s.beforeStartToCopyArena)]
       [K.InGamePlayerFreezeTime := IntValue(s.playerFreezeTime)]
       [K.StartTimerMessageTimes := IntListValue(s.startTimerMessageTimes)]
  }

  function HookWrites(doc: Document): Document
  {
    var s := HooksOf(doc);
    doc[K.HooksMultiverseCore := BoolValue(s.multiverseCore)]
       [K.HooksWorldedit := BoolValue(s.worldedit)]
       [K.HooksMultiinvWorkaround := BoolValue(s.multiinvWorkaround)]
       [K.HooksForceMultiinvWorkaround := BoolValue(s.forceMultiinvWorkaround)]
  }

  /*
   * The document as each part of load() finds it, starting from the file as loaded.
   */

  /** Lines 125-129: the version, once accepted, is overwritten with the current one. */
  function VersionSet(file: Document): Document
  {
    file[K.Version := IntValue(D.Version)]
  }

  /** The parts of load() that write the document, in the order load() runs them. */
  datatype Part = General | SaveToggles | Queues | GameplayScore | EconomyCommands | MessagesKitsTimers | ReportsHooks

  const LoadOrder: seq<Part> :=
    [General, SaveToggles, Queues, GameplayScore, EconomyCommands, MessagesKitsTimers, ReportsHooks]

  function PartWrites(part: Part, doc: Document, translateCodes: string -> string): Document
  {
    match part
    case General => GeneralWrites(doc)
    case SaveToggles => SaveWrites(doc, translateCodes)
    case Queues => QueueWrites(doc)
    case GameplayScore => GameplayScoreWrites(doc)
    case EconomyCommands => EconomyCommandWrites(doc)
    case MessagesKitsTimers => MessageKitTimerWrites(doc)
    case ReportsHooks => HookWrites(doc)
  }

  /** The document after the version check and the first `n` parts of load(). */
  function AfterParts(file: Document, translateCodes: string -> string, n: nat): Document
    requires n <= |LoadOrder|
  {
    if n == 0 then VersionSet(file)
    else PartWrites(LoadOrder[n - 1], AfterParts(file, translateCodes, n - 1), translateCodes)
  }

  function AfterGeneral(file: Document, translateCodes: string -> string): Document
  {
    AfterParts(file, translateCodes, 1)
  }

  function AfterSaveToggles(file: Document, translateCodes: string -> string): Document
  {
    AfterParts(file, translateCodes, 2)
  }

  function AfterQueues(file: Document, translateCodes: string -> string): Document
  {
    AfterParts(file, translateCodes, 3)
  }

  function AfterGameplayScore(file: Document, translateCodes: string -> string): Document
  {
    AfterParts(file, translateCodes, 4)
  }

  function AfterEconomyCommands(file: Document, translateCodes: string -> string): Document
  {
    AfterParts(file, translateCodes, 5)
  }

  function AfterMessagesKitsTimers(file: Document, translateCodes: string -> string): Document
  {
    AfterParts(file, translateCodes, 6)
  }

  function AfterReportsHooks(file: Document, translateCodes: string -> string): Document
  {
    AfterParts(file, translateCodes, 7)
  }

  /** The general part is the first to run, on the file with its version set. */
  lemma GeneralRunsFirst(file: Document, translateCodes: string -> string)
    ensures AfterGeneral(file, translateCodes) == GeneralWrites(VersionSet(file))
  {
    assert LoadOrder[0] == General;
    assert AfterParts(file, translateCodes, 0) == VersionSet(file);
  }

  /**
   * The document load() saves (lines 249-253): the file with every get-or-set key
   * filled in, the version reset to the current one, the colour-translated prefix,
   * the save interval adjusted to the SQL setting, and the deprecated keys removed.
   */
  function CanonicalDocument(file: Document, translateCodes: string -> string): Document
  {
    AfterReportsHooks(file, translateCodes) - K.DeprecatedKeys
  }

  /*
   * Which step of load() writes each key: 0 the version, 1 to 7 the parts above in
   * order, 8 the removal of the deprecated keys, and 9 for the keys load() never
   * writes (the four it reads with getBoolean, and every key it does not know).
   */
  function WrittenBy(k: K.Key): (step: nat)
    ensures step <= 9
  {
    match k
    case Version => 0
    case Debug | ReportStatistics | ArenaOrder => 1
    case MessagePrefix | SaveInventory | SaveExperience | SavePositionGamemodeHealth => 2
    case EnableMultipleQueues | QueueDescriptions | EnabledArenas => 3
    case Locale | ArenaGamerules | RespawnPlayersImmediately | ScoreEnable | ScoreWinDiff | ScoreDeathDiff
       | ScoreKillDiff | ScoreSaveInterval | ScoreUseSql | ScoreSqlHost | ScoreSqlPort | ScoreSqlDatabase
       | ScoreSqlUsername | ScoreSqlPassword | ScoreSqlUpdateIndividualsRankInterval => 4
    case EconomyEnable | EconomyKillReward | EconomyWinReward | EconomyMessage | ArenaDistanceApart
       | ArenaCopyingBlockSize | CommandWhitelistEnabled | CommandWhitelistIsBlacklist
       | CommandWhitelistCommands | JoinSignLines => 5
    case LimitStartMessagesToArena | LimitDeathMessagesToArena | LimitEndMessagesToArena
       | LimitStartTimerMessagesToArena | KitGuiShowUnavailableKits | KitGuiReplaceKitCommand
       | KitGuiAutoShowOnJoin | TimeTillStartAfterMaxPlayers | TimeTillStartAfterMinPlayers
       | TimeBeforeGameStartsToCopyArena | InGamePlayerFreezeTime | StartTimerMessageTimes => 6
    case HooksMultiverseCore | HooksWorldedit | HooksMultiinvWorkaround | HooksForceMultiinvWorkaround => 7
    case DeprecatedChatPrefix | DeprecatedPrefixChat => 8
    case SkipUuidCheck | DisableReport | DisableScoreRecovery | DeveloperOptions | Other(_) => 9
  }

  /** The two documents hold the same entry (or none) at `k`. */
  predicate SameEntry(d1: Document, d2: Document, k: K.Key)
  {
    (k in d1 <==> k in d2) && (k in d1 ==> d1[k] == d2[k])
  }

  /** The two documents agree on every key written by a step from `first` to `last`. */
  ghost predicate SameOn(d1: Document, d2: Document, first: nat, last: nat)
  {
    forall k :: first <= WrittenBy(k) <= last ==> SameEntry(d1, d2, k)
  }

  /*
   * Each step writes only keys of its own: the document after it agrees with the
   * document before it on the keys of every other step.
   */

  /** The keys load() reads with getBoolean are written by no step. */
  lemma ReadOnlyKeysStep(k: K.Key)
    ensures k in K.ReadOnlyKeys ==> WrittenBy(k) == 9
  {
  }

  /** The keys each part of load() writes. */
  const GeneralKeys: set<K.Key> :=
    {K.Debug, K.ReportStatistics, K.ArenaOrder}

  const SaveKeys: set<K.Key> :=
    {K.MessagePrefix, K.SaveInventory, K.SaveExperience, K.SavePositionGamemodeHealth}

  const QueueKeys: set<K.Key> :=
    {K.EnableMultipleQueues, K.QueueDescriptions, K.EnabledArenas}

  const GameplayScoreKeys: set<K.Key> :=
    {K.Locale, K.ArenaGamerules, K.RespawnPlayersImmediately, K.ScoreEnable, K.ScoreWinDiff,
     K.ScoreDeathDiff, K.ScoreKillDiff, K.ScoreSaveInterval, K.ScoreUseSql, K.ScoreSqlHost, K.ScoreSqlPort,
     K.ScoreSqlDatabase, K.ScoreSqlUsername, K.ScoreSqlPassword, K.ScoreSqlUpdateIndividualsRankInterval}

  const EconomyCommandKeys: set<K.Key> :=
    {K.EconomyEnable, K.EconomyKillReward, K.EconomyWinReward, K.EconomyMessage, K.ArenaDistanceApart,
     K.ArenaCopyingBlockSize, K.CommandWhitelistEnabled, K.CommandWhitelistIsBlacklist,
     K.CommandWhitelistCommands, K.JoinSignLines}

  const MessageKitTimerKeys: set<K.Key> :=
    {K.LimitStartMessagesToArena, K.LimitDeathMessagesToArena, K.LimitEndMessagesToArena,
     K.LimitStartTimerMessagesToArena, K.KitGuiShowUnavailableKits, K.KitGuiReplaceKitCommand,
     K.KitGuiAutoShowOnJoin, K.TimeTillStartAfterMaxPlayers, K.TimeTillStartAfterMinPlayers,
     K.TimeBeforeGameStartsToCopyArena, K.InGamePlayerFreezeTime, K.StartTimerMessageTimes}

  const HookKeys: set<K.Key> :=
    {K.HooksMultiverseCore, K.HooksWorldedit, K.HooksMultiinvWorkaround, K.HooksForceMultiinvWorkaround}

  /*
   * Three small lemmas per part, used by the frame proofs below: WritesOnlyItsKeys
   * (the part changes no key outside its set), KeysStep (its set is exactly the keys
   * WrittenBy gives its step) and WritesFrame (the two together, as SameOn facts).
   * They are kept apart so that each proof obligation stays small.
   */

  lemma VersionSetFrame(file: Document)
    ensures SameOn(VersionSet(file), file, 1, 9)
  {
  }

  lemma GeneralWritesOnlyItsKeys(doc: Document)
    ensures forall k :: k !in GeneralKeys ==> SameEntry(GeneralWrites(doc), doc, k)
  {
  }

  lemma GeneralKeysStep(k: K.Key)
    ensures k in GeneralKeys <==> WrittenBy(k) == 1
  {
  }

  lemma GeneralWritesFrame(doc: Document)
    ensures SameOn(GeneralWrites(doc), doc, 0, 0) && SameOn(GeneralWrites(doc), doc, 2, 9)
  {
    GeneralWritesOnlyItsKeys(doc);
    forall k | WrittenBy(k) != 1
      ensures SameEntry(GeneralWrites(doc), doc, k)
    {
      GeneralKeysStep(k);
    }
  }

  lemma SaveWritesOnlyItsKeys(doc: Document, translateCodes: string -> string)
    ensures forall k :: k !in SaveKeys ==> SameEntry(SaveWrites(doc, translateCodes), doc, k)
  {
  }

  lemma SaveKeysStep(k: K.Key)
    ensures k in SaveKeys <==> WrittenBy(k) == 2
  {
  }

  lemma SaveWritesFrame(doc: Document, translateCodes: string -> string)
    ensures SameOn(SaveWrites(doc, translateCodes), doc, 0, 1) && SameOn(SaveWrites(doc, translateCodes), doc, 3, 9)
  {
    SaveWritesOnlyItsKeys(doc, translateCodes);
    forall k | WrittenBy(k) != 2
      ensures SameEntry(SaveWrites(doc, translateCodes), doc, k)
    {
      SaveKeysStep(k);
    }
  }

  lemma QueueWritesOnlyItsKeys(doc: Document)
    ensures forall k :: k !in QueueKeys ==> SameEntry(QueueWrites(doc), doc, k)
  {
  }

  lemma QueueKeysStep(k: K.Key)
    ensures k in QueueKeys <==> WrittenBy(k) == 3
  {
  }

  lemma QueueWritesFrame(doc: Document)
    ensures SameOn(QueueWrites(doc), doc, 0, 2) && SameOn(QueueWrites(doc), doc, 4, 9)
  {
    QueueWritesOnlyItsKeys(doc);
    forall k | WrittenBy(k) != 3
      ensures SameEntry(QueueWrites(doc), doc, k)
    {
      QueueKeysStep(k);
    }
  }

  lemma GameplayScoreWritesOnlyItsKeys(doc: Document)
    ensures forall k :: k !in GameplayScoreKeys ==> SameEntry(GameplayScoreWrites(doc), doc, k)
  {
  }

  lemma GameplayScoreKeysStep(k: K.Key)
    ensures k in GameplayScoreKeys <==> WrittenBy(k) == 4
  {
  }

  lemma GameplayScoreWritesFrame(doc: Document)
    ensures SameOn(GameplayScoreWrites(doc), doc, 0, 3) && SameOn(GameplayScoreWrites(doc), doc, 5, 9)
  {
    GameplayScoreWritesOnlyItsKeys(doc);
    forall k | WrittenBy(k) != 4
      ensures SameEntry(GameplayScoreWrites(doc), doc, k)
    {
      GameplayScoreKeysStep(k);
    }
  }

  lemma EconomyCommandWritesOnlyItsKeys(doc: Document)
    ensures forall k :: k !in EconomyCommandKeys ==> SameEntry(EconomyCommandWrites(doc), doc, k)
  {
  }

  lemma EconomyCommandKeysStep(k: K.Key)
    ensures k in EconomyCommandKeys <==> WrittenBy(k) == 5
  {
  }

  lemma EconomyCommandWritesFrame(doc: Document)
    ensures SameOn(EconomyCommandWrites(doc), doc, 0, 4) && SameOn(EconomyCommandWrites(doc), doc, 6, 9)
  {
    EconomyCommandWritesOnlyItsKeys(doc);
    forall k | WrittenBy(k) != 5
      ensures SameEntry(EconomyCommandWrites(doc), doc, k)
    {
      EconomyCommandKeysStep(k);
    }
  }

  lemma MessageKitTimerWritesOnlyItsKeys(doc: Document)
    ensures forall k :: k !in MessageKitTimerKeys ==> SameEntry(MessageKitTimerWrites(doc), doc, k)
  {
  }

  lemma MessageKitTimerKeysStep(k: K.Key)
    ensures k in MessageKitTimerKeys <==> WrittenBy(k) == 6
  {
  }

  lemma MessageKitTimerWritesFrame(doc: Document)
    ensures SameOn(MessageKitTimerWrites(doc), doc, 0, 5) && SameOn(MessageKitTimerWrites(doc), doc, 7, 9)
  {
    MessageKitTimerWritesOnlyItsKeys(doc);
    forall k | WrittenBy(k) != 6
      ensures SameEntry(MessageKitTimerWrites(doc), doc, k)
    {
      MessageKitTimerKeysStep(k);
    }
  }

  lemma HookWritesOnlyItsKeys(doc: Document)
    ensures forall k :: k !in HookKeys ==> SameEntry(HookWrites(doc), doc, k)
  {
  }

  lemma HookKeysStep(k: K.Key)
    ensures k in HookKeys <==> WrittenBy(k) == 7
  {
  }

  lemma HookWritesFrame(doc: Document)
    ensures SameOn(HookWrites(doc), doc, 0, 6) && SameOn(HookWrites(doc), doc, 8, 9)
  {
    HookWritesOnlyItsKeys(doc);
    forall k | WrittenBy(k) != 7
      ensures SameEntry(HookWrites(doc), doc, k)
    {
      HookKeysStep(k);
    }
  }

  /*
   * The settings of each part depend only on the keys that part writes and the keys
   * no step writes.
   */

  lemma GeneralDependsOnItsKeys(d1: Document, d2: Document)
    requires SameOn(d1, d2, 1, 1) && SameOn(d1, d2, 9, 9)
    ensures GeneralOf(d1) == GeneralOf(d2)
  {
    forall k | k in GeneralKeys
      ensures SameEntry(d1, d2, k)
    {
      GeneralKeysStep(k);
    }
    ReadOnlyKeysStep(K.SkipUuidCheck);
    assert SameEntry(d1, d2, K.SkipUuidCheck);
  }

  lemma SaveDependsOnItsKeys(d1: Document, d2: Document)
    requires SameOn(d1, d2, 2, 2)
    ensures SaveSettingsOf(d1) == SaveSettingsOf(d2)
  {
    forall k | k in SaveKeys
      ensures SameEntry(d1, d2, k)
    {
      SaveKeysStep(k);
    }
  }

  lemma QueueDependsOnItsKeys(d1: Document, d2: Document)
    requires SameOn(d1, d2, 3, 3)
    ensures QueueSettingsOf(d1) == QueueSettingsOf(d2)
  {
    forall k | k in QueueKeys
      ensures SameEntry(d1, d2, k)
    {
      QueueKeysStep(k);
    }
  }

  lemma GameplayScoreDependsOnItsKeys(d1: Document, d2: Document)
    requires SameOn(d1, d2, 4, 4)
    ensures GameplayScoreOf(d1) == GameplayScoreOf(d2)
  {
    forall k | k in GameplayScoreKeys
      ensures SameEntry(d1, d2, k)
    {
      GameplayScoreKeysStep(k);
    }
  }

  lemma EconomyCommandDependsOnItsKeys(d1: Document, d2: Document)
    requires SameOn(d1, d2, 5, 5)
    ensures EconomyCommandsOf(d1) == EconomyCommandsOf(d2)
  {
    forall k | k in EconomyCommandKeys
      ensures SameEntry(d1, d2, k)
    {
      EconomyCommandKeysStep(k);
    }
  }

  lemma MessageKitTimerDependsOnItsKeys(d1: Document, d2: Document)
    requires SameOn(d1, d2, 6, 6)
    ensures MessagesKitsTimersOf(d1) == MessagesKitsTimersOf(d2)
  {
    forall k | k in MessageKitTimerKeys
      ensures SameEntry(d1, d2, k)
    {
      MessageKitTimerKeysStep(k);
    }
  }

  lemma HookDependsOnItsKeys(d1: Document, d2: Document)
    requires SameOn(d1, d2, 7, 7) && SameOn(d1, d2, 9, 9)
    ensures HooksOf(d1) == HooksOf(d2)
  {
    forall k | k in HookKeys
      ensures SameEntry(d1, d2, k)
    {
      HookKeysStep(k);
    }
    forall k | k in K.ReadOnlyKeys
      ensures SameEntry(d1, d2, k)
    {
      ReadOnlyKeysStep(k);
    }
  }

  /*
   * The document as each part finds it agrees with the file on the keys of that part
   * and of every later step.
   */

  lemma AfterGeneralKeepsLaterKeys(file: Document, translateCodes: string -> string)
    ensures SameOn(AfterGeneral(file, translateCodes), file, 2, 9)
  {
    GeneralRunsFirst(file, translateCodes);
    VersionSetFrame(file);
    GeneralWritesFrame(VersionSet(file));
  }

  lemma AfterSaveTogglesKeepsLaterKeys(file: Document, translateCodes: string -> string)
    ensures SameOn(AfterSaveToggles(file, translateCodes), file, 3, 9)
  {
    AfterGeneralKeepsLaterKeys(file, translateCodes);
    SaveWritesFrame(AfterGeneral(file, translateCodes), translateCodes);
  }

  lemma AfterQueuesKeepsLaterKeys(file: Document, translateCodes: string -> string)
    ensures SameOn(AfterQueues(file, translateCodes), file, 4, 9)
  {
    AfterSaveTogglesKeepsLaterKeys(file, translateCodes);
    QueueWritesFrame(AfterSaveToggles(file, translateCodes));
  }

  lemma AfterGameplayScoreKeepsLaterKeys(file: Document, translateCodes: string -> string)
    ensures SameOn(AfterGameplayScore(file, translateCodes), file, 5, 9)
  {
    AfterQueuesKeepsLaterKeys(file, translateCodes);
    GameplayScoreWritesFrame(AfterQueues(file, translateCodes));
  }

  lemma AfterEconomyCommandsKeepsLaterKeys(file: Document, translateCodes: string -> string)
    ensures SameOn(AfterEconomyCommands(file, translateCodes), file, 6, 9)
  {
    AfterGameplayScoreKeepsLaterKeys(file, translateCodes);
    EconomyCommandWritesFrame(AfterGameplayScore(file, translateCodes));
  }

  lemma AfterMessagesKitsTimersKeepsLaterKeys(file: Document, translateCodes: string -> string)
    ensures SameOn(AfterMessagesKitsTimers(file, translateCodes), file, 7, 9)
  {
    AfterEconomyCommandsKeepsLaterKeys(file, translateCodes);
    MessageKitTimerWritesFrame(AfterEconomyCommands(file, translateCodes));
  }

  /*
   * No part of load() reads a key that an earlier part has written: every part reads
   * from the document it finds exactly what it would read from the file.
   */

  lemma GeneralReadsLoadedFile(file: Document)
    ensures GeneralOf(VersionSet(file)) == GeneralOf(file)
  {
    VersionSetFrame(file);
    GeneralDependsOnItsKeys(VersionSet(file), file);
  }

  lemma SaveReadsLoadedFile(file: Document, translateCodes: string -> string)
    ensures SaveSettingsOf(AfterGeneral(file, translateCodes)) == SaveSettingsOf(file)
  {
    AfterGeneralKeepsLaterKeys(file, translateCodes);
    SaveDependsOnItsKeys(AfterGeneral(file, translateCodes), file);
  }

  lemma QueueReadsLoadedFile(file: Document, translateCodes: string -> string)
    ensures QueueSettingsOf(AfterSaveToggles(file, translateCodes)) == QueueSettingsOf(file)
  {
    AfterSaveTogglesKeepsLaterKeys(file, translateCodes);
    QueueDependsOnItsKeys(AfterSaveToggles(file, translateCodes), file);
  }

  lemma GameplayScoreReadsLoadedFile(file: Document, translateCodes: string -> string)
    ensures GameplayScoreOf(AfterQueues(file, translateCodes)) == GameplayScoreOf(file)
  {
    AfterQueuesKeepsLaterKeys(file, translateCodes);
    GameplayScoreDependsOnItsKeys(AfterQueues(file, translateCodes), file);
  }

  lemma EconomyCommandReadsLoadedFile(file: Document, translateCodes: string -> string)
    ensures EconomyCommandsOf(AfterGameplayScore(file, translateCodes)) == EconomyCommandsOf(file)
  {
    AfterGameplayScoreKeepsLaterKeys(file, translateCodes);
    EconomyCommandDependsOnItsKeys(AfterGameplayScore(file, translateCodes), file);
  }

  lemma MessageKitTimerReadsLoadedFile(file: Document, translateCodes: string -> string)
    ensures MessagesKitsTimersOf(AfterEconomyCommands(file, translateCodes)) == MessagesKitsTimersOf(file)
  {
    AfterEconomyCommandsKeepsLaterKeys(file, translateCodes);
    MessageKitTimerDependsOnItsKeys(AfterEconomyCommands(file, translateCodes), file);
  }

  lemma HookReadsLoadedFile(file: Document, translateCodes: string -> string)
    ensures HooksOf(AfterMessagesKitsTimers(file, translateCodes)) == HooksOf(file)
  {
    AfterMessagesKitsTimersKeepsLaterKeys(file, translateCodes);
    HookDependsOnItsKeys(AfterMessagesKitsTimers(file, translateCodes), file);
  }

  /*
   * Reading a part's settings again from the document the part leaves gives what the
   * part read, except where it stored something else: the colour-translated prefix
   * and the adjusted save interval.
   */

  lemma GeneralReadBack(doc: Document)
    ensures GeneralOf(GeneralWrites(doc)) == GeneralOf(doc)
  {
  }

  lemma SaveReadBack(doc: Document, translateCodes: string -> string)
    ensures SaveSettingsOf(SaveWrites(doc, translateCodes))
         == SaveSettingsOf(doc).(storedPrefix := translateCodes(SaveSettingsOf(doc).storedPrefix))
  {
  }

  lemma QueueReadBack(doc: Document)
    ensures QueueSettingsOf(QueueWrites(doc)) == QueueSettingsOf(doc)
  {
  }

  /*
   * Whatever values a part stores, reading the part again returns them. The fields
   * are taken a group at a time, in the groups the source reads them in.
   */

  /** Locale, gamerules and respawning (lines 171-175): each value stored is what the document holds. */
  lemma LocaleFieldsWritten(doc: Document, s: GameplayScoreSettings)
    ensures var w := GameplayScoreWritten(doc, s);
            && K.Locale in w && w[K.Locale] == StringValue(s.locale)
            && K.ArenaGamerules in w && w[K.ArenaGamerules] == StringMapValue(s.arenaGamerules)
            && K.RespawnPlayersImmediately in w && w[K.RespawnPlayersImmediately] == BoolValue(s.respawnImmediately)
  {
  }

  lemma LocaleFieldsWrittenReadBack(doc: Document, s: GameplayScoreSettings)
    ensures var w := GameplayScoreWritten(doc, s);
            && StoredString(w, K.Locale, D.Locale) == s.locale
            && StoredStringMap(w, K.ArenaGamerules, D.ArenaGamerules) == s.arenaGamerules
            && StoredBool(w, K.RespawnPlayersImmediately, D.RespawnPlayersImmediately) == s.respawnImmediately
  {
    LocaleFieldsWritten(doc, s);
  }

  /** The score settings (lines 177-181): each value stored is what the document holds. */
  lemma ScoreFieldsWritten(doc: Document, s: GameplayScoreSettings)
    ensures var w := GameplayScoreWritten(doc, s);
            && K.ScoreEnable in w && w[K.ScoreEnable] == BoolValue(s.scoreEnabled)
            && K.ScoreWinDiff in w && w[K.ScoreWinDiff] == IntValue(s.winDiff)
            && K.ScoreDeathDiff in w && w[K.ScoreDeathDiff] == IntValue(s.deathDiff)
            && K.ScoreKillDiff in w && w[K.ScoreKillDiff] == IntValue(s.killDiff)
            && K.ScoreSaveInterval in w && w[K.ScoreSaveInterval] == IntValue(SqlAdjustedInterval(s.saveInterval, s.useSql))
  {
  }

  lemma ScoreFieldsWrittenReadBack(doc: Document, s: GameplayScoreSettings)
    ensures var w := GameplayScoreWritten(doc, s);
            && StoredBool(w, K.ScoreEnable, D.ScoreEnable) == s.scoreEnabled
            && StoredInt(w, K.ScoreWinDiff, D.ScoreWinDiff) == s.winDiff
            && StoredInt(w, K.ScoreDeathDiff, D.ScoreDeathDiff) == s.deathDiff
            && StoredInt(w, K.ScoreKillDiff, D.ScoreKillDiff) == s.killDiff
            && StoredInt(w, K.ScoreSaveInterval, D.ScoreSaveInterval) == SqlAdjustedInterval(s.saveInterval, s.useSql)
  {
    ScoreFieldsWritten(doc, s);
  }

  /** The SQL settings of the score (lines 183-189): each value stored is what the document holds. */
  lemma ScoreSqlFieldsWritten(doc: Document, s: GameplayScoreSettings)
    ensures var w := GameplayScoreWritten(doc, s);
            && K.ScoreUseSql in w && w[K.ScoreUseSql] == BoolValue(s.useSql)
            && K.ScoreSqlHost in w && w[K.ScoreSqlHost] == StringValue(s.sqlHost)
            && K.ScoreSqlPort in w && w[K.ScoreSqlPort] == IntValue(s.sqlPort)
            && K.ScoreSqlDatabase in w && w[K.ScoreSqlDatabase] == StringValue(s.sqlDatabase)
            && K.ScoreSqlUsername in w && w[K.ScoreSqlUsername] == StringValue(s.sqlUsername)
            && K.ScoreSqlPassword in w && w[K.ScoreSqlPassword] == StringValue(s.sqlPassword)
            && K.ScoreSqlUpdateIndividualsRankInterval in w && w[K.ScoreSqlUpdateIndividualsRankInterval] == IntValue(s.rankUpdateInterval)
  {
  }

  lemma ScoreSqlFieldsWrittenReadBack(doc: Document, s: GameplayScoreSettings)
    ensures var w := GameplayScoreWritten(doc, s);
            && StoredBool(w, K.ScoreUseSql, D.ScoreUseSql) == s.useSql
            && StoredString(w, K.ScoreSqlHost, D.ScoreSqlHost) == s.sqlHost
            && StoredInt(w, K.ScoreSqlPort, D.ScoreSqlPort) == s.sqlPort
            && StoredString(w, K.ScoreSqlDatabase, D.ScoreSqlDatabase) == s.sqlDatabase
            && StoredString(w, K.ScoreSqlUsername, D.ScoreSqlUsername) == s.sqlUsername
            && StoredString(w, K.ScoreSqlPassword, D.ScoreSqlPassword) == s.sqlPassword
            && StoredInt(w, K.ScoreSqlUpdateIndividualsRankInterval, D.ScoreSqlUpdateIndividualsRankInterval) == s.rankUpdateInterval
  {
    ScoreSqlFieldsWritten(doc, s);
  }

  lemma GameplayScoreWrittenReadBack(doc: Document, s: GameplayScoreSettings)
    ensures GameplayScoreOf(GameplayScoreWritten(doc, s)) == s.(saveInterval := SqlAdjustedInterval(s.saveInterval, s.useSql))
  {
    LocaleFieldsWrittenReadBack(doc, s);
    ScoreFieldsWrittenReadBack(doc, s);
    ScoreSqlFieldsWrittenReadBack(doc, s);
  }

  /** The economy settings (lines 200-203): each value stored is what the document holds. */
  lemma EconomyFieldsWritten(doc: Document, s: EconomyCommandSettings)
    ensures var w := EconomyCommandWritten(doc, s);
            && K.EconomyEnable in w && w[K.EconomyEnable] == BoolValue(s.economyEnabled)
            && K.EconomyKillReward in w && w[K.EconomyKillReward] == IntValue(s.killReward)
            && K.EconomyWinReward in w && w[K.EconomyWinReward] == IntValue(s.winReward)
            && K.EconomyMessage in w && w[K.EconomyMessage] == BoolValue(s.rewardMessages)
  {
  }

  lemma EconomyFieldsWrittenReadBack(doc: Document, s: EconomyCommandSettings)
    ensures var w := EconomyCommandWritten(doc, s);
            && StoredBool(w, K.EconomyEnable, D.EconomyEnable) == s.economyEnabled
            && StoredInt(w, K.EconomyKillReward, D.EconomyKillReward) == s.killReward
            && StoredInt(w, K.EconomyWinReward, D.EconomyWinReward) == s.winReward
            && StoredBool(w, K.EconomyMessage, D.EconomyMessage) == s.rewardMessages
  {
    EconomyFieldsWritten(doc, s);
  }

  /**
   * Arena spacing, the command whitelist and the join-sign lines (lines 205-212):
   * each value stored is what the document holds.
   */
  lemma ArenaWhitelistFieldsWritten(doc: Document, s: EconomyCommandSettings)
    ensures var w := EconomyCommandWritten(doc, s);
            && K.ArenaDistanceApart in w && w[K.ArenaDistanceApart] == IntValue(s.arenaDistanceApart)
            && K.ArenaCopyingBlockSize in w && w[K.ArenaCopyingBlockSize] == IntValue(s.copyingBlockSize)
            && K.CommandWhitelistEnabled in w && w[K.CommandWhitelistEnabled] == BoolValue(s.whitelistEnabled)
            && K.CommandWhitelistIsBlacklist in w && w[K.CommandWhitelistIsBlacklist] == BoolValue(s.whitelistIsBlacklist)
            && K.CommandWhitelistCommands in w && w[K.CommandWhitelistCommands] == StringListValue(s.whitelistCommands)
            && K.JoinSignLines in w && w[K.JoinSignLines] == StringListValue(s.joinSignLines)
  {
  }

  lemma ArenaWhitelistFieldsWrittenReadBack(doc: Document, s: EconomyCommandSettings)
    ensures var w := EconomyCommandWritten(doc, s);
            && StoredInt(w, K.ArenaDistanceApart, D.ArenaDistanceApart) == s.arenaDistanceApart
            && StoredInt(w, K.ArenaCopyingBlockSize, D.ArenaCopyingBlockSize) == s.copyingBlockSize
            && StoredBool(w, K.CommandWhitelistEnabled, D.CommandWhitelistEnabled) == s.whitelistEnabled
            && StoredBool(w, K.CommandWhitelistIsBlacklist, D.CommandWhitelistIsBlacklist) == s.whitelistIsBlacklist
            && StoredStrings(w, K.CommandWhitelistCommands, D.CommandWhitelistCommands) == s.whitelistCommands
            && StoredStrings(w, K.JoinSignLines, D.JoinSignLines) == s.joinSignLines
  {
    ArenaWhitelistFieldsWritten(doc, s);
  }

  lemma EconomyCommandWrittenReadBack(doc: Document, s: EconomyCommandSettings)
    ensures EconomyCommandsOf(EconomyCommandWritten(doc, s)) == s
  {
    EconomyFieldsWrittenReadBack(doc, s);
    ArenaWhitelistFieldsWrittenReadBack(doc, s);
  }

  /** The per-arena message switches (lines 215-218): each value stored is what the document holds. */
  lemma ArenaMessageFieldsWritten(doc: Document, s: MessageKitTimerSettings)
    ensures var w := MessageKitTimerWritten(doc, s);
            && K.LimitStartMessagesToArena in w && w[K.LimitStartMessagesToArena] == BoolValue(s.limitStartMessages)
            && K.LimitDeathMessagesToArena in w && w[K.LimitDeathMessagesToArena] == BoolValue(s.limitDeathMessages)
            && K.LimitEndMessagesToArena in w && w[K.LimitEndMessagesToArena] == BoolValue(s.limitEndMessages)
            && K.LimitStartTimerMessagesToArena in w && w[K.LimitStartTimerMessagesToArena] == BoolValue(s.limitStartTimerMessages)
  {
  }

  lemma ArenaMessageFieldsWrittenReadBack(doc: Document, s: MessageKitTimerSettings)
    ensures var w := MessageKitTimerWritten(doc, s);
            && StoredBool(w, K.LimitStartMessagesToArena, D.LimitStartMessagesToArena) == s.limitStartMessages
            && StoredBool(w, K.LimitDeathMessagesToArena, D.LimitDeathMessagesToArena) == s.limitDeathMessages
            && StoredBool(w, K.LimitEndMessagesToArena, D.LimitEndMessagesToArena) == s.limitEndMessages
            && StoredBool(w, K.LimitStartTimerMessagesToArena, D.LimitStartTimerMessagesToArena) == s.limitStartTimerMessages
  {
    ArenaMessageFieldsWritten(doc, s);
  }

  /** The kit GUI and the start timer (lines 221-230): each value stored is what the document holds. */
  lemma KitTimerFieldsWritten(doc: Document, s: MessageKitTimerSettings)
    ensures var w := MessageKitTimerWritten(doc, s);
            && K.KitGuiShowUnavailableKits in w && w[K.KitGuiShowUnavailableKits] == BoolValue(s.showUnavailableKits)
            && K.KitGuiReplaceKitCommand in w && w[K.KitGuiReplaceKitCommand] == BoolValue(s.replaceKitCommand)
            && K.KitGuiAutoShowOnJoin in w && w[K.KitGuiAutoShowOnJoin] == BoolValue(s.showKitGuiOnJoin)
            && K.TimeTillStartAfterMaxPlayers in w && w[K.TimeTillStartAfterMaxPlayers] == IntValue(s.tillStartAfterMaxPlayers)
            && K.TimeTillStartAfterMinPlayers in w && w[K.TimeTillStartAfterMinPlayers] == IntValue(s.tillStartAfterMinPlayers)
            && K.TimeBeforeGameStartsToCopyArena in w && w[K.TimeBeforeGameStartsToCopyArena] == IntValue(s.beforeStartToCopyArena)
            && K.InGamePlayerFreezeTime in w && w[K.InGamePlayerFreezeTime] == IntValue(s.playerFreezeTime)
            && K.StartTimerMessageTimes in w && w[K.StartTimerMessageTimes] == IntListValue(s.startTimerMessageTimes)
  {
  }

  lemma KitTimerFieldsWrittenReadBack(doc: Document, s: MessageKitTimerSettings)
    ensures var w := MessageKitTimerWritten(doc, s);
            && StoredBool(w, K.KitGuiShowUnavailableKits, D.KitGuiShowUnavailableKits) == s.showUnavailableKits
            && StoredBool(w, K.KitGuiReplaceKitCommand, D.KitGuiReplaceKitCommand) == s.replaceKitCommand
            && StoredBool(w, K.KitGuiAutoShowOnJoin, D.KitGuiAutoShowOnJoin) == s.showKitGuiOnJoin
            && StoredInt(w, K.TimeTillStartAfterMaxPlayers, D.TimeTillStartAfterMaxPlayers) == s.tillStartAfterMaxPlayers
            && StoredInt(w, K.TimeTillStartAfterMinPlayers, D.TimeTillStartAfterMinPlayers) == s.tillStartAfterMinPlayers
            && StoredInt(w, K.TimeBeforeGameStartsToCopyArena, D.TimeBeforeGameStartsToCopyArena) == s.beforeStartToCopyArena
            && StoredInt(w, K.InGamePlayerFreezeTime, D.InGamePlayerFreezeTime) == s.playerFreezeTime
            && StoredInts(w, K.StartTimerMessageTimes, D.StartTimerMessageTimes) == s.startTimerMessageTimes
  {
    KitTimerFieldsWritten(doc, s);
  }

  lemma MessageKitTimerWrittenReadBack(doc: Document, s: MessageKitTimerSettings)
    ensures MessagesKitsTimersOf(MessageKitTimerWritten(doc, s)) == s
  {
    ArenaMessageFieldsWrittenReadBack(doc, s);
    KitTimerFieldsWrittenReadBack(doc, s);
  }

  lemma GameplayScoreReadBack(doc: Document)
    ensures var s := GameplayScoreOf(doc);
            GameplayScoreOf(GameplayScoreWrites(doc)) == s.(saveInterval := SqlAdjustedInterval(s.saveInterval, s.useSql))
  {
    GameplayScoreWrittenReadBack(doc, GameplayScoreOf(doc));
  }

  lemma EconomyCommandReadBack(doc: Document)
    ensures EconomyCommandsOf(EconomyCommandWrites(doc)) == EconomyCommandsOf(doc)
  {
    EconomyCommandWrittenReadBack(doc, EconomyCommandsOf(doc));
  }

  lemma MessageKitTimerReadBack(doc: Document)
    ensures MessagesKitsTimersOf(MessageKitTimerWrites(doc)) == MessagesKitsTimersOf(doc)
  {
    MessageKitTimerWrittenReadBack(doc, MessagesKitsTimersOf(doc));
  }

  lemma HookReadBack(doc: Document)
    ensures HooksOf(HookWrites(doc)) == HooksOf(doc)
  {
    // The switches read without a write-back are not hook keys, so the writes leave them alone.
    HookWritesOnlyItsKeys(doc);
    assert SameEntry(HookWrites(doc), doc, K.DisableReport);
    assert SameEntry(HookWrites(doc), doc, K.DisableScoreRecovery);
    assert SameEntry(HookWrites(doc), doc, K.DeveloperOptions);
  }

  lemma GameplayScoreStoresAdjustedInterval(doc: Document)
    ensures var s := GameplayScoreOf(doc);
            SameEntry(GameplayScoreWrites(doc), map[K.ScoreSaveInterval := IntValue(SqlAdjustedInterval(s.saveInterval, s.useSql))],
                      K.ScoreSaveInterval)
  {
  }

  /*
   * The saved document agrees with the document after each part on the keys of that
   * part and of every earlier step, and with the file on the keys no step writes.
   */

  /** Removing the deprecated keys touches no key of another step. */
  lemma DeprecatedKeysStep(k: K.Key)
    ensures k in K.DeprecatedKeys <==> WrittenBy(k) == 8
  {
  }

  lemma CanonicalKeepsReportsHooks(file: Document, translateCodes: string -> string)
    ensures SameOn(CanonicalDocument(file, translateCodes), AfterReportsHooks(file, translateCodes), 0, 7)
    ensures SameOn(CanonicalDocument(file, translateCodes), AfterReportsHooks(file, translateCodes), 9, 9)
  {
    forall k | WrittenBy(k) != 8
      ensures SameEntry(CanonicalDocument(file, translateCodes), AfterReportsHooks(file, translateCodes), k)
    {
      DeprecatedKeysStep(k);
    }
  }

  lemma CanonicalKeepsMessagesKitsTimers(file: Document, translateCodes: string -> string)
    ensures SameOn(CanonicalDocument(file, translateCodes), AfterMessagesKitsTimers(file, translateCodes), 0, 6)
  {
    CanonicalKeepsReportsHooks(file, translateCodes);
    HookWritesFrame(AfterMessagesKitsTimers(file, translateCodes));
  }

  lemma CanonicalKeepsEconomyCommands(file: Document, translateCodes: string -> string)
    ensures SameOn(CanonicalDocument(file, translateCodes), AfterEconomyCommands(file, translateCodes), 0, 5)
  {
    CanonicalKeepsMessagesKitsTimers(file, translateCodes);
    MessageKitTimerWritesFrame(AfterEconomyCommands(file, translateCodes));
  }

  lemma CanonicalKeepsGameplayScore(file: Document, translateCodes: string -> string)
    ensures SameOn(CanonicalDocument(file, translateCodes), AfterGameplayScore(file, translateCodes), 0, 4)
  {
    CanonicalKeepsEconomyCommands(file, translateCodes);
    EconomyCommandWritesFrame(AfterGameplayScore(file, translateCodes));
  }

  lemma CanonicalKeepsQueues(file: Document, translateCodes: string -> string)
    ensures SameOn(CanonicalDocument(file, translateCodes), AfterQueues(file, translateCodes), 0, 3)
  {
    CanonicalKeepsGameplayScore(file, translateCodes);
    GameplayScoreWritesFrame(AfterQueues(file, translateCodes));
  }

  lemma CanonicalKeepsSaveToggles(file: Document, translateCodes: string -> string)
    ensures SameOn(CanonicalDocument(file, translateCodes), AfterSaveToggles(file, translateCodes), 0, 2)
  {
    CanonicalKeepsQueues(file, translateCodes);
    QueueWritesFrame(AfterSaveToggles(file, translateCodes));
  }

  lemma CanonicalKeepsGeneral(file: Document, translateCodes: string -> string)
    ensures SameOn(CanonicalDocument(file, translateCodes), AfterGeneral(file, translateCodes), 0, 1)
  {
    CanonicalKeepsSaveToggles(file, translateCodes);
    SaveWritesFrame(AfterGeneral(file, translateCodes), translateCodes);
  }

  lemma CanonicalKeepsVersion(file: Document, translateCodes: string -> string)
    ensures SameOn(CanonicalDocument(file, translateCodes), VersionSet(file), 0, 0)
  {
    CanonicalKeepsGeneral(file, translateCodes);
    GeneralRunsFirst(file, translateCodes);
    GeneralWritesFrame(VersionSet(file));
  }

  /** The keys no step writes (the four read with getBoolean, and every key load() does not know) are saved as they were. */
  lemma CanonicalKeepsUnwrittenKeys(file: Document, translateCodes: string -> string)
    ensures SameOn(CanonicalDocument(file, translateCodes), file, 9, 9)
  {
    CanonicalKeepsReportsHooks(file, translateCodes);
    AfterMessagesKitsTimersKeepsLaterKeys(file, translateCodes);
    HookWritesFrame(AfterMessagesKitsTimers(file, translateCodes));
  }

  /** The saved document holds the current version and none of the deprecated keys. */
  lemma CanonicalVersionAndDeprecated(file: Document, translateCodes: string -> string)
    ensures K.Version in CanonicalDocument(file, translateCodes)
    ensures CanonicalDocument(file, translateCodes)[K.Version] == IntValue(D.Version)
    ensures forall k :: k in K.DeprecatedKeys ==> k !in CanonicalDocument(file, translateCodes)
  {
    CanonicalKeepsVersion(file, translateCodes);
    assert SameEntry(CanonicalDocument(file, translateCodes), VersionSet(file), K.Version);
  }

  /*
   * Loading the saved document again reads the same settings, except for the prefix,
   * which is saved translated.
   */

  lemma CanonicalGeneral(file: Document, translateCodes: string -> string)
    ensures GeneralOf(CanonicalDocument(file, translateCodes)) == GeneralOf(file)
  {
    CanonicalKeepsGeneral(file, translateCodes);
    CanonicalKeepsUnwrittenKeys(file, translateCodes);
    AfterGeneralKeepsLaterKeys(file, translateCodes);
    GeneralDependsOnItsKeys(CanonicalDocument(file, translateCodes), AfterGeneral(file, translateCodes));
    GeneralRunsFirst(file, translateCodes);
    GeneralReadBack(VersionSet(file));
    GeneralReadsLoadedFile(file);
  }

  lemma CanonicalSave(file: Document, translateCodes: string -> string)
    ensures SaveSettingsOf(CanonicalDocument(file, translateCodes))
         == SaveSettingsOf(file).(storedPrefix := translateCodes(SaveSettingsOf(file).storedPrefix))
  {
    CanonicalKeepsSaveToggles(file, translateCodes);
    SaveDependsOnItsKeys(CanonicalDocument(file, translateCodes), AfterSaveToggles(file, translateCodes));
    SaveReadBack(AfterGeneral(file, translateCodes), translateCodes);
    SaveReadsLoadedFile(file, translateCodes);
  }

  lemma CanonicalQueues(file: Document, translateCodes: string -> string)
    ensures QueueSettingsOf(CanonicalDocument(file, translateCodes)) == QueueSettingsOf(file)
  {
    CanonicalKeepsQueues(file, translateCodes);
    QueueDependsOnItsKeys(CanonicalDocument(file, translateCodes), AfterQueues(file, translateCodes));
    QueueReadBack(AfterSaveToggles(file, translateCodes));
    QueueReadsLoadedFile(file, translateCodes);
  }

  lemma CanonicalHooks(file: Document, translateCodes: string -> string)
    ensures HooksOf(CanonicalDocument(file, translateCodes)) == HooksOf(file)
  {
    CanonicalKeepsReportsHooks(file, translateCodes);
    CanonicalKeepsUnwrittenKeys(file, translateCodes);
    AfterMessagesKitsTimersKeepsLaterKeys(file, translateCodes);
    HookWritesFrame(AfterMessagesKitsTimers(file, translateCodes));
    HookDependsOnItsKeys(CanonicalDocument(file, translateCodes), AfterReportsHooks(file, translateCodes));
    HookReadBack(AfterMessagesKitsTimers(file, translateCodes));
    HookReadsLoadedFile(file, translateCodes);
  }

  /*
   * What a part reads back from the document it leaves, in terms of the file as loaded.
   */

  lemma GameplayScoreAfterPart(file: Document, translateCodes: string -> string)
    ensures var s := GameplayScoreOf(file);
            GameplayScoreOf(AfterGameplayScore(file, translateCodes))
            == s.(saveInterval := SqlAdjustedInterval(s.saveInterval, s.useSql))
  {
    var before := AfterQueues(file, translateCodes);
    assert AfterGameplayScore(file, translateCodes) == GameplayScoreWrites(before) by {
      assert LoadOrder[3] == GameplayScore;
    }
    GameplayScoreReadBack(before);
    GameplayScoreReadsLoadedFile(file, translateCodes);
  }

  lemma EconomyCommandsAfterPart(file: Document, translateCodes: string -> string)
    ensures EconomyCommandsOf(AfterEconomyCommands(file, translateCodes)) == EconomyCommandsOf(file)
  {
    var before := AfterGameplayScore(file, translateCodes);
    assert AfterEconomyCommands(file, translateCodes) == EconomyCommandWrites(before) by {
      assert LoadOrder[4] == EconomyCommands;
    }
    EconomyCommandReadBack(before);
    EconomyCommandReadsLoadedFile(file, translateCodes);
  }

  lemma MessagesKitsTimersAfterPart(file: Document, translateCodes: string -> string)
    ensures MessagesKitsTimersOf(AfterMessagesKitsTimers(file, translateCodes)) == MessagesKitsTimersOf(file)
  {
    var before := AfterEconomyCommands(file, translateCodes);
    assert AfterMessagesKitsTimers(file, translateCodes) == MessageKitTimerWrites(before) by {
      assert LoadOrder[5] == MessagesKitsTimers;
    }
    MessageKitTimerReadBack(before);
    MessageKitTimerReadsLoadedFile(file, translateCodes);
  }

  /**
   * The score settings read back from the saved document are the file's, except the
   * save interval, which was saved adjusted to the SQL setting.
   */
  lemma CanonicalGameplayScore(file: Document, translateCodes: string -> string)
    ensures var s := GameplayScoreOf(file);
            GameplayScoreOf(CanonicalDocument(file, translateCodes))
            == s.(saveInterval := SqlAdjustedInterval(s.saveInterval, s.useSql))
  {
    CanonicalKeepsGameplayScore(file, translateCodes);
    GameplayScoreDependsOnItsKeys(CanonicalDocument(file, translateCodes), AfterGameplayScore(file, translateCodes));
    GameplayScoreAfterPart(file, translateCodes);
  }

  lemma CanonicalEconomyCommands(file: Document, translateCodes: string -> string)
    ensures EconomyCommandsOf(CanonicalDocument(file, translateCodes)) == EconomyCommandsOf(file)
  {
    CanonicalKeepsEconomyCommands(file, translateCodes);
    EconomyCommandDependsOnItsKeys(CanonicalDocument(file, translateCodes), AfterEconomyCommands(file, translateCodes));
    EconomyCommandsAfterPart(file, translateCodes);
  }

  lemma CanonicalMessagesKitsTimers(file: Document, translateCodes: string -> string)
    ensures MessagesKitsTimersOf(CanonicalDocument(file, translateCodes)) == MessagesKitsTimersOf(file)
  {
    CanonicalKeepsMessagesKitsTimers(file, translateCodes);
    MessageKitTimerDependsOnItsKeys(CanonicalDocument(file, translateCodes), AfterMessagesKitsTimers(file, translateCodes));
    MessagesKitsTimersAfterPart(file, translateCodes);
  }

  /** The saved interval is the one read, swapped for the other mode's default when the SQL setting changed. */
  lemma CanonicalSaveInterval(file: Document, translateCodes: string -> string)
    ensures var s := GameplayScoreOf(file);
            && K.ScoreSaveInterval in CanonicalDocument(file, translateCodes)
            && CanonicalDocument(file, translateCodes)[K.ScoreSaveInterval]
               == IntValue(SqlAdjustedInterval(s.saveInterval, s.useSql))
  {
    CanonicalKeepsGameplayScore(file, translateCodes);
    GameplayScoreKeysStep(K.ScoreSaveInterval);
    assert SameEntry(CanonicalDocument(file, translateCodes), AfterGameplayScore(file, translateCodes), K.ScoreSaveInterval);
    GameplayScoreStoresAdjustedInterval(AfterQueues(file, translateCodes));
    GameplayScoreReadsLoadedFile(file, translateCodes);
  }

  /*
   * Every key a part reads with get-or-set is in the document that part leaves, and
   * so in the saved document: the enabled-arenas list only when a single queue is
   * used, since only that branch reads it (lines 156-168).
   */

  lemma GeneralWritesStoresItsKeys(doc: Document)
    ensures forall k :: k in GeneralKeys ==> k in GeneralWrites(doc)
  {
  }

  lemma SaveWritesStoresItsKeys(doc: Document, translateCodes: string -> string)
    ensures forall k :: k in SaveKeys ==> k in SaveWrites(doc, translateCodes)
  {
  }

  lemma QueueWritesStoresItsKeys(doc: Document)
    ensures forall k :: k in QueueKeys && k != K.EnabledArenas ==> k in QueueWrites(doc)
    ensures !QueueSettingsOf(doc).multipleQueues ==> K.EnabledArenas in QueueWrites(doc)
  {
  }

  lemma GameplayScoreWritesStoresItsKeys(doc: Document)
    ensures forall k :: k in GameplayScoreKeys ==> k in GameplayScoreWrites(doc)
  {
  }

  lemma EconomyCommandWritesStoresItsKeys(doc: Document)
    ensures forall k :: k in EconomyCommandKeys ==> k in EconomyCommandWrites(doc)
  {
  }

  lemma MessageKitTimerWritesStoresItsKeys(doc: Document)
    ensures forall k :: k in MessageKitTimerKeys ==> k in MessageKitTimerWrites(doc)
  {
  }

  lemma HookWritesStoresItsKeys(doc: Document)
    ensures forall k :: k in HookKeys ==> k in HookWrites(doc)
  {
  }

  /*
   * The keys each step stores are still in the saved document: no later step removes
   * them, and the keys removed at the end are none of them.
   */

  lemma CanonicalHoldsVersion(file: Document, translateCodes: string -> string)
    ensures K.Version in CanonicalDocument(file, translateCodes)
  {
    CanonicalKeepsVersion(file, translateCodes);
    assert SameEntry(CanonicalDocument(file, translateCodes), VersionSet(file), K.Version);
  }

  lemma CanonicalHoldsGeneralKeys(file: Document, translateCodes: string -> string)
    ensures forall k :: k in GeneralKeys ==> k in CanonicalDocument(file, translateCodes)
  {
    CanonicalKeepsGeneral(file, translateCodes);
    GeneralRunsFirst(file, translateCodes);
    GeneralWritesStoresItsKeys(VersionSet(file));
    forall k | k in GeneralKeys
      ensures k in CanonicalDocument(file, translateCodes)
    {
      GeneralKeysStep(k);
      assert SameEntry(CanonicalDocument(file, translateCodes), AfterGeneral(file, translateCodes), k);
    }
  }

  lemma CanonicalHoldsSaveKeys(file: Document, translateCodes: string -> string)
    ensures forall k :: k in SaveKeys ==> k in CanonicalDocument(file, translateCodes)
  {
    var before := AfterGeneral(file, translateCodes);
    assert AfterSaveToggles(file, translateCodes) == SaveWrites(before, translateCodes) by {
      assert LoadOrder[1] == SaveToggles;
    }
    SaveWritesStoresItsKeys(before, translateCodes);
    CanonicalKeepsSaveToggles(file, translateCodes);
    forall k | k in SaveKeys
      ensures k in CanonicalDocument(file, translateCodes)
    {
      SaveKeysStep(k);
      assert SameEntry(CanonicalDocument(file, translateCodes), AfterSaveToggles(file, translateCodes), k);
    }
  }

  lemma CanonicalHoldsQueueKeys(file: Document, translateCodes: string -> string)
    ensures forall k :: k in QueueKeys && k != K.EnabledArenas ==> k in CanonicalDocument(file, translateCodes)
  {
    var before := AfterSaveToggles(file, translateCodes);
    assert AfterQueues(file, translateCodes) == QueueWrites(before) by {
      assert LoadOrder[2] == Queues;
    }
    QueueWritesStoresItsKeys(before);
    CanonicalKeepsQueues(file, translateCodes);
    forall k | k in QueueKeys && k != K.EnabledArenas
      ensures k in CanonicalDocument(file, translateCodes)
    {
      QueueKeysStep(k);
      assert SameEntry(CanonicalDocument(file, translateCodes), AfterQueues(file, translateCodes), k);
    }
  }

  lemma CanonicalHoldsGameplayScoreKeys(file: Document, translateCodes: string -> string)
    ensures forall k :: k in GameplayScoreKeys ==> k in CanonicalDocument(file, translateCodes)
  {
    var before := AfterQueues(file, translateCodes);
    assert AfterGameplayScore(file, translateCodes) == GameplayScoreWrites(before) by {
      assert LoadOrder[3] == GameplayScore;
    }
    GameplayScoreWritesStoresItsKeys(before);
    CanonicalKeepsGameplayScore(file, translateCodes);
    forall k | k in GameplayScoreKeys
      ensures k in CanonicalDocument(file, translateCodes)
    {
      GameplayScoreKeysStep(k);
      assert SameEntry(CanonicalDocument(file, translateCodes), AfterGameplayScore(file, translateCodes), k);
    }
  }

  lemma CanonicalHoldsEconomyCommandKeys(file: Document, translateCodes: string -> string)
    ensures forall k :: k in EconomyCommandKeys ==> k in CanonicalDocument(file, translateCodes)
  {
    var before := AfterGameplayScore(file, translateCodes);
    assert AfterEconomyCommands(file, translateCodes) == EconomyCommandWrites(before) by {
      assert LoadOrder[4] == EconomyCommands;
    }
    EconomyCommandWritesStoresItsKeys(before);
    CanonicalKeepsEconomyCommands(file, translateCodes);
    forall k | k in EconomyCommandKeys
      ensures k in CanonicalDocument(file, translateCodes)
    {
      EconomyCommandKeysStep(k);
      assert SameEntry(CanonicalDocument(file, translateCodes), AfterEconomyCommands(file, translateCodes), k);
    }
  }

  lemma CanonicalHoldsMessageKitTimerKeys(file: Document, translateCodes: string -> string)
    ensures forall k :: k in MessageKitTimerKeys ==> k in CanonicalDocument(file, translateCodes)
  {
    var before := AfterEconomyCommands(file, translateCodes);
    assert AfterMessagesKitsTimers(file, translateCodes) == MessageKitTimerWrites(before) by {
      assert LoadOrder[5] == MessagesKitsTimers;
    }
    MessageKitTimerWritesStoresItsKeys(before);
    CanonicalKeepsMessagesKitsTimers(file, translateCodes);
    forall k | k in MessageKitTimerKeys
      ensures k in CanonicalDocument(file, translateCodes)
    {
      MessageKitTimerKeysStep(k);
      assert SameEntry(CanonicalDocument(file, translateCodes), AfterMessagesKitsTimers(file, translateCodes), k);
    }
  }

  lemma CanonicalHoldsHookKeys(file: Document, translateCodes: string -> string)
    ensures forall k :: k in HookKeys ==> k in CanonicalDocument(file, translateCodes)
  {
    var before := AfterMessagesKitsTimers(file, translateCodes);
    assert AfterReportsHooks(file, translateCodes) == HookWrites(before) by {
      assert LoadOrder[6] == ReportsHooks;
    }
    HookWritesStoresItsKeys(before);
    CanonicalKeepsReportsHooks(file, translateCodes);
    forall k | k in HookKeys
      ensures k in CanonicalDocument(file, translateCodes)
    {
      HookKeysStep(k);
      assert SameEntry(CanonicalDocument(file, translateCodes), AfterReportsHooks(file, translateCodes), k);
    }
  }

  /** The enabled-arenas list is written, and so saved, when a single queue is used (line 162). */
  lemma CanonicalHoldsEnabledArenas(file: Document, translateCodes: string -> string)
    ensures !QueueSettingsOf(file).multipleQueues ==> K.EnabledArenas in CanonicalDocument(file, translateCodes)
  {
    if !QueueSettingsOf(file).multipleQueues {
      QueuesStoreEnabledArenas(file, translateCodes);
      CanonicalKeepsQueues(file, translateCodes);
      assert WrittenBy(K.EnabledArenas) == 3;
      assert SameEntry(CanonicalDocument(file, translateCodes), AfterQueues(file, translateCodes), K.EnabledArenas);
    }
  }

  /** The queue part writes the enabled-arenas list when the file asks for a single queue. */
  lemma QueuesStoreEnabledArenas(file: Document, translateCodes: string -> string)
    ensures !QueueSettingsOf(file).multipleQueues ==> K.EnabledArenas in AfterQueues(file, translateCodes)
  {
    var before := AfterSaveToggles(file, translateCodes);
    assert AfterQueues(file, translateCodes) == QueueWrites(before) by {
      assert LoadOrder[2] == Queues;
    }
    QueueReadsLoadedFile(file, translateCodes);
    QueueWritesStoresItsKeys(before);
  }

  /** A key written by one of the steps up to the hooks part is in the saved document. */
  lemma CanonicalHoldsKey(file: Document, translateCodes: string -> string, k: K.Key)
    requires WrittenBy(k) <= 7 && k != K.EnabledArenas
    ensures k in CanonicalDocument(file, translateCodes)
  {
    var step := WrittenBy(k);
    if step == 0 {
      assert k == K.Version;
      CanonicalHoldsVersion(file, translateCodes);
    } else if step == 1 {
      GeneralKeysStep(k);
      CanonicalHoldsGeneralKeys(file, translateCodes);
    } else if step == 2 {
      SaveKeysStep(k);
      CanonicalHoldsSaveKeys(file, translateCodes);
    } else if step == 3 {
      QueueKeysStep(k);
      CanonicalHoldsQueueKeys(file, translateCodes);
    } else if step == 4 {
      GameplayScoreKeysStep(k);
      CanonicalHoldsGameplayScoreKeys(file, translateCodes);
    } else if step == 5 {
      EconomyCommandKeysStep(k);
      CanonicalHoldsEconomyCommandKeys(file, translateCodes);
    } else if step == 6 {
      MessageKitTimerKeysStep(k);
      CanonicalHoldsMessageKitTimerKeys(file, translateCodes);
    } else {
      HookKeysStep(k);
      CanonicalHoldsHookKeys(file, translateCodes);
    }
  }

  /**
   * The saved document holds the version and every key the parts before the save read
   * with get-or-set, the enabled-arenas list included when a single queue is used.
   */
  lemma CanonicalHoldsGetSetKeys(file: Document, translateCodes: string -> string)
    ensures forall k :: WrittenBy(k) <= 7 && k != K.EnabledArenas ==> k in CanonicalDocument(file, translateCodes)
    ensures !QueueSettingsOf(file).multipleQueues ==> K.EnabledArenas in CanonicalDocument(file, translateCodes)
  {
    forall k | WrittenBy(k) <= 7 && k != K.EnabledArenas
      ensures k in CanonicalDocument(file, translateCodes)
    {
      CanonicalHoldsKey(file, translateCodes, k);
    }
    CanonicalHoldsEnabledArenas(file, translateCodes);
  }
}
