/**
 * The keys of the main settings file, one per constant of MainConfigKeys.
 * The dotted strings behind those constants are not part of this model: a key is
 * identified by the constant it stands for, so two different constants never name
 * the same entry. Keys that the plugin does not know are kept as `Other(path)`.
 */
module MainConfigKeys {

  datatype Key =
    | Version
    | Debug
    | ReportStatistics
    | SkipUuidCheck
    | ArenaOrder
    | MessagePrefix
    | SaveInventory
    | SaveExperience
    | SavePositionGamemodeHealth
    | EnableMultipleQueues
    | QueueDescriptions
    | EnabledArenas
    | Locale
    | ArenaGamerules
    | RespawnPlayersImmediately
    | ScoreEnable
    | ScoreWinDiff
    | ScoreDeathDiff
    | ScoreKillDiff
    | ScoreSaveInterval
    | ScoreUseSql
    | ScoreSqlHost
    | ScoreSqlPort
    | ScoreSqlDatabase
    | ScoreSqlUsername
    | ScoreSqlPassword
    | ScoreSqlUpdateIndividualsRankInterval
    | EconomyEnable
    | EconomyKillReward
    | EconomyWinReward
    | EconomyMessage
    | ArenaDistanceApart
    | ArenaCopyingBlockSize
    | CommandWhitelistEnabled
    | CommandWhitelistIsBlacklist
    | CommandWhitelistCommands
    | JoinSignLines
    | LimitStartMessagesToArena
    | LimitDeathMessagesToArena
    | LimitEndMessagesToArena
    | LimitStartTimerMessagesToArena
    | KitGuiShowUnavailableKits
    | KitGuiReplaceKitCommand
    | KitGuiAutoShowOnJoin
    | TimeTillStartAfterMaxPlayers
    | TimeTillStartAfterMinPlayers
    | TimeBeforeGameStartsToCopyArena
    | InGamePlayerFreezeTime
    | StartTimerMessageTimes
    | DisableReport
    | DisableScoreRecovery
    | HooksMultiverseCore
    | HooksWorldedit
    | HooksMultiinvWorkaround
    | HooksForceMultiinvWorkaround
    | DeveloperOptions
    | DeprecatedChatPrefix
    | DeprecatedPrefixChat
    | Other(path: string)

  /** The keys MainConfigKeys.Deprecated lists; load() deletes them. */
  const DeprecatedKeys: set<Key> := {DeprecatedChatPrefix, DeprecatedPrefixChat}

  /** The keys load() only reads, through getConfig().getBoolean, and never writes back. */
  const ReadOnlyKeys: set<Key> := {SkipUuidCheck, DisableReport, DisableScoreRecovery, DeveloperOptions}
}

/**
 * The defaults of MainConfigDefaults. Their values are not part of this model and
 * are left uninterpreted, with three exceptions. The current version is 2: load()
 * accepts versions up to 2 and then writes the default back. The source's own comment
 * names 301 and 31 as "non-default" save intervals, so the defaults are 300 with SQL
 * and 30 without; all the model needs of those two is that they differ.
 */
module MainConfigDefaults {

  const Version: int := 2
  const Debug: bool
  const ReportStatistics: bool
  const SkipUuidCheck: bool
  const ArenaOrder: string
  const MessagePrefix: string
  const SaveInventory: bool
  const EnableMultipleQueues: bool
  const QueueDescriptions: map<string, seq<string>>
  const EnabledArenas: seq<string>
  const Locale: string
  const ArenaGamerules: map<string, string>
  const RespawnPlayersImmediately: bool

  const ScoreEnable: bool
  const ScoreWinDiff: int
  const ScoreDeathDiff: int
  const ScoreKillDiff: int
  // Placeholders: only the difference between the two save-interval defaults matters.
  const ScoreSaveInterval: int := 30
  const ScoreSaveIntervalWithSql: int := 300
  const ScoreUseSql: bool
  const ScoreSqlHost: string
  const ScoreSqlPort: int
  const ScoreSqlDatabase: string
  const ScoreSqlUsername: string
  const ScoreSqlPassword: string
  const ScoreSqlUpdateIndividualsRankInterval: int

  const EconomyEnable: bool
  const EconomyKillReward: int
  const EconomyWinReward: int
  const EconomyMessage: bool

  const ArenaDistanceApart: int
  const ArenaCopyingBlockSize: int

  const CommandWhitelistEnabled: bool
  const CommandWhitelistIsBlacklist: bool
  const CommandWhitelistCommands: seq<string>

  const JoinSignLines: seq<string>

  const LimitStartMessagesToArena: bool
  const LimitDeathMessagesToArena: bool
  const LimitEndMessagesToArena: bool
  const LimitStartTimerMessagesToArena: bool

  const KitGuiShowUnavailableKits: bool
  const KitGuiReplaceKitCommand: bool
  const KitGuiAutoShowOnJoin: bool

  const TimeTillStartAfterMaxPlayers: int
  const TimeTillStartAfterMinPlayers: int
  const TimeBeforeGameStartsToCopyArena: int
  const InGamePlayerFreezeTime: int
  const StartTimerMessageTimes: seq<int>

  const DisableReport: bool
  const DisableScoreRecovery: bool

  const HooksMultiverseCore: bool
  const HooksWorldedit: bool
  const HooksMultiinvWorkaroundWhenFound: bool
  const HooksForceMultiinvWorkaround: bool

  const DeveloperOptions: bool
}
