/**
 * The payloads handed to listeners when a player tries to join a queue. Both are
 * immutable: every field is final and set once by the constructor, which rejects a
 * null player (Validate.notNull throws before the object exists).
 */
module Events {
  import opened Wrappers

  /** A Bukkit Player, seen only as an opaque handle. */
  datatype Player = Player(handle: nat)

  /** Validate.notNull's IllegalArgumentException, "Player cannot be null". */
  datatype ValidationFailure = PlayerCannotBeNull

  datatype PlayerJoinQueueInfo = PlayerJoinQueueInfo(player: Player, queueFull: bool, minPlayersPresent: bool)
  {
    function GetPlayer(): Player { player }

    function IsQueueFull(): bool { queueFull }

    function AreMinPlayersPresent(): bool { minPlayersPresent }
  }

  /** The constructor of PlayerJoinQueueInfo; a `None` player is Java's null. */
  function NewPlayerJoinQueueInfo(player: Option<Player>, queueFull: bool, minPlayersPresent: bool)
    : (r: Result<PlayerJoinQueueInfo, ValidationFailure>)
    ensures r.Failure? <==> player.None?
    ensures r.Failure? ==> r.error == PlayerCannotBeNull
    ensures r.Success? ==> r.value.GetPlayer() == player.value
    ensures r.Success? ==> r.value.IsQueueFull() == queueFull
    ensures r.Success? ==> r.value.AreMinPlayersPresent() == minPlayersPresent
  {
    if player.None? then Failure(PlayerCannotBeNull)
    else Success(PlayerJoinQueueInfo(player.value, queueFull, minPlayersPresent))
  }

  /**
   * The three accessors expose the whole object: two infos that answer them alike
   * are the same info, and constructing from an info's answers rebuilds it.
   */
  lemma PlayerJoinQueueInfoAccessorsDetermine(a: PlayerJoinQueueInfo, b: PlayerJoinQueueInfo)
    ensures (a.GetPlayer() == b.GetPlayer() && a.IsQueueFull() == b.IsQueueFull()
             && a.AreMinPlayersPresent() == b.AreMinPlayersPresent()) ==> a == b
    ensures NewPlayerJoinQueueInfo(Some(a.GetPlayer()), a.IsQueueFull(), a.AreMinPlayersPresent()) == Success(a)
  {
  }

  datatype PlayerJoinSecondaryQueueInfo = PlayerJoinSecondaryQueueInfo(player: Player, queueName: Option<string>)
  {
    function GetPlayer(): Player { player }

    /** The queue name is not validated and may be null (`None`). */
    function GetQueueName(): Option<string> { queueName }
  }

  /** The constructor of PlayerJoinSecondaryQueueInfo; only the player is checked. */
  function NewPlayerJoinSecondaryQueueInfo(player: Option<Player>, queueName: Option<string>)
    : (r: Result<PlayerJoinSecondaryQueueInfo, ValidationFailure>)
    ensures r.Failure? <==> player.None?
    ensures r.Failure? ==> r.error == PlayerCannotBeNull
    ensures r.Success? ==> r.value.GetPlayer() == player.value
    ensures r.Success? ==> r.value.GetQueueName() == queueName
  {
    if player.None? then Failure(PlayerCannotBeNull)
    else Success(PlayerJoinSecondaryQueueInfo(player.value, queueName))
  }

  lemma PlayerJoinSecondaryQueueInfoAccessorsDetermine(a: PlayerJoinSecondaryQueueInfo, b: PlayerJoinSecondaryQueueInfo)
    ensures a.GetPlayer() == b.GetPlayer() && a.GetQueueName() == b.GetQueueName() ==> a == b
    ensures NewPlayerJoinSecondaryQueueInfo(Some(a.GetPlayer()), a.GetQueueName()) == Success(a)
  {
  }
}
