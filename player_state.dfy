/**
 * The player's local state record and its reducer, which merges a partial
 * update over the current state (`{ ...playerState, ...updatedProperties }`).
 * The UI-only properties (focus, full screen, volume) are not part of this model.
 */
module PlayerStates {
  import opened Optional
  import opened MediaTypes

  datatype PlayerState = PlayerState(
    playOrder: Option<PlayOrder>,
    isPlaying: bool,
    isSeeking: bool,
    isSyncing: bool,
    isBuffering: bool,
    playlistIndex: int,
    position: real,
    playingItem: Option<MediaItem>,
    duration: real,
    sourceUrl: string)

  /** A partial player state: `Some` marks a supplied property, `None` an absent one. */
  datatype PlayerStateUpdate = PlayerStateUpdate(
    playOrder: Option<PlayOrder>,
    isPlaying: Option<bool>,
    isSeeking: Option<bool>,
    isSyncing: Option<bool>,
    isBuffering: Option<bool>,
    playlistIndex: Option<int>,
    position: Option<real>,
    playingItem: Option<MediaItem>,
    duration: Option<real>,
    sourceUrl: Option<string>)

  /** The update that supplies no property; handlers extend it with `.(field := Some(v))`. */
  const NoChange: PlayerStateUpdate :=
    PlayerStateUpdate(None, None, None, None, None, None, None, None, None, None)

  /** The state the component starts in, with the playing item taken over from the global state. */
  function InitialPlayerState(playingItem: Option<MediaItem>): (s: PlayerState)
    ensures s.playOrder.None? && !s.isPlaying && !s.isSeeking && !s.isSyncing && !s.isBuffering
    ensures s.playlistIndex == 0 && s.position == 0.0 && s.duration == 0.0
    ensures s.sourceUrl == "" && s.playingItem == playingItem
  {
    PlayerState(None, false, false, false, false, 0, 0.0, playingItem, 0.0, "")
  }

  /**
   * The reducer: every supplied property of `u` replaces the current one, every
   * other property keeps its current value.
   */
  function PlayerStateReducer(s: PlayerState, u: PlayerStateUpdate): (r: PlayerState)
    ensures u.playOrder.Some? ==> r.playOrder == u.playOrder
    ensures u.playOrder.None? ==> r.playOrder == s.playOrder
    ensures u.isPlaying.Some? ==> r.isPlaying == u.isPlaying.value
    ensures u.isPlaying.None? ==> r.isPlaying == s.isPlaying
    ensures u.isSeeking.Some? ==> r.isSeeking == u.isSeeking.value
    ensures u.isSeeking.None? ==> r.isSeeking == s.isSeeking
    ensures u.isSyncing.Some? ==> r.isSyncing == u.isSyncing.value
    ensures u.isSyncing.None? ==> r.isSyncing == s.isSyncing
    ensures u.isBuffering.Some? ==> r.isBuffering == u.isBuffering.value
    ensures u.isBuffering.None? ==> r.isBuffering == s.isBuffering
    ensures u.playlistIndex.Some? ==> r.playlistIndex == u.playlistIndex.value
    ensures u.playlistIndex.None? ==> r.playlistIndex == s.playlistIndex
    ensures u.position.Some? ==> r.position == u.position.value
    ensures u.position.None? ==> r.position == s.position
    ensures u.playingItem.Some? ==> r.playingItem == u.playingItem
    ensures u.playingItem.None? ==> r.playingItem == s.playingItem
    ensures u.duration.Some? ==> r.duration == u.duration.value
    ensures u.duration.None? ==> r.duration == s.duration
    ensures u.sourceUrl.Some? ==> r.sourceUrl == u.sourceUrl.value
    ensures u.sourceUrl.None? ==> r.sourceUrl == s.sourceUrl
  {
    PlayerState(
      if u.playOrder.Some? then u.playOrder else s.playOrder,
      Supplied(u.isPlaying, s.isPlaying),
      Supplied(u.isSeeking, s.isSeeking),
      Supplied(u.isSyncing, s.isSyncing),
      Supplied(u.isBuffering, s.isBuffering),
      Supplied(u.playlistIndex, s.playlistIndex),
      Supplied(u.position, s.position),
      if u.playingItem.Some? then u.playingItem else s.playingItem,
      Supplied(u.duration, s.duration),
      Supplied(u.sourceUrl, s.sourceUrl))
  }

  /** The supplied value of a property, or the current one when it is not supplied. */
  function Supplied<T>(supplied: Option<T>, current: T): (r: T)
    ensures supplied.Some? ==> r == supplied.value
    ensures supplied.None? ==> r == current
  {
    if supplied.Some? then supplied.value else current
  }

  /** The later of two optional property values, when it is supplied. */
  function Later<T>(first: Option<T>, second: Option<T>): (r: Option<T>)
    ensures second.Some? ==> r == second
    ensures second.None? ==> r == first
  {
    if second.Some? then second else first
  }

  /** The single update equivalent to `u1` followed by `u2`: `u2`'s properties win. */
  function Then(u1: PlayerStateUpdate, u2: PlayerStateUpdate): PlayerStateUpdate
  {
    PlayerStateUpdate(
      Later(u1.playOrder, u2.playOrder),
      Later(u1.isPlaying, u2.isPlaying),
      Later(u1.isSeeking, u2.isSeeking),
      Later(u1.isSyncing, u2.isSyncing),
      Later(u1.isBuffering, u2.isBuffering),
      Later(u1.playlistIndex, u2.playlistIndex),
      Later(u1.position, u2.position),
      Later(u1.playingItem, u2.playingItem),
      Later(u1.duration, u2.duration),
      Later(u1.sourceUrl, u2.sourceUrl))
  }

  /** No property is supplied by both updates. */
  predicate Disjoint(u1: PlayerStateUpdate, u2: PlayerStateUpdate)
  {
    && (u1.playOrder.None? || u2.playOrder.None?)
    && (u1.isPlaying.None? || u2.isPlaying.None?)
    && (u1.isSeeking.None? || u2.isSeeking.None?)
    && (u1.isSyncing.None? || u2.isSyncing.None?)
    && (u1.isBuffering.None? || u2.isBuffering.None?)
    && (u1.playlistIndex.None? || u2.playlistIndex.None?)
    && (u1.position.None? || u2.position.None?)
    && (u1.playingItem.None? || u2.playingItem.None?)
    && (u1.duration.None? || u2.duration.None?)
    && (u1.sourceUrl.None? || u2.sourceUrl.None?)
  }

  /** Dispatching the empty update leaves the state as it is. */
  lemma ReducerNoChange(s: PlayerState)
    ensures PlayerStateReducer(s, NoChange) == s
  {
  }

  /** Dispatching the same update twice is the same as dispatching it once. */
  lemma ReducerIdempotent(s: PlayerState, u: PlayerStateUpdate)
    ensures PlayerStateReducer(PlayerStateReducer(s, u), u) == PlayerStateReducer(s, u)
  {
  }

  /**
   * Two dispatches in a row equal one dispatch of the merged update in which
   * the later properties win.
   */
  lemma ReducerSequence(s: PlayerState, u1: PlayerStateUpdate, u2: PlayerStateUpdate)
    ensures PlayerStateReducer(PlayerStateReducer(s, u1), u2) == PlayerStateReducer(s, Then(u1, u2))
  {
    var a, b := PlayerStateReducer(PlayerStateReducer(s, u1), u2), PlayerStateReducer(s, Then(u1, u2));
    assert a.playOrder == b.playOrder;
    assert a.isPlaying == b.isPlaying;
    assert a.isSeeking == b.isSeeking;
    assert a.isSyncing == b.isSyncing;
    assert a.isBuffering == b.isBuffering;
    assert a.playlistIndex == b.playlistIndex;
    assert a.position == b.position;
    assert a.playingItem == b.playingItem;
    assert a.duration == b.duration;
    assert a.sourceUrl == b.sourceUrl;
  }

  /** Updates that supply disjoint properties commute. */
  lemma ReducerDisjointCommute(s: PlayerState, u1: PlayerStateUpdate, u2: PlayerStateUpdate)
    requires Disjoint(u1, u2)
    ensures PlayerStateReducer(PlayerStateReducer(s, u1), u2) == PlayerStateReducer(PlayerStateReducer(s, u2), u1)
  {
  }
}
