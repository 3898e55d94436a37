/**
 * The arithmetic of the sync procedure's finish: the one-time catch-up offset
 * of a freshly joined client, the seek target, and whether the player should
 * expect to buffer after the seek.
 */
module SyncFinish {
  import opened MediaTypes

  /**
   * The catch-up offset, as a fraction of the duration (in seconds): on the
   * first finish after joining, a playing order is projected forward by the
   * server-frame milliseconds elapsed since it was issued; otherwise zero.
   */
  function CatchUpOffset(freshlyJoined: bool, order: PlayOrder, now: int, initialServerTimeOffset: int, duration: real): (offset: real)
    requires duration != 0.0
    ensures offset != 0.0 ==> freshlyJoined && order.isPlaying
    ensures freshlyJoined && order.isPlaying ==>
              offset * (duration * 1000.0) == (now + initialServerTimeOffset - order.timestamp) as real
  {
    if freshlyJoined && order.isPlaying then
      (now + initialServerTimeOffset - order.timestamp) as real / (duration * 1000.0)
    else 0.0
  }

  /** The fractional position the player seeks to. */
  function SeekTarget(freshlyJoined: bool, order: PlayOrder, now: int, initialServerTimeOffset: int, duration: real): (r: real)
    requires duration != 0.0
    ensures !(freshlyJoined && order.isPlaying) ==> r == order.position
    ensures freshlyJoined && order.isPlaying ==>
              (r - order.position) * (duration * 1000.0) == (now + initialServerTimeOffset - order.timestamp) as real
  {
    order.position + CatchUpOffset(freshlyJoined, order, now, initialServerTimeOffset, duration)
  }

  /**
   * In milliseconds of playback, the catch-up seek lands where the order's
   * timeline has got to by now; any other finish seeks to the order's position.
   */
  lemma SeekTargetFollowsTimeline(freshlyJoined: bool, order: PlayOrder, now: int, initialServerTimeOffset: int, duration: real)
    requires duration != 0.0
    ensures freshlyJoined && order.isPlaying ==>
              SeekTarget(freshlyJoined, order, now, initialServerTimeOffset, duration) * (duration * 1000.0)
              == order.position * (duration * 1000.0) + (now + initialServerTimeOffset - order.timestamp) as real
    ensures !(freshlyJoined && order.isPlaying) ==>
              SeekTarget(freshlyJoined, order, now, initialServerTimeOffset, duration) == order.position
  {
  }

  /**
   * A client that joined 4 s after a playing order at 10% of a 120 s item
   * seeks to 0.10 + 4000/120000.
   */
  lemma CatchUpExample(order: PlayOrder, t: int)
    requires order.timestamp == t && order.isPlaying && order.position == 0.1
    ensures SeekTarget(true, order, t + 4000, 0, 120.0) == 0.1 + 1.0 / 30.0
    ensures SeekTarget(false, order, t + 4000, 0, 120.0) == 0.1
  {
  }

  /**
   * Whether the player is put into the buffering state after the seek: only
   * for a playing web order, and then for the sites known to stall on seek or
   * for an item of type file.
   */
  function BufferingAfterSync(order: PlayOrder, site: Site, item: MediaItem): (r: bool)
    ensures r ==> order.isPlaying && order.orderType == Web
    ensures order.isPlaying && order.orderType == Web && (site == YouTube || site == Facebook) ==> r
    ensures order.isPlaying && order.orderType == Web && item.itemType == File ==> r
  {
    order.isPlaying && order.orderType == Web && (site == YouTube || site == Facebook || item.itemType == File)
  }

  /**
   * When the playing item has the order's type, as it does when it is the
   * ordered item, the file clause never applies: only playing YouTube and
   * Facebook items buffer.
   */
  lemma BufferingOnlyForStallingSites(order: PlayOrder, site: Site, item: MediaItem)
    requires item.itemType == order.orderType
    ensures BufferingAfterSync(order, site, item) <==>
              order.isPlaying && order.orderType == Web && (site == YouTube || site == Facebook)
  {
  }
}
