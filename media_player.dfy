/**
 * The media player container: its local player state, the freshly-joined
 * flag, and the global-state slots it writes, updated by the socket handlers
 * (play order, sync status), the sync-finish effect and the player's event
 * handlers. Every update of the player state goes through the reducer, as a
 * dispatch of a partial state does.
 */
module MediaPlayerContainer {
  import opened Optional
  import opened MediaTypes
  import opened PlayerStates
  import opened PlayOrders
  import opened SyncStatus
  import opened SyncFinish
  import opened PlayWishes

  /** Translation keys of the error messages the end-of-item handler reports. */
  const METADATA_UPDATE_ERROR: string := "errors.metadataUpdateError"
  const API_RESPONSE_MESSAGES: string := "apiResponseMessages."

  /** How the metadata PUT ended: success, a refusal with the API's message, or an exception. */
  datatype PutOutcome = PutSucceeded | PutRejected(msg: string) | PutFailed

  class MediaPlayer {
    /** The API route the file urls are built on. */
    const apiRoute: string
    /** This client's server time offset, measured once when it connected. */
    const initialServerTimeOffset: int

    var state: PlayerState
    var freshlyJoined: bool

    // Global-state slots the component writes.
    var errorMessage: Option<string>
    var actionMessage: Option<ActionMessage>
    var globalPlayingItem: Option<MediaItem>
    var syncStatus: seq<SyncStatusReceiveMember>
    var memberStatus: map<string, MemberStatus>

    /** The playlist index is a found index or -1, as `findIndex` yields. */
    ghost predicate Valid()
      reads this
    {
      state.playlistIndex >= -1
    }

    /** The first render; the effects that run on mount are the methods called next (`PlayingItemEffect`). */
    constructor (apiRoute: string, initialServerTimeOffset: int, playingItem: Option<MediaItem>)
      ensures Valid()
      ensures this.apiRoute == apiRoute && this.initialServerTimeOffset == initialServerTimeOffset
      ensures state == InitialPlayerState(playingItem) && freshlyJoined
      ensures errorMessage.None? && actionMessage.None? && globalPlayingItem == playingItem
      ensures syncStatus == [] && memberStatus == map[]
    {
      this.apiRoute := apiRoute;
      this.initialServerTimeOffset := initialServerTimeOffset;
      state := InitialPlayerState(playingItem);
      freshlyJoined := true;
      errorMessage, actionMessage, globalPlayingItem := None, None, playingItem;
      syncStatus, memberStatus := [], map[];
    }

    /** Dispatches a partial player state to the reducer. */
    method SetPlayerState(u: PlayerStateUpdate)
      requires Valid()
      requires u.playlistIndex.Some? ==> u.playlistIndex.value >= -1
      modifies this`state
      ensures Valid()
      ensures state == PlayerStateReducer(old(state), u)
    {
      state := PlayerStateReducer(state, u);
    }

    /**
     * Points the playlist index at the first playlist entry with the item's id
     * (-1 when there is none); does nothing without a party or with an empty
     * playlist.
     */
    method UpdatePlaylistIndex(party: Option<Party>, item: MediaItem)
      requires Valid()
      modifies this`state
      ensures Valid()
      ensures party.Some? && party.value.items != [] ==>
                state == old(state).(playlistIndex := FindIndex(party.value.items, item.id))
      ensures party.None? || party.value.items == [] ==> state == old(state)
    {
      if party.Some? && |party.value.items| > 0 {
        var index := FindIndex(party.value.items, item.id);
        SetPlayerState(NoChange.(playlistIndex := Some(index)));
      }
    }

    /**
     * The effect that runs on mount and whenever the player's item changes:
     * with an item, the playlist index is pointed at it. After it, the index
     * names the playing item's entry, or is -1 when the playlist lacks it.
     */
    method PlayingItemEffect(party: Option<Party>)
      requires Valid()
      modifies this`state
      ensures Valid()
      ensures old(state).playingItem.Some? && party.Some? && party.value.items != [] ==>
                state == old(state).(playlistIndex := FindIndex(party.value.items, old(state).playingItem.value.id))
      ensures old(state).playingItem.None? || party.None? || party.value.items == [] ==> state == old(state)
      ensures state.playingItem.Some? && party.Some? && party.value.items != [] && state.playlistIndex >= 0 ==>
                state.playlistIndex < |party.value.items| &&
                party.value.items[state.playlistIndex].id == state.playingItem.value.id
    {
      if state.playingItem.Some? {
        UpdatePlaylistIndex(party, state.playingItem.value);
      }
    }

    /**
     * The play-order handler. The order always replaces the held one and starts
     * syncing; when its item is in the playlist, the item, the source url and
     * the playlist index follow it, and a member issuer gets an action message
     * classified against the state before the order. An order for an unknown
     * item changes nothing else.
     */
    method ApplyPlayOrder(order: PlayOrder, party: Party)
      requires Valid()
      modifies this`state, this`actionMessage, this`globalPlayingItem
      ensures Valid()
      ensures state.playOrder == Some(order) && state.isSyncing
      ensures FindItem(party.items, order.mediaItemId).None? ==>
                && state == old(state).(playOrder := Some(order), isSyncing := true)
                && actionMessage == old(actionMessage)
                && globalPlayingItem == old(globalPlayingItem)
      ensures FindItem(party.items, order.mediaItemId).Some? ==>
                var item := FindItem(party.items, order.mediaItemId).value;
                var message := ActionMessageFor(order, party.members, ActionIcon(order, old(state).playingItem, old(state).isPlaying));
                && state == old(state).(playOrder := Some(order), isSyncing := true, playingItem := Some(item),
                                        sourceUrl := SourceUrl(apiRoute, order, item, party.id),
                                        playlistIndex := FindIndex(party.items, order.mediaItemId))
                && actionMessage == (if message.Some? then message else old(actionMessage))
                && globalPlayingItem == Some(item)
    {
      SetPlayerState(NoChange.(playOrder := Some(order), isSyncing := Some(true)));
      var playOrderItem := FindItem(party.items, order.mediaItemId);
      if playOrderItem.Some? {
        var item := playOrderItem.value;
        var newSourceUrl := SourceUrl(apiRoute, order, item, party.id);
        var icon := ActionIcon(order, state.playingItem, state.isPlaying);
        var message := ActionMessageFor(order, party.members, icon);
        if message.Some? {
          actionMessage := message;
        }
        SetPlayerState(NoChange.(playingItem := Some(item), sourceUrl := Some(newSourceUrl)));
        globalPlayingItem := Some(item);
        UpdatePlaylistIndex(Some(party), item);
      }
    }

    /** The sync-status handler: publishes the member statuses and the peers' delta rows. */
    method ReceiveSyncStatus(incoming: map<string, SyncSample>, ids: seq<string>, user: User, party: Party,
                             now: int, delta: string -> real)
      requires ObjectKeys(incoming, ids)
      modifies this`syncStatus, this`memberStatus
      ensures memberStatus == MemberStatuses(incoming, user.id, now)
      ensures syncStatus == PeerDeltas(ids, incoming, user.id, party.members, delta)
    {
      memberStatus, syncStatus := ComputeSyncStatus(incoming, ids, user.id, party.members, now, delta);
    }

    /**
     * The sync procedure's finish, run while the player is mounted, the
     * duration is known and an order for a playing item is being synced: seeks
     * to the order's position (plus the catch-up offset on the first finish
     * after joining), reports a failed seek, and settles the flags.
     * `site` is the site of the playing item's url; `seekError` is the failure
     * of the seek, if it failed.
     */
    method FinishSync(playerMounted: bool, now: int, site: Site, seekError: Option<string>) returns (seekTarget: Option<real>)
      requires Valid()
      modifies this`state, this`freshlyJoined, this`errorMessage
      ensures Valid()
      ensures !(playerMounted && old(state).duration != 0.0 && old(state).playOrder.Some?
                && old(state).isSyncing && old(state).playingItem.Some?) ==>
                && seekTarget.None? && state == old(state)
                && freshlyJoined == old(freshlyJoined) && errorMessage == old(errorMessage)
      ensures playerMounted && old(state).duration != 0.0 && old(state).playOrder.Some?
              && old(state).isSyncing && old(state).playingItem.Some? ==>
                var order := old(state).playOrder.value;
                && seekTarget == Some(SeekTarget(old(freshlyJoined), order, now, initialServerTimeOffset, old(state).duration))
                && !freshlyJoined
                && errorMessage == (if seekError.Some? then seekError else old(errorMessage))
                && state == old(state).(isSeeking := false, isPlaying := order.isPlaying, isSyncing := false,
                                        isBuffering := BufferingAfterSync(order, site, old(state).playingItem.value))
    {
      seekTarget := None;
      if playerMounted && state.duration != 0.0 && state.playOrder.Some? && state.isSyncing && state.playingItem.Some? {
        var order := state.playOrder.value;
        var offset := 0.0;
        if freshlyJoined {
          if order.isPlaying {
            offset := (now + initialServerTimeOffset - order.timestamp) as real / (state.duration * 1000.0);
          }
          freshlyJoined := false;
        }
        seekTarget := Some(order.position + offset);
        if seekError.Some? {
          errorMessage := seekError;
        }
        SetPlayerState(NoChange.(isSeeking := Some(false), isPlaying := Some(order.isPlaying), isSyncing := Some(false),
                                 isBuffering := Some(BufferingAfterSync(order, site, state.playingItem.value))));
      }
    }

    /** The player reports the duration of the loaded item. */
    method HandleDuration(duration: real)
      requires Valid()
      modifies this`state
      ensures Valid()
      ensures state == old(state).(duration := duration)
    {
      SetPlayerState(NoChange.(duration := Some(duration)));
    }

    /** The player reports progress: the position follows it unless the user is dragging the seek bar. */
    method HandleProgress(played: real)
      requires Valid()
      modifies this`state
      ensures Valid()
      ensures old(state).isSeeking ==> state == old(state)
      ensures !old(state).isSeeking ==> state == old(state).(position := played)
    {
      if !state.isSeeking {
        SetPlayerState(NoChange.(position := Some(played)));
      }
    }

    /**
     * Play/pause: a wish for the playing item with the play state flipped, at
     * the player's current position when it can report one.
     */
    method HandlePlayPause(session: Session, currentPosition: Option<real>, now: int) returns (wish: Option<PlayWish>)
      ensures state.playingItem.None? ==> wish.None?
      ensures state.playingItem.Some? ==>
                wish == EmitPlayWish(session, state.playingItem.value, !state.isPlaying, currentPosition, false, None, state.position, now)
      ensures wish.Some? ==> wish.value.isPlaying == !state.isPlaying && wish.value.direction.None?
    {
      wish := None;
      if state.playingItem.Some? {
        if state.isPlaying {
          wish := EmitPlayWish(session, state.playingItem.value, false, currentPosition, false, None, state.position, now);
        } else {
          wish := EmitPlayWish(session, state.playingItem.value, true, currentPosition, false, None, state.position, now);
        }
      }
    }

    /** The user grabs the seek bar: progress reports stop moving the position. */
    method HandleSeekMouseDown()
      requires Valid()
      modifies this`state
      ensures Valid()
      ensures state == old(state).(isSeeking := true)
    {
      SetPlayerState(NoChange.(isSeeking := Some(true)));
    }

    /** The user drags the seek bar: the position is local only. */
    method HandleSeekChange(value: real)
      requires Valid()
      modifies this`state
      ensures Valid()
      ensures state == old(state).(position := value)
    {
      SetPlayerState(NoChange.(position := Some(value)));
    }

    /** The user releases the seek bar: a wish for the released position with the current play state. */
    method HandleSeekMouseUp(session: Session, value: real, now: int) returns (wish: Option<PlayWish>)
      ensures state.playingItem.None? ==> wish.None?
      ensures state.playingItem.Some? ==>
                wish == EmitPlayWish(session, state.playingItem.value, state.isPlaying, Some(value), false, None, state.position, now)
    {
      wish := None;
      if state.playingItem.Some? {
        wish := EmitPlayWish(session, state.playingItem.value, state.isPlaying, Some(value), false, None, state.position, now);
      }
    }

    /** The player is ready: a paused player stops buffering. */
    method HandleReady()
      requires Valid()
      modifies this`state
      ensures Valid()
      ensures state == if old(state).isPlaying then old(state) else old(state).(isBuffering := false)
    {
      if !state.isPlaying {
        SetPlayerState(NoChange.(isBuffering := Some(false)));
      }
    }

    /** The player has finished buffering. */
    method HandleBufferEnd()
      requires Valid()
      modifies this`state
      ensures Valid()
      ensures state == old(state).(isBuffering := false)
    {
      SetPlayerState(NoChange.(isBuffering := Some(false)));
    }

    /**
     * The item has ended: a system wish for the end-of-item target at position
     * 0, a local pause when the playlist starts over, and the metadata PUT that
     * marks the item as played, whose outcome is `putOutcome`. With an empty
     * playlist and a user present the wish is built for a missing item and the
     * handler stops with an exception before changing anything.
     */
    method HandleEnd(session: Session, now: int, putOutcome: PutOutcome)
      returns (wish: Option<PlayWish>, metadataPut: Option<map<string, bool>>, partyUpdateEmitted: bool)
      requires Valid()
      modifies this`state, this`errorMessage
      ensures Valid()
      ensures !(session.socketConnected && session.party.Some?)
              || (session.party.value.items == [] && session.user.Some?) ==>
                && wish.None? && metadataPut.None? && !partyUpdateEmitted
                && state == old(state) && errorMessage == old(errorMessage)
      ensures session.socketConnected && session.party.Some?
              && !(session.party.value.items == [] && session.user.Some?) ==>
                var party := session.party.value;
                var target := EndOfItemTarget(party.items, old(state).playlistIndex, old(state).isPlaying);
                && wish == (if target.Some? then EmitPlayWish(session, target.value.0, target.value.1, Some(0.0), true, None, old(state).position, now)
                            else None)
                && state == (if old(state).playlistIndex + 1 < |party.items| then old(state) else old(state).(isPlaying := false))
                && metadataPut == (if old(state).playingItem.Some? then Some(MarkPlayed(party.played, old(state).playingItem.value.id)) else None)
                && partyUpdateEmitted == (old(state).playingItem.Some? && putOutcome.PutSucceeded?)
                && errorMessage == (if old(state).playingItem.None? then old(errorMessage)
                                    else match putOutcome
                                         case PutSucceeded => old(errorMessage)
                                         case PutRejected(msg) => Some(API_RESPONSE_MESSAGES + msg)
                                         case PutFailed => Some(METADATA_UPDATE_ERROR))
    {
      wish, metadataPut, partyUpdateEmitted := None, None, false;
      if session.socketConnected && session.party.Some? {
        var party := session.party.value;
        if |party.items| > state.playlistIndex + 1 {
          wish := EmitPlayWish(session, party.items[state.playlistIndex + 1], state.isPlaying, Some(0.0), true, None, state.position, now);
        } else {
          if |party.items| == 0 && session.user.Some? {
            // items[0] is undefined and building the wish dereferences it
            return;
          }
          if |party.items| > 0 {
            wish := EmitPlayWish(session, party.items[0], false, Some(0.0), true, None, state.position, now);
          }
          SetPlayerState(NoChange.(isPlaying := Some(false)));
        }
        if state.playingItem.Some? {
          metadataPut := Some(MarkPlayed(party.played, state.playingItem.value.id));
          match putOutcome {
            case PutSucceeded =>
              partyUpdateEmitted := true;
            case PutRejected(msg) =>
              errorMessage := Some(API_RESPONSE_MESSAGES + msg);
            case PutFailed =>
              errorMessage := Some(METADATA_UPDATE_ERROR);
          }
        }
      }
    }
  }

  /**
   * Orders supersede each other by arrival, not by timestamp: whichever of two
   * orders is applied last is the one held, even when it is the older one.
   */
  method LatestArrivalWins(player: MediaPlayer, first: PlayOrder, second: PlayOrder, party: Party)
    requires player.Valid()
    modifies player
    ensures player.Valid()
    ensures player.state.playOrder == Some(second) && player.state.isSyncing
  {
    player.ApplyPlayOrder(first, party);
    player.ApplyPlayOrder(second, party);
  }
}
