/**
 * Play wishes: how the player builds the wish it sends, the end-of-item
 * policy that picks the next wish, and the "played" metadata update.
 */
module PlayWishes {
  import opened Optional
  import opened MediaTypes
  import opened PlayOrders

  /** What the component can see of its connection: the socket, the party and the user. */
  datatype Session = Session(socketConnected: bool, party: Option<Party>, user: Option<User>)

  /**
   * The wish the player emits for `item`, or nothing when the socket, the party
   * or the user is missing. It is issued by the user unless `noIssuer` is set,
   * positioned at `newPosition` when given and at the current position
   * otherwise, and carries a direction only when one was given.
   */
  function EmitPlayWish(session: Session, item: MediaItem, isPlaying: bool, newPosition: Option<real>,
                        noIssuer: bool, direction: Option<Direction>, currentPosition: real, now: int): (r: Option<PlayWish>)
    ensures r.Some? <==> session.socketConnected && session.party.Some? && session.user.Some?
    ensures r.Some? ==> r.value.partyId == session.party.value.id && r.value.timestamp == now
    ensures r.Some? ==> r.value.mediaItemId == item.id && r.value.orderType == item.itemType && r.value.isPlaying == isPlaying
    ensures r.Some? && noIssuer ==> r.value.issuer == SYSTEM_ISSUER
    ensures r.Some? && !noIssuer ==> r.value.issuer == session.user.value.id
    ensures r.Some? && newPosition.Some? ==> r.value.position == newPosition.value
    ensures r.Some? && newPosition.None? ==> r.value.position == currentPosition
    ensures r.Some? ==> r.value.direction == direction
  {
    if session.socketConnected && session.party.Some? && session.user.Some? then
      Some(PlayWish(
        session.party.value.id,
        if noIssuer then SYSTEM_ISSUER else session.user.value.id,
        item.id,
        item.itemType,
        isPlaying,
        if newPosition.Some? then newPosition.value else currentPosition,
        now,
        direction))
    else None
  }

  /**
   * A wish comes back as the order that carries the action message: a user's
   * wish is attributed to the user exactly when the user is a party member,
   * and a system wish is never attributed to anyone.
   */
  lemma WishAttribution(session: Session, item: MediaItem, isPlaying: bool, newPosition: Option<real>,
                        noIssuer: bool, direction: Option<Direction>, currentPosition: real, now: int,
                        members: seq<PartyMember>, icon: Icon)
    requires forall j :: 0 <= j < |members| ==> members[j].id != SYSTEM_ISSUER
    requires session.socketConnected && session.party.Some? && session.user.Some?
    ensures var w := EmitPlayWish(session, item, isPlaying, newPosition, noIssuer, direction, currentPosition, now).value;
            ActionMessageFor(w, members, icon).Some? <==>
              !noIssuer && exists j :: 0 <= j < |members| && members[j].id == session.user.value.id
  {
  }

  /**
   * The end-of-item policy: the next playlist item with the current play
   * state, or, after the last item, the first item paused. Nothing when the
   * playlist is empty.
   */
  function EndOfItemTarget(items: seq<MediaItem>, playlistIndex: int, isPlaying: bool): (r: Option<(MediaItem, bool)>)
    requires playlistIndex >= -1
    ensures r.None? <==> items == []
    ensures playlistIndex + 1 < |items| ==> r == Some((items[playlistIndex + 1], isPlaying))
    ensures 0 < |items| <= playlistIndex + 1 ==> r == Some((items[0], false))
  {
    if |items| > playlistIndex + 1 then Some((items[playlistIndex + 1], isPlaying))
    else if |items| > 0 then Some((items[0], false))
    else None
  }

  /** In a playlist whose ids are distinct, the first index of an item's id is its own index. */
  lemma FindIndexOfDistinct(items: seq<MediaItem>, k: int)
    requires forall i, j :: 0 <= i < j < |items| ==> items[i].id != items[j].id
    requires 0 <= k < |items|
    ensures FindIndex(items, items[k].id) == k
  {
  }

  /**
   * Once the end-of-item order comes back, the playlist index moves one step
   * forward, wrapping from the last item to the first.
   */
  lemma EndOfItemAdvancesCyclically(items: seq<MediaItem>, playlistIndex: int, isPlaying: bool)
    requires forall i, j :: 0 <= i < j < |items| ==> items[i].id != items[j].id
    requires -1 <= playlistIndex && items != []
    ensures var target := EndOfItemTarget(items, playlistIndex, isPlaying).value.0;
            FindIndex(items, target.id) == if playlistIndex + 1 < |items| then playlistIndex + 1 else 0
  {
  }

  /** The played flags with `itemId` marked as played and every other flag kept. */
  function MarkPlayed(played: map<string, bool>, itemId: string): (r: map<string, bool>)
    ensures r.Keys == played.Keys + {itemId}
    ensures r[itemId]
    ensures forall id :: id in played && id != itemId ==> r[id] == played[id]
  {
    played[itemId := true]
  }

  /** Marking an item twice is the same as marking it once. */
  lemma MarkPlayedIdempotent(played: map<string, bool>, itemId: string)
    ensures MarkPlayed(MarkPlayed(played, itemId), itemId) == MarkPlayed(played, itemId)
  {
  }
}
