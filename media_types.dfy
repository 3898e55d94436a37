/**
 * The entities the media player works with: playlist items, party members,
 * play wishes and play orders, sync-status samples, and the lookups the
 * player performs on the party's lists (JavaScript `find` and `findIndex`).
 */
module MediaTypes {
  import opened Optional

  /** The issuer tag of a wish produced by the player itself rather than by a member. */
  const SYSTEM_ISSUER: string := "system"

  datatype ItemType = File | Web

  /** A playlist entry; `File` items are served by the API, `Web` items by their own url. */
  datatype MediaItem = MediaItem(id: string, itemType: ItemType, url: string, name: string)

  datatype PartyMember = PartyMember(id: string, username: string)

  datatype User = User(id: string)

  /** A party as the client sees it: its playlist, its members and the per-item "played" flags. */
  datatype Party = Party(id: string, items: seq<MediaItem>, members: seq<PartyMember>, played: map<string, bool>)

  datatype Direction = Left | Right

  /**
   * A play wish, sent by a client; the broker rebroadcasts it unchanged as the
   * play order, so both share one shape. Positions are fractions of the
   * duration, timestamps are epoch milliseconds.
   */
  datatype PlayWish = PlayWish(
    partyId: string,
    issuer: string,
    mediaItemId: string,
    orderType: ItemType,
    isPlaying: bool,
    position: real,
    timestamp: int,
    direction: Option<Direction>)

  type PlayOrder = PlayWish

  /** One member's sample in an incoming sync-status message. */
  datatype SyncSample = SyncSample(timestamp: int, position: real, isPlaying: bool, serverTimeOffset: int)

  /** Derived online status of one member. */
  datatype MemberStatus = MemberStatus(online: bool, serverTimeOffset: int)

  /** One row of the drift display: a peer and its delta to this client. */
  datatype SyncStatusReceiveMember = SyncStatusReceiveMember(id: string, username: string, delta: real)

  /** The site of a web item's url, as far as the player distinguishes them. */
  datatype Site = YouTube | Facebook | OtherSite

  /** The icon of an action message. */
  datatype Icon = ItemChange | Play | Pause | SeekLeft | SeekRight | Clock

  /** An action message: who did something, and what. */
  datatype ActionMessage = ActionMessage(text: string, icon: Icon)

  /**
   * `items.findIndex(item => item.id === id)`: the first index whose id
   * matches, or -1 when none does.
   */
  function FindIndex(items: seq<MediaItem>, id: string): (r: int)
    ensures -1 <= r < |items|
    ensures r == -1 <==> forall j :: 0 <= j < |items| ==> items[j].id != id
    ensures r >= 0 ==> items[r].id == id && forall j :: 0 <= j < r ==> items[j].id != id
  {
    if items == [] then -1
    else if items[0].id == id then 0
    else
      var k := FindIndex(items[1..], id);
      assert forall j :: 1 <= j < |items| ==> items[1..][j - 1] == items[j];
      if k == -1 then -1 else k + 1
  }

  /** `items.find(item => item.id === id)`: the first item whose id matches. */
  function FindItem(items: seq<MediaItem>, id: string): (r: Option<MediaItem>)
    ensures r.None? <==> forall j :: 0 <= j < |items| ==> items[j].id != id
    ensures r.Some? ==> r.value == items[FindIndex(items, id)]
  {
    var k := FindIndex(items, id);
    if k == -1 then None else Some(items[k])
  }

  /** `members.find(member => member.id === id)`: the first member whose id matches. */
  function FindMember(members: seq<PartyMember>, id: string): (r: Option<PartyMember>)
    ensures r.None? <==> forall j :: 0 <= j < |members| ==> members[j].id != id
    ensures r.Some? ==> exists j :: 0 <= j < |members| && members[j] == r.value && r.value.id == id
                          && forall i :: 0 <= i < j ==> members[i].id != id
  {
    if members == [] then None
    else if members[0].id == id then Some(members[0])
    else
      var r := FindMember(members[1..], id);
      assert forall j :: 1 <= j < |members| ==> members[1..][j - 1] == members[j];
      r
  }
}
