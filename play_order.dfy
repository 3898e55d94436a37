/**
 * The pure parts of applying a play order: the player source url of the
 * ordered item, the icon that classifies the order for the action message,
 * and the attribution of that message to the issuing member.
 */
module PlayOrders {
  import opened Optional
  import opened MediaTypes

  /** The path segment and query key of the API route that streams a party's file items. */
  const FILE_PATH: string := "file/"
  const PARTY_QUERY: string := "?party="

  /** The url under which the API serves file item `itemId` to the members of party `partyId`. */
  function FileRoute(apiRoute: string, itemId: string, partyId: string): (r: string)
    ensures '?' !in itemId ==> ParseFileRoute(apiRoute, r) == Some((itemId, partyId))
  {
    var url := apiRoute + FILE_PATH + itemId + PARTY_QUERY + partyId;
    assert '?' !in itemId ==> ParseFileRoute(apiRoute, url) == Some((itemId, partyId)) by {
      if '?' !in itemId {
        FileRouteRoundTrip(apiRoute, itemId, partyId);
      }
    }
    url
  }

  /** The first position of `c` in `s`, or -1. */
  function IndexOfChar(s: string, c: char): (r: int)
    ensures -1 <= r < |s|
    ensures r == -1 <==> c !in s
    ensures r >= 0 ==> s[r] == c && c !in s[..r]
  {
    if s == [] then -1
    else if s[0] == c then 0
    else
      var k := IndexOfChar(s[1..], c);
      assert s == [s[0]] + s[1..];
      if k == -1 then -1
      else
        assert s[..k + 1] == [s[0]] + s[1..][..k];
        k + 1
  }

  /**
   * Reads the item id and the party id back out of a file route: the item id
   * runs up to the first '?', which must start the party query.
   */
  function ParseFileRoute(apiRoute: string, url: string): Option<(string, string)>
  {
    var prefix := apiRoute + FILE_PATH;
    if |url| < |prefix| || url[..|prefix|] != prefix then None
    else
      var rest := url[|prefix|..];
      var k := IndexOfChar(rest, '?');
      if k == -1 || |rest| < k + |PARTY_QUERY| || rest[k..k + |PARTY_QUERY|] != PARTY_QUERY then None
      else Some((rest[..k], rest[k + |PARTY_QUERY|..]))
  }

  /** A file route names its item and its party unambiguously, as long as the item id has no '?'. */
  lemma {:induction false} FileRouteRoundTrip(apiRoute: string, itemId: string, partyId: string)
    requires '?' !in itemId
    ensures ParseFileRoute(apiRoute, apiRoute + FILE_PATH + itemId + PARTY_QUERY + partyId) == Some((itemId, partyId))
  {
    var prefix := apiRoute + FILE_PATH;
    var url := apiRoute + FILE_PATH + itemId + PARTY_QUERY + partyId;
    var rest := itemId + PARTY_QUERY + partyId;
    assert url == prefix + rest;
    assert url[..|prefix|] == prefix;
    assert url[|prefix|..] == rest;
    var k := IndexOfChar(rest, '?');
    assert rest[|itemId|] == '?';
    assert rest[..|itemId|] == itemId;
    assert k == |itemId|;
    assert rest[k..k + |PARTY_QUERY|] == PARTY_QUERY;
    assert rest[..k] == itemId;
    assert rest[k + |PARTY_QUERY|..] == partyId;
  }

  /**
   * The player source url for an order whose item was found in the playlist:
   * the API's file route when the order is for a file, otherwise the item's url.
   */
  function SourceUrl(apiRoute: string, order: PlayOrder, item: MediaItem, partyId: string): (r: string)
    ensures order.orderType == Web ==> r == item.url
    ensures order.orderType == File && '?' !in order.mediaItemId ==>
              ParseFileRoute(apiRoute, r) == Some((order.mediaItemId, partyId))
  {
    if order.orderType == File then FileRoute(apiRoute, order.mediaItemId, partyId)
    else item.url
  }

  /**
   * The icon of the action message for `order`, given the item and the play
   * state before it. Precedence: an item change, then a play/pause change,
   * then a seek direction, and a clock otherwise.
   */
  function ActionIcon(order: PlayOrder, playingItem: Option<MediaItem>, isPlaying: bool): (icon: Icon)
    ensures icon == ItemChange <==> playingItem.None? || order.mediaItemId != playingItem.value.id
    ensures icon == Play <==> icon != ItemChange && order.isPlaying != isPlaying && order.isPlaying
    ensures icon == Pause <==> icon != ItemChange && order.isPlaying != isPlaying && !order.isPlaying
    ensures icon == SeekLeft <==> icon != ItemChange && order.isPlaying == isPlaying && order.direction == Some(Left)
    ensures icon == SeekRight <==> icon != ItemChange && order.isPlaying == isPlaying && order.direction == Some(Right)
    ensures icon == Clock <==> icon != ItemChange && order.isPlaying == isPlaying && order.direction.None?
  {
    if playingItem.None? || order.mediaItemId != playingItem.value.id then ItemChange
    else if order.isPlaying != isPlaying then
      if order.isPlaying then Play else Pause
    else
      match order.direction
      case Some(Left) => SeekLeft
      case Some(Right) => SeekRight
      case None => Clock
  }

  /**
   * The action message for an order: attributed to the party member whose id
   * is the order's issuer, and absent when no member has that id.
   */
  function ActionMessageFor(order: PlayOrder, members: seq<PartyMember>, icon: Icon): (r: Option<ActionMessage>)
    ensures r.None? <==> forall j :: 0 <= j < |members| ==> members[j].id != order.issuer
    ensures r.Some? ==> r.value.icon == icon
    ensures r.Some? ==> r.value.text == FindMember(members, order.issuer).value.username
    ensures r.Some? ==> exists j :: 0 <= j < |members| && members[j].id == order.issuer && members[j].username == r.value.text
  {
    match FindMember(members, order.issuer)
    case Some(m) => Some(ActionMessage(m.username, icon))
    case None => None
  }

  /** An order issued by the player itself is never announced, since no member is called "system". */
  lemma SystemOrdersAreSilent(order: PlayOrder, members: seq<PartyMember>, icon: Icon)
    requires order.issuer == SYSTEM_ISSUER
    requires forall j :: 0 <= j < |members| ==> members[j].id != SYSTEM_ISSUER
    ensures ActionMessageFor(order, members, icon) == None
  {
  }

  /**
   * The classification depends on the order and the previous state only
   * through the precedence: an order for a new item is an item change
   * whatever its play state and direction.
   */
  lemma ItemChangeOutranks(order: PlayOrder, playingItem: Option<MediaItem>, isPlaying: bool, d: Option<Direction>, p: bool)
    requires playingItem.Some? && order.mediaItemId != playingItem.value.id
    ensures ActionIcon(order.(direction := d, isPlaying := p), playingItem, isPlaying) == ItemChange
  {
  }
}
