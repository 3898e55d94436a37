# Playback synchronisation of the sync-party media player

A Dafny model of the client half of sync-party's playback synchronisation,
as the media player container implements it
(`client/src/components/player/MediaPlayerContainer/MediaPlayerContainer.tsx`).

A party watches one playlist together. A member's action becomes a *play
wish*. The broker rebroadcasts each wish unchanged as the *play order*. Every
client applies the order to its local player state. Separately, each client
receives a *sync status* message with every member's latest sample, and derives
two things from it: who is online, and a drift delta per peer.

The model has these modules:

- `Optional`: the option type used for the source's nullable and optional fields.
- `MediaTypes`: media items, members, parties, wishes and orders (one shape),
  sync samples, icons, and the `find`/`findIndex` lookups over the party's lists.
- `PlayerStates`: the player state record and the reducer that merges a
  partial update over it, with lemmas on how dispatches compose.
- `PlayOrders`: the source url of an ordered item (with the file route's
  round trip), the action-message icon and its precedence, and the attribution
  of the message to the issuing member.
- `SyncStatus`: the online test (integer milliseconds, tolerance 1500 ms,
  strict), the member-status map, the per-peer delta rows, and
  `ComputeSyncStatus`, the handler's loop over the member ids.
- `SyncFinish`: the catch-up offset of a freshly joined client, the seek
  target, and the buffering rule after a seek.
- `PlayWishes`: wish construction, the end-of-item policy (next item, or the
  first item paused), and the "played" metadata update.
- `MediaPlayerContainer`: the class `MediaPlayer`. It holds the player state,
  the freshly-joined flag and the global-state slots the component writes
  (error message, action message, playing item, sync status, member status).
  Its methods are the handlers. Each update goes through the reducer.

Inputs from outside the component are parameters:
- the clock (`now`);
- the player's reported duration, progress and current position;
- whether the player is mounted;
- the failure of a seek;
- the site of the playing item's url;
- the delta computation of the shared helpers (a function argument);
- the outcome of the metadata PUT.

Emitted wishes and the metadata that would be PUT are return values.

Three behaviours of the code that a reader might expect otherwise:
- A play order replaces the held one unconditionally. It is not compared by
  timestamp (`LatestArrivalWins`).
- An order that changes neither the item, nor the play state, nor carries a
  direction still gets an action message, with the clock icon, whenever its
  issuer is a party member.
- The buffering rule requires the order to be of type `web`. Its "item is a
  file" clause therefore applies only when the playing item's type differs from
  the order's (`BufferingOnlyForStallingSites`).

## Model

| member | source | states |
|---|---|---|
| MediaTypes.FindIndex | client/src/components/player/MediaPlayerContainer/MediaPlayerContainer.tsx:213-215 | the first index whose id matches, or -1 exactly when no entry matches |
| MediaTypes.FindItem | client/src/components/player/MediaPlayerContainer/MediaPlayerContainer.tsx:260-262 | the ordered item is found exactly when some playlist entry has its id, and it is the entry at the first such index |
| MediaTypes.FindMember | client/src/components/player/MediaPlayerContainer/MediaPlayerContainer.tsx:306-309 | a member is found exactly when some member has the id, and it is the first such member |
| PlayerStates.InitialPlayerState | client/src/components/player/MediaPlayerContainer/MediaPlayerContainer.tsx:87-103 | no order, paused, not seeking, syncing or buffering, index 0, position and duration 0, empty url, playing item from the global state |
| PlayerStates.PlayerStateReducer | client/src/components/player/MediaPlayerContainer/MediaPlayerContainer.tsx:104-109 | every supplied property replaces the current one and every property not supplied keeps its value |
| PlayerStates.ReducerNoChange | client/src/components/player/MediaPlayerContainer/MediaPlayerContainer.tsx:104-109 | the empty update is the identity |
| PlayerStates.ReducerIdempotent | client/src/components/player/MediaPlayerContainer/MediaPlayerContainer.tsx:104-109 | dispatching an update twice equals dispatching it once |
| PlayerStates.ReducerSequence | client/src/components/player/MediaPlayerContainer/MediaPlayerContainer.tsx:104-109 | two dispatches equal one dispatch of the merged update in which later properties win |
| PlayerStates.ReducerDisjointCommute | client/src/components/player/MediaPlayerContainer/MediaPlayerContainer.tsx:104-109 | dispatches that supply disjoint properties commute |
| PlayOrders.FileRouteRoundTrip | client/src/components/player/MediaPlayerContainer/MediaPlayerContainer.tsx:267-273 | the file url `API route + file/ + item id + ?party= + party id` parses back to the item id and the party id when the item id has no '?' |
| PlayOrders.FileRoute | client/src/components/player/MediaPlayerContainer/MediaPlayerContainer.tsx:267-273 | the file url names its item and its party: it parses back to both when the item id has no '?' |
| PlayOrders.SourceUrl | client/src/components/player/MediaPlayerContainer/MediaPlayerContainer.tsx:266-276 | a web order plays the playlist item's url; a file order's url identifies the ordered item and the party |
| PlayOrders.ActionIcon | client/src/components/player/MediaPlayerContainer/MediaPlayerContainer.tsx:279-303 | each icon, as an if-and-only-if, under the precedence item change, then play/pause change, then seek direction, then the clock |
| PlayOrders.ItemChangeOutranks | client/src/components/player/MediaPlayerContainer/MediaPlayerContainer.tsx:280-286 | an order for a different item is an item change whatever its play state and direction |
| PlayOrders.ActionMessageFor | client/src/components/player/MediaPlayerContainer/MediaPlayerContainer.tsx:305-326 | a message exists exactly when a party member's id equals the issuer; it carries the first such member's username and the icon |
| PlayOrders.SystemOrdersAreSilent | client/src/components/player/MediaPlayerContainer/MediaPlayerContainer.tsx:305-311 | an order issued as "system" produces no action message when no member is called "system" |
| SyncStatus.IsOnline | client/src/components/player/MediaPlayerContainer/MediaPlayerContainer.tsx:357-365 | online only with this client's own sample, and then exactly when the member's server-frame lag is under the 1500 ms tolerance |
| SyncStatus.StatusOf | client/src/components/player/MediaPlayerContainer/MediaPlayerContainer.tsx:352-367 | a member's entry carries the member's own server time offset and is online exactly by the online test |
| SyncStatus.MemberStatuses | client/src/components/player/MediaPlayerContainer/MediaPlayerContainer.tsx:350-367 | every member of the message gets an entry with its own server time offset, online exactly when the online test holds |
| SyncStatus.OnlineIffWithinTolerance | client/src/components/player/MediaPlayerContainer/MediaPlayerContainer.tsx:357-365 | online iff the own sample exists and the member's server-frame time lags the present by less than 1500 ms |
| SyncStatus.OnlineBoundary | client/src/components/player/MediaPlayerContainer/MediaPlayerContainer.tsx:357-365 | a lag of 1499 ms is online and a lag of 1500 ms or more is offline |
| SyncStatus.PeerEntry | client/src/components/player/MediaPlayerContainer/MediaPlayerContainer.tsx:369-390 | a member has a delta row iff the own sample exists, it is not this user and it is a party member; the row has the first such member's username and the member's delta |
| SyncStatus.ComputeSyncStatus | client/src/components/player/MediaPlayerContainer/MediaPlayerContainer.tsx:346-391 | the loop over the member ids yields the member-status map and the delta rows in key order; no row is for this user, and there are no rows without the own sample |
| SyncStatus.PeerDeltas | client/src/components/player/MediaPlayerContainer/MediaPlayerContainer.tsx:369-390 | no more rows than member ids, and never a row for this client itself |
| SyncStatus.PeerDeltasSound | client/src/components/player/MediaPlayerContainer/MediaPlayerContainer.tsx:369-390 | every delta row is the entry of one of the message's members |
| SyncStatus.PeerDeltasComplete | client/src/components/player/MediaPlayerContainer/MediaPlayerContainer.tsx:369-390 | every member of the message that has an entry has its row in the list |
| SyncStatus.PeerDeltasWithoutOwnSample | client/src/components/player/MediaPlayerContainer/MediaPlayerContainer.tsx:370 | without this client's own sample the delta list is empty |
| SyncStatus.PeerDeltasDistinct | client/src/components/player/MediaPlayerContainer/MediaPlayerContainer.tsx:350-390 | with distinct member ids, no two rows are for the same member |
| SyncFinish.CatchUpOffset | client/src/components/player/MediaPlayerContainer/MediaPlayerContainer.tsx:424-433 | the offset is non-zero only for a freshly joined client and a playing order, and then times the duration in ms equals the elapsed server-frame ms |
| SyncFinish.SeekTarget | client/src/components/player/MediaPlayerContainer/MediaPlayerContainer.tsx:424-441 | the order's position, moved forward by the elapsed server-frame time (as a fraction of the duration) only for a freshly joined client and a playing order |
| SyncFinish.SeekTargetFollowsTimeline | client/src/components/player/MediaPlayerContainer/MediaPlayerContainer.tsx:424-440 | the catch-up seek lands, in playback ms, at the order's position plus the elapsed time; otherwise at the order's position |
| SyncFinish.CatchUpExample | client/src/components/player/MediaPlayerContainer/MediaPlayerContainer.tsx:424-440 | joining 4 s after a playing order at 0.10 of a 120 s item seeks to 0.10 + 1/30; later finishes seek to 0.10 |
| SyncFinish.BufferingAfterSync | client/src/components/player/MediaPlayerContainer/MediaPlayerContainer.tsx:454-459 | buffering only for a playing web order, and always for a playing web order on YouTube or Facebook or whose playing item is a file |
| SyncFinish.BufferingOnlyForStallingSites | client/src/components/player/MediaPlayerContainer/MediaPlayerContainer.tsx:454-459 | when the playing item has the order's type, buffering iff the order plays on YouTube or Facebook |
| PlayWishes.EmitPlayWish | client/src/components/player/MediaPlayerContainer/MediaPlayerContainer.tsx:180-207 | a wish exists iff socket, party and user are present; issuer "system" iff no issuer, position the given one or else the current one, direction exactly the given one |
| PlayWishes.WishAttribution | client/src/components/player/MediaPlayerContainer/MediaPlayerContainer.tsx:187-205 | the order made from a wish gets an action message iff it was not a system wish and the user is a party member |
| PlayWishes.EndOfItemTarget | client/src/components/player/MediaPlayerContainer/MediaPlayerContainer.tsx:564-577 | the next item with the current play state, or after the last item the first item paused; none for an empty playlist |
| PlayWishes.FindIndexOfDistinct | client/src/components/player/MediaPlayerContainer/MediaPlayerContainer.tsx:213-215 | with distinct ids, the index found for an entry's id is that entry's own index |
| PlayWishes.EndOfItemAdvancesCyclically | client/src/components/player/MediaPlayerContainer/MediaPlayerContainer.tsx:564-572 | with distinct ids, the end-of-item target's index is one past the current one, wrapping to 0 |
| PlayWishes.MarkPlayed | client/src/components/player/MediaPlayerContainer/MediaPlayerContainer.tsx:586-591 | the played item is marked true and every other flag is kept |
| PlayWishes.MarkPlayedIdempotent | client/src/components/player/MediaPlayerContainer/MediaPlayerContainer.tsx:586-591 | marking an item twice equals marking it once |
| MediaPlayerContainer.MediaPlayer.constructor | client/src/components/player/MediaPlayerContainer/MediaPlayerContainer.tsx:84-103 | the first render: the initial player state holding the global playing item, freshly joined, no error or action message, the global playing item as given, empty sync and member status; the mount-time effect is `PlayingItemEffect` |
| MediaPlayerContainer.MediaPlayer.PlayingItemEffect | client/src/components/player/MediaPlayerContainer/MediaPlayerContainer.tsx:234-239 | on mount and on every item change, the index is pointed at the playing item (or -1 when the playlist lacks it); nothing changes without an item, a party or playlist entries |
| MediaPlayerContainer.MediaPlayer.SetPlayerState | client/src/components/player/MediaPlayerContainer/MediaPlayerContainer.tsx:110-113 | the new state is the reducer applied to the old state and the update |
| MediaPlayerContainer.MediaPlayer.UpdatePlaylistIndex | client/src/components/player/MediaPlayerContainer/MediaPlayerContainer.tsx:210-221 | the index becomes the item's first index or -1; no change without a party or with an empty playlist |
| MediaPlayerContainer.MediaPlayer.ApplyPlayOrder | client/src/components/player/MediaPlayerContainer/MediaPlayerContainer.tsx:257-341 | the order is held and syncing starts; a found item sets the item, url and index, and a member issuer sets the action message; otherwise nothing else changes |
| MediaPlayerContainer.LatestArrivalWins | client/src/components/player/MediaPlayerContainer/MediaPlayerContainer.tsx:257-258 | the order applied last is held, whatever the timestamps |
| MediaPlayerContainer.MediaPlayer.ReceiveSyncStatus | client/src/components/player/MediaPlayerContainer/MediaPlayerContainer.tsx:346-399 | publishes exactly the member-status map and the delta rows of the message |
| MediaPlayerContainer.MediaPlayer.FinishSync | client/src/components/player/MediaPlayerContainer/MediaPlayerContainer.tsx:416-462 | fires only when mounted, the duration is non-zero and an order, syncing and an item are set; then seeks to the target, clears freshly joined, reports a failed seek, and sets seeking, playing, syncing and buffering |
| MediaPlayerContainer.MediaPlayer.HandleDuration | client/src/components/player/MediaPlayerContainer/MediaPlayerContainer.tsx:483-485 | only the duration changes |
| MediaPlayerContainer.MediaPlayer.HandleProgress | client/src/components/player/MediaPlayerContainer/MediaPlayerContainer.tsx:487-493 | the position follows the player only when not seeking; nothing else changes |
| MediaPlayerContainer.MediaPlayer.HandlePlayPause | client/src/components/player/MediaPlayerContainer/MediaPlayerContainer.tsx:503-519 | a wish for the playing item with the play state flipped at the player's position; none without an item |
| MediaPlayerContainer.MediaPlayer.HandleSeekMouseDown | client/src/components/player/MediaPlayerContainer/MediaPlayerContainer.tsx:521-523 | only seeking is set |
| MediaPlayerContainer.MediaPlayer.HandleSeekChange | client/src/components/player/MediaPlayerContainer/MediaPlayerContainer.tsx:525-531 | only the local position changes |
| MediaPlayerContainer.MediaPlayer.HandleSeekMouseUp | client/src/components/player/MediaPlayerContainer/MediaPlayerContainer.tsx:533-543 | a wish for the released position with the current play state; none without an item |
| MediaPlayerContainer.MediaPlayer.HandleReady | client/src/components/player/MediaPlayerContainer/MediaPlayerContainer.tsx:549-555 | a paused player stops buffering; a playing one is unchanged |
| MediaPlayerContainer.MediaPlayer.HandleBufferEnd | client/src/components/player/MediaPlayerContainer/MediaPlayerContainer.tsx:557-559 | only buffering is cleared |
| MediaPlayerContainer.MediaPlayer.HandleEnd | client/src/components/player/MediaPlayerContainer/MediaPlayerContainer.tsx:561-617 | a system wish for the end-of-item target at position 0; a local pause when the playlist starts over; the played-flag PUT, with its error reporting and the party update |

## Left out

- Rendering, JSX and the Redux wiring. The global state the component writes is modelled as fields of `MediaPlayer`.
- Translation: error messages are modelled by their translation keys.
- UI properties of the player state: focus, full screen and volume. Also the volume handler, full screen, keyboard commands, mouse movement, the UI-idle and action-message timers, and `freezeUiVisible`.
- The socket transport: the `joinParty` emission, listener registration with `off`/`on`, the heartbeat emission every 1000 ms, and `partyUpdate` as a message. Emitted wishes, the metadata to PUT and whether a party update is emitted are return values.
- The player library: `seekTo`, `getCurrentTime` and `getDuration`. The seek's failure, the current position and the duration are inputs, so the division in `getCurrentPosition` is not modelled.
- `getSite` and `calculateSyncDelta` from the shared helpers: the site is an input and the delta a function argument.
- Metadata other than the played flags is not modelled.
- The HTTP PUT is not modelled: its outcome is an input.
- The server-side broker (`playWish` handling, order rebroadcast) is not part of this model.
- `duration` is compared with 0 only; a NaN duration is not modelled. Positions and offsets are exact `real`s, not floating point.
- `ReceiveSyncStatus` (via `SyncStatus.ObjectKeys`) requires `ids` to list the message's keys, each once. That is what `Object.keys` returns.
- `HandleEnd`: the handler is one atomic step. In the code it awaits the metadata PUT between emitting the wish and writing the error message or emitting the party update, so other handlers (a play order, a sync status) may run in between; that interleaving is not modelled.
- `HandleEnd` models the empty-playlist case, where the wish is built for `items[0] === undefined`, as the handler stopping before any change.
