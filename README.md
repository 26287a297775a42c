# Card battle server: matchmaking and round engine

A Node game server pairs two clients into a room and fights card battles
between them, one round at a time. The model covers its two stateful files.

- `server/battle.js`, module `BattleEngine` (battle.dfy). The round engine:
  - the faster card opens, and a speed tie goes to `player1`;
  - each turn the attacker deals `max(0, attack - defend)`, altered by a
    critical roll (×1.3, rounded) or a miss roll (0), with crit checked first;
  - the defender's hp drops by that damage, and the round is won once it is
    at zero or below; otherwise the two roles swap;
  - a lost connection at the top of a turn aborts the round.

  `Math.random()` and `socket.connected` become a per-turn input
  `TurnInput(live, Roll(crit, miss))`. The input sequence also bounds the
  loop: when it runs out the round is reported `InProgress`, because the loop
  may never end. `TakeTurn` is the step function and `Play`/`Battle` the
  specification. `RunBattle` is the `while` loop, proved equal to `Battle`.
- `server/server.js`, module `Server` (server.dfy). Class `GameServer` holds:
  - the registry `players` (connection id → player object);
  - the insertion order of its keys, which is the order
    `Object.values(players)` visits them;
  - the FIFO `waitingQueue`.

  Its handlers are `JoinQueue`, `SelectCard`, `RoundComplete` (the callback
  `battle` calls with the winner's id), `PlayRound` (`battle` followed by
  that callback) and `Disconnect`. Each handler returns the socket messages
  it sends, in order, as `Event(recipient, message)`; a room broadcast is
  addressed to `ToRoom(roomId)`.

  Player objects live in a store indexed by references (`objects`), and
  `players` maps each id to a reference. This lets the round callback keep
  the two objects it captured even after their ids have left or joined
  again. `View()` is what the registry holds, id by id.

  An uncaught `TypeError` in a handler is reported as `fault`. Everything
  written before the throw stays written. There are three such cases:
  - a socket that joins twice while queued is paired with itself, and
    `p2.cards` throws;
  - a `selectCard` after whose write the room has exactly two members who
    have both chosen, and one of their stored indices names no card. That
    index may be the other player's, stored earlier by a call that returned
    normally;
  - the winner's entry is gone when the round callback runs.

protocol.dfy holds the shared values: connection ids, cards and the
outgoing messages.

The model follows the code where it differs from what a reader of the game
might expect:
- a match is won at 2 round wins (`wins === 2`), not 3;
- no card leaves a pool after a round, and no hp carries over: the engine
  works on copies;
- the room is not torn down when a match ends, and selections made after
  that still start rounds;
- `selectCard` checks neither the index range nor the state of the match.
  It stores any index; the throw comes only from the call that completes the
  pair, when either stored index names no card;
- no `startBattle` message is sent;
- a critical hit is not strictly stronger than a normal one when the base
  damage is 0 or 1 (`CritNeverWeaker`);
- errors are not all recovered: the three cases above throw inside a handler.

## Model

| member | source | states |
|---|---|---|
| BattleEngine.Opening | server/battle.js:9-16 | the first attacker is one of the two cards and at least as fast as the other; a speed tie opens with `player1` |
| BattleEngine.BaseDamage | server/battle.js:46-47 | base damage is never negative, is at least `attack - defend`, and is either 0 or exactly `attack - defend` |
| BattleEngine.CritDamage | server/battle.js:49-51 | critical damage is the integer nearest to 1.3 × base, halves rounded up |
| BattleEngine.CritNeverWeaker | server/battle.js:47-51 | a critical hit never deals less than the base damage, and deals strictly more exactly when the base is at least 2 |
| BattleEngine.Resolve | server/battle.js:42-69 | crit is checked first and wins over miss; critical gives the rounded ×1.3 damage, miss gives 0, otherwise the base; exactly one kind per turn |
| BattleEngine.TakeTurn | server/battle.js:35-105 | a turn with a lost connection halts with no messages; otherwise only the defender's hp changes, by exactly the damage and without clamping; the round ends exactly when that hp is at or below 0, with the attacker as winner; otherwise the defender attacks next |
| BattleEngine.Greetings | server/battle.js:18-33 | the opener is sent the defender's name, attack, hp, defence and speed as `initialStatus`, and the defender is sent the opener's |
| BattleEngine.TurnMessages | server/battle.js:49-87 | each live turn sends each side exactly one of `critical`/`miss`/`normalAttack`, matching the rolls with crit first, and one `updateStatus` framed from that side: its own hp as `selfHp` |
| BattleEngine.PlayKeepsCards | server/battle.js:35-105 | however a round stands, its two cards are the starting cards with only hp changed and never raised; the winner and loser are those two cards, and the loser is at or below 0 hp |
| BattleEngine.ResultAnnouncedOnce | server/battle.js:89-101 | `updateResult` is sent exactly when the round is won, once to each side, naming the winner; an aborted or unfinished round sends none |
| BattleEngine.Stalemate | server/battle.js:35-107 | when neither card can hurt the other and both have hp, no sequence of connected turns, however long, ends the round, and the hp values never move |
| BattleEngine.KnockoutWithinBound | server/battle.js:35-107 | when one card can hurt the other and no turn is a miss or a disconnect, the round is won within 2 × (total positive hp) + 1 turns |
| BattleEngine.Play | server/battle.js:35-107 | the turn loop on the given inputs; it is aborted only when some turn finds a side disconnected, and it is still going only when every given turn was connected |
| BattleEngine.Battle | server/battle.js:2-108 | a round starts with the two `initialStatus` messages for the opening order, then runs the loop; the abort and in-progress facts of `Play` carry over |
| BattleEngine.BattleWinner | server/battle.js:95-97 | the callback of a won round is given one entrant's id, and the loser is the other entrant |
| BattleEngine.RunBattle | server/battle.js:2-108 | the imperative turn loop produces exactly the outcome and messages of `Battle`: the greetings, then each turn's messages until a knockout, an abort or the end of the inputs |
| Server.Newcomer | server/server.js:25-32 | a new player object has the given id, name and cards, no selected index, a `null` room and 0 wins |
| Server.Entrant | server/server.js:72-75 | the engine gets a copy of the chosen card's name, hp, attack, defence and speed, tagged with the owner's connection id |
| Server.Paired | server/server.js:40-44 | pairing keeps the registry's keys and puts both paired players in room `room` |
| Server.PairedOnly | server/server.js:41-44 | pairing changes only the two paired entries, and only their `roomId` |
| Server.Erase | server/server.js:105-107 | removing an id that is absent changes nothing; otherwise one element goes, every other id stays, and nothing new appears |
| Server.IndexOf | server/server.js:105 | `indexOf` of an id that occurs is the position of its first occurrence |
| Server.EraseSplices | server/server.js:105-107 | removing an id that occurs is `splice(indexOf(x), 1)`: exactly its first occurrence goes and the ids before and after it keep their order |
| Server.EraseNoDup | server/server.js:105-110 | in a list without repeats, removing an id leaves no copy of it and no repeats |
| Server.IndexedJoin | server/server.js:25-34 | storing a new object under a fresh reference and queueing its id keeps the registry invariant; the registry then holds the new object under that id and is otherwise unchanged |
| Server.IndexedTouch | server/server.js:64 | writing the object of one key keeps the invariant and changes what the registry holds under that key only |
| Server.IndexedDequeue | server/server.js:38-39 | shifting the two oldest ids off the queue keeps the invariant |
| Server.IndexedLeave | server/server.js:105-110 | deleting an id from the registry, the key order and a queue of at most one keeps the invariant, and the registry loses exactly that id |
| Server.Credit | server/server.js:78 | the winner's object gains exactly one win, and no other object changes |
| Server.Unselect | server/server.js:86-87 | the two captured objects lose their selected index, and no other object changes |
| Server.IndexedRelabel | server/server.js:78-87 | rewriting objects without changing their socket ids keeps the registry invariant |
| Server.GameServer.constructor | server/server.js:10-11 | the server starts with an empty registry, key order and queue |
| Server.GameServer.InRoom | server/server.js:67 | an id is selected exactly when it is in the list, registered and in the room (`null` matches `null`); the result keeps the list's order, and has no repeats when the list has none |
| Server.GameServer.RoomMembers | server/server.js:48 | the room's members are exactly the registered keys whose player has that `roomId`, in key insertion order (the `Object.values` order that decides `p1` and `p2`), without repeats |
| Server.GameServer.PairingEvents | server/server.js:45-51 | a pairing sends `matched` to the room first; the two `cardsInfo` messages follow exactly when it did not fault and the room has at least two members |
| Server.GameServer.JoinQueue | server/server.js:18-57 | a card count other than 3 changes nothing and sends only `card_length_error`. Otherwise: the player is stored fresh under its id at a new reference, keeping the id's place in the key order; every old object stays in the store. With nobody waiting the id is queued, no other object changes and nothing is sent. With someone waiting, the oldest two are dequeued and put in room `id1-id2`, `matched` goes to the room and each member gets the other's cards; no object but the two paired ones changes. This faults exactly when the room has fewer than two members, which happens only when an id was paired with itself. The queue never holds more than one id between calls |
| Server.GameServer.Register | server/server.js:25-35 | a fresh object is stored under `id` at a new reference, the id keeps its place in the key order or is appended, and `id` is appended to the queue |
| Server.GameServer.MatchOldest | server/server.js:37-56 | with fewer than two queued nothing changes; otherwise exactly the two oldest ids leave the queue in FIFO order, both players get room `id1-id2`, no other object changes, and the pairing messages are sent |
| Server.GameServer.PairOldest | server/server.js:38-44 | shifts the two oldest queued ids and sets both players' `roomId` to `id1-id2`; the registry, key order and every other object stay as they were |
| Server.GameServer.SendCards | server/server.js:45-51 | sends `matched` to the room, then the first two room members each get the other's cards; it faults exactly when the room has fewer than two members, which needs both ids to be the same |
| Server.GameServer.SelectCard | server/server.js:60-77 | an unknown id is ignored with no change. Otherwise the player's selected index is set to the given one, or cleared when none is given, and nothing else changes; a round starts exactly when the room has exactly two members and both have chosen; among those, it faults exactly when either member's stored index (possibly stored earlier by the other player) names no card; a started round carries the members' objects and copies of their chosen cards |
| Server.GameServer.RoundComplete | server/server.js:77-96 | a missing winner faults and changes nothing. Otherwise only the winner's wins go up by one; at 2 wins `matchResult` with the winner's name goes to the room; else both captured players' selections are cleared and `nextRound` with both win counts goes to the room. Cards, names and rooms never change |
| Server.GameServer.CompletionEvents | server/server.js:81-95 | nothing is sent when the winner's entry is gone; otherwise one message to the room: `matchResult` with the winner's name followed by `wins!` exactly when the winner has 2 wins, else `nextRound` whose map holds exactly the two captured players' names with their win counts, the second player's count winning a name clash |
| Server.GameServer.PlayRound | server/server.js:71-97 | the round's messages are exactly the engine's, followed by the callback's when the round is won; the winner is one of the two entrants; the winner's wins go up by one; only wins and selections change, so stored cards are never modified |
| Server.GameServer.Disconnect | server/server.js:102-124 | the id leaves the queue, the key order and the registry, and nothing else changes; a registered id's room gets `oppnent_distconnect`, and when a non-empty room still has a member, the first of them is announced winner |
| Server.GameServer.Unregister | server/server.js:105-110 | splices the id out of the queue and deletes its entry, keeping the invariant; the registry loses exactly that id |
| Server.PairingOrder | server/server.js:48-51 | with room members `a` then `b`, `a` receives `b`'s cards and then `b` receives `a`'s |

## Left out

- Express, HTTP, socket.io setup, the `index.html` route and `listen` (server/server.js:1-8, 128-134) are not modelled. They are transport plumbing.
- Real sockets are not modelled, and neither are `socket.join` or room membership in socket.io. A room broadcast is recorded as addressed to `ToRoom(roomId)`, and `socket.emit` as `ToConn(id)`.
- `Math.random()` becomes an input, and the float product `damage * 1.3` is computed on exact rationals. IEEE double rounding is not modelled.
- The `setTimeout` pacing (`await delay(1000)`) is not modelled. A round runs to completion inside `PlayRound`, so handlers that interleave with a running round between turns are not modelled either.
- `console.log` is not modelled.
- The card fields `type` and `image` are not modelled, and neither are payloads whose fields are missing or of the wrong type.
- Card stats (`hp`, `attack`, `defend`, `speed`) are integers. Fractional JavaScript numbers are not modelled; for them `Math.max(0, attack - defend)` and `Math.round(damage * 1.3)` would give values `CritDamage` does not.
- Server.GameServer.SelectCard: the index is an integer or absent (`undefined`, which clears the choice). Other values a client may send, such as `null`, strings or fractions, are not modelled.
- What the process does after an uncaught exception is not modelled. A fault ends the handler and keeps what it wrote.
- `Object.values` visits integer-like keys first in numeric order. Connection ids are not integer-like, so the model uses plain insertion order.
- Player objects are stored as values behind references in `objects`, not as heap objects.
- Server.GameServer.JoinQueue: states that every old reference stays in the store and which objects keep their values, but not that the store gains exactly one reference. `Register` states the exact new store.
- Server.GameServer.PlayRound: states the winner's new win count and that cards, names and rooms are kept. The exact new store, including which selections are cleared, is the postcondition of `RoundComplete`.
- The other files of the repository are not part of this model: the stub Node server, the Flutter client and its Android build files.
