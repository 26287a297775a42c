/** The matchmaking and round bookkeeping of server/server.js: a registry of
    players keyed by connection id, a FIFO waiting queue, and the four socket
    handlers that update them (`joinQueue`, `selectCard`, the round-complete
    callback and `disconnect`).

    The player objects the registry points to are kept in a store indexed by
    references, so that an object can outlive its registry entry: the round
    callback keeps the two objects it captured even when their ids have
    joined again or left. Each handler returns the messages it sends, in
    order. An uncaught `TypeError` in a handler (reading a field of
    `undefined`) is reported as `fault`: the handler stops at that point and
    what it wrote before stays written. */
module Server {
  import opened Protocol
  import BattleEngine

  /** A player object (server.js:25-32); `id` is the id of its `socket`. */
  datatype PlayerRec = PlayerRec(id: ConnId, name: string, cards: seq<Card>, selectedIndex: Option<int>, roomId: Option<string>, wins: nat)

  /** A reference to a player object. */
  type Ref = nat

  /** The object a valid `joinQueue` stores: nothing selected, no room, no wins. */
  function Newcomer(id: ConnId, name: string, cards: seq<Card>): (p: PlayerRec)
    ensures p.id == id && p.name == name && p.cards == cards
    ensures p.selectedIndex == None && p.roomId == None && p.wins == 0
  {
    PlayerRec(id, name, cards, None, None, 0)
  }

  /** `cards[selectedIndex]` is a card, not `undefined`. */
  predicate HasCard(p: PlayerRec)
  {
    p.selectedIndex.Some? && 0 <= p.selectedIndex.value < |p.cards|
  }

  /** What the round-complete callback closes over: the room id read by
      `selectCard`, the two player objects, and the card copies given to the
      engine. */
  datatype Round = Round(room: Option<string>, p1: Ref, p2: Ref, f1: BattleEngine.Fighter, f2: BattleEngine.Fighter)

  /** How a `selectCard` ended. */
  datatype Selection = Ignored | Recorded | Started(round: Round) | Fault

  /** The copy of a card handed to the engine (server.js:74-75). */
  function Entrant(owner: ConnId, c: Card): (f: BattleEngine.Fighter)
    ensures f.id == owner && f.name == c.name && f.hp == c.hp
    ensures f.attack == c.attack && f.defend == c.defend && f.speed == c.speed
  {
    BattleEngine.Fighter(owner, c.name, c.hp, c.attack, c.defend, c.speed)
  }

  /** The registry `v` with `a` and `b` put in room `room` (server.js:41-44). */
  function Paired(v: map<ConnId, PlayerRec>, a: ConnId, b: ConnId, room: string): (w: map<ConnId, PlayerRec>)
    requires a in v && b in v
    ensures w.Keys == v.Keys
    ensures w[a].roomId == Some(room) && w[b].roomId == Some(room)
  {
    v[a := v[a].(roomId := Some(room))][b := v[b].(roomId := Some(room))]
  }

  /** Pairing touches the two entries' room and nothing else. */
  lemma PairedOnly(v: map<ConnId, PlayerRec>, a: ConnId, b: ConnId, room: string, k: ConnId)
    requires a in v && b in v && k in v
    ensures var w := Paired(v, a, b, room);
            w[k] == if k == a || k == b then v[k].(roomId := Some(room)) else v[k]
  {
  }

  /** `waitingQueue.splice(waitingQueue.indexOf(x), 1)` when `x` is present:
      the first occurrence of `x` goes, the rest keep their order. */
  function Erase(s: seq<ConnId>, x: ConnId): (r: seq<ConnId>)
    ensures x !in s ==> r == s
    ensures x in s ==> |r| == |s| - 1
    ensures forall k :: k in r ==> k in s
    ensures forall k :: k in s && k != x ==> k in r
  {
    if s == [] then []
    else if s[0] == x then s[1..]
    else [s[0]] + Erase(s[1..], x)
  }

  /** `s.indexOf(x)` for an `x` that occurs: the position of its first
      occurrence. */
  function IndexOf(s: seq<ConnId>, x: ConnId): (i: nat)
    requires x in s
    ensures i < |s| && s[i] == x && x !in s[..i]
  {
    if s[0] == x then 0
    else
      var j := IndexOf(s[1..], x);
      assert s[..j + 1] == [s[0]] + s[1..][..j];
      j + 1
  }

  /** `r` is `s` with some elements left out, the rest in their order. */
  predicate Subsequence(r: seq<ConnId>, s: seq<ConnId>)
    decreases |s|
  {
    r == [] || (s != [] && ((r[0] == s[0] && Subsequence(r[1..], s[1..])) || Subsequence(r, s[1..])))
  }

  /** `Erase` is `splice(indexOf(x), 1)`: it cuts out the first occurrence
      of `x` and keeps everything else in order. */
  lemma {:induction false} EraseSplices(s: seq<ConnId>, x: ConnId)
    requires x in s
    ensures Erase(s, x) == s[..IndexOf(s, x)] + s[IndexOf(s, x) + 1..]
  {
    if s[0] != x {
      EraseSplices(s[1..], x);
      var j := IndexOf(s[1..], x);
      assert IndexOf(s, x) == j + 1;
      calc {
        Erase(s, x);
        [s[0]] + Erase(s[1..], x);
        [s[0]] + (s[1..][..j] + s[1..][j + 1..]);
        { assert s[..j + 1] == [s[0]] + s[1..][..j];
          assert s[j + 2..] == s[1..][j + 1..]; }
        s[..j + 1] + s[j + 2..];
      }
    }
  }

  predicate NoDup(s: seq<ConnId>)
  {
    forall i, j :: 0 <= i < j < |s| ==> s[i] != s[j]
  }

  lemma {:induction false} EraseNoDup(s: seq<ConnId>, x: ConnId)
    requires NoDup(s)
    ensures x !in Erase(s, x)
    ensures NoDup(Erase(s, x))
  {
    if s != [] && s[0] != x {
      EraseNoDup(s[1..], x);
      var r := Erase(s[1..], x);
      assert Erase(s, x) == [s[0]] + r;
      assert s[0] !in s[1..];
    }
  }

  /** The registry invariant: every key points to a stored object whose
      socket id is the key, `order` lists every key exactly once, every
      queued id is a key, and `next` is above every reference in use. */
  ghost predicate Indexed(players: map<ConnId, Ref>, objects: map<Ref, PlayerRec>, next: Ref, order: seq<ConnId>, queue: seq<ConnId>)
  {
    && (forall k :: k in players ==> players[k] in objects && objects[players[k]].id == k && k in order)
    && (forall i :: 0 <= i < |order| ==> order[i] in players)
    && NoDup(order)
    && (forall i :: 0 <= i < |queue| ==> queue[i] in players)
    && (forall r :: r in objects ==> r < next)
  }

  /** What the registry holds: the object behind each key. */
  ghost function Contents(players: map<ConnId, Ref>, objects: map<Ref, PlayerRec>): map<ConnId, PlayerRec>
  {
    map k | k in players && players[k] in objects :: objects[players[k]]
  }

  /** A join stores a new object under a fresh reference, adds the key to
      `order` unless it is already there, and queues the id. */
  lemma IndexedJoin(players: map<ConnId, Ref>, objects: map<Ref, PlayerRec>, next: Ref, order: seq<ConnId>, queue: seq<ConnId>, p: PlayerRec)
    requires Indexed(players, objects, next, order, queue)
    ensures Indexed(players[p.id := next], objects[next := p], next + 1,
                    if p.id in players then order else order + [p.id], queue + [p.id])
    ensures Contents(players[p.id := next], objects[next := p]) == Contents(players, objects)[p.id := p]
  {
    var players', objects' := players[p.id := next], objects[next := p];
    var order' := if p.id in players then order else order + [p.id];
    forall k | k in players' ensures players'[k] in objects' && objects'[players'[k]].id == k && k in order' {
      if k != p.id {
        assert players[k] in objects && players[k] < next;
      }
    }
    forall i | 0 <= i < |order'| ensures order'[i] in players' {
      if i < |order| {
        assert order'[i] == order[i];
      }
    }
    ContentsJoin(players, objects, next, p);
  }

  lemma ContentsJoin(players: map<ConnId, Ref>, objects: map<Ref, PlayerRec>, next: Ref, p: PlayerRec)
    requires forall k :: k in players ==> players[k] in objects
    requires forall r :: r in objects ==> r < next
    ensures Contents(players[p.id := next], objects[next := p]) == Contents(players, objects)[p.id := p]
  {
    var c, d := Contents(players[p.id := next], objects[next := p]), Contents(players, objects)[p.id := p];
    assert c.Keys == d.Keys;
    forall k | k in c ensures c[k] == d[k] {
      if k != p.id {
        assert players[k] < next;
      }
    }
  }

  /** Storing at a fresh reference leaves every stored object as it was. */
  lemma StoreExtend(objects: map<Ref, PlayerRec>, next: Ref, p: PlayerRec)
    requires forall r :: r in objects ==> r < next
    ensures forall x :: x in objects ==> x in objects[next := p] && objects[next := p][x] == objects[x]
  {
  }

  /** Writing the object of key `k` changes what the registry holds under
      `k` only: no other key shares its reference. */
  lemma IndexedTouch(players: map<ConnId, Ref>, objects: map<Ref, PlayerRec>, next: Ref, order: seq<ConnId>, queue: seq<ConnId>, k: ConnId, p: PlayerRec)
    requires Indexed(players, objects, next, order, queue)
    requires k in players && p.id == k
    ensures Indexed(players, objects[players[k] := p], next, order, queue)
    ensures Contents(players, objects[players[k] := p]) == Contents(players, objects)[k := p]
  {
    var c, d := Contents(players, objects[players[k] := p]), Contents(players, objects)[k := p];
    assert c.Keys == d.Keys;
    forall j | j in c ensures c[j] == d[j] {
      if j != k {
        assert objects[players[j]].id == j;
      }
    }
  }

  /** Dropping the two oldest queued ids keeps the invariant. */
  lemma IndexedDequeue(players: map<ConnId, Ref>, objects: map<Ref, PlayerRec>, next: Ref, order: seq<ConnId>, queue: seq<ConnId>)
    requires Indexed(players, objects, next, order, queue) && |queue| >= 2
    ensures Indexed(players, objects, next, order, queue[2..])
  {
    forall i | 0 <= i < |queue[2..]| ensures queue[2..][i] in players {
      assert queue[2..][i] == queue[i + 2];
    }
  }

  /** A disconnect deletes `id` everywhere; with at most one id queued no
      other copy of `id` stays behind in the queue. */
  lemma IndexedLeave(players: map<ConnId, Ref>, objects: map<Ref, PlayerRec>, next: Ref, order: seq<ConnId>, queue: seq<ConnId>, id: ConnId)
    requires Indexed(players, objects, next, order, queue) && |queue| <= 1
    ensures Indexed(players - {id}, objects, next, Erase(order, id), Erase(queue, id))
    ensures Contents(players - {id}, objects) == Contents(players, objects) - {id}
  {
    EraseNoDup(order, id);
    var order', queue' := Erase(order, id), Erase(queue, id);
    forall i | 0 <= i < |order'| ensures order'[i] in players - {id} {
      assert order'[i] in order && order'[i] != id;
    }
    forall i | 0 <= i < |queue'| ensures queue'[i] in players - {id} {
      assert queue'[i] in queue && queue'[i] != id;
    }
    forall k | k in players - {id} ensures k in order' {
      assert k in order;
    }
    ContentsLeave(players, objects, id);
  }

  lemma ContentsLeave(players: map<ConnId, Ref>, objects: map<Ref, PlayerRec>, id: ConnId)
    ensures Contents(players - {id}, objects) == Contents(players, objects) - {id}
  {
    assert Contents(players - {id}, objects).Keys == (Contents(players, objects) - {id}).Keys;
  }

  /** `players[winnerSocketId].wins += 1` on the object `w`. */
  function Credit(objects: map<Ref, PlayerRec>, w: Ref): (o: map<Ref, PlayerRec>)
    requires w in objects
    ensures o.Keys == objects.Keys
    ensures forall x :: x in o ==> o[x] == if x == w then objects[x].(wins := objects[x].wins + 1) else objects[x]
  {
    objects[w := objects[w].(wins := objects[w].wins + 1)]
  }

  /** `p1.selectedIndex = undefined; p2.selectedIndex = undefined` on the
      objects `a` and `b`. */
  function Unselect(objects: map<Ref, PlayerRec>, a: Ref, b: Ref): (o: map<Ref, PlayerRec>)
    requires a in objects && b in objects
    ensures o.Keys == objects.Keys
    ensures forall x :: x in o ==> o[x] == if x == a || x == b then objects[x].(selectedIndex := None) else objects[x]
  {
    objects[a := objects[a].(selectedIndex := None)][b := objects[b].(selectedIndex := None)]
  }

  /** Rewriting objects without changing their socket ids keeps the
      invariant. */
  lemma IndexedRelabel(players: map<ConnId, Ref>, objects: map<Ref, PlayerRec>, next: Ref, order: seq<ConnId>, queue: seq<ConnId>, objects': map<Ref, PlayerRec>)
    requires Indexed(players, objects, next, order, queue)
    requires objects'.Keys == objects.Keys && forall x :: x in objects ==> objects'[x].id == objects[x].id
    ensures Indexed(players, objects', next, order, queue)
  {
    forall k | k in players ensures players[k] in objects' && objects'[players[k]].id == k {
      assert players[k] in objects;
    }
  }

  /** `p` is `q` with at most its `wins` and `selectedIndex` rewritten: the
      socket id, name, cards and room stay as they were. */
  predicate Keeps(p: PlayerRec, q: PlayerRec)
  {
    p == q.(wins := p.wins, selectedIndex := p.selectedIndex)
  }

  const DisconnectWinText := "wins! (opponent disconnected)"
  const MatchWinText := "wins!"

  class GameServer {
    /** `players`: each registered id and the object stored under it. */
    var players: map<ConnId, Ref>
    /** Every player object ever created, by reference. */
    var objects: map<Ref, PlayerRec>
    var next: Ref
    /** The keys of `players` in the order `Object.values(players)` visits
        them: insertion order, where overwriting a key keeps its place. */
    var order: seq<ConnId>
    var waitingQueue: seq<ConnId>

    ghost predicate Valid()
      reads this
    {
      Indexed(players, objects, next, order, waitingQueue) && |waitingQueue| <= 1
    }

    /** The registry's contents: each key's player object. */
    ghost function View(): map<ConnId, PlayerRec>
      reads this
    {
      Contents(players, objects)
    }

    constructor ()
      ensures Valid() && View() == map[] && order == [] && waitingQueue == []
    {
      players := map[];
      objects := map[];
      next := 0;
      order := [];
      waitingQueue := [];
    }

    /** `players[k]`, the object registered under `k`. */
    function Entry(k: ConnId): PlayerRec
      reads this
      requires k in players && players[k] in objects
    {
      objects[players[k]]
    }

    /** The ids among `ids` whose player has `roomId == room`, in order; a
        `null` room matches every player whose `roomId` is `null`. */
    function InRoom(ids: seq<ConnId>, room: Option<string>): (r: seq<ConnId>)
      reads this
      ensures forall k :: k in r <==> k in ids && k in players && players[k] in objects && Entry(k).roomId == room
      ensures |r| <= |ids|
      ensures Subsequence(r, ids)
      ensures NoDup(ids) ==> NoDup(r)
    {
      if ids == [] then []
      else
        var rest := InRoom(ids[1..], room);
        if ids[0] in players && players[ids[0]] in objects && Entry(ids[0]).roomId == room then
          assert ([ids[0]] + rest)[1..] == rest;
          assert NoDup(ids) ==> ids[0] !in ids[1..];
          [ids[0]] + rest
        else rest
    }

    /** `Object.values(players).filter(p => p.roomId === room)`, as ids. */
    function RoomMembers(room: Option<string>): (r: seq<ConnId>)
      reads this
      ensures forall k :: k in r <==> k in order && k in players && players[k] in objects && Entry(k).roomId == room
      ensures Subsequence(r, order)
      ensures NoDup(order) ==> NoDup(r)
    {
      InRoom(order, room)
    }

    /** What a pairing into `room` sends: `matched` to the room, then each of
        the first two room members gets the other's cards, unless the room
        has fewer than two members and reading `p2.cards` throws. */
    function PairingEvents(room: string, fault: bool): (e: seq<Event>)
      reads this
      ensures |e| == if fault || |RoomMembers(Some(room))| < 2 then 1 else 3
      ensures e[0] == Event(ToRoom(Some(room)), Matched(MatchedText))
      ensures |e| == 3 ==> e[1].msg.CardsInfo? && e[2].msg.CardsInfo?
    {
      var m := RoomMembers(Some(room));
      [Event(ToRoom(Some(room)), Matched(MatchedText))] +
      (if fault || |m| < 2 then []
       else
         var p1, p2 := Entry(m[0]), Entry(m[1]);
         [Event(ToConn(p1.id), CardsInfo(p2.cards)), Event(ToConn(p2.id), CardsInfo(p1.cards))])
    }

    /** The `joinQueue` handler. */
    method JoinQueue(id: ConnId, name: string, cards: seq<Card>) returns (fault: bool, out: seq<Event>)
      requires Valid()
      modifies this
      ensures Valid()
      ensures |cards| != 3 ==>
        && !fault
        && players == old(players) && objects == old(objects) && next == old(next)
        && order == old(order) && waitingQueue == old(waitingQueue)
        && out == [Event(ToConn(id), CardLengthError(CardLengthText))]
      ensures |cards| == 3 ==>
        && players == old(players)[id := old(next)] && next == old(next) + 1
        && order == (if id in old(players) then old(order) else old(order) + [id])
        && old(objects.Keys) <= objects.Keys
      ensures |cards| == 3 && old(waitingQueue) == [] ==>
        && !fault
        && waitingQueue == [id]
        && objects == old(objects)[old(next) := Newcomer(id, name, cards)]
        && View() == old(View())[id := Newcomer(id, name, cards)]
        && out == []
      ensures |cards| == 3 && old(waitingQueue) != [] ==>
        var q := old(waitingQueue) + [id];
        var room := q[0] + "-" + q[1];
        var joined := old(View())[id := Newcomer(id, name, cards)];
        && waitingQueue == []
        && View() == Paired(joined, q[0], q[1], room)
        && (forall x :: x in old(objects) && x != players[q[0]] && x != players[q[1]] ==> objects[x] == old(objects[x]))
        && (fault <==> |RoomMembers(Some(room))| < 2)
        && (fault ==> q[0] == q[1])
        && out == PairingEvents(room, fault)
    {
      if |cards| != 3 {
        return false, [Event(ToConn(id), CardLengthError(CardLengthText))];
      }
      Register(id, name, cards);
      fault, out := MatchOldest();
    }

    /** server.js:25-34: store a new object under `id` (keeping the key's
        place if it was already there) and append `id` to the queue. */
    method Register(id: ConnId, name: string, cards: seq<Card>)
      requires Valid()
      modifies this
      ensures Indexed(players, objects, next, order, waitingQueue) && |waitingQueue| <= 2
      ensures waitingQueue == old(waitingQueue) + [id]
      ensures players == old(players)[id := old(next)] && next == old(next) + 1
      ensures objects == old(objects)[old(next) := Newcomer(id, name, cards)]
      ensures forall x :: x in old(objects) ==> x in objects && objects[x] == old(objects[x])
      ensures order == (if id in old(players) then old(order) else old(order) + [id])
      ensures View() == old(View())[id := Newcomer(id, name, cards)]
    {
      IndexedJoin(players, objects, next, order, waitingQueue, Newcomer(id, name, cards));
      StoreExtend(objects, next, Newcomer(id, name, cards));
      var r := next;
      next := next + 1;
      objects := objects[r := Newcomer(id, name, cards)];
      if id !in players {
        order := order + [id];
      }
      players := players[id := r];
      waitingQueue := waitingQueue + [id];
    }

    /** server.js:37-44: when two or more ids wait, take the two oldest off
        the queue, put both players in room `id1-id2`, and send the cards. */
    method MatchOldest() returns (fault: bool, out: seq<Event>)
      requires Indexed(players, objects, next, order, waitingQueue) && |waitingQueue| <= 2
      modifies this
      ensures Valid()
      ensures players == old(players) && order == old(order) && next == old(next)
      ensures objects.Keys == old(objects.Keys)
      ensures |old(waitingQueue)| < 2 ==>
        !fault && waitingQueue == old(waitingQueue) && objects == old(objects) && out == []
      ensures |old(waitingQueue)| >= 2 ==>
        var q := old(waitingQueue);
        var room := q[0] + "-" + q[1];
        && q[0] in old(View()) && q[1] in old(View())
        && waitingQueue == q[2..]
        && View() == Paired(old(View()), q[0], q[1], room)
        && (forall x :: x in old(objects) && x != players[q[0]] && x != players[q[1]] ==> objects[x] == old(objects[x]))
        && (fault <==> |RoomMembers(Some(room))| < 2)
        && (fault ==> q[0] == q[1])
        && out == PairingEvents(room, fault)
    {
      fault, out := false, [];
      if |waitingQueue| >= 2 {
        var id1, id2, room := PairOldest();
        fault, out := SendCards(id1, id2, room);
      }
    }

    /** server.js:38-44: shift the two oldest ids off the queue and set both
        players' `roomId` to `id1-id2`. */
    method PairOldest() returns (id1: ConnId, id2: ConnId, room: string)
      requires Indexed(players, objects, next, order, waitingQueue) && |waitingQueue| >= 2
      modifies this
      ensures id1 == old(waitingQueue[0]) && id2 == old(waitingQueue[1]) && room == id1 + "-" + id2
      ensures waitingQueue == old(waitingQueue[2..])
      ensures players == old(players) && order == old(order) && next == old(next)
      ensures objects.Keys == old(objects.Keys)
      ensures Indexed(players, objects, next, order, waitingQueue)
      ensures id1 in old(View()) && id2 in old(View())
      ensures View() == Paired(old(View()), id1, id2, room)
      ensures forall x :: x in old(objects) && x != players[id1] && x != players[id2] ==> objects[x] == old(objects[x])
    {
      id1 := waitingQueue[0];
      id2 := waitingQueue[1];
      IndexedDequeue(players, objects, next, order, waitingQueue);
      waitingQueue := waitingQueue[2..];
      room := id1 + "-" + id2;
      var p1 := objects[players[id1]].(roomId := Some(room));
      IndexedTouch(players, objects, next, order, waitingQueue, id1, p1);
      objects := objects[players[id1] := p1];
      var p2 := objects[players[id2]].(roomId := Some(room));
      IndexedTouch(players, objects, next, order, waitingQueue, id2, p2);
      objects := objects[players[id2] := p2];
    }

    /** server.js:45-51: announce the match to the room, then give each of
        the first two room members the other's cards. With fewer than two
        members `p2` is undefined and reading `p2.cards` throws. */
    method SendCards(id1: ConnId, id2: ConnId, room: string) returns (fault: bool, out: seq<Event>)
      requires Indexed(players, objects, next, order, waitingQueue)
      requires id1 in players && id2 in players
      requires Entry(id1).roomId == Some(room) && Entry(id2).roomId == Some(room)
      ensures fault <==> |RoomMembers(Some(room))| < 2
      ensures fault ==> id1 == id2
      ensures out == PairingEvents(room, fault)
    {
      var members := RoomMembers(Some(room));
      if |members| < 2 {
        assert id1 in members && id2 in members;
        return true, [Event(ToRoom(Some(room)), Matched(MatchedText))];
      }
      var p1, p2 := Entry(members[0]), Entry(members[1]);
      fault := false;
      out := [Event(ToRoom(Some(room)), Matched(MatchedText)),
              Event(ToConn(p1.id), CardsInfo(p2.cards)), Event(ToConn(p2.id), CardsInfo(p1.cards))];
    }

    /** `ids` are exactly two players and both have chosen a card index. */
    ghost predicate BothChosen(ids: seq<ConnId>)
      reads this
    {
      && |ids| == 2
      && ids[0] in players && players[ids[0]] in objects && ids[1] in players && players[ids[1]] in objects
      && Entry(ids[0]).selectedIndex.Some? && Entry(ids[1]).selectedIndex.Some?
    }

    /** The round `selectCard` starts for room members `m`: each side fights
        with a copy of the card at its chosen index. */
    ghost predicate StartsRound(r: Round, room: Option<string>, m: seq<ConnId>)
      reads this
      requires BothChosen(m) && HasCard(Entry(m[0])) && HasCard(Entry(m[1]))
    {
      var p1, p2 := Entry(m[0]), Entry(m[1]);
      r == Round(room, players[m[0]], players[m[1]],
                 Entrant(p1.id, p1.cards[p1.selectedIndex.value]),
                 Entrant(p2.id, p2.cards[p2.selectedIndex.value]))
    }

    /** The `selectCard` handler, up to the call of `battle`: the round it
        starts, if any, is returned for `PlayRound`. A call without an index
        (`None`, JavaScript's `undefined`) clears the player's choice. */
    method SelectCard(id: ConnId, index: Option<int>) returns (sel: Selection)
      requires Valid()
      modifies this
      ensures Valid()
      ensures players == old(players) && order == old(order) && waitingQueue == old(waitingQueue) && next == old(next)
      ensures id !in players ==> sel == Ignored && objects == old(objects)
      ensures id in players ==>
        && objects == old(objects)[players[id] := old(objects[players[id]]).(selectedIndex := index)]
        && View() == old(View())[id := old(View()[id]).(selectedIndex := index)]
        && var room := Entry(id).roomId;
           var m := RoomMembers(room);
           && (sel == Recorded <==> !BothChosen(m))
           && (sel == Fault <==> BothChosen(m) && !(HasCard(Entry(m[0])) && HasCard(Entry(m[1]))))
           && (sel.Started? <==> BothChosen(m) && HasCard(Entry(m[0])) && HasCard(Entry(m[1])))
           && (sel.Started? ==> StartsRound(sel.round, room, m))
    {
      if id !in players {
        return Ignored;
      }
      var r := players[id];
      IndexedTouch(players, objects, next, order, waitingQueue, id, objects[r].(selectedIndex := index));
      objects := objects[r := objects[r].(selectedIndex := index)];
      var room := objects[r].roomId;
      var m := RoomMembers(room);
      if !(|m| == 2 && Entry(m[0]).selectedIndex.Some? && Entry(m[1]).selectedIndex.Some?) {
        return Recorded;
      }
      var p1, p2 := Entry(m[0]), Entry(m[1]);
      if !(0 <= p1.selectedIndex.value < |p1.cards|) || !(0 <= p2.selectedIndex.value < |p2.cards|) {
        // `p1_card` or `p2_card` is undefined and reading `.name` throws
        return Fault;
      }
      var f1 := Entrant(p1.id, p1.cards[p1.selectedIndex.value]);
      var f2 := Entrant(p2.id, p2.cards[p2.selectedIndex.value]);
      return Started(Round(room, players[m[0]], players[m[1]], f1, f2));
    }

    /** What the round-complete callback sends once `wins` has been counted:
        `matchResult` to the room on the second win, otherwise `nextRound`
        with both captured players' win counts (a repeated name keeps the
        second player's count). Nothing is sent when the winner's entry is
        gone, since reading its `wins` throws. */
    function CompletionEvents(r: Round, winner: ConnId): (e: seq<Event>)
      reads this
      requires r.p1 in objects && r.p2 in objects
      ensures winner !in players || players[winner] !in objects ==> e == []
      ensures winner in players && players[winner] in objects ==> |e| == 1 && e[0].to == ToRoom(r.room)
      ensures |e| == 1 ==> (e[0].msg.MatchResult? <==> Entry(winner).wins == 2)
      ensures |e| == 1 && e[0].msg.MatchResult? ==> e[0].msg.text == Entry(winner).name + MatchWinText
      ensures |e| == 1 && e[0].msg.NextRound? ==> e[0].msg.wins.Keys == {objects[r.p1].name, objects[r.p2].name}
      ensures |e| == 1 && e[0].msg.NextRound? ==>
        objects[r.p1].name in e[0].msg.wins && objects[r.p2].name in e[0].msg.wins &&
        e[0].msg.wins[objects[r.p2].name] == objects[r.p2].wins &&
        (objects[r.p1].name != objects[r.p2].name ==> e[0].msg.wins[objects[r.p1].name] == objects[r.p1].wins)
    {
      if winner !in players || players[winner] !in objects then []
      else if Entry(winner).wins == 2 then
        [Event(ToRoom(r.room), MatchResult(Entry(winner).name + MatchWinText))]
      else
        var p1, p2 := objects[r.p1], objects[r.p2];
        [Event(ToRoom(r.room), NextRound(map[p1.name := p1.wins][p2.name := p2.wins]))]
    }

    /** The callback passed to `battle` (server.js:77-96), called with the
        winner's socket id. The object it credits is looked up by id at call
        time; the selections it clears belong to the two objects captured
        when the round started. */
    method RoundComplete(r: Round, winner: ConnId) returns (fault: bool, out: seq<Event>)
      requires Valid() && r.p1 in objects && r.p2 in objects
      modifies this
      ensures Valid()
      ensures players == old(players) && order == old(order) && waitingQueue == old(waitingQueue) && next == old(next)
      ensures objects.Keys == old(objects.Keys)
      ensures forall x :: x in objects ==> Keeps(objects[x], old(objects[x]))
      ensures out == CompletionEvents(r, winner)
      ensures fault <==> winner !in players
      ensures winner !in players ==> objects == old(objects)
      ensures winner in players ==>
        var credited := Credit(old(objects), players[winner]);
        objects == if credited[players[winner]].wins == 2 then credited else Unselect(credited, r.p1, r.p2)
    {
      if winner !in players {
        // `players[winnerSocketId]` is undefined and `.wins += 1` throws
        return true, [];
      }
      fault := false;
      var w := players[winner];
      IndexedRelabel(players, objects, next, order, waitingQueue, Credit(objects, w));
      objects := Credit(objects, w);
      if objects[w].wins == 2 {
        out := [Event(ToRoom(r.room), MatchResult(objects[w].name + MatchWinText))];
      } else {
        IndexedRelabel(players, objects, next, order, waitingQueue, Unselect(objects, r.p1, r.p2));
        objects := Unselect(objects, r.p1, r.p2);
        var p1, p2 := objects[r.p1], objects[r.p2];
        out := [Event(ToRoom(r.room), NextRound(map[p1.name := p1.wins][p2.name := p2.wins]))];
      }
    }

    /** `battle` followed by its callback: the events of the round, then, when
        it is won, what the callback does with the winner's id. */
    method PlayRound(r: Round, turns: seq<BattleEngine.TurnInput>) returns (outcome: BattleEngine.Outcome, fault: bool, out: seq<Event>)
      requires Valid() && r.p1 in objects && r.p2 in objects
      modifies this
      ensures Valid()
      ensures players == old(players) && order == old(order) && waitingQueue == old(waitingQueue) && next == old(next)
      ensures objects.Keys == old(objects.Keys)
      ensures forall x :: x in objects ==> Keeps(objects[x], old(objects[x]))
      ensures var b := BattleEngine.Battle(r.f1, r.f2, turns);
        && outcome == b.outcome
        && out == b.events + (if outcome.RoundWon? then CompletionEvents(r, outcome.winner.id) else [])
      ensures outcome.RoundWon? ==> outcome.winner.id in {r.f1.id, r.f2.id} && outcome.loser.id in {r.f1.id, r.f2.id}
      ensures !outcome.RoundWon? ==> !fault && objects == old(objects)
      ensures outcome.RoundWon? ==>
        && (fault <==> outcome.winner.id !in players)
        && (outcome.winner.id in players ==> Entry(outcome.winner.id).wins == old(Entry(outcome.winner.id).wins) + 1)
    {
      var events;
      outcome, events := BattleEngine.RunBattle(r.f1, r.f2, turns);
      BattleEngine.BattleWinner(r.f1, r.f2, turns);
      fault, out := false, events;
      if outcome.RoundWon? {
        var more;
        fault, more := RoundComplete(r, outcome.winner.id);
        out := out + more;
      }
    }

    /** The `disconnect` handler. */
    method Disconnect(id: ConnId) returns (out: seq<Event>)
      requires Valid()
      modifies this
      ensures Valid()
      ensures waitingQueue == Erase(old(waitingQueue), id)
      ensures order == Erase(old(order), id)
      ensures players == old(players) - {id}
      ensures objects == old(objects) && next == old(next)
      ensures View() == old(View()) - {id}
      ensures id !in old(players) ==> out == []
      ensures id in old(players) ==>
        var room := old(Entry(id).roomId);
        var announce := room.Some? && room.value != "" &&
                        (exists k :: k in players && players[k] in objects && Entry(k).roomId == room);
        && |out| == (if announce then 2 else 1)
        && out[0] == Event(ToRoom(room), OpponentDisconnect)
        && (announce ==>
              var m := RoomMembers(room);
              |m| > 0 && out[1] == Event(ToRoom(room), MatchResult(Entry(m[0]).name + DisconnectWinText)))
    {
      out := [];
      var registered := id in players;
      var room := if registered then Entry(id).roomId else None;
      Unregister(id);
      if registered {
        out := [Event(ToRoom(room), OpponentDisconnect)];
      }
      if room.Some? && room.value != "" {
        var m := RoomMembers(room);
        // every remaining entry's socket id is its key, never `id`, so
        // `find` picks the first member of the room
        if |m| > 0 {
          out := out + [Event(ToRoom(room), MatchResult(Entry(m[0]).name + DisconnectWinText))];
        }
      }
    }

    /** server.js:105-110: splice `id` out of the queue and delete its entry,
        which drops the key from the insertion order. */
    method Unregister(id: ConnId)
      requires Valid()
      modifies this
      ensures Valid()
      ensures waitingQueue == Erase(old(waitingQueue), id)
      ensures order == Erase(old(order), id)
      ensures players == old(players) - {id}
      ensures objects == old(objects) && next == old(next)
      ensures View() == old(View()) - {id}
    {
      IndexedLeave(players, objects, next, order, waitingQueue, id);
      waitingQueue := Erase(waitingQueue, id);
      players := players - {id};
      order := Erase(order, id);
    }
  }

  /** With room members `a` then `b`, a pairing sends `a` the cards of `b`
      and then `b` the cards of `a`. */
  lemma PairingOrder(s: GameServer, room: string, a: ConnId, b: ConnId)
    requires s.Valid() && s.RoomMembers(Some(room)) == [a, b]
    ensures a in s.View() && b in s.View()
    ensures s.PairingEvents(room, false) ==
      [Event(ToRoom(Some(room)), Matched(MatchedText)),
       Event(ToConn(a), CardsInfo(s.View()[b].cards)), Event(ToConn(b), CardsInfo(s.View()[a].cards))]
  {
    assert a in s.RoomMembers(Some(room)) && b in s.RoomMembers(Some(room));
    assert s.Entry(a) == s.View()[a] && s.Entry(b) == s.View()[b];
  }
}
