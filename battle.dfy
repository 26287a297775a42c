/** The round engine of server/battle.js: two card stat blocks fight turn by turn
    until one of them drops to zero hp or below, or a connection is lost.

    `Math.random()` and `socket.connected` are inputs: every turn is given a
    `TurnInput` saying whether both sockets are still connected at the top of
    the turn and how the two rolls came out. The sequence of inputs is also the
    fuel of the loop: when it runs out the round is reported as still in
    progress, which is how the model states that a round may never end. */
module BattleEngine {
  import opened Protocol

  /** The copy of a card the server hands to the engine, with the id of the
      connection that owns it (server.js:74-75). */
  datatype Fighter = Fighter(id: ConnId, name: string, hp: int, attack: int, defend: int, speed: int)

  /** The two random draws of a turn: `crit` is `critical >= 0.9`, `miss` is `miss >= 0.9`. */
  datatype Roll = Roll(crit: bool, miss: bool)

  /** What the turn loop observes at the top of one turn. */
  datatype TurnInput = TurnInput(live: bool, roll: Roll)

  datatype Hit = Critical | Missed | Normal

  datatype Strike = Strike(hit: Hit, damage: nat)

  /** The loop variables `attacker` and `defender`. */
  datatype Duel = Duel(attacker: Fighter, defender: Fighter)

  /** What one pass through the loop body leads to. */
  datatype StepResult = Halt | Knockout(winner: Fighter, loser: Fighter) | Swap(next: Duel)

  datatype Turn = Turn(result: StepResult, events: seq<Event>)

  /** How a round stands once the given turns are used up: aborted by a lost
      connection, won, or still going. */
  datatype Outcome = Abandoned(at: Duel) | RoundWon(winner: Fighter, loser: Fighter) | InProgress(at: Duel)

  datatype Report = Report(outcome: Outcome, events: seq<Event>)

  /** The faster card attacks first; a speed tie goes to `player1`. */
  function Opening(p1: Fighter, p2: Fighter): (d: Duel)
    ensures (d.attacker == p1 && d.defender == p2) || (d.attacker == p2 && d.defender == p1)
    ensures d.attacker.speed >= d.defender.speed
    ensures p1.speed == p2.speed ==> d.attacker == p1
  {
    if p1.speed >= p2.speed then Duel(p1, p2) else Duel(p2, p1)
  }

  /** `Math.max(0, attacker.attack - defender.defend)`. */
  function BaseDamage(attacker: Fighter, defender: Fighter): (n: nat)
    ensures n >= attacker.attack - defender.defend
    ensures n == 0 || n == attacker.attack - defender.defend
  {
    if attacker.attack > defender.defend then attacker.attack - defender.defend else 0
  }

  /** `Math.round(base * 1.3)` computed on exact rationals: the integer
      nearest to 13/10 of `base`, halves rounded up. */
  function CritDamage(base: nat): (n: nat)
    ensures 10 * n <= 13 * base + 5 < 10 * n + 10
  {
    (13 * base + 5) / 10
  }

  /** A critical hit never does less than a normal one, and does strictly
      more exactly when the base damage is at least 2. */
  lemma CritNeverWeaker(base: nat)
    ensures CritDamage(base) >= base
    ensures CritDamage(base) > base <==> base >= 2
  {
  }

  /** The crit roll is checked first, so it wins over the miss roll. */
  function Resolve(roll: Roll, base: nat): (s: Strike)
    ensures s.hit == Critical <==> roll.crit
    ensures s.hit == Missed <==> !roll.crit && roll.miss
    ensures s.hit == Critical ==> s.damage == CritDamage(base)
    ensures s.hit == Missed ==> s.damage == 0
    ensures s.hit == Normal ==> s.damage == base
  {
    if roll.crit then Strike(Critical, CritDamage(base))
    else if roll.miss then Strike(Missed, 0)
    else Strike(Normal, base)
  }

  /** The message that announces a strike to both sides. */
  function Announcement(s: Strike, attacker: Fighter, defender: Fighter): Msg
  {
    match s.hit
    case Critical => CriticalMsg(CriticalText)
    case Missed => MissMsg(MissText)
    case Normal => NormalAttack(attacker.name, defender.name, s.damage)
  }

  /** `updateStatus` as `self` receives it, with `enemy` as the opponent. */
  function StatusFor(self: Fighter, enemy: Fighter): Event
  {
    Event(ToConn(self.id), UpdateStatus(self.name, enemy.name, self.hp, enemy.hp))
  }

  function WinText(winner: Fighter): string
  {
    winner.name + " round win!"
  }

  /** `initialStatus`: each side is shown the other's stat block once. */
  function Greetings(d: Duel): (g: seq<Event>)
    ensures |g| == 2 && g[0].to == ToConn(d.attacker.id) && g[1].to == ToConn(d.defender.id)
    ensures g[0].msg == InitialStatus(d.defender.name, d.defender.attack, d.defender.hp, d.defender.defend, d.defender.speed)
    ensures g[1].msg == InitialStatus(d.attacker.name, d.attacker.attack, d.attacker.hp, d.attacker.defend, d.attacker.speed)
  {
    [ Event(ToConn(d.attacker.id), InitialStatus(d.defender.name, d.defender.attack, d.defender.hp, d.defender.defend, d.defender.speed)),
      Event(ToConn(d.defender.id), InitialStatus(d.attacker.name, d.attacker.attack, d.attacker.hp, d.attacker.defend, d.attacker.speed)) ]
  }

  /** The damage the attacker of `d` deals under `roll`. */
  function DamageOf(d: Duel, roll: Roll): nat
  {
    Resolve(roll, BaseDamage(d.attacker, d.defender)).damage
  }

  /** One pass through the body of the `while (true)` loop. */
  function TakeTurn(d: Duel, t: TurnInput): (turn: Turn)
    ensures !t.live ==> turn == Turn(Halt, [])
    ensures t.live ==> !turn.result.Halt?
    // only the defender's hp changes, by exactly the damage, without clamping
    ensures turn.result.Knockout? ==>
      turn.result.winner == d.attacker && turn.result.loser == d.defender.(hp := d.defender.hp - DamageOf(d, t.roll))
    ensures turn.result.Swap? ==>
      turn.result.next == Duel(d.defender.(hp := d.defender.hp - DamageOf(d, t.roll)), d.attacker)
    // the round ends exactly when the defender is at zero hp or below
    ensures t.live ==> (turn.result.Knockout? <==> d.defender.hp - DamageOf(d, t.roll) <= 0)
  {
    if !t.live then Turn(Halt, [])
    else
      var s := Resolve(t.roll, BaseDamage(d.attacker, d.defender));
      var hit := d.defender.(hp := d.defender.hp - s.damage);
      if hit.hp <= 0 then Turn(Knockout(d.attacker, hit), Blows(d, s) + Results(d.attacker, hit))
      else Turn(Swap(Duel(hit, d.attacker)), Blows(d, s))
  }

  /** Every turn of `turns` finds both sides connected. */
  ghost predicate AllLive(turns: seq<TurnInput>)
  {
    forall i :: 0 <= i < |turns| ==> turns[i].live
  }

  /** The turn loop, run on the given inputs. It is aborted exactly when
      some turn finds a side disconnected before the round is decided, and
      it is still going only when every given turn found both connected. */
  function Play(d: Duel, turns: seq<TurnInput>): (r: Report)
    ensures r.outcome.InProgress? ==> AllLive(turns)
    ensures r.outcome.Abandoned? ==> !AllLive(turns)
    decreases |turns|
  {
    if turns == [] then Report(InProgress(d), [])
    else
      var t := TakeTurn(d, turns[0]);
      match t.result
      case Halt => Report(Abandoned(d), [])
      case Knockout(w, l) => Report(RoundWon(w, l), t.events)
      case Swap(next) =>
        var rest := Play(next, turns[1..]);
        Report(rest.outcome, t.events + rest.events)
  }

  /** `battle(player1, player2, callback)`: decide who opens, greet, then loop. */
  function Battle(p1: Fighter, p2: Fighter, turns: seq<TurnInput>): (r: Report)
    ensures |r.events| >= 2 && r.events[..2] == Greetings(Opening(p1, p2))
    ensures r.outcome.InProgress? ==> AllLive(turns)
    ensures r.outcome.Abandoned? ==> !AllLive(turns)
  {
    var d := Opening(p1, p2);
    var rest := Play(d, turns);
    Report(rest.outcome, Greetings(d) + rest.events)
  }

  /** Message kinds, for picking one kind of event out of a log. */
  datatype Kind = HitKind | StatusKind | ResultKind | OtherKind

  function KindOf(m: Msg): Kind
  {
    match m
    case CriticalMsg(_) => HitKind
    case MissMsg(_) => HitKind
    case NormalAttack(_, _, _) => HitKind
    case UpdateStatus(_, _, _, _) => StatusKind
    case UpdateResult(_) => ResultKind
    case _ => OtherKind
  }

  /** The events of `log` whose message is of kind `k`, in order. */
  function OfKind(log: seq<Event>, k: Kind): seq<Event>
  {
    if log == [] then []
    else (if KindOf(log[0].msg) == k then [log[0]] else []) + OfKind(log[1..], k)
  }

  lemma {:induction false} OfKindAppend(a: seq<Event>, b: seq<Event>, k: Kind)
    ensures OfKind(a + b, k) == OfKind(a, k) + OfKind(b, k)
  {
    if a == [] {
      assert a + b == b;
    } else {
      assert (a + b)[0] == a[0];
      assert (a + b)[1..] == a[1..] + b;
      OfKindAppend(a[1..], b, k);
    }
  }

  lemma OfKindPair(x: Event, y: Event, k: Kind)
    ensures OfKind([x, y], k) == (if KindOf(x.msg) == k then [x] else []) + (if KindOf(y.msg) == k then [y] else [])
  {
    assert [x, y][1..] == [y];
    assert [y][1..] == [];
    assert OfKind([y], k) == (if KindOf(y.msg) == k then [y] else []) + OfKind([], k);
  }

  /** The strike announcement and the two status updates of a live turn. */
  function Blows(d: Duel, s: Strike): seq<Event>
  {
    var hit := d.defender.(hp := d.defender.hp - s.damage);
    var m := Announcement(s, d.attacker, d.defender);
    [Event(ToConn(d.attacker.id), m), Event(ToConn(d.defender.id), m)] + [StatusFor(d.attacker, hit), StatusFor(hit, d.attacker)]
  }

  /** The two `updateResult` messages of a knockout by `winner`. */
  function Results(winner: Fighter, loser: Fighter): seq<Event>
  {
    [Event(ToConn(winner.id), UpdateResult(WinText(winner))), Event(ToConn(loser.id), UpdateResult(WinText(winner)))]
  }

  lemma BlowsByKind(d: Duel, s: Strike)
    ensures var hit := d.defender.(hp := d.defender.hp - s.damage);
            var m := Announcement(s, d.attacker, d.defender);
            && OfKind(Blows(d, s), HitKind) == [Event(ToConn(d.attacker.id), m), Event(ToConn(d.defender.id), m)]
            && OfKind(Blows(d, s), StatusKind) == [StatusFor(d.attacker, hit), StatusFor(hit, d.attacker)]
            && OfKind(Blows(d, s), ResultKind) == []
  {
    var hit := d.defender.(hp := d.defender.hp - s.damage);
    var m := Announcement(s, d.attacker, d.defender);
    var pair := [Event(ToConn(d.attacker.id), m), Event(ToConn(d.defender.id), m)];
    var status := [StatusFor(d.attacker, hit), StatusFor(hit, d.attacker)];
    OfKindPair(pair[0], pair[1], HitKind);
    OfKindPair(status[0], status[1], HitKind);
    OfKindAppend(pair, status, HitKind);
    OfKindPair(pair[0], pair[1], StatusKind);
    OfKindPair(status[0], status[1], StatusKind);
    OfKindAppend(pair, status, StatusKind);
    OfKindPair(pair[0], pair[1], ResultKind);
    OfKindPair(status[0], status[1], ResultKind);
    OfKindAppend(pair, status, ResultKind);
  }

  lemma ResultsByKind(w: Fighter, l: Fighter)
    ensures OfKind(Results(w, l), HitKind) == [] && OfKind(Results(w, l), StatusKind) == []
    ensures OfKind(Results(w, l), ResultKind) == Results(w, l)
  {
    var r := Results(w, l);
    OfKindPair(r[0], r[1], HitKind);
    OfKindPair(r[0], r[1], StatusKind);
    OfKindPair(r[0], r[1], ResultKind);
  }

  /** Every live turn sends each side exactly one of `critical`, `miss` and
      `normalAttack`, chosen with crit before miss, and one `updateStatus`
      framed from that side: its own hp as `selfHp`, the opponent's as
      `enemyHp`. */
  lemma TurnMessages(d: Duel, t: TurnInput)
    requires t.live
    ensures var s := Resolve(t.roll, BaseDamage(d.attacker, d.defender));
            var hit := d.defender.(hp := d.defender.hp - s.damage);
            var m := Announcement(s, d.attacker, d.defender);
            var events := TakeTurn(d, t).events;
            && OfKind(events, HitKind) == [Event(ToConn(d.attacker.id), m), Event(ToConn(d.defender.id), m)]
            && (m.CriticalMsg? <==> t.roll.crit)
            && (m.MissMsg? <==> !t.roll.crit && t.roll.miss)
            && (m.NormalAttack? <==> !t.roll.crit && !t.roll.miss)
            && (m.NormalAttack? ==> m.damage == BaseDamage(d.attacker, d.defender))
            && OfKind(events, StatusKind) == [StatusFor(d.attacker, hit), StatusFor(hit, d.attacker)]
            && StatusFor(d.attacker, hit).msg.selfHp == d.attacker.hp
            && StatusFor(hit, d.attacker).msg.selfHp == hit.hp
  {
    var s := Resolve(t.roll, BaseDamage(d.attacker, d.defender));
    var hit := d.defender.(hp := d.defender.hp - s.damage);
    BlowsByKind(d, s);
    if hit.hp <= 0 {
      ResultsByKind(d.attacker, hit);
      OfKindAppend(Blows(d, s), Results(d.attacker, hit), HitKind);
      OfKindAppend(Blows(d, s), Results(d.attacker, hit), StatusKind);
    }
  }

  /** `hurt` is the card `card` with only its hp lowered, or left as it was. */
  ghost predicate Worn(hurt: Fighter, card: Fighter)
  {
    hurt == card.(hp := hurt.hp) && hurt.hp <= card.hp
  }

  /** `x` and `y` are the two cards of `d`, in either role, each worn. */
  ghost predicate SameCards(x: Fighter, y: Fighter, d: Duel)
  {
    (Worn(x, d.attacker) && Worn(y, d.defender)) || (Worn(x, d.defender) && Worn(y, d.attacker))
  }

  /** A round never changes a card's name, attack, defence or speed, never
      raises its hp, and its winner and loser are the two cards it started
      with. */
  lemma {:induction false} PlayKeepsCards(d: Duel, turns: seq<TurnInput>)
    ensures match Play(d, turns).outcome
            case Abandoned(at) => SameCards(at.attacker, at.defender, d)
            case RoundWon(w, l) => SameCards(w, l, d) && l.hp <= 0
            case InProgress(at) => SameCards(at.attacker, at.defender, d)
    decreases |turns|
  {
    if turns != [] {
      var t := TakeTurn(d, turns[0]);
      if t.result.Swap? {
        PlayKeepsCards(t.result.next, turns[1..]);
      }
    }
  }

  /** The round result is sent exactly when the round is won, once to each
      side, naming the attacker that made the knockout. */
  lemma {:induction false} ResultAnnouncedOnce(d: Duel, turns: seq<TurnInput>)
    ensures var r := Play(d, turns);
            OfKind(r.events, ResultKind) ==
              if r.outcome.RoundWon? then
                [Event(ToConn(r.outcome.winner.id), UpdateResult(WinText(r.outcome.winner))),
                 Event(ToConn(r.outcome.loser.id), UpdateResult(WinText(r.outcome.winner)))]
              else []
    decreases |turns|
  {
    if turns != [] && turns[0].live {
      var s := Resolve(turns[0].roll, BaseDamage(d.attacker, d.defender));
      BlowsByKind(d, s);
      var t := TakeTurn(d, turns[0]);
      if t.result.Swap? {
        var rest := Play(t.result.next, turns[1..]);
        ResultAnnouncedOnce(t.result.next, turns[1..]);
        OfKindAppend(t.events, rest.events, ResultKind);
      } else {
        ResultsByKind(t.result.winner, t.result.loser);
        OfKindAppend(Blows(d, s), Results(t.result.winner, t.result.loser), ResultKind);
      }
    }
  }

  /** When neither card can hurt the other and both start above zero hp, the
      loop never ends while both sides stay connected: no input sequence,
      however long, reaches a knockout, and the hp values never move. */
  lemma {:induction false} Stalemate(d: Duel, turns: seq<TurnInput>)
    requires d.attacker.hp > 0 && d.defender.hp > 0
    requires BaseDamage(d.attacker, d.defender) == 0 && BaseDamage(d.defender, d.attacker) == 0
    requires AllLive(turns)
    ensures Play(d, turns).outcome.InProgress?
    ensures Play(d, turns).outcome.at == d || Play(d, turns).outcome.at == Duel(d.defender, d.attacker)
    decreases |turns|
  {
    if turns != [] {
      assert turns[0].live;
      assert CritDamage(0) == 0;
      var next := Duel(d.defender, d.attacker);
      assert TakeTurn(d, turns[0]).result == Swap(next);
      assert AllLive(turns[1..]) by {
        forall i | 0 <= i < |turns[1..]| ensures turns[1..][i].live {
          assert turns[1..][i] == turns[i + 1];
        }
      }
      Stalemate(next, turns[1..]);
    }
  }

  function Positive(n: int): nat
  {
    if n > 0 then n else 0
  }

  /** The hp left to take from both sides. */
  function Pool(d: Duel): nat
  {
    Positive(d.attacker.hp) + Positive(d.defender.hp)
  }

  /** Both sides stay connected and no turn is a miss. */
  ghost predicate Relentless(turns: seq<TurnInput>)
  {
    forall i :: 0 <= i < |turns| ==> turns[i].live && !turns[i].roll.miss
  }

  lemma RelentlessTail(turns: seq<TurnInput>, k: nat)
    requires Relentless(turns) && k <= |turns|
    ensures Relentless(turns[k..])
  {
    forall i | 0 <= i < |turns[k..]| ensures turns[k..][i].live && !turns[k..][i].roll.miss {
      assert turns[k..][i] == turns[k + i];
    }
  }

  /** If at least one side can hurt the other, a round in which nobody
      disconnects and nobody misses ends in a knockout within twice the
      total hp of the two cards, plus one turn. */
  lemma {:induction false} KnockoutWithinBound(d: Duel, turns: seq<TurnInput>)
    requires BaseDamage(d.attacker, d.defender) > 0 || BaseDamage(d.defender, d.attacker) > 0
    requires Relentless(turns)
    requires |turns| > 2 * Pool(d)
    ensures Play(d, turns).outcome.RoundWon?
    decreases |turns|
  {
    var t0 := turns[0];
    assert t0.live && !t0.roll.miss;
    CritNeverWeaker(BaseDamage(d.attacker, d.defender));
    var first := TakeTurn(d, t0);
    if first.result.Swap? {
      var d1 := first.result.next;
      assert d1.defender == d.attacker;
      assert d1.attacker == d.defender.(hp := d1.attacker.hp);
      assert DamageOf(d, t0.roll) >= BaseDamage(d.attacker, d.defender);
      assert Pool(d1) == Pool(d) - DamageOf(d, t0.roll);
      assert |turns| >= 2;
      assert turns[1..][0] == turns[1];
      var t1 := turns[1];
      assert t1.live && !t1.roll.miss;
      CritNeverWeaker(BaseDamage(d1.attacker, d1.defender));
      var second := TakeTurn(d1, t1);
      if second.result.Swap? {
        var d2 := second.result.next;
        assert BaseDamage(d1.attacker, d1.defender) == BaseDamage(d.defender, d.attacker);
        assert DamageOf(d1, t1.roll) >= BaseDamage(d.defender, d.attacker);
        assert Pool(d2) == Pool(d1) - DamageOf(d1, t1.roll);
        assert Pool(d2) < Pool(d);
        assert BaseDamage(d2.attacker, d2.defender) == BaseDamage(d.attacker, d.defender);
        assert BaseDamage(d2.defender, d2.attacker) == BaseDamage(d.defender, d.attacker);
        RelentlessTail(turns, 2);
        assert turns[1..][1..] == turns[2..];
        KnockoutWithinBound(d2, turns[2..]);
      }
    }
  }

  /** The callback of a won round receives one of the two entrants' ids, and
      the loser is the other entrant. */
  lemma BattleWinner(p1: Fighter, p2: Fighter, turns: seq<TurnInput>)
    ensures var o := Battle(p1, p2, turns).outcome;
            o.RoundWon? ==>
              (Worn(o.winner, p1) && Worn(o.loser, p2)) || (Worn(o.winner, p2) && Worn(o.loser, p1))
  {
    PlayKeepsCards(Opening(p1, p2), turns);
  }

  /** The engine as battle.js runs it: a loop that applies one turn at a time,
      swapping the two roles, until a knockout, a lost connection, or the end
      of the given inputs. */
  method RunBattle(p1: Fighter, p2: Fighter, turns: seq<TurnInput>) returns (outcome: Outcome, log: seq<Event>)
    ensures Report(outcome, log) == Battle(p1, p2, turns)
  {
    var attacker: Fighter, defender: Fighter := p1, p2;
    if p1.speed < p2.speed {
      attacker, defender := p2, p1;
    }
    log := Greetings(Duel(attacker, defender));
    var i := 0;
    while i < |turns|
      invariant 0 <= i <= |turns|
      invariant Battle(p1, p2, turns) == Report(Play(Duel(attacker, defender), turns[i..]).outcome,
                                                log + Play(Duel(attacker, defender), turns[i..]).events)
    {
      assert turns[i..][0] == turns[i] && turns[i..][1..] == turns[i + 1..];
      var turn := TakeTurn(Duel(attacker, defender), turns[i]);
      log := log + turn.events;
      match turn.result {
        case Halt =>
          outcome := Abandoned(Duel(attacker, defender));
          return;
        case Knockout(winner, loser) =>
          outcome := RoundWon(winner, loser);
          return;
        case Swap(next) =>
          attacker, defender := next.attacker, next.defender;
      }
      i := i + 1;
    }
    outcome := InProgress(Duel(attacker, defender));
  }
}
