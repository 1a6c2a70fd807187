/** A game of Ludo played out from a list of player identifiers and a list
    of turns.

    The specification side registers the players (rejecting the game on an
    identifier other than "A".."D"), runs every turn through Rules.TurnSpec
    (stopping at the first turn whose mover cannot be found, where the source
    fails), and reads off the labels of all tokens.  LudoGame does the same
    step by step on Player objects and is proved to agree with it.
 */
module Game {

  import opened Wrappers
  import opened Board
  import opened Players
  import opened Rules
  import opened RuleFacts

  /** One turn: who moves (as given, a string) and the die roll. */
  datatype Turn = Turn(who: string, roll: int)

  /** What playing a game gives.  Positions holds the labels of every
      player's P and Q in registration order; Rejected is the source's early
      return on an unknown identifier in the player list; Crashed(k) is the
      turn at which the source fails, because the mover is not one of "A".."D"
      or has not been registered. */
  datatype Outcome = Positions(labels: seq<Option<string>>) | Rejected | Crashed(turn: nat)

  /** What looking a player up gives: the index of the first registered
      player with that identifier, the "Player not found!" message for a
      string that is not an identifier, or nothing when no such player was
      registered. */
  datatype Lookup = Found(index: nat) | NotFoundMessage | Nothing

  /** The players registered from a list of identifiers, in order; duplicates
      are registered again.  Nothing when some identifier is not "A".."D". */
  function Register(ids: seq<string>): (r: Option<seq<PlayerState>>)
    ensures r.Some? <==> forall i :: 0 <= i < |ids| ==> ParseId(ids[i]).Some?
    ensures r.Some? ==> |r.value| == |ids|
    ensures r.Some? ==> forall i :: 0 <= i < |ids| ==> r.value[i] == Fresh(ParseId(ids[i]).value)
  {
    if ids == [] then Some([])
    else
      match ParseId(ids[0])
      case None => None
      case Some(id) =>
        match Register(ids[1..])
        case None => None
        case Some(rest) => Some([Fresh(id)] + rest)
  }

  /** The first player from index j on with identifier id. */
  function FindFrom(s: seq<PlayerState>, id: PlayerId, j: nat): (r: Option<nat>)
    requires j <= |s|
    ensures r.Some? ==> j <= r.value < |s| && s[r.value].id == id
    ensures r.Some? ==> forall i :: j <= i < r.value ==> s[i].id != id
    ensures r.None? <==> forall i :: j <= i < |s| ==> s[i].id != id
    decreases |s| - j
  {
    if j == |s| then None
    else if s[j].id == id then Some(j)
    else FindFrom(s, id, j + 1)
  }

  /** Looking up a mover by the string a turn gives. */
  function LookupSpec(s: seq<PlayerState>, who: string): (r: Lookup)
    ensures r == NotFoundMessage <==> ParseId(who).None?
    ensures r.Found? ==> r.index < |s| && Some(s[r.index].id) == ParseId(who)
    ensures r.Found? ==> forall i :: 0 <= i < r.index ==> Some(s[i].id) != ParseId(who)
    ensures r == Nothing <==> ParseId(who).Some? && forall i :: 0 <= i < |s| ==> Some(s[i].id) != ParseId(who)
  {
    match ParseId(who)
    case None => NotFoundMessage
    case Some(id) =>
      match FindFrom(s, id, 0)
      case None => Nothing
      case Some(i) => Found(i)
  }

  predicate ValidRolls(turns: seq<Turn>)
  {
    forall i :: 0 <= i < |turns| ==> 1 <= turns[i].roll <= 6
  }

  /** Where running turns k.. from s stops: the final players, or the turn
      whose mover could not be found. */
  datatype Run = Ran(s: seq<PlayerState>) | Failed(turn: nat)

  function RunTurns(s: seq<PlayerState>, turns: seq<Turn>, k: nat): (r: Run)
    requires k <= |turns| && ValidRolls(turns)
    ensures r.Ran? ==> |r.s| == |s|
    ensures r.Failed? ==> k <= r.turn < |turns|
    decreases |turns| - k
  {
    if k == |turns| then Ran(s)
    else
      match LookupSpec(s, turns[k].who)
      case Found(m) => RunTurns(TurnSpec(s, m, turns[k].roll), turns, k + 1)
      case _ => Failed(k)
  }

  /** The labels of every player's P and Q, in registration order. */
  function Output(s: seq<PlayerState>): (r: seq<Option<string>>)
    requires forall i :: 0 <= i < |s| ==> s[i].p >= -TrackLength && s[i].q >= -TrackLength
    ensures |r| == 2 * |s|
    ensures forall i :: 0 <= i < |s| ==>
      r[2 * i] == TrackSpaceName(s[i].id, s[i].p) && r[2 * i + 1] == TrackSpaceName(s[i].id, s[i].q)
  {
    if s == [] then []
    else
      var last := s[|s| - 1];
      Output(s[..|s| - 1]) + [TrackSpaceName(last.id, last.p), TrackSpaceName(last.id, last.q)]
  }

  /** Every state a run of turns reaches is well formed. */
  lemma {:induction false} RunKeepsConsistent(s: seq<PlayerState>, turns: seq<Turn>, k: nat)
    requires k <= |turns| && ValidRolls(turns) && Consistent(s)
    ensures RunTurns(s, turns, k).Ran? ==> Consistent(RunTurns(s, turns, k).s)
    decreases |turns| - k
  {
    if k < |turns| {
      var l := LookupSpec(s, turns[k].who);
      if l.Found? {
        TurnKeepsConsistent(s, l.index, turns[k].roll);
        RunKeepsConsistent(TurnSpec(s, l.index, turns[k].roll), turns, k + 1);
      }
    }
  }

  /** One turn of a run: the mover is looked up, and either the run goes on
      from the state after its turn or it stops at this turn. */
  lemma RunStep(s: seq<PlayerState>, turns: seq<Turn>, k: nat)
    requires k < |turns| && ValidRolls(turns)
    ensures LookupSpec(s, turns[k].who).Found? ==>
      var m := LookupSpec(s, turns[k].who).index;
      m < |s| && RunTurns(s, turns, k) == RunTurns(TurnSpec(s, m, turns[k].roll), turns, k + 1)
    ensures !LookupSpec(s, turns[k].who).Found? ==> RunTurns(s, turns, k) == Failed(k)
  {
  }

  /** A whole game: register, play every turn, report positions. */
  function PlayGameSpec(ids: seq<string>, turns: seq<Turn>): (r: Outcome)
    requires ValidRolls(turns)
    ensures r == Rejected <==> exists i :: 0 <= i < |ids| && ParseId(ids[i]).None?
    ensures r.Crashed? ==> r.turn < |turns|
    ensures r.Positions? ==> |r.labels| == 2 * |ids|
  {
    match Register(ids)
    case None => Rejected
    case Some(s) => PlayFrom(s, turns)
  }

  /** The game once the players s are registered: the turns are played in
      order and either a mover is missing or the final positions are
      reported. */
  function PlayFrom(s: seq<PlayerState>, turns: seq<Turn>): (r: Outcome)
    requires Consistent(s) && ValidRolls(turns)
    ensures !r.Rejected?
    ensures r.Crashed? <==> RunTurns(s, turns, 0).Failed?
    ensures r.Crashed? ==> r.turn < |turns|
    ensures r.Positions? ==> |r.labels| == 2 * |s|
  {
    RunKeepsConsistent(s, turns, 0);
    match RunTurns(s, turns, 0)
    case Failed(k) => Crashed(k)
    case Ran(f) => Positions(Output(f))
  }

  class LudoGame {
    var players: seq<Player>

    /** The registered players' states, in registration order. */
    function States(): (r: seq<PlayerState>)
      reads this, players
      ensures |r| == |players|
      ensures forall i :: 0 <= i < |players| ==> r[i] == players[i].State()
    {
      seq(|players|, i reads this, players requires 0 <= i < |players| => players[i].State())
    }

    /** No player object is registered twice. */
    ghost predicate Distinct()
      reads this
    {
      forall i, j :: 0 <= i < j < |players| ==> players[i] != players[j]
    }

    /** Distinct player objects, every one well formed. */
    ghost predicate Valid()
      reads this, players
    {
      Distinct() && Consistent(States())
    }

    constructor ()
      ensures players == [] && Valid()
    {
      players := [];
    }

    /** The player a turn names: scans the players in order for the first
        with the identifier. */
    method GetPlayerByPosition(who: string) returns (r: Lookup)
      ensures r == LookupSpec(States(), who)
    {
      match ParseId(who)
      case None =>
        return NotFoundMessage;
      case Some(id) =>
        var i := 0;
        while i < |players|
          invariant 0 <= i <= |players|
          invariant FindFrom(States(), id, 0) == FindFrom(States(), id, i)
        {
          if id == players[i].id {
            return Found(i);
          }
          i := i + 1;
        }
        return Nothing;
    }

    /** One opponent's capture test, in the source's order: the mover's P
        against the opponent's P, then its Q; then the mover's Q likewise.
        Only tokens on the ring capture or are captured; the labels compared
        are the mover's projected ones and the opponent's current ones. */
    method KickTest(m: nat, j: nat, p0: int, q0: int, roll: int, projP: Option<string>, projQ: Option<string>)
      returns (k: Kick)
      requires m < |players| && j < |players| && 1 <= roll <= 6
      requires players[j].p >= -1 && players[j].q >= -1
      requires OnRing(p0) ==> projP == Some(Label(players[m].id, p0 + roll))
      requires OnRing(q0) ==> projQ == Some(Label(players[m].id, q0 + roll))
      ensures k == KickOf(players[m].id, p0, q0, roll, players[j].State())
    {
      var opp := players[j];
      ghost var mid := players[m].id;
      LandsOn(mid, p0, roll, opp.id, opp.p);
      LandsOn(mid, p0, roll, opp.id, opp.q);
      LandsOn(mid, q0, roll, opp.id, opp.p);
      LandsOn(mid, q0, roll, opp.id, opp.q);
      if projP == opp.SpaceName(opp.p) && OnRing(opp.p) && OnRing(p0) {
        k := PKicksP;
      } else if projP == opp.SpaceName(opp.q) && OnRing(opp.q) && OnRing(p0) {
        k := PKicksQ;
      } else if projQ == opp.SpaceName(opp.p) && OnRing(opp.p) && OnRing(q0) {
        k := QKicksP;
      } else if projQ == opp.SpaceName(opp.q) && OnRing(opp.q) && OnRing(q0) {
        k := QKicksQ;
      } else {
        k := Miss;
      }
    }

    /** One opponent's turn in the scan: the test, then the mover's advance
        and the opponent's bounce. */
    method VisitOpponent(m: nat, j: nat, p0: int, q0: int, roll: int, projP: Option<string>, projQ: Option<string>)
      returns (hit: bool)
      requires Distinct() && m < |players| && j < |players| && 1 <= roll <= 6
      requires players[j].id != players[m].id
      requires players[j].p >= -1 && players[j].q >= -1
      requires OnRing(p0) ==> projP == Some(Label(players[m].id, p0 + roll))
      requires OnRing(q0) ==> projQ == Some(Label(players[m].id, q0 + roll))
      modifies players[m], players[j]
      ensures States() == ScanStep(old(States()), m, p0, q0, roll, j)
      ensures hit <==> KickOf(players[m].id, p0, q0, roll, old(States())[j]) != Miss
      ensures players[m].p >= old(players[m].p) && players[m].q >= old(players[m].q)
      ensures players[j].p >= -1 && players[j].q >= -1
    {
      var k := KickTest(m, j, p0, q0, roll, projP, projQ);
      Strike(players[m], k, roll);
      Knock(players[j], k);
      hit := k != Miss;
    }

    /** The capture scan of one turn: every player with another identifier is
        tested, in order; the result is false when some opponent was missed. */
    method CaptureScan(m: nat, p0: int, q0: int, roll: int, projP: Option<string>, projQ: Option<string>)
      returns (canKick: bool)
      requires Distinct() && m < |players| && 1 <= roll <= 6
      requires CountersFromYard(States())
      requires OnRing(p0) ==> projP == Some(Label(players[m].id, p0 + roll))
      requires OnRing(q0) ==> projQ == Some(Label(players[m].id, q0 + roll))
      modifies players
      ensures (States(), canKick) == ScanFrom(old(States()), m, p0, q0, roll, 0)
    {
      ghost var goal := ScanFrom(States(), m, p0, q0, roll, 0);
      canKick := true;
      var j := 0;
      while j < |players|
        invariant 0 <= j <= |players|
        invariant CountersFromYard(States())
        invariant goal == (ScanFrom(States(), m, p0, q0, roll, j).0, canKick && ScanFrom(States(), m, p0, q0, roll, j).1)
      {
        var hit := ScanAt(m, j, p0, q0, roll, projP, projQ);
        canKick := canKick && hit;
        j := j + 1;
      }
    }

    /** The scan's visit to player j: an opponent is tested and, if captured,
        bounced while the mover advances; a player with the mover's
        identifier is passed over. */
    method ScanAt(m: nat, j: nat, p0: int, q0: int, roll: int, projP: Option<string>, projQ: Option<string>)
      returns (hit: bool)
      requires Distinct() && m < |players| && j < |players| && 1 <= roll <= 6
      requires CountersFromYard(States())
      requires OnRing(p0) ==> projP == Some(Label(players[m].id, p0 + roll))
      requires OnRing(q0) ==> projQ == Some(Label(players[m].id, q0 + roll))
      modifies players
      ensures CountersFromYard(States())
      ensures ScanFrom(old(States()), m, p0, q0, roll, j)
        == (ScanFrom(States(), m, p0, q0, roll, j + 1).0, hit && ScanFrom(States(), m, p0, q0, roll, j + 1).1)
    {
      ghost var before := States();
      if players[j].id != players[m].id {
        assert players[j].State() == before[j];
        hit := VisitOpponent(m, j, p0, q0, roll, projP, projQ);
        ScanStepKeepsCounters(before, m, p0, q0, roll, j);
        ScanUnfold(before, m, p0, q0, roll, j);
      } else {
        hit := true;
      }
    }

    /** The single move made when the capture scan missed an opponent: the
        tests use the counters p0 and q0 from the start of the turn, except the
        fourth, which compares the current counters. */
    method MoveAfterMiss(m: nat, p0: int, q0: int, roll: int)
      requires Distinct() && m < |players|
      modifies players[m]
      ensures States() == old(States())[m := Fallback(old(States())[m], p0, q0, roll)]
    {
      var me := players[m];
      var pp, pq := p0 + roll, q0 + roll;
      if pp > 57 && pq < 58 && q0 > -1 {
        me.AdvanceQ(roll);
      } else if pp < 58 && pq > 57 && p0 > -1 {
        me.AdvanceP(roll);
      } else if pp > 57 && pp > 57 && p0 > -1 {
        var bounce := -1 * (roll - (58 - p0));
        me.AdvanceP(bounce);
      } else if me.p > me.q {
        if me.q == -1 {
          me.AdvanceP(roll);
        } else {
          me.AdvanceQ(roll);
        }
      } else if p0 < q0 {
        if p0 > -1 {
          me.AdvanceP(roll);
        } else {
          me.AdvanceQ(roll);
        }
      }
    }

    /** The rules tried before the capture scan: completion, release on a
        six, moving a pair together, exact entry to the end square.  The
        result says whether none of them applied and the scan is due. */
    method MoveOwnTokens(m: nat, roll: int) returns (scan: bool)
      requires Distinct() && m < |players| && 1 <= roll <= 6
      modifies players[m]
      ensures scan <==> ReachesScan(old(States()), m, roll)
      ensures scan ==> States() == old(States())
      ensures !scan ==> States() == TurnSpec(old(States()), m, roll)
    {
      var me := players[m];
      var p0, q0 := me.p, me.q;
      var pp, pq := p0 + roll, q0 + roll;
      scan := false;
      if p0 == 57 && q0 == 57 {
        me.SetCompleted();
      }
      if !me.completed {
        if (roll == 6 && p0 == -1) || (roll == 6 && q0 == -1) {
          if p0 == -1 {
            me.AdvanceP(1);
          } else if q0 == -1 {
            me.AdvanceQ(1);
          }
        } else if p0 != -1 && q0 != -1 && p0 != 0 && q0 != 0 && p0 == q0 && pp < 58 && pq < 58 {
          me.SetStacked(true);
          me.AdvanceP(roll);
          me.AdvanceQ(roll);
        } else if pp == 57 {
          me.AdvanceP(roll);
        } else if pq == 57 {
          me.AdvanceQ(roll);
        } else {
          scan := true;
        }
      }
    }

    /** Player m's turn with the given roll. */
    method PlayTurn(m: nat, roll: int)
      requires Valid() && m < |players| && 1 <= roll <= 6
      modifies players
      ensures Valid()
      ensures States() == TurnSpec(old(States()), m, roll)
    {
      var me := players[m];
      var p0, q0 := me.p, me.q;
      // The source keeps the previous turn's label when a projected counter
      // is off the track; the capture tests ignore it then, since they also
      // require the token to be on the ring.
      var projP := Projected(me, p0 + roll);
      var projQ := Projected(me, q0 + roll);
      var scan := MoveOwnTokens(m, roll);
      if scan {
        assert CountersFromYard(States()) by {
          assert forall i :: 0 <= i < |players| ==> PlayerOk(States()[i]);
        }
        ScanThenFallback(m, p0, q0, roll, projP, projQ);
        ScanTurn(old(States()), m, roll);
      }
      assert States() == TurnSpec(old(States()), m, roll);
      TurnKeepsConsistent(old(States()), m, roll);
    }

    /** The capture scan, then the single fallback move if it missed some
        opponent. */
    method ScanThenFallback(m: nat, p0: int, q0: int, roll: int, projP: Option<string>, projQ: Option<string>)
      requires Distinct() && m < |players| && 1 <= roll <= 6
      requires CountersFromYard(States())
      requires OnRing(p0) ==> projP == Some(Label(players[m].id, p0 + roll))
      requires OnRing(q0) ==> projQ == Some(Label(players[m].id, q0 + roll))
      modifies players
      ensures States() ==
        var sc := ScanFrom(old(States()), m, p0, q0, roll, 0);
        if sc.1 then sc.0 else sc.0[m := Fallback(sc.0[m], p0, q0, roll)]
    {
      var canKick := CaptureScan(m, p0, q0, roll, projP, projQ);
      if !canKick {
        MoveAfterMiss(m, p0, q0, roll);
      }
    }

    /** The labels of every player's P and Q, in registration order. */
    method FinalPositions() returns (out: seq<Option<string>>)
      requires Valid()
      ensures out == Output(States())
    {
      out := [];
      var i := 0;
      while i < |players|
        invariant 0 <= i <= |players|
        invariant out == Output(States()[..i])
      {
        var x := players[i];
        assert States()[..i + 1][..i] == States()[..i];
        out := out + [x.SpaceName(x.p), x.SpaceName(x.q)];
        i := i + 1;
      }
      assert States()[..i] == States();
    }

    /** Appends a new player, with its tokens in the yard. */
    method AddPlayer(id: PlayerId) returns (x: Player)
      requires Valid()
      modifies this
      ensures Valid()
      ensures fresh(x) && players == old(players) + [x]
      ensures States() == old(States()) + [Fresh(id)]
    {
      x := new Player(id);
      ghost var before := States();
      players := players + [x];
      assert States() == before + [Fresh(id)];
    }

    /** Registers one new player per identifier, in order; stops at the
        first identifier that is not "A".."D".  The source's duplicate test
        compares the identifier with the player objects themselves, so it
        never fires and a repeated identifier is registered again. */
    method RegisterPlayers(ids: seq<string>) returns (ok: bool)
      requires players == []
      modifies this
      ensures ok <==> Register(ids).Some?
      ensures ok ==> Register(ids) == Some(States()) && Valid()
      ensures forall i :: 0 <= i < |players| ==> fresh(players[i])
    {
      var n := 0;
      while n < |ids|
        invariant 0 <= n <= |ids| && Valid()
        invariant forall i :: 0 <= i < |players| ==> fresh(players[i])
        invariant Register(ids[..n]) == Some(States())
      {
        match ParseId(ids[n])
        case None =>
          RegisterStops(ids, n);
          return false;
        case Some(id) =>
          RegisterExtends(ids, n, States());
          var x := AddPlayer(id);
          n := n + 1;
      }
      assert ids[..n] == ids;
      return true;
    }

    /** Plays the turns in order, each by the first player with the named
        identifier; stops at the first turn whose mover cannot be found (the
        source fails there). */
    method PlayTurns(turns: seq<Turn>) returns (failed: Option<nat>)
      requires Valid() && ValidRolls(turns)
      modifies players
      ensures Valid()
      ensures failed.None? ==> RunTurns(old(States()), turns, 0) == Ran(States())
      ensures failed.Some? ==> RunTurns(old(States()), turns, 0) == Failed(failed.value)
    {
      var k := 0;
      while k < |turns|
        invariant 0 <= k <= |turns| && Valid()
        invariant RunTurns(old(States()), turns, 0) == RunTurns(States(), turns, k)
      {
        var found := TakeTurn(turns, k);
        if !found {
          return Some(k);
        }
        k := k + 1;
      }
      return None;
    }

    /** Turn k of a game: its mover is looked up and, when found, plays its
        roll; a missing mover stops the run at this turn. */
    method TakeTurn(turns: seq<Turn>, k: nat) returns (found: bool)
      requires Valid() && ValidRolls(turns) && k < |turns|
      modifies players
      ensures Valid()
      ensures found ==> RunTurns(old(States()), turns, k) == RunTurns(States(), turns, k + 1)
      ensures !found ==> RunTurns(old(States()), turns, k) == Failed(k)
    {
      ghost var before := States();
      var who := GetPlayerByPosition(turns[k].who);
      RunStep(before, turns, k);
      match who
      case Found(m) =>
        PlayTurn(m, turns[k].roll);
        found := true;
      case _ =>
        found := false;
    }

    /** A whole game on a new LudoGame: register the players, play the turns
        in order, and report where every token stands. */
    method PlayGame(ids: seq<string>, turns: seq<Turn>) returns (r: Outcome)
      requires players == [] && ValidRolls(turns)
      modifies this
      ensures r == PlayGameSpec(ids, turns)
    {
      var ok := RegisterPlayers(ids);
      if !ok {
        return Rejected;
      }
      r := PlayRegistered(turns);
    }

    /** The game after registration: the turns are played in order, the
        first missing mover ends it, otherwise every token's label is
        reported. */
    method PlayRegistered(turns: seq<Turn>) returns (r: Outcome)
      requires Valid() && ValidRolls(turns)
      modifies players
      ensures r == PlayFrom(old(States()), turns)
    {
      if |turns| == 0 {
        var ignored := GetPlayerByPosition("X");
      }
      var failed := PlayTurns(turns);
      if failed.Some? {
        return Crashed(failed.value);
      }
      var labels := FinalPositions();
      return Positions(labels);
    }
  }

  /** The label a token would reach, taken only when the counter is on the
      track (the source leaves its variable as it was otherwise). */
  method Projected(me: Player, c: int) returns (r: Option<string>)
    ensures 0 <= c < 58 ==> r == Some(Label(me.id, c))
    ensures !(0 <= c < 58) ==> r == None
  {
    r := None;
    if -1 < c < 58 {
      r := me.SpaceName(c);
    }
  }

  /** The capturing token moves on by the roll. */
  method Strike(me: Player, k: Kick, roll: int)
    requires roll >= 1
    modifies me
    ensures me.State() == Striker(old(me.State()), k, roll)
    ensures me.p >= old(me.p) && me.q >= old(me.q)
  {
    match k
    case PKicksP => me.AdvanceP(roll);
    case PKicksQ => me.AdvanceP(roll);
    case QKicksP => me.AdvanceQ(roll);
    case QKicksQ => me.AdvanceQ(roll);
    case Miss =>
  }

  /** The captured token goes back to the yard; a stacked pair goes back
      together. */
  method Knock(opp: Player, k: Kick)
    modifies opp
    ensures opp.State() == Kicked(old(opp.State()), k)
    ensures old(opp.p) >= -1 ==> opp.p >= -1
    ensures old(opp.q) >= -1 ==> opp.q >= -1
  {
    if k != Miss {
      if opp.stacked {
        opp.BounceP();
        opp.BounceQ();
      } else if k == PKicksP || k == QKicksP {
        opp.BounceP();
      } else {
        opp.BounceQ();
      }
    }
  }

  /** Registration is a left-to-right fold over the identifiers. */
  lemma {:induction false} RegisterExtends(ids: seq<string>, n: nat, s: seq<PlayerState>)
    requires n < |ids| && ParseId(ids[n]).Some? && Register(ids[..n]) == Some(s)
    ensures Register(ids[..n + 1]) == Some(s + [Fresh(ParseId(ids[n]).value)])
  {
    var t, u := ids[..n + 1], ids[..n];
    var f := Fresh(ParseId(ids[n]).value);
    assert forall i :: 0 <= i < n ==> t[i] == u[i];
    assert forall i :: 0 <= i < |t| ==> ParseId(t[i]).Some?;
    var r := Register(t).value;
    forall i | 0 <= i < n + 1
      ensures r[i] == (s + [f])[i]
    {
      if i < n {
        assert r[i] == Fresh(ParseId(u[i]).value) == s[i];
      }
    }
    assert r == s + [f];
  }

  lemma RegisterStops(ids: seq<string>, n: nat)
    requires n < |ids| && ParseId(ids[n]).None?
    ensures Register(ids) == None
  {
  }
}
