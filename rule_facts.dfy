/** What the turn rules guarantee.

    The capture scan is given a closed form (every opponent is tested against
    its state at the start of the turn; the mover advances once per match);
    from it follow the capture rule, the safety of tokens off the ring, and
    the invariant that every reachable state keeps: counters never below the
    yard, a completed player has both tokens on the end square, and a stacked
    pair has both tokens past the release square.
 */
module RuleFacts {

  import opened Board
  import opened Players
  import opened Rules

  /** Whether a capture was made by the mover's P (byP) or by its Q. */
  predicate IsHitBy(k: Kick, byP: bool)
  {
    if byP then k == PKicksP || k == PKicksQ else k == QKicksP || k == QKicksQ
  }

  /** How many opponents among players j.. the mover's P (or Q) captures. */
  function Hits(s: seq<PlayerState>, mid: PlayerId, p0: int, q0: int, roll: int, j: nat, byP: bool): (h: nat)
    requires j <= |s| && 1 <= roll <= 6
    ensures byP && !OnRing(p0) ==> h == 0
    ensures !byP && !OnRing(q0) ==> h == 0
    decreases |s| - j
  {
    if j == |s| then 0
    else
      var here := if s[j].id != mid && IsHitBy(KickOf(mid, p0, q0, roll, s[j]), byP) then 1 else 0;
      here + Hits(s, mid, p0, q0, roll, j + 1, byP)
  }

  /** How far the mover's P (or Q) advances during the scan over players
      j..: the roll, once per capture it makes. */
  function Gain(s: seq<PlayerState>, mid: PlayerId, p0: int, q0: int, roll: int, j: nat, byP: bool): (g: nat)
    requires j <= |s| && 1 <= roll <= 6
    ensures byP && !OnRing(p0) ==> g == 0
    ensures !byP && !OnRing(q0) ==> g == 0
    decreases |s| - j
  {
    if j == |s| then 0
    else
      var here := if s[j].id != mid && IsHitBy(KickOf(mid, p0, q0, roll, s[j]), byP) then roll else 0;
      here + Gain(s, mid, p0, q0, roll, j + 1, byP)
  }

  lemma {:induction false} GainCountsHits(s: seq<PlayerState>, mid: PlayerId, p0: int, q0: int, roll: int, j: nat, byP: bool)
    requires j <= |s| && 1 <= roll <= 6
    ensures Gain(s, mid, p0, q0, roll, j, byP) == roll * Hits(s, mid, p0, q0, roll, j, byP)
    decreases |s| - j
  {
    if j < |s| {
      GainCountsHits(s, mid, p0, q0, roll, j + 1, byP);
      var h := Hits(s, mid, p0, q0, roll, j + 1, byP);
      var g := Gain(s, mid, p0, q0, roll, j + 1, byP);
      if s[j].id != mid && IsHitBy(KickOf(mid, p0, q0, roll, s[j]), byP) {
        assert Hits(s, mid, p0, q0, roll, j, byP) == h + 1;
        assert Gain(s, mid, p0, q0, roll, j, byP) == g + roll;
        MulSucc(roll, h);
      } else {
        assert Hits(s, mid, p0, q0, roll, j, byP) == h;
        assert Gain(s, mid, p0, q0, roll, j, byP) == g;
      }
    }
  }

  lemma MulSucc(a: int, b: int)
    ensures a * (b + 1) == a * b + a
  {
  }

  /** Gain's recursive case at an opponent. */
  lemma GainUnfold(s: seq<PlayerState>, mid: PlayerId, p0: int, q0: int, roll: int, j: nat, byP: bool)
    requires j < |s| && 1 <= roll <= 6 && s[j].id != mid
    ensures Gain(s, mid, p0, q0, roll, j, byP)
      == (if IsHitBy(KickOf(mid, p0, q0, roll, s[j]), byP) then roll else 0) + Gain(s, mid, p0, q0, roll, j + 1, byP)
  {
  }

  /** Every opponent among players j.. is captured by some token. */
  predicate AllHit(s: seq<PlayerState>, mid: PlayerId, p0: int, q0: int, roll: int, j: nat)
    requires 1 <= roll <= 6
  {
    forall i :: j <= i < |s| && s[i].id != mid ==> KickOf(mid, p0, q0, roll, s[i]) != Miss
  }

  /** Gain only looks at players j.. and, among those, not at the mover's own. */
  lemma {:induction false} GainFrame(s: seq<PlayerState>, t: seq<PlayerState>, mid: PlayerId, p0: int, q0: int, roll: int, j: nat, byP: bool)
    requires j <= |s| == |t| && 1 <= roll <= 6
    requires forall i :: j <= i < |s| ==> s[i] == t[i] || (s[i].id == mid && t[i].id == mid)
    ensures Gain(s, mid, p0, q0, roll, j, byP) == Gain(t, mid, p0, q0, roll, j, byP)
    decreases |s| - j
  {
    if j < |s| {
      GainFrame(s, t, mid, p0, q0, roll, j + 1, byP);
    }
  }

  /** One step of the scan, at an opponent j: the state the rest of the scan
      starts from. */
  function ScanStep(s: seq<PlayerState>, m: nat, p0: int, q0: int, roll: int, j: nat): (t: seq<PlayerState>)
    requires m < |s| && j < |s| && j != m && 1 <= roll <= 6
    ensures |t| == |s| && t[m].id == s[m].id
    ensures forall i :: 0 <= i < |s| && i != j && i != m ==> t[i] == s[i]
  {
    var k := KickOf(s[m].id, p0, q0, roll, s[j]);
    s[j := Kicked(s[j], k)][m := Striker(s[m], k, roll)]
  }

  /** ScanFrom's recursive case is one ScanStep followed by the rest. */
  lemma ScanUnfold(s: seq<PlayerState>, m: nat, p0: int, q0: int, roll: int, j: nat)
    requires m < |s| && j < |s| && 1 <= roll <= 6 && s[j].id != s[m].id
    ensures j != m
    ensures ScanFrom(s, m, p0, q0, roll, j) ==
      var r := ScanFrom(ScanStep(s, m, p0, q0, roll, j), m, p0, q0, roll, j + 1);
      (r.0, r.1 && KickOf(s[m].id, p0, q0, roll, s[j]) != Miss)
  {
  }

  /** The scan in closed form, for the opponents: each player from j on with
      another identifier ends as the capture test against its own starting
      state says; everyone else is untouched (the mover aside). */
  lemma {:induction false} ScanOpponents(s: seq<PlayerState>, m: nat, p0: int, q0: int, roll: int, j: nat)
    requires m < |s| && j <= |s| && 1 <= roll <= 6
    ensures var r := ScanFrom(s, m, p0, q0, roll, j);
      forall i :: 0 <= i < |s| && i != m ==>
        r.0[i] == if i < j || s[i].id == s[m].id then s[i] else Kicked(s[i], KickOf(s[m].id, p0, q0, roll, s[i]))
    decreases |s| - j
  {
    if j < |s| {
      if s[j].id == s[m].id {
        ScanOpponents(s, m, p0, q0, roll, j + 1);
      } else {
        ScanUnfold(s, m, p0, q0, roll, j);
        ScanOpponents(ScanStep(s, m, p0, q0, roll, j), m, p0, q0, roll, j + 1);
      }
    }
  }

  /** A capture moves exactly the capturing token, by the roll. */
  lemma StrikerAdvances(me: PlayerState, k: Kick, roll: int)
    ensures Striker(me, k, roll)
      == me.(p := me.p + (if IsHitBy(k, true) then roll else 0),
             q := me.q + (if IsHitBy(k, false) then roll else 0))
  {
  }

  /** No counter is below the yard's -1. */
  predicate CountersFromYard(s: seq<PlayerState>)
  {
    forall i :: 0 <= i < |s| ==> s[i].p >= -1 && s[i].q >= -1
  }

  /** One scan step keeps every counter at -1 or above: a capture only sends
      tokens to the yard, and the capturing token only moves forward. */
  lemma ScanStepKeepsCounters(s: seq<PlayerState>, m: nat, p0: int, q0: int, roll: int, j: nat)
    requires m < |s| && j < |s| && j != m && 1 <= roll <= 6
    requires CountersFromYard(s)
    ensures CountersFromYard(ScanStep(s, m, p0, q0, roll, j))
  {
    var k := KickOf(s[m].id, p0, q0, roll, s[j]);
    StrikerAdvances(s[m], k, roll);
  }

  /** The scan in closed form, for the mover: P and Q advance by the roll once
      per capture they make. */
  lemma ScanMover(s: seq<PlayerState>, m: nat, p0: int, q0: int, roll: int, j: nat)
    requires m < |s| && j <= |s| && 1 <= roll <= 6
    ensures ScanFrom(s, m, p0, q0, roll, j).0[m]
      == s[m].(p := s[m].p + Gain(s, s[m].id, p0, q0, roll, j, true),
               q := s[m].q + Gain(s, s[m].id, p0, q0, roll, j, false))
  {
    ScanMoverCounter(s, m, p0, q0, roll, j, true);
    ScanMoverCounter(s, m, p0, q0, roll, j, false);
    ScanMoverKeeps(s, m, p0, q0, roll, j);
  }

  /** The mover's P counter (byP) or Q counter. */
  function Counter(x: PlayerState, byP: bool): int
  {
    if byP then x.p else x.q
  }

  /** One of the mover's counters through the scan: the roll once per capture
      that token makes. */
  lemma {:induction false} ScanMoverCounter(s: seq<PlayerState>, m: nat, p0: int, q0: int, roll: int, j: nat, byP: bool)
    requires m < |s| && j <= |s| && 1 <= roll <= 6
    ensures Counter(ScanFrom(s, m, p0, q0, roll, j).0[m], byP)
      == Counter(s[m], byP) + Gain(s, s[m].id, p0, q0, roll, j, byP)
    decreases |s| - j
  {
    if j < |s| {
      var mid := s[m].id;
      if s[j].id == mid {
        ScanMoverCounter(s, m, p0, q0, roll, j + 1, byP);
      } else {
        ScanUnfold(s, m, p0, q0, roll, j);
        ScanMoverCounter(ScanStep(s, m, p0, q0, roll, j), m, p0, q0, roll, j + 1, byP);
        GainStep(s, m, p0, q0, roll, j, byP);
      }
    }
  }

  /** One step of the scan moves the capture it makes from the gain still
      to come into the mover's counter. */
  lemma GainStep(s: seq<PlayerState>, m: nat, p0: int, q0: int, roll: int, j: nat, byP: bool)
    requires m < |s| && j < |s| && 1 <= roll <= 6 && s[j].id != s[m].id
    ensures var t := ScanStep(s, m, p0, q0, roll, j);
      Counter(t[m], byP) + Gain(t, s[m].id, p0, q0, roll, j + 1, byP)
        == Counter(s[m], byP) + Gain(s, s[m].id, p0, q0, roll, j, byP)
  {
    var mid := s[m].id;
    var k := KickOf(mid, p0, q0, roll, s[j]);
    var t := ScanStep(s, m, p0, q0, roll, j);
    GainFrame(t, s, mid, p0, q0, roll, j + 1, byP);
    GainUnfold(s, mid, p0, q0, roll, j, byP);
    StrikerAdvances(s[m], k, roll);
    assert t[m] == Striker(s[m], k, roll);
  }

  /** The scan never changes the mover's identifier or flags. */
  lemma {:induction false} ScanMoverKeeps(s: seq<PlayerState>, m: nat, p0: int, q0: int, roll: int, j: nat)
    requires m < |s| && j <= |s| && 1 <= roll <= 6
    ensures var x := ScanFrom(s, m, p0, q0, roll, j).0[m];
      x.id == s[m].id && x.stacked == s[m].stacked && x.completed == s[m].completed
    decreases |s| - j
  {
    if j < |s| {
      if s[j].id == s[m].id {
        ScanMoverKeeps(s, m, p0, q0, roll, j + 1);
      } else {
        var k := KickOf(s[m].id, p0, q0, roll, s[j]);
        ScanUnfold(s, m, p0, q0, roll, j);
        StrikerAdvances(s[m], k, roll);
        ScanMoverKeeps(ScanStep(s, m, p0, q0, roll, j), m, p0, q0, roll, j + 1);
      }
    }
  }

  /** The scan reports success exactly when no opponent from j on was missed. */
  lemma {:induction false} ScanFlag(s: seq<PlayerState>, m: nat, p0: int, q0: int, roll: int, j: nat)
    requires m < |s| && j <= |s| && 1 <= roll <= 6
    ensures ScanFrom(s, m, p0, q0, roll, j).1 <==> AllHit(s, s[m].id, p0, q0, roll, j)
    decreases |s| - j
  {
    if j < |s| {
      var mid := s[m].id;
      if s[j].id == mid {
        ScanFlag(s, m, p0, q0, roll, j + 1);
      } else {
        var t := ScanStep(s, m, p0, q0, roll, j);
        ScanUnfold(s, m, p0, q0, roll, j);
        ScanFlag(t, m, p0, q0, roll, j + 1);
        assert AllHit(t, mid, p0, q0, roll, j + 1) <==> AllHit(s, mid, p0, q0, roll, j + 1) by {
          assert forall i :: j + 1 <= i < |s| ==> t[i] == s[i] || (i == m && t[i].id == mid && s[i].id == mid);
        }
      }
    }
  }

  /** The scan reached by TurnSpec when no earlier rule applies. */
  predicate ReachesScan(s: seq<PlayerState>, m: nat, roll: int)
    requires m < |s|
  {
    var p0, q0 := s[m].p, s[m].q;
    && !(p0 == 57 && q0 == 57) && !s[m].completed
    && !(roll == 6 && (p0 == -1 || q0 == -1))
    && !CanStack(p0, q0, roll)
    && p0 + roll != 57 && q0 + roll != 57
  }

  /** A turn that reaches the scan is the scan, then the fallback if some
      opponent was missed. */
  lemma ScanTurn(s: seq<PlayerState>, m: nat, roll: int)
    requires m < |s| && 1 <= roll <= 6 && ReachesScan(s, m, roll)
    ensures TurnSpec(s, m, roll) ==
      var sc := ScanFrom(s, m, s[m].p, s[m].q, roll, 0);
      if sc.1 then sc.0 else sc.0[m := Fallback(sc.0[m], s[m].p, s[m].q, roll)]
  {
  }

  /** The capture rule.  When the turn comes to the capture scan, every
      opponent (a player with another identifier) ends as the capture test
      against it says: bounced when one of the mover's tokens on the ring
      lands on one of its ring tokens, unchanged otherwise; players sharing
      the mover's identifier are untouched.  The mover's tokens advance once
      per capture, and the fallback runs as well exactly when some opponent
      was missed. */
  lemma CaptureRule(s: seq<PlayerState>, m: nat, roll: int)
    requires m < |s| && 1 <= roll <= 6
    requires ReachesScan(s, m, roll)
    ensures var r := TurnSpec(s, m, roll);
      var me := s[m];
      var striker := me.(p := me.p + Gain(s, me.id, me.p, me.q, roll, 0, true),
                         q := me.q + Gain(s, me.id, me.p, me.q, roll, 0, false));
      && (forall i :: 0 <= i < |s| && i != m ==>
            r[i] == if s[i].id == me.id then s[i] else Kicked(s[i], KickOf(me.id, me.p, me.q, roll, s[i])))
      && r[m] == if AllHit(s, me.id, me.p, me.q, roll, 0) then striker else Fallback(striker, me.p, me.q, roll)
  {
    ScanOpponents(s, m, s[m].p, s[m].q, roll, 0);
    ScanMover(s, m, s[m].p, s[m].q, roll, 0);
    ScanFlag(s, m, s[m].p, s[m].q, roll, 0);
  }

  /** A turn never changes who is registered, nor in which order. */
  lemma TurnKeepsPlayers(s: seq<PlayerState>, m: nat, roll: int)
    requires m < |s| && 1 <= roll <= 6
    ensures |TurnSpec(s, m, roll)| == |s|
    ensures forall i :: 0 <= i < |s| ==> TurnSpec(s, m, roll)[i].id == s[i].id
  {
    if ReachesScan(s, m, roll) {
      CaptureRule(s, m, roll);
    }
  }

  /** A well-formed player: counters not below the yard, a completed player
      on the end square with both tokens, a stacked pair past the release square. */
  predicate PlayerOk(x: PlayerState)
  {
    && x.p >= -1 && x.q >= -1
    && (x.completed ==> x.p == 57 && x.q == 57)
    && (x.stacked ==> x.p >= 1 && x.q >= 1)
  }

  predicate Consistent(s: seq<PlayerState>)
  {
    forall i :: 0 <= i < |s| ==> PlayerOk(s[i])
  }

  lemma KickedOk(opp: PlayerState, k: Kick)
    requires PlayerOk(opp)
    requires (k == PKicksP || k == QKicksP) ==> OnRing(opp.p)
    requires (k == PKicksQ || k == QKicksQ) ==> OnRing(opp.q)
    ensures PlayerOk(Kicked(opp, k))
    ensures Kicked(opp, k).id == opp.id
  {
  }

  /** The fallback keeps the mover well formed, given that its tokens have
      only moved forward during the scan, and only from the ring. */
  lemma FallbackOk(me: PlayerState, p0: int, q0: int, roll: int)
    requires PlayerOk(me) && !me.completed && 1 <= roll <= 6
    requires p0 >= -1 && q0 >= -1 && me.p >= p0 && me.q >= q0
    requires !OnRing(p0) ==> me.p == p0
    ensures PlayerOk(Fallback(me, p0, q0, roll))
  {
  }

  /** The capture scan and fallback keep every player well formed. */
  lemma ScanKeepsConsistent(s: seq<PlayerState>, m: nat, roll: int)
    requires m < |s| && 1 <= roll <= 6
    requires Consistent(s) && ReachesScan(s, m, roll)
    ensures Consistent(TurnSpec(s, m, roll))
  {
    var r := TurnSpec(s, m, roll);
    var me := s[m];
    CaptureRule(s, m, roll);
    forall i | 0 <= i < |s|
      ensures PlayerOk(r[i])
    {
      if i == m {
        var striker := me.(p := me.p + Gain(s, me.id, me.p, me.q, roll, 0, true),
                           q := me.q + Gain(s, me.id, me.p, me.q, roll, 0, false));
        assert PlayerOk(s[m]);
        assert PlayerOk(striker);
        if !AllHit(s, me.id, me.p, me.q, roll, 0) {
          FallbackOk(striker, me.p, me.q, roll);
        }
      } else if s[i].id != me.id {
        assert PlayerOk(s[i]);
        KickedOk(s[i], KickOf(me.id, me.p, me.q, roll, s[i]));
      } else {
        assert PlayerOk(s[i]);
      }
    }
  }

  /** Turns keep every player well formed. */
  lemma TurnKeepsConsistent(s: seq<PlayerState>, m: nat, roll: int)
    requires m < |s| && 1 <= roll <= 6
    requires Consistent(s)
    ensures Consistent(TurnSpec(s, m, roll))
  {
    if ReachesScan(s, m, roll) {
      ScanKeepsConsistent(s, m, roll);
    } else {
      assert PlayerOk(s[m]);
    }
  }

  /** The release rule: a six with a token in the yard brings exactly one
      token (P when P is in the yard, otherwise Q) onto the release square,
      and nothing else changes. */
  lemma ReleaseRule(s: seq<PlayerState>, m: nat)
    requires m < |s| && !s[m].completed
    requires s[m].p == -1 || s[m].q == -1
    ensures TurnSpec(s, m, 6) ==
      s[m := if s[m].p == -1 then s[m].(p := 0) else s[m].(q := 0)]
  {
  }

  /** The fallback's choice, case by case, where p0 and q0 are the counters
      at the start of the turn and me the mover after the scan:
      - only P would be carried past the end square and Q is out: Q moves;
      - only Q would be carried past the end square and P is out: P moves;
      - P would be carried past the end square: it comes back by the excess;
      - otherwise the token that trails (now, for the first test; at the
        start of the turn, for the second) moves, unless it is in the yard,
        in which case the other one does;
      - when neither test picks a token, nothing moves. */
  lemma FallbackRule(me: PlayerState, p0: int, q0: int, roll: int)
    requires 1 <= roll <= 6
    ensures p0 + roll > 57 && q0 + roll < 58 && q0 > -1 ==>
      Fallback(me, p0, q0, roll) == me.(q := me.q + roll)
    ensures p0 + roll < 58 && q0 + roll > 57 && p0 > -1 ==>
      Fallback(me, p0, q0, roll) == me.(p := me.p + roll)
    ensures p0 + roll > 57 && !(q0 + roll < 58 && q0 > -1) ==>
      Fallback(me, p0, q0, roll) == me.(p := me.p - (p0 + roll - 58))
    ensures p0 + roll < 58 && (q0 + roll < 58 || p0 == -1) && me.p > me.q ==>
      Fallback(me, p0, q0, roll) == if me.q == -1 then me.(p := me.p + roll) else me.(q := me.q + roll)
    ensures p0 + roll < 58 && (q0 + roll < 58 || p0 == -1) && me.p <= me.q && p0 < q0 ==>
      Fallback(me, p0, q0, roll) == if p0 > -1 then me.(p := me.p + roll) else me.(q := me.q + roll)
    ensures p0 + roll < 58 && (q0 + roll < 58 || p0 == -1) && me.p <= me.q && p0 >= q0 ==>
      Fallback(me, p0, q0, roll) == me
  {
  }

  /** The pair rule: two tokens out on the same counter that both stay below
      58 move together and become stacked; nobody else moves. */
  lemma StackRule(s: seq<PlayerState>, m: nat, roll: int)
    requires m < |s| && 1 <= roll <= 6 && !s[m].completed
    requires !(roll == 6 && (s[m].p == -1 || s[m].q == -1))
    requires s[m].p == s[m].q && s[m].p > 0 && s[m].p + roll < 58
    ensures TurnSpec(s, m, roll) ==
      s[m := s[m].(p := s[m].p + roll, q := s[m].q + roll, stacked := true)]
  {
  }

  /** Entry to the end square is exact: P moves there when its roll lands
      exactly on 57, else Q does; nobody else moves. */
  lemma EndEntryRule(s: seq<PlayerState>, m: nat, roll: int)
    requires m < |s| && 1 <= roll <= 6 && !s[m].completed && !(s[m].p == 57 && s[m].q == 57)
    requires !(roll == 6 && (s[m].p == -1 || s[m].q == -1)) && !CanStack(s[m].p, s[m].q, roll)
    requires s[m].p + roll == 57 || s[m].q + roll == 57
    ensures TurnSpec(s, m, roll) ==
      if s[m].p + roll == 57 then s[m := s[m].(p := 57)] else s[m := s[m].(q := 57)]
  {
  }

  /** Completion: a turn that starts with both tokens on the end square marks
      the player completed and moves nothing; a completed player's turns change
      no one; nobody's completion is ever undone. */
  lemma CompletionRule(s: seq<PlayerState>, m: nat, roll: int)
    requires m < |s| && 1 <= roll <= 6
    ensures s[m].p == 57 && s[m].q == 57 ==> TurnSpec(s, m, roll) == s[m := s[m].(completed := true)]
    ensures s[m].completed ==> TurnSpec(s, m, roll) == s
    ensures forall i :: 0 <= i < |s| && s[i].completed ==> TurnSpec(s, m, roll)[i].completed
  {
    if ReachesScan(s, m, roll) {
      CaptureRule(s, m, roll);
    }
  }

  /** Tokens on the release square or beyond the ring (51 on) are never
      captured: an opponent's turn leaves such a counter as it was. */
  lemma OffRingTokensSafe(s: seq<PlayerState>, m: nat, roll: int, i: nat)
    requires m < |s| && i < |s| && i != m && 1 <= roll <= 6
    requires PlayerOk(s[i])
    ensures var r := TurnSpec(s, m, roll);
      && (s[i].p == 0 || s[i].p >= 51 ==> r[i].p == s[i].p)
      && (s[i].q == 0 || s[i].q >= 51 ==> r[i].q == s[i].q)
  {
    if ReachesScan(s, m, roll) {
      CaptureRule(s, m, roll);
    }
  }

  /** With no token on the ring, the scan captures nobody and every opponent
      is a miss. */
  lemma {:induction false} ScanOffRing(s: seq<PlayerState>, m: nat, p0: int, q0: int, roll: int, j: nat)
    requires m < |s| && j <= |s| && 1 <= roll <= 6
    requires !OnRing(p0) && !OnRing(q0)
    ensures ScanFrom(s, m, p0, q0, roll, j).0 == s
    ensures ScanFrom(s, m, p0, q0, roll, j).1 <==> forall i :: j <= i < |s| ==> s[i].id == s[m].id
    decreases |s| - j
  {
    if j < |s| {
      if s[j].id != s[m].id {
        assert s[j := Kicked(s[j], Miss)][m := Striker(s[m], Miss, roll)] == s;
      }
      ScanOffRing(s, m, p0, q0, roll, j + 1);
    }
  }

  /** Both tokens on the release square never move again: neither can be
      released, stacked, captured with, or picked by the fallback. */
  lemma BothOnReleaseStuck(s: seq<PlayerState>, m: nat, roll: int)
    requires m < |s| && 1 <= roll <= 6
    requires s[m].p == 0 && s[m].q == 0
    ensures TurnSpec(s, m, roll) == s
  {
    if !s[m].completed {
      ScanOffRing(s, m, 0, 0, roll, 0);
    }
  }

  /** Some other player takes part in the capture scan. */
  predicate HasOpponent(s: seq<PlayerState>, m: nat)
    requires m < |s|
  {
    exists i :: 0 <= i < |s| && s[i].id != s[m].id
  }

  /** An overshooting P comes back: a P that the roll would carry past the end
      square, with Q unable to take the roll, ends on counter 58 - roll, as
      long as some opponent took part in the scan (otherwise nothing moves). */
  lemma OvershootReturns(s: seq<PlayerState>, m: nat, roll: int)
    requires m < |s| && 1 <= roll <= 6 && !s[m].completed
    requires s[m].p > -1 && s[m].p + roll > 57
    requires !(s[m].q + roll < 58 && s[m].q > -1) && s[m].q + roll != 57
    requires !(roll == 6 && s[m].q == -1) && !(s[m].p == 57 && s[m].q == 57)
    ensures var r := TurnSpec(s, m, roll);
      && (HasOpponent(s, m) ==> r == s[m := s[m].(p := 58 - roll)])
      && (!HasOpponent(s, m) ==> r == s)
  {
    var me := s[m];
    assert ReachesScan(s, m, roll);
    ScanOffRing(s, m, me.p, me.q, roll, 0);
    assert Fallback(me, me.p, me.q, roll) == me.(p := 58 - roll);
    if HasOpponent(s, m) {
      var i :| 0 <= i < |s| && s[i].id != s[m].id;
      assert !ScanFrom(s, m, me.p, me.q, roll, 0).1;
    }
  }

  /** Q has no overshoot rule: with P in the yard and no six, a Q that the
      roll carries past the end square goes past 57, where the track has no
      label. */
  lemma QPassesEnd(s: seq<PlayerState>, m: nat, roll: int)
    requires m < |s| && 1 <= roll < 6 && !s[m].completed
    requires s[m].p == -1 && s[m].q + roll > 57
    requires HasOpponent(s, m)
    ensures TurnSpec(s, m, roll) == s[m := s[m].(q := s[m].q + roll)]
    ensures TurnSpec(s, m, roll)[m].q > 57
  {
    ScanOffRing(s, m, s[m].p, s[m].q, roll, 0);
  }

  /** The stacked flag does not mean the tokens share a counter: a stacked
      pair that the roll would carry past the end square splits (P comes back
      to 58 - roll, Q stays) and stays flagged as stacked. */
  lemma StackedPairSplits(s: seq<PlayerState>, m: nat, roll: int)
    requires m < |s| && 1 <= roll <= 6 && !s[m].completed
    requires s[m].stacked && s[m].p == s[m].q && s[m].p != 57 && s[m].p + roll > 58
    requires HasOpponent(s, m)
    ensures var r := TurnSpec(s, m, roll);
      r[m].stacked && r[m].p == 58 - roll && r[m].q == s[m].q && r[m].p != r[m].q
  {
    OvershootReturns(s, m, roll);
  }
}
