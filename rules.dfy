/** The turn rules of the game, stated on values.

    TurnSpec gives the state of all registered players after player m rolls
    `roll`.  The rules are tried in the source's order: completion, release on
    a six, moving a co-located pair together, exact entry to the end square,
    capture against every opponent, and, only when some opponent could not be
    captured, a fallback that picks the single token to move.
 */
module Rules {

  import opened Board
  import opened Players

  /** A counter on the shared ring, the only place where tokens capture and
      are captured. */
  predicate OnRing(c: int)
  {
    0 < c < 51
  }

  /** Which of the four capture tests, tried in the source's order, matched one
      opponent: the mover's P or Q (p0 and q0 are its counters at the start of
      the turn) landing on the opponent's P or Q. */
  datatype Kick = PKicksP | PKicksQ | QKicksP | QKicksQ | Miss

  /** The capture test against one opponent, stated on squares: the source
      compares label strings, which KickOfMatches shows is the same test. */
  function KickOf(mover: PlayerId, p0: int, q0: int, roll: int, opp: PlayerState): (k: Kick)
    requires 1 <= roll <= 6
    ensures (k == PKicksP || k == PKicksQ) ==> OnRing(p0)
    ensures (k == QKicksP || k == QKicksQ) ==> OnRing(q0)
    ensures (k == PKicksP || k == QKicksP) ==> OnRing(opp.p)
    ensures (k == PKicksQ || k == QKicksQ) ==> OnRing(opp.q)
    ensures k == PKicksP ==> OnRing(p0) && OnRing(opp.p) && SpaceAt(mover, p0 + roll) == SpaceAt(opp.id, opp.p)
    ensures k == PKicksQ ==> OnRing(p0) && OnRing(opp.q) && SpaceAt(mover, p0 + roll) == SpaceAt(opp.id, opp.q)
    ensures k == QKicksP ==> OnRing(q0) && OnRing(opp.p) && SpaceAt(mover, q0 + roll) == SpaceAt(opp.id, opp.p)
    ensures k == QKicksQ ==> OnRing(q0) && OnRing(opp.q) && SpaceAt(mover, q0 + roll) == SpaceAt(opp.id, opp.q)
  {
    if OnRing(opp.p) && OnRing(p0) && SpaceAt(mover, p0 + roll) == SpaceAt(opp.id, opp.p) then PKicksP
    else if OnRing(opp.q) && OnRing(p0) && SpaceAt(mover, p0 + roll) == SpaceAt(opp.id, opp.q) then PKicksQ
    else if OnRing(opp.p) && OnRing(q0) && SpaceAt(mover, q0 + roll) == SpaceAt(opp.id, opp.p) then QKicksP
    else if OnRing(opp.q) && OnRing(q0) && SpaceAt(mover, q0 + roll) == SpaceAt(opp.id, opp.q) then QKicksQ
    else Miss
  }

  /** The mover's token at counter c, moved on by the roll, lands on the label
      of the other player's token at counter d, both tokens being on the ring. */
  predicate LabelHit(mover: PlayerId, c: int, roll: int, other: PlayerId, d: int)
    requires 1 <= roll <= 6
  {
    OnRing(c) && OnRing(d) && Label(mover, c + roll) == Label(other, d)
  }

  /** An opponent is captured exactly when one of the mover's tokens that is
      on the ring lands on the label of one of the opponent's tokens that is on
      the ring; the four label tests are tried in the order P on P, P on Q,
      Q on P, Q on Q, and the first that matches names the capture. */
  lemma KickOfMatches(mover: PlayerId, p0: int, q0: int, roll: int, opp: PlayerState)
    requires 1 <= roll <= 6
    ensures KickOf(mover, p0, q0, roll, opp) != Miss <==> (
      || LabelHit(mover, p0, roll, opp.id, opp.p) || LabelHit(mover, p0, roll, opp.id, opp.q)
      || LabelHit(mover, q0, roll, opp.id, opp.p) || LabelHit(mover, q0, roll, opp.id, opp.q))
    ensures KickOf(mover, p0, q0, roll, opp) == PKicksP <==> LabelHit(mover, p0, roll, opp.id, opp.p)
    ensures KickOf(mover, p0, q0, roll, opp) == PKicksQ <==>
      !LabelHit(mover, p0, roll, opp.id, opp.p) && LabelHit(mover, p0, roll, opp.id, opp.q)
    ensures KickOf(mover, p0, q0, roll, opp) == QKicksP <==>
      !LabelHit(mover, p0, roll, opp.id, opp.p) && !LabelHit(mover, p0, roll, opp.id, opp.q)
      && LabelHit(mover, q0, roll, opp.id, opp.p)
    ensures KickOf(mover, p0, q0, roll, opp) == QKicksQ <==>
      !LabelHit(mover, p0, roll, opp.id, opp.p) && !LabelHit(mover, p0, roll, opp.id, opp.q)
      && !LabelHit(mover, q0, roll, opp.id, opp.p) && LabelHit(mover, q0, roll, opp.id, opp.q)
  {
    LandsOn(mover, p0, roll, opp.id, opp.p);
    LandsOn(mover, p0, roll, opp.id, opp.q);
    LandsOn(mover, q0, roll, opp.id, opp.p);
    LandsOn(mover, q0, roll, opp.id, opp.q);
  }

  /** For tokens on the ring, the label test and the square test agree. */
  lemma LandsOn(mover: PlayerId, c: int, roll: int, other: PlayerId, d: int)
    requires 1 <= roll <= 6
    ensures (OnRing(c) && OnRing(d) && Label(mover, c + roll) == Label(other, d))
        <==> (OnRing(c) && OnRing(d) && SpaceAt(mover, c + roll) == SpaceAt(other, d))
  {
    if OnRing(c) && OnRing(d) {
      NameInjective(SpaceAt(mover, c + roll), SpaceAt(other, d));
    }
  }

  /** The opponent after a capture: a stacked opponent loses both tokens,
      otherwise only the token that was landed on goes back. */
  function Kicked(opp: PlayerState, k: Kick): (r: PlayerState)
    ensures r.id == opp.id && r.completed == opp.completed
    ensures r.p == opp.p || (r.p == -1 && opp.p < 51 && k != Miss)
    ensures r.q == opp.q || (r.q == -1 && opp.q < 51 && k != Miss)
    ensures k == Miss ==> r == opp
    ensures r.stacked ==> opp.stacked && r.p == opp.p && r.q == opp.q
    ensures (k == PKicksP || k == QKicksP) && opp.p < 51 ==> r.p == -1 && !r.stacked
    ensures (k == PKicksQ || k == QKicksQ) && opp.q < 51 ==> r.q == -1 && !r.stacked
    ensures k != Miss && opp.stacked ==> (opp.p < 51 ==> r.p == -1) && (opp.q < 51 ==> r.q == -1)
    ensures (k == PKicksP || k == QKicksP) && !opp.stacked ==> r.q == opp.q
    ensures (k == PKicksQ || k == QKicksQ) && !opp.stacked ==> r.p == opp.p
  {
    match k
    case Miss => opp
    case PKicksP => if opp.stacked then BouncedQ(BouncedP(opp)) else BouncedP(opp)
    case QKicksP => if opp.stacked then BouncedQ(BouncedP(opp)) else BouncedP(opp)
    case PKicksQ => if opp.stacked then BouncedQ(BouncedP(opp)) else BouncedQ(opp)
    case QKicksQ => if opp.stacked then BouncedQ(BouncedP(opp)) else BouncedQ(opp)
  }

  /** The mover after one capture: the capturing token advances by the roll. */
  function Striker(me: PlayerState, k: Kick, roll: int): (r: PlayerState)
    ensures k == Miss ==> r == me
    ensures (k == PKicksP || k == PKicksQ) ==> r == me.(p := me.p + roll)
    ensures (k == QKicksP || k == QKicksQ) ==> r == me.(q := me.q + roll)
  {
    match k
    case Miss => me
    case PKicksP => me.(p := me.p + roll)
    case PKicksQ => me.(p := me.p + roll)
    case QKicksP => me.(q := me.q + roll)
    case QKicksQ => me.(q := me.q + roll)
  }

  /** The capture scan over players j.. of s, for mover m.  Every player with
      an identifier other than the mover's is tested once, against its state
      at that moment; every match advances the mover again and bounces that
      opponent.  The flag is false as soon as one opponent is missed, whatever
      the others gave. */
  function ScanFrom(s: seq<PlayerState>, m: nat, p0: int, q0: int, roll: int, j: nat): (r: (seq<PlayerState>, bool))
    requires m < |s| && j <= |s| && 1 <= roll <= 6
    ensures |r.0| == |s|
    decreases |s| - j
  {
    if j == |s| then (s, true)
    else if s[j].id == s[m].id then ScanFrom(s, m, p0, q0, roll, j + 1)
    else
      var k := KickOf(s[m].id, p0, q0, roll, s[j]);
      var r := ScanFrom(s[j := Kicked(s[j], k)][m := Striker(s[m], k, roll)], m, p0, q0, roll, j + 1);
      (r.0, r.1 && k != Miss)
  }

  /** Which single token moves when the capture scan missed an opponent.
      me is the mover's current state; p0 and q0 are its counters at the start
      of the turn, which the source's tests use except in the fourth case. */
  function Fallback(me: PlayerState, p0: int, q0: int, roll: int): (r: PlayerState)
    ensures r.id == me.id && r.stacked == me.stacked && r.completed == me.completed
    ensures r.p == me.p || r.q == me.q
    ensures r.q != me.q ==> r.q == me.q + roll
    ensures r.p != me.p ==> r.p == me.p + roll || (p0 + roll > 57 && r.p == me.p - roll + 58 - p0)
  {
    var pp, pq := p0 + roll, q0 + roll;
    if pp > 57 && pq < 58 && q0 > -1 then me.(q := me.q + roll)
    else if pp < 58 && pq > 57 && p0 > -1 then me.(p := me.p + roll)
    // The source tests pp > 57 twice here; Q's overshoot is not tested.
    else if pp > 57 && p0 > -1 then me.(p := me.p + -1 * (roll - (58 - p0)))
    else if me.p > me.q then
      (if me.q == -1 then me.(p := me.p + roll) else me.(q := me.q + roll))
    else if p0 < q0 then
      (if p0 > -1 then me.(p := me.p + roll) else me.(q := me.q + roll))
    else me
  }

  /** The pair moves together: both tokens out of the yard and off the
      release square, on the same counter, and not carried past the end. */
  predicate CanStack(p0: int, q0: int, roll: int): (b: bool)
    ensures b ==> p0 == q0 && p0 + roll <= 57
    ensures p0 >= -1 ==> (b <==> p0 == q0 && 1 <= p0 && p0 + roll <= 57)
  {
    p0 != -1 && q0 != -1 && p0 != 0 && q0 != 0 && p0 == q0 && p0 + roll < 58 && q0 + roll < 58
  }

  /** All players after player m rolls `roll`. */
  function TurnSpec(s: seq<PlayerState>, m: nat, roll: int): (r: seq<PlayerState>)
    requires m < |s| && 1 <= roll <= 6
    ensures |r| == |s|
  {
    var me := s[m];
    var p0, q0 := me.p, me.q;
    if p0 == 57 && q0 == 57 then s[m := me.(completed := true)]
    else if me.completed then s
    else if roll == 6 && (p0 == -1 || q0 == -1) then
      s[m := if p0 == -1 then me.(p := p0 + 1) else me.(q := q0 + 1)]
    else if CanStack(p0, q0, roll) then s[m := me.(stacked := true, p := p0 + roll, q := q0 + roll)]
    else if p0 + roll == 57 then s[m := me.(p := p0 + roll)]
    else if q0 + roll == 57 then s[m := me.(q := q0 + roll)]
    else
      var scan := ScanFrom(s, m, p0, q0, roll, 0);
      if scan.1 then scan.0 else scan.0[m := Fallback(scan.0[m], p0, q0, roll)]
  }
}
