/** A player's two tokens, P and Q.

    Each token is a step counter along its owner's track: -1 is the home yard,
    0 the release square, 1..50 the shared ring, 51..56 the private home
    stretch and 57 the end square.  A player also carries a "stacked" flag
    (set when the two tokens move together) and a "completed" flag.
 */
module Players {

  import opened Wrappers
  import opened Board

  /** The value of one player's state, as the turn rules see it. */
  datatype PlayerState = PlayerState(id: PlayerId, p: int, q: int, stacked: bool, completed: bool)

  /** A newly registered player: both tokens in the yard, no flag set. */
  function Fresh(id: PlayerId): (r: PlayerState)
    ensures r.id == id && r.p == -1 && r.q == -1 && !r.stacked && !r.completed
    ensures TrackSpaceName(id, r.p) == Some("H") && TrackSpaceName(id, r.q) == Some("H")
  {
    PlayerState(id, -1, -1, false, false)
  }

  /** The label a counter reads on player id's track.  Below 58 the source
      indexes its table directly, so a negative counter counts from the end as
      Python lists do (the yard counter -1 reads "H"); from 58 on it yields
      nothing.  A counter below -59 would make the source fail. */
  function TrackSpaceName(id: PlayerId, steps: int): (r: Option<string>)
    requires -TrackLength <= steps
    ensures 0 <= steps < 58 ==> r == Some(Label(id, steps))
    ensures steps == -1 ==> r == Some("H")
    ensures steps >= 58 <==> r == None
  {
    if steps < 58 then Some(Label(id, if steps < 0 then steps + TrackLength else steps)) else None
  }

  /** Sending P back to the yard after a capture: only a token still short of
      the home stretch can be sent back, and doing so unstacks the pair. */
  function BouncedP(s: PlayerState): (r: PlayerState)
    ensures r.id == s.id && r.q == s.q && r.completed == s.completed
    ensures s.p < 51 ==> r.p == -1 && !r.stacked
    ensures s.p >= 51 ==> r == s
  {
    if s.p < 51 then s.(p := -1, stacked := false) else s
  }

  function BouncedQ(s: PlayerState): (r: PlayerState)
    ensures r.id == s.id && r.p == s.p && r.completed == s.completed
    ensures s.q < 51 ==> r.q == -1 && !r.stacked
    ensures s.q >= 51 ==> r == s
  {
    if s.q < 51 then s.(q := -1, stacked := false) else s
  }

  class Player {
    const id: PlayerId
    var p: int
    var q: int
    var stacked: bool
    var completed: bool

    function State(): PlayerState
      reads this
    {
      PlayerState(id, p, q, stacked, completed)
    }

    /** A new player with its board chosen by its identifier. */
    constructor (id: PlayerId)
      ensures State() == Fresh(id)
    {
      this.id := id;
      p, q := -1, -1;
      stacked, completed := false, false;
    }

    /** Adds steps to P's counter (negative steps move it back). */
    method AdvanceP(steps: int)
      modifies this
      ensures State() == old(State()).(p := old(p) + steps)
    {
      p := p + steps;
    }

    method AdvanceQ(steps: int)
      modifies this
      ensures State() == old(State()).(q := old(q) + steps)
    {
      q := q + steps;
    }

    /** Puts P back in the yard by subtracting its counter and then one more
        step: it ends at -1 whatever it was. */
    method ClearP()
      modifies this
      ensures State() == old(State()).(p := -1)
    {
      AdvanceP(-1 * p);
      AdvanceP(-1);
    }

    method ClearQ()
      modifies this
      ensures State() == old(State()).(q := -1)
    {
      AdvanceQ(-1 * q);
      AdvanceQ(-1);
    }

    method SetStacked(b: bool)
      modifies this
      ensures State() == old(State()).(stacked := b)
    {
      stacked := b;
    }

    /** Marks the player as finished; a finished player stays finished. */
    method SetCompleted()
      modifies this
      ensures State() == old(State()).(completed := true)
    {
      if !completed {
        completed := true;
      }
    }

    /** Captured P goes back to the yard and unstacks the pair, unless it is
        already in the home stretch (counter 51 or more), where nothing changes. */
    method BounceP()
      modifies this
      ensures State() == BouncedP(old(State()))
      ensures old(p) < 51 ==> p == -1 && !stacked
      ensures old(p) >= 51 ==> State() == old(State())
    {
      if p < 51 {
        ClearP();
        SetStacked(false);
      }
    }

    method BounceQ()
      modifies this
      ensures State() == BouncedQ(old(State()))
      ensures old(q) < 51 ==> q == -1 && !stacked
      ensures old(q) >= 51 ==> State() == old(State())
    {
      if q < 51 {
        ClearQ();
        SetStacked(false);
      }
    }

    /** The label a counter reads on this player's track. */
    function SpaceName(steps: int): (r: Option<string>)
      reads this
      requires -TrackLength <= steps
      ensures r == TrackSpaceName(id, steps)
    {
      TrackSpaceName(id, steps)
    }
  }
}
