/** Small concrete games, worked through the specification functions. */
module Scenarios {

  import opened Wrappers
  import opened Board
  import opened Players
  import opened Rules
  import opened RuleFacts
  import opened Game

  lemma TwoPlayers(x: string, y: string, a: PlayerId, b: PlayerId)
    requires ParseId(x) == Some(a) && ParseId(y) == Some(b)
    ensures Register([x, y]) == Some([Fresh(a), Fresh(b)])
  {
    var ids := [x, y];
    assert forall i :: 0 <= i < |ids| ==> ParseId(ids[i]).Some?;
    var r := Register(ids).value;
    assert |r| == 2 && r[0] == Fresh(a) && r[1] == Fresh(b);
    assert r == [Fresh(a), Fresh(b)];
  }

  /** Two players, A rolls a six: A's P is released onto "R", everything else
      stays in the yard. */
  lemma ReleaseGame()
    ensures PlayGameSpec(["A", "B"], [Turn("A", 6)]) == Positions([Some("R"), Some("H"), Some("H"), Some("H")])
  {
    var s := [Fresh(A), Fresh(B)];
    TwoPlayers("A", "B", A, B);
    assert RunTurns(s, [Turn("A", 6)], 0) == Ran([s[0].(p := 0), s[1]]);
  }

  /** A pair on counter 5 moved by 3 moves together and is stacked. */
  lemma StackTurn()
    ensures TurnSpec([PlayerState(A, 5, 5, false, false), Fresh(B)], 0, 3)
      == [PlayerState(A, 8, 8, true, false), Fresh(B)]
  {
  }

  /** A's P on counter 49 moves one square to ring square "50", where B's Q
      (counter 36 on B's track) stands: B's Q goes back to the yard and A's P
      moves on by the roll. */
  lemma CaptureTurn()
    ensures TurnSpec([PlayerState(A, 49, -1, false, false), PlayerState(B, -1, 36, false, false)], 0, 1)
      == [PlayerState(A, 50, -1, false, false), PlayerState(B, -1, -1, false, false)]
  {
    assert Label(A, 50) == "50" && Label(B, 36) == "50";
  }

  /** A turn naming a string that is not an identifier, or an identifier
      nobody registered, is where the game fails. */
  lemma UnknownMover()
    ensures PlayGameSpec(["A", "B"], [Turn("X", 3)]) == Crashed(0)
    ensures PlayGameSpec(["A"], [Turn("B", 3)]) == Crashed(0)
  {
    TwoPlayers("A", "B", A, B);
    var ids := ["A"];
    assert forall i :: 0 <= i < |ids| ==> ParseId(ids[i]).Some?;
    assert Register(ids).value[0] == Fresh(A);
  }

  /** An identifier other than "A".."D" rejects the game; a repeated one is
      registered twice. */
  lemma Registration()
    ensures PlayGameSpec(["A", "E"], []) == Rejected
    ensures PlayGameSpec(["A", "A"], []) == Positions([Some("H"), Some("H"), Some("H"), Some("H")])
  {
    assert ParseId("E") == None;
    TwoPlayers("A", "A", A, A);
  }

  /** Every matching opponent moves the mover again: A's P lands on "50",
      where both B's Q and C's P stand, captures both and moves twice. */
  lemma DoubleCapture()
    ensures TurnSpec([PlayerState(A, 49, -1, false, false), PlayerState(B, -1, 36, false, false),
                      PlayerState(C, 22, -1, false, false)], 0, 1)
      == [PlayerState(A, 51, -1, false, false), PlayerState(B, -1, -1, false, false),
          PlayerState(C, -1, -1, false, false)]
  {
    var s := [PlayerState(A, 49, -1, false, false), PlayerState(B, -1, 36, false, false),
              PlayerState(C, 22, -1, false, false)];
    assert Label(A, 50) == "50" && Label(B, 36) == "50" && Label(C, 22) == "50";
    assert KickOf(A, 49, -1, 1, s[1]) == PKicksQ && KickOf(A, 49, -1, 1, s[2]) == PKicksP;
    assert Gain(s, A, 49, -1, 1, 1, true) == 2;
    assert Gain(s, A, 49, -1, 1, 0, true) == 2;
    CaptureRule(s, 0, 1);
  }

  /** A capture does not stop the fallback when another opponent was missed:
      A's P captures B's Q and then, C being missed, moves again as the
      trailing-token rule picks it. */
  lemma CaptureThenMiss()
    ensures TurnSpec([PlayerState(A, 49, -1, false, false), PlayerState(B, -1, 36, false, false), Fresh(C)], 0, 1)
      == [PlayerState(A, 51, -1, false, false), PlayerState(B, -1, -1, false, false), Fresh(C)]
  {
    var s := [PlayerState(A, 49, -1, false, false), PlayerState(B, -1, 36, false, false), Fresh(C)];
    assert Label(A, 50) == "50" && Label(B, 36) == "50";
    assert KickOf(A, 49, -1, 1, s[1]) == PKicksQ && KickOf(A, 49, -1, 1, s[2]) == Miss;
    assert Gain(s, A, 49, -1, 1, 1, true) == 1;
    assert Gain(s, A, 49, -1, 1, 0, true) == 1;
    assert !AllHit(s, A, 49, -1, 1, 0);
    CaptureRule(s, 0, 1);
  }
}
