/** The four player tracks of the Ludo board.

    Each player walks its own 59-entry track of square labels: the release
    square "R", fifty squares of the shared outer ring (named "1".."56" and
    started 14 squares further on for each later player), the player's six
    private home-stretch squares ("A1".."A6" for player A), the end square "E"
    and, as the last entry, the home-yard label "H".  The source writes the
    four tracks out as literal tables; here they are derived from the rotation
    and checked against those tables.
 */
module Board {

  import opened Wrappers

  /** The four canonical player identifiers. */
  datatype PlayerId = A | B | C | D

  /** Number of labels on every track. */
  const TrackLength: int := 59

  /** Position of a player in the rotation: A = 0, ..., D = 3. */
  function Seat(id: PlayerId): (k: nat)
    ensures k < 4
  {
    match id
    case A => 0
    case B => 1
    case C => 2
    case D => 3
  }

  /** The letter that names a player and its private squares. */
  function Letter(id: PlayerId): (c: char)
    ensures 'A' <= c <= 'D'
  {
    match id
    case A => 'A'
    case B => 'B'
    case C => 'C'
    case D => 'D'
  }

  /** Reads a player identifier from its one-letter name; anything else is not a player. */
  function ParseId(s: string): (r: Option<PlayerId>)
    ensures r.Some? <==> s == "A" || s == "B" || s == "C" || s == "D"
    ensures r.Some? ==> s == [Letter(r.value)]
  {
    if s == "A" then Some(A)
    else if s == "B" then Some(B)
    else if s == "C" then Some(C)
    else if s == "D" then Some(D)
    else None
  }

  function Digit(d: int): char
    requires 0 <= d < 10
  {
    (('0' as int) + d) as char
  }

  /** Decimal name of a ring square, "1" .. "56" (tens digit found by
      comparison, which keeps the verifier's arithmetic linear). */
  function RingName(n: int): string
    requires 1 <= n <= 56
  {
    var tens := if n < 10 then 0 else if n < 20 then 1 else if n < 30 then 2
                else if n < 40 then 3 else if n < 50 then 4 else 5;
    if tens == 0 then [Digit(n)] else [Digit(tens), Digit(n - 10 * tens)]
  }

  /** Ring square reached from track index i (1..50) of player id; the
      conditional subtraction is the modular rotation of RingNumberRotation. */
  function RingNumber(id: PlayerId, i: int): (n: int)
    requires 1 <= i <= 50
    ensures 1 <= n <= 56
  {
    var n := 14 * Seat(id) + i;
    if n <= 56 then n else n - 56
  }

  /** What a track square is: the release square, a square of the shared
      ring, a square of a player's private home stretch, the end square, or
      the home yard. */
  datatype Space = Release | Ring(n: int) | Stretch(owner: PlayerId, k: int) | End | Yard

  /** The square at index i of player id's track (the bounds are written as
      literals: 0 release, 1..50 ring, 51..56 home stretch, 57 end, 58 yard). */
  function SpaceAt(id: PlayerId, i: int): (s: Space)
    requires 0 <= i < 59
  {
    if i == 0 then Release
    else if i <= 50 then Ring(RingNumber(id, i))
    else if i <= 56 then Stretch(id, i - 50)
    else if i == 57 then End
    else Yard
  }

  /** The printed name of a square. */
  function Name(s: Space): string
  {
    match s
    case Release => "R"
    case Ring(n) => if 1 <= n <= 56 then RingName(n) else ""
    case Stretch(id, k) => if 0 <= k < 10 then [Letter(id), Digit(k)] else ""
    case End => "E"
    case Yard => "H"
  }

  /** The label at index i of player id's track, as the source's tables hold it. */
  function Label(id: PlayerId, i: int): string
    requires 0 <= i < TrackLength
  {
    Name(SpaceAt(id, i))
  }

  const BoardA: seq<string> :=
    ["R", "1", "2", "3", "4", "5", "6", "7"]
    + ["8", "9", "10", "11", "12", "13", "14", "15"]
    + ["16", "17", "18", "19", "20", "21", "22", "23"]
    + ["24", "25", "26", "27", "28", "29", "30", "31"]
    + ["32", "33", "34", "35", "36", "37", "38", "39"]
    + ["40", "41", "42", "43", "44", "45", "46", "47"]
    + ["48", "49", "50", "A1", "A2", "A3", "A4", "A5"]
    + ["A6", "E", "H"]
  const BoardB: seq<string> :=
    ["R", "15", "16", "17", "18", "19", "20", "21"]
    + ["22", "23", "24", "25", "26", "27", "28", "29"]
    + ["30", "31", "32", "33", "34", "35", "36", "37"]
    + ["38", "39", "40", "41", "42", "43", "44", "45"]
    + ["46", "47", "48", "49", "50", "51", "52", "53"]
    + ["54", "55", "56", "1", "2", "3", "4", "5"]
    + ["6", "7", "8", "B1", "B2", "B3", "B4", "B5"]
    + ["B6", "E", "H"]
  const BoardC: seq<string> :=
    ["R", "29", "30", "31", "32", "33", "34", "35"]
    + ["36", "37", "38", "39", "40", "41", "42", "43"]
    + ["44", "45", "46", "47", "48", "49", "50", "51"]
    + ["52", "53", "54", "55", "56", "1", "2", "3"]
    + ["4", "5", "6", "7", "8", "9", "10", "11"]
    + ["12", "13", "14", "15", "16", "17", "18", "19"]
    + ["20", "21", "22", "C1", "C2", "C3", "C4", "C5"]
    + ["C6", "E", "H"]
  const BoardD: seq<string> :=
    ["R", "43", "44", "45", "46", "47", "48", "49"]
    + ["50", "51", "52", "53", "54", "55", "56", "1"]
    + ["2", "3", "4", "5", "6", "7", "8", "9"]
    + ["10", "11", "12", "13", "14", "15", "16", "17"]
    + ["18", "19", "20", "21", "22", "23", "24", "25"]
    + ["26", "27", "28", "29", "30", "31", "32", "33"]
    + ["34", "35", "36", "D1", "D2", "D3", "D4", "D5"]
    + ["D6", "E", "H"]

  // The check of the derived labels against the literal tables, split into
  // chunks of eight entries with one case per index, which keeps each proof
  // small for the verifier; LabelsMatchTables puts the chunks together.

  lemma BoardARow0()
    ensures forall j | 0 <= j < 8 :: Label(A, j) == BoardA[j]
  {
    forall j | 0 <= j < 8
      ensures Label(A, j) == BoardA[j]
    {
      if j == 0 { assert Label(A, 0) == BoardA[0]; }
      else if j == 1 { assert Label(A, 1) == BoardA[1]; }
      else if j == 2 { assert Label(A, 2) == BoardA[2]; }
      else if j == 3 { assert Label(A, 3) == BoardA[3]; }
      else if j == 4 { assert Label(A, 4) == BoardA[4]; }
      else if j == 5 { assert Label(A, 5) == BoardA[5]; }
      else if j == 6 { assert Label(A, 6) == BoardA[6]; }
      else { assert Label(A, 7) == BoardA[7]; }
    }
  }

  lemma BoardARow1()
    ensures forall j | 8 <= j < 16 :: Label(A, j) == BoardA[j]
  {
    forall j | 8 <= j < 16
      ensures Label(A, j) == BoardA[j]
    {
      if j == 8 { assert Label(A, 8) == BoardA[8]; }
      else if j == 9 { assert Label(A, 9) == BoardA[9]; }
      else if j == 10 { assert Label(A, 10) == BoardA[10]; }
      else if j == 11 { assert Label(A, 11) == BoardA[11]; }
      else if j == 12 { assert Label(A, 12) == BoardA[12]; }
      else if j == 13 { assert Label(A, 13) == BoardA[13]; }
      else if j == 14 { assert Label(A, 14) == BoardA[14]; }
      else { assert Label(A, 15) == BoardA[15]; }
    }
  }

  lemma BoardARow2()
    ensures forall j | 16 <= j < 24 :: Label(A, j) == BoardA[j]
  {
    forall j | 16 <= j < 24
      ensures Label(A, j) == BoardA[j]
    {
      if j == 16 { assert Label(A, 16) == BoardA[16]; }
      else if j == 17 { assert Label(A, 17) == BoardA[17]; }
      else if j == 18 { assert Label(A, 18) == BoardA[18]; }
      else if j == 19 { assert Label(A, 19) == BoardA[19]; }
      else if j == 20 { assert Label(A, 20) == BoardA[20]; }
      else if j == 21 { assert Label(A, 21) == BoardA[21]; }
      else if j == 22 { assert Label(A, 22) == BoardA[22]; }
      else { assert Label(A, 23) == BoardA[23]; }
    }
  }

  lemma BoardARow3()
    ensures forall j | 24 <= j < 32 :: Label(A, j) == BoardA[j]
  {
    forall j | 24 <= j < 32
      ensures Label(A, j) == BoardA[j]
    {
      if j == 24 { assert Label(A, 24) == BoardA[24]; }
      else if j == 25 { assert Label(A, 25) == BoardA[25]; }
      else if j == 26 { assert Label(A, 26) == BoardA[26]; }
      else if j == 27 { assert Label(A, 27) == BoardA[27]; }
      else if j == 28 { assert Label(A, 28) == BoardA[28]; }
      else if j == 29 { assert Label(A, 29) == BoardA[29]; }
      else if j == 30 { assert Label(A, 30) == BoardA[30]; }
      else { assert Label(A, 31) == BoardA[31]; }
    }
  }

  lemma BoardARow4()
    ensures forall j | 32 <= j < 40 :: Label(A, j) == BoardA[j]
  {
    forall j | 32 <= j < 40
      ensures Label(A, j) == BoardA[j]
    {
      if j == 32 { assert Label(A, 32) == BoardA[32]; }
      else if j == 33 { assert Label(A, 33) == BoardA[33]; }
      else if j == 34 { assert Label(A, 34) == BoardA[34]; }
      else if j == 35 { assert Label(A, 35) == BoardA[35]; }
      else if j == 36 { assert Label(A, 36) == BoardA[36]; }
      else if j == 37 { assert Label(A, 37) == BoardA[37]; }
      else if j == 38 { assert Label(A, 38) == BoardA[38]; }
      else { assert Label(A, 39) == BoardA[39]; }
    }
  }

  lemma BoardARow5()
    ensures forall j | 40 <= j < 48 :: Label(A, j) == BoardA[j]
  {
    forall j | 40 <= j < 48
      ensures Label(A, j) == BoardA[j]
    {
      if j == 40 { assert Label(A, 40) == BoardA[40]; }
      else if j == 41 { assert Label(A, 41) == BoardA[41]; }
      else if j == 42 { assert Label(A, 42) == BoardA[42]; }
      else if j == 43 { assert Label(A, 43) == BoardA[43]; }
      else if j == 44 { assert Label(A, 44) == BoardA[44]; }
      else if j == 45 { assert Label(A, 45) == BoardA[45]; }
      else if j == 46 { assert Label(A, 46) == BoardA[46]; }
      else { assert Label(A, 47) == BoardA[47]; }
    }
  }

  lemma BoardARow6()
    ensures forall j | 48 <= j < 56 :: Label(A, j) == BoardA[j]
  {
    forall j | 48 <= j < 56
      ensures Label(A, j) == BoardA[j]
    {
      if j == 48 { assert Label(A, 48) == BoardA[48]; }
      else if j == 49 { assert Label(A, 49) == BoardA[49]; }
      else if j == 50 { assert Label(A, 50) == BoardA[50]; }
      else if j == 51 { assert Label(A, 51) == BoardA[51]; }
      else if j == 52 { assert Label(A, 52) == BoardA[52]; }
      else if j == 53 { assert Label(A, 53) == BoardA[53]; }
      else if j == 54 { assert Label(A, 54) == BoardA[54]; }
      else { assert Label(A, 55) == BoardA[55]; }
    }
  }

  lemma BoardARow7()
    ensures forall j | 56 <= j < 59 :: Label(A, j) == BoardA[j]
  {
    forall j | 56 <= j < 59
      ensures Label(A, j) == BoardA[j]
    {
      if j == 56 { assert Label(A, 56) == BoardA[56]; }
      else if j == 57 { assert Label(A, 57) == BoardA[57]; }
      else { assert Label(A, 58) == BoardA[58]; }
    }
  }

  lemma BoardBRow0()
    ensures forall j | 0 <= j < 8 :: Label(B, j) == BoardB[j]
  {
    forall j | 0 <= j < 8
      ensures Label(B, j) == BoardB[j]
    {
      if j == 0 { assert Label(B, 0) == BoardB[0]; }
      else if j == 1 { assert Label(B, 1) == BoardB[1]; }
      else if j == 2 { assert Label(B, 2) == BoardB[2]; }
      else if j == 3 { assert Label(B, 3) == BoardB[3]; }
      else if j == 4 { assert Label(B, 4) == BoardB[4]; }
      else if j == 5 { assert Label(B, 5) == BoardB[5]; }
      else if j == 6 { assert Label(B, 6) == BoardB[6]; }
      else { assert Label(B, 7) == BoardB[7]; }
    }
  }

  lemma BoardBRow1()
    ensures forall j | 8 <= j < 16 :: Label(B, j) == BoardB[j]
  {
    forall j | 8 <= j < 16
      ensures Label(B, j) == BoardB[j]
    {
      if j == 8 { assert Label(B, 8) == BoardB[8]; }
      else if j == 9 { assert Label(B, 9) == BoardB[9]; }
      else if j == 10 { assert Label(B, 10) == BoardB[10]; }
      else if j == 11 { assert Label(B, 11) == BoardB[11]; }
      else if j == 12 { assert Label(B, 12) == BoardB[12]; }
      else if j == 13 { assert Label(B, 13) == BoardB[13]; }
      else if j == 14 { assert Label(B, 14) == BoardB[14]; }
      else { assert Label(B, 15) == BoardB[15]; }
    }
  }

  lemma BoardBRow2()
    ensures forall j | 16 <= j < 24 :: Label(B, j) == BoardB[j]
  {
    forall j | 16 <= j < 24
      ensures Label(B, j) == BoardB[j]
    {
      if j == 16 { assert Label(B, 16) == BoardB[16]; }
      else if j == 17 { assert Label(B, 17) == BoardB[17]; }
      else if j == 18 { assert Label(B, 18) == BoardB[18]; }
      else if j == 19 { assert Label(B, 19) == BoardB[19]; }
      else if j == 20 { assert Label(B, 20) == BoardB[20]; }
      else if j == 21 { assert Label(B, 21) == BoardB[21]; }
      else if j == 22 { assert Label(B, 22) == BoardB[22]; }
      else { assert Label(B, 23) == BoardB[23]; }
    }
  }

  lemma BoardBRow3()
    ensures forall j | 24 <= j < 32 :: Label(B, j) == BoardB[j]
  {
    forall j | 24 <= j < 32
      ensures Label(B, j) == BoardB[j]
    {
      if j == 24 { assert Label(B, 24) == BoardB[24]; }
      else if j == 25 { assert Label(B, 25) == BoardB[25]; }
      else if j == 26 { assert Label(B, 26) == BoardB[26]; }
      else if j == 27 { assert Label(B, 27) == BoardB[27]; }
      else if j == 28 { assert Label(B, 28) == BoardB[28]; }
      else if j == 29 { assert Label(B, 29) == BoardB[29]; }
      else if j == 30 { assert Label(B, 30) == BoardB[30]; }
      else { assert Label(B, 31) == BoardB[31]; }
    }
  }

  lemma BoardBRow4()
    ensures forall j | 32 <= j < 40 :: Label(B, j) == BoardB[j]
  {
    forall j | 32 <= j < 40
      ensures Label(B, j) == BoardB[j]
    {
      if j == 32 { assert Label(B, 32) == BoardB[32]; }
      else if j == 33 { assert Label(B, 33) == BoardB[33]; }
      else if j == 34 { assert Label(B, 34) == BoardB[34]; }
      else if j == 35 { assert Label(B, 35) == BoardB[35]; }
      else if j == 36 { assert Label(B, 36) == BoardB[36]; }
      else if j == 37 { assert Label(B, 37) == BoardB[37]; }
      else if j == 38 { assert Label(B, 38) == BoardB[38]; }
      else { assert Label(B, 39) == BoardB[39]; }
    }
  }

  lemma BoardBRow5()
    ensures forall j | 40 <= j < 48 :: Label(B, j) == BoardB[j]
  {
    forall j | 40 <= j < 48
      ensures Label(B, j) == BoardB[j]
    {
      if j == 40 { assert Label(B, 40) == BoardB[40]; }
      else if j == 41 { assert Label(B, 41) == BoardB[41]; }
      else if j == 42 { assert Label(B, 42) == BoardB[42]; }
      else if j == 43 { assert Label(B, 43) == BoardB[43]; }
      else if j == 44 { assert Label(B, 44) == BoardB[44]; }
      else if j == 45 { assert Label(B, 45) == BoardB[45]; }
      else if j == 46 { assert Label(B, 46) == BoardB[46]; }
      else { assert Label(B, 47) == BoardB[47]; }
    }
  }

  lemma BoardBRow6()
    ensures forall j | 48 <= j < 56 :: Label(B, j) == BoardB[j]
  {
    forall j | 48 <= j < 56
      ensures Label(B, j) == BoardB[j]
    {
      if j == 48 { assert Label(B, 48) == BoardB[48]; }
      else if j == 49 { assert Label(B, 49) == BoardB[49]; }
      else if j == 50 { assert Label(B, 50) == BoardB[50]; }
      else if j == 51 { assert Label(B, 51) == BoardB[51]; }
      else if j == 52 { assert Label(B, 52) == BoardB[52]; }
      else if j == 53 { assert Label(B, 53) == BoardB[53]; }
      else if j == 54 { assert Label(B, 54) == BoardB[54]; }
      else { assert Label(B, 55) == BoardB[55]; }
    }
  }

  lemma BoardBRow7()
    ensures forall j | 56 <= j < 59 :: Label(B, j) == BoardB[j]
  {
    forall j | 56 <= j < 59
      ensures Label(B, j) == BoardB[j]
    {
      if j == 56 { assert Label(B, 56) == BoardB[56]; }
      else if j == 57 { assert Label(B, 57) == BoardB[57]; }
      else { assert Label(B, 58) == BoardB[58]; }
    }
  }

  lemma BoardCRow0()
    ensures forall j | 0 <= j < 8 :: Label(C, j) == BoardC[j]
  {
    forall j | 0 <= j < 8
      ensures Label(C, j) == BoardC[j]
    {
      if j == 0 { assert Label(C, 0) == BoardC[0]; }
      else if j == 1 { assert Label(C, 1) == BoardC[1]; }
      else if j == 2 { assert Label(C, 2) == BoardC[2]; }
      else if j == 3 { assert Label(C, 3) == BoardC[3]; }
      else if j == 4 { assert Label(C, 4) == BoardC[4]; }
      else if j == 5 { assert Label(C, 5) == BoardC[5]; }
      else if j == 6 { assert Label(C, 6) == BoardC[6]; }
      else { assert Label(C, 7) == BoardC[7]; }
    }
  }

  lemma BoardCRow1()
    ensures forall j | 8 <= j < 16 :: Label(C, j) == BoardC[j]
  {
    forall j | 8 <= j < 16
      ensures Label(C, j) == BoardC[j]
    {
      if j == 8 { assert Label(C, 8) == BoardC[8]; }
      else if j == 9 { assert Label(C, 9) == BoardC[9]; }
      else if j == 10 { assert Label(C, 10) == BoardC[10]; }
      else if j == 11 { assert Label(C, 11) == BoardC[11]; }
      else if j == 12 { assert Label(C, 12) == BoardC[12]; }
      else if j == 13 { assert Label(C, 13) == BoardC[13]; }
      else if j == 14 { assert Label(C, 14) == BoardC[14]; }
      else { assert Label(C, 15) == BoardC[15]; }
    }
  }

  lemma BoardCRow2()
    ensures forall j | 16 <= j < 24 :: Label(C, j) == BoardC[j]
  {
    forall j | 16 <= j < 24
      ensures Label(C, j) == BoardC[j]
    {
      if j == 16 { assert Label(C, 16) == BoardC[16]; }
      else if j == 17 { assert Label(C, 17) == BoardC[17]; }
      else if j == 18 { assert Label(C, 18) == BoardC[18]; }
      else if j == 19 { assert Label(C, 19) == BoardC[19]; }
      else if j == 20 { assert Label(C, 20) == BoardC[20]; }
      else if j == 21 { assert Label(C, 21) == BoardC[21]; }
      else if j == 22 { assert Label(C, 22) == BoardC[22]; }
      else { assert Label(C, 23) == BoardC[23]; }
    }
  }

  lemma BoardCRow3()
    ensures forall j | 24 <= j < 32 :: Label(C, j) == BoardC[j]
  {
    forall j | 24 <= j < 32
      ensures Label(C, j) == BoardC[j]
    {
      if j == 24 { assert Label(C, 24) == BoardC[24]; }
      else if j == 25 { assert Label(C, 25) == BoardC[25]; }
      else if j == 26 { assert Label(C, 26) == BoardC[26]; }
      else if j == 27 { assert Label(C, 27) == BoardC[27]; }
      else if j == 28 { assert Label(C, 28) == BoardC[28]; }
      else if j == 29 { assert Label(C, 29) == BoardC[29]; }
      else if j == 30 { assert Label(C, 30) == BoardC[30]; }
      else { assert Label(C, 31) == BoardC[31]; }
    }
  }

  lemma BoardCRow4()
    ensures forall j | 32 <= j < 40 :: Label(C, j) == BoardC[j]
  {
    forall j | 32 <= j < 40
      ensures Label(C, j) == BoardC[j]
    {
      if j == 32 { assert Label(C, 32) == BoardC[32]; }
      else if j == 33 { assert Label(C, 33) == BoardC[33]; }
      else if j == 34 { assert Label(C, 34) == BoardC[34]; }
      else if j == 35 { assert Label(C, 35) == BoardC[35]; }
      else if j == 36 { assert Label(C, 36) == BoardC[36]; }
      else if j == 37 { assert Label(C, 37) == BoardC[37]; }
      else if j == 38 { assert Label(C, 38) == BoardC[38]; }
      else { assert Label(C, 39) == BoardC[39]; }
    }
  }

  lemma BoardCRow5()
    ensures forall j | 40 <= j < 48 :: Label(C, j) == BoardC[j]
  {
    forall j | 40 <= j < 48
      ensures Label(C, j) == BoardC[j]
    {
      if j == 40 { assert Label(C, 40) == BoardC[40]; }
      else if j == 41 { assert Label(C, 41) == BoardC[41]; }
      else if j == 42 { assert Label(C, 42) == BoardC[42]; }
      else if j == 43 { assert Label(C, 43) == BoardC[43]; }
      else if j == 44 { assert Label(C, 44) == BoardC[44]; }
      else if j == 45 { assert Label(C, 45) == BoardC[45]; }
      else if j == 46 { assert Label(C, 46) == BoardC[46]; }
      else { assert Label(C, 47) == BoardC[47]; }
    }
  }

  lemma BoardCRow6()
    ensures forall j | 48 <= j < 56 :: Label(C, j) == BoardC[j]
  {
    forall j | 48 <= j < 56
      ensures Label(C, j) == BoardC[j]
    {
      if j == 48 { assert Label(C, 48) == BoardC[48]; }
      else if j == 49 { assert Label(C, 49) == BoardC[49]; }
      else if j == 50 { assert Label(C, 50) == BoardC[50]; }
      else if j == 51 { assert Label(C, 51) == BoardC[51]; }
      else if j == 52 { assert Label(C, 52) == BoardC[52]; }
      else if j == 53 { assert Label(C, 53) == BoardC[53]; }
      else if j == 54 { assert Label(C, 54) == BoardC[54]; }
      else { assert Label(C, 55) == BoardC[55]; }
    }
  }

  lemma BoardCRow7()
    ensures forall j | 56 <= j < 59 :: Label(C, j) == BoardC[j]
  {
    forall j | 56 <= j < 59
      ensures Label(C, j) == BoardC[j]
    {
      if j == 56 { assert Label(C, 56) == BoardC[56]; }
      else if j == 57 { assert Label(C, 57) == BoardC[57]; }
      else { assert Label(C, 58) == BoardC[58]; }
    }
  }

  lemma BoardDRow0()
    ensures forall j | 0 <= j < 8 :: Label(D, j) == BoardD[j]
  {
    forall j | 0 <= j < 8
      ensures Label(D, j) == BoardD[j]
    {
      if j == 0 { assert Label(D, 0) == BoardD[0]; }
      else if j == 1 { assert Label(D, 1) == BoardD[1]; }
      else if j == 2 { assert Label(D, 2) == BoardD[2]; }
      else if j == 3 { assert Label(D, 3) == BoardD[3]; }
      else if j == 4 { assert Label(D, 4) == BoardD[4]; }
      else if j == 5 { assert Label(D, 5) == BoardD[5]; }
      else if j == 6 { assert Label(D, 6) == BoardD[6]; }
      else { assert Label(D, 7) == BoardD[7]; }
    }
  }

  lemma BoardDRow1()
    ensures forall j | 8 <= j < 16 :: Label(D, j) == BoardD[j]
  {
    forall j | 8 <= j < 16
      ensures Label(D, j) == BoardD[j]
    {
      if j == 8 { assert Label(D, 8) == BoardD[8]; }
      else if j == 9 { assert Label(D, 9) == BoardD[9]; }
      else if j == 10 { assert Label(D, 10) == BoardD[10]; }
      else if j == 11 { assert Label(D, 11) == BoardD[11]; }
      else if j == 12 { assert Label(D, 12) == BoardD[12]; }
      else if j == 13 { assert Label(D, 13) == BoardD[13]; }
      else if j == 14 { assert Label(D, 14) == BoardD[14]; }
      else { assert Label(D, 15) == BoardD[15]; }
    }
  }

  lemma BoardDRow2()
    ensures forall j | 16 <= j < 24 :: Label(D, j) == BoardD[j]
  {
    forall j | 16 <= j < 24
      ensures Label(D, j) == BoardD[j]
    {
      if j == 16 { assert Label(D, 16) == BoardD[16]; }
      else if j == 17 { assert Label(D, 17) == BoardD[17]; }
      else if j == 18 { assert Label(D, 18) == BoardD[18]; }
      else if j == 19 { assert Label(D, 19) == BoardD[19]; }
      else if j == 20 { assert Label(D, 20) == BoardD[20]; }
      else if j == 21 { assert Label(D, 21) == BoardD[21]; }
      else if j == 22 { assert Label(D, 22) == BoardD[22]; }
      else { assert Label(D, 23) == BoardD[23]; }
    }
  }

  lemma BoardDRow3()
    ensures forall j | 24 <= j < 32 :: Label(D, j) == BoardD[j]
  {
    forall j | 24 <= j < 32
      ensures Label(D, j) == BoardD[j]
    {
      if j == 24 { assert Label(D, 24) == BoardD[24]; }
      else if j == 25 { assert Label(D, 25) == BoardD[25]; }
      else if j == 26 { assert Label(D, 26) == BoardD[26]; }
      else if j == 27 { assert Label(D, 27) == BoardD[27]; }
      else if j == 28 { assert Label(D, 28) == BoardD[28]; }
      else if j == 29 { assert Label(D, 29) == BoardD[29]; }
      else if j == 30 { assert Label(D, 30) == BoardD[30]; }
      else { assert Label(D, 31) == BoardD[31]; }
    }
  }

  lemma BoardDRow4()
    ensures forall j | 32 <= j < 40 :: Label(D, j) == BoardD[j]
  {
    forall j | 32 <= j < 40
      ensures Label(D, j) == BoardD[j]
    {
      if j == 32 { assert Label(D, 32) == BoardD[32]; }
      else if j == 33 { assert Label(D, 33) == BoardD[33]; }
      else if j == 34 { assert Label(D, 34) == BoardD[34]; }
      else if j == 35 { assert Label(D, 35) == BoardD[35]; }
      else if j == 36 { assert Label(D, 36) == BoardD[36]; }
      else if j == 37 { assert Label(D, 37) == BoardD[37]; }
      else if j == 38 { assert Label(D, 38) == BoardD[38]; }
      else { assert Label(D, 39) == BoardD[39]; }
    }
  }

  lemma BoardDRow5()
    ensures forall j | 40 <= j < 48 :: Label(D, j) == BoardD[j]
  {
    forall j | 40 <= j < 48
      ensures Label(D, j) == BoardD[j]
    {
      if j == 40 { assert Label(D, 40) == BoardD[40]; }
      else if j == 41 { assert Label(D, 41) == BoardD[41]; }
      else if j == 42 { assert Label(D, 42) == BoardD[42]; }
      else if j == 43 { assert Label(D, 43) == BoardD[43]; }
      else if j == 44 { assert Label(D, 44) == BoardD[44]; }
      else if j == 45 { assert Label(D, 45) == BoardD[45]; }
      else if j == 46 { assert Label(D, 46) == BoardD[46]; }
      else { assert Label(D, 47) == BoardD[47]; }
    }
  }

  lemma BoardDRow6()
    ensures forall j | 48 <= j < 56 :: Label(D, j) == BoardD[j]
  {
    forall j | 48 <= j < 56
      ensures Label(D, j) == BoardD[j]
    {
      if j == 48 { assert Label(D, 48) == BoardD[48]; }
      else if j == 49 { assert Label(D, 49) == BoardD[49]; }
      else if j == 50 { assert Label(D, 50) == BoardD[50]; }
      else if j == 51 { assert Label(D, 51) == BoardD[51]; }
      else if j == 52 { assert Label(D, 52) == BoardD[52]; }
      else if j == 53 { assert Label(D, 53) == BoardD[53]; }
      else if j == 54 { assert Label(D, 54) == BoardD[54]; }
      else { assert Label(D, 55) == BoardD[55]; }
    }
  }

  lemma BoardDRow7()
    ensures forall j | 56 <= j < 59 :: Label(D, j) == BoardD[j]
  {
    forall j | 56 <= j < 59
      ensures Label(D, j) == BoardD[j]
    {
      if j == 56 { assert Label(D, 56) == BoardD[56]; }
      else if j == 57 { assert Label(D, 57) == BoardD[57]; }
      else { assert Label(D, 58) == BoardD[58]; }
    }
  }

  /** The literal table that player id's board is built from. */
  function Table(id: PlayerId): seq<string>
  {
    match id
    case A => BoardA
    case B => BoardB
    case C => BoardC
    case D => BoardD
  }

  /** The derived labels reproduce the four literal board tables entry by entry. */
  lemma LabelsMatchTables(id: PlayerId)
    ensures |Table(id)| == TrackLength
    ensures forall j | 0 <= j < TrackLength :: Label(id, j) == Table(id)[j]
  {
    match id
    case A =>
      BoardARow0(); BoardARow1(); BoardARow2(); BoardARow3(); BoardARow4(); BoardARow5(); BoardARow6(); BoardARow7();
    case B =>
      BoardBRow0(); BoardBRow1(); BoardBRow2(); BoardBRow3(); BoardBRow4(); BoardBRow5(); BoardBRow6(); BoardBRow7();
    case C =>
      BoardCRow0(); BoardCRow1(); BoardCRow2(); BoardCRow3(); BoardCRow4(); BoardCRow5(); BoardCRow6(); BoardCRow7();
    case D =>
      BoardDRow0(); BoardDRow1(); BoardDRow2(); BoardDRow3(); BoardDRow4(); BoardDRow5(); BoardDRow6(); BoardDRow7();
  }

  /** The ring numbering is the rotation by 14 squares per player, modulo the
      56 ring names. */
  lemma RingNumberRotation(id: PlayerId, i: int)
    requires 1 <= i <= 50
    ensures RingNumber(id, i) == (14 * Seat(id) + i - 1) % 56 + 1
  {
  }

  /** Every track starts on the release square, ends with the end square and
      the yard label, and has the owner's private squares at 51..56. */
  lemma TrackShape(id: PlayerId, i: int)
    requires 0 <= i < TrackLength
    ensures i == 0 ==> Label(id, i) == "R"
    ensures 1 <= i <= 50 ==> Label(id, i) == RingName(RingNumber(id, i))
    ensures 51 <= i <= 56 ==> Label(id, i) == [Letter(id), Digit(i - 50)]
    ensures i == 57 ==> Label(id, i) == "E"
    ensures i == 58 ==> Label(id, i) == "H"
  {
  }

  /** A square that can appear on some track. */
  predicate OnBoard(s: Space)
  {
    match s
    case Ring(n) => 1 <= n <= 56
    case Stretch(_, k) => 1 <= k <= 6
    case _ => true
  }

  lemma DigitInjective(a: int, b: int)
    requires 0 <= a < 10 && 0 <= b < 10
    ensures Digit(a) == Digit(b) <==> a == b
  {
    assert Digit(a) as int == '0' as int + a;
    assert Digit(b) as int == '0' as int + b;
  }

  lemma RingNameInjective(n: int, m: int)
    requires 1 <= n <= 56 && 1 <= m <= 56
    ensures RingName(n) == RingName(m) <==> n == m
  {
    if RingName(n) == RingName(m) {
      var sn, sm := RingName(n), RingName(m);
      if n < 10 || m < 10 {
        assert |sn| == |sm| == 1;
        DigitInjective(n, m);
      } else {
        assert |sn| == |sm| == 2 && sn[0] == sm[0] && sn[1] == sm[1];
        var tn := if n < 20 then 1 else if n < 30 then 2 else if n < 40 then 3 else if n < 50 then 4 else 5;
        var tm := if m < 20 then 1 else if m < 30 then 2 else if m < 40 then 3 else if m < 50 then 4 else 5;
        DigitInjective(tn, tm);
        DigitInjective(n - 10 * tn, m - 10 * tm);
      }
    }
  }

  /** Names tell squares apart: two squares of the board print alike exactly
      when they are the same square.  So the source's comparison of label
      strings is a comparison of squares. */
  lemma NameInjective(s: Space, t: Space)
    requires OnBoard(s) && OnBoard(t)
    ensures Name(s) == Name(t) <==> s == t
  {
    if Name(s) == Name(t) {
      var ns := Name(s);
      match s
      case Release =>
        assert ns[0] == 'R';
      case End =>
        assert ns[0] == 'E';
      case Yard =>
        assert ns[0] == 'H';
      case Ring(n) =>
        assert '0' <= ns[0] <= '9';
        if t.Ring? {
          RingNameInjective(n, t.n);
        }
      case Stretch(o, k) =>
        assert |ns| == 2 && 'A' <= ns[0] <= 'D';
        if t.Stretch? {
          DigitInjective(k, t.k);
          assert Letter(o) == Letter(t.owner);
        }
    }
  }

  /** Two labels are equal exactly when they name the same square. */
  lemma LabelsMatchSquares(j: PlayerId, a: int, k: PlayerId, b: int)
    requires 0 <= a < TrackLength && 0 <= b < TrackLength
    ensures Label(j, a) == Label(k, b) <==> SpaceAt(j, a) == SpaceAt(k, b)
  {
    NameInjective(SpaceAt(j, a), SpaceAt(k, b));
  }

  /** Two ring indices of two tracks carry the same label exactly when they
      are the same ring square: their rotated positions agree modulo 56. */
  lemma SameRingSquare(j: PlayerId, a: int, k: PlayerId, b: int)
    requires 1 <= a <= 50 && 1 <= b <= 50
    ensures Label(j, a) == Label(k, b) <==> (14 * Seat(j) + a - 14 * Seat(k) - b) % 56 == 0
  {
    LabelsMatchSquares(j, a, k, b);
    var x, y := 14 * Seat(j) + a, 14 * Seat(k) + b;
    assert SpaceAt(j, a) == Ring(if x <= 56 then x else x - 56);
    assert SpaceAt(k, b) == Ring(if y <= 56 then y else y - 56);
    MultipleOfRing(x - y);
  }

  /** Within two laps, a difference is a multiple of 56 only at -56, 0, 56. */
  lemma MultipleOfRing(d: int)
    requires -112 < d < 112
    ensures d % 56 == 0 <==> d == -56 || d == 0 || d == 56
  {
    if d < -56 {
      assert d % 56 == d + 112;
    } else if d < 0 {
      assert d % 56 == d + 56;
    } else if d < 56 {
      assert d % 56 == d;
    } else {
      assert d % 56 == d - 56;
    }
  }

  /** No label occurs twice on one track. */
  lemma TrackLabelsDistinct(id: PlayerId, a: int, b: int)
    requires 0 <= a < TrackLength && 0 <= b < TrackLength
    ensures Label(id, a) == Label(id, b) <==> a == b
  {
    LabelsMatchSquares(id, a, id, b);
  }
}
