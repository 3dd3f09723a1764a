/** A team's six rotation slots: which slots form the back and front rows, the serve-change
    rotation, the start-of-set ordering and the automatic substitution passes. */
module Lineups {
  import opened Builtins
  import opened Players

  // ---------------------------------------------------------------------------
  // Rows

  /** The occupants of slots 0, 4 and 5, in slot order (those that exist). */
  function BackRow(t: seq<Player>): (r: seq<Player>)
    ensures |r| <= 3 && |r| <= |t|
    ensures forall p :: p in r ==> p in t
    ensures |t| >= 6 ==> r == [t[0], t[4], t[5]]
  {
    (if |t| > 0 then [t[0]] else []) + (if |t| > 4 then [t[4]] else []) + (if |t| > 5 then [t[5]] else [])
  }

  /** The occupants of slots 1, 2 and 3, in slot order (those that exist). */
  function FrontRow(t: seq<Player>): (r: seq<Player>)
    ensures |r| <= 3 && (|r| == 0 || |r| + 1 <= |t|)
    ensures forall p :: p in r ==> p in t
    ensures |t| >= 4 ==> r == [t[1], t[2], t[3]]
  {
    if |t| <= 1 then [] else t[1..if |t| < 4 then |t| else 4]
  }

  // ---------------------------------------------------------------------------
  // Serve-change rotation: the front player moves to the back

  function RotateLeft<T>(t: seq<T>): (r: seq<T>)
    requires |t| > 0
    ensures |r| == |t| && multiset(r) == multiset(t)
  {
    assert t == [t[0]] + t[1..];
    t[1..] + [t[0]]
  }

  /** Every player moves forward one slot, and the player in slot 0 goes to the back. */
  lemma RotateLeftSlots<T>(t: seq<T>)
    requires |t| > 0
    ensures forall i :: 0 <= i < |t| - 1 ==> RotateLeft(t)[i] == t[i + 1]
    ensures RotateLeft(t)[|t| - 1] == t[0]
  {
  }

  /** n serve changes in a row. */
  function Rotations<T>(t: seq<T>, n: nat): (r: seq<T>)
    requires |t| > 0
    ensures |r| == |t|
  {
    if n == 0 then t else RotateLeft(Rotations(t, n - 1))
  }

  lemma {:induction false} RotationsSplit<T>(t: seq<T>, n: nat)
    requires 0 < |t| && n <= |t|
    ensures Rotations(t, n) == t[n..] + t[..n]
  {
    if n > 0 {
      var prev := Rotations(t, n - 1);
      RotationsSplit(t, n - 1);
      RotateSplitStep(t, n);
      assert Rotations(t, n) == RotateLeft(prev);
    } else {
      assert t[0..] == t && t[..0] == [];
    }
  }

  /** One more rotation of a split line-up moves the split point by one. */
  lemma RotateSplitStep<T>(t: seq<T>, n: nat)
    requires 0 < n <= |t|
    ensures RotateLeft(t[n - 1..] + t[..n - 1]) == t[n..] + t[..n]
  {
    var prev := t[n - 1..] + t[..n - 1];
    assert prev[1..] == t[n..] + t[..n - 1];
    assert t[..n - 1] + [t[n - 1]] == t[..n];
  }

  /** Six serve changes bring a six-player rotation back to where it started. */
  lemma FullCycle<T>(t: seq<T>)
    requires |t| > 0
    ensures Rotations(t, |t|) == t
  {
    RotationsSplit(t, |t|);
  }

  // ---------------------------------------------------------------------------
  // Start-of-set ordering: a stable sort on the start position

  predicate SortedByStart(s: seq<Player>) {
    forall i, j :: 0 <= i < j < |s| ==> s[i].startPosition <= s[j].startPosition
  }

  /** The players of s whose start position is k, in their order in s. */
  function WithStart(s: seq<Player>, k: int): seq<Player> {
    if s == [] then []
    else (if s[0].startPosition == k then [s[0]] else []) + WithStart(s[1..], k)
  }

  /** Puts p in front of the first player whose start position is not smaller. */
  function InsertByStart(p: Player, s: seq<Player>): (r: seq<Player>)
    ensures |r| == |s| + 1 && multiset(r) == multiset(s) + multiset{p}
    ensures forall i :: 0 <= i < |r| ==> r[i] == p || r[i] in s
  {
    if s == [] || p.startPosition <= s[0].startPosition then [p] + s
    else
      assert s == [s[0]] + s[1..];
      [s[0]] + InsertByStart(p, s[1..])
  }

  function SortByStart(s: seq<Player>): (r: seq<Player>)
    ensures |r| == |s| && multiset(r) == multiset(s)
    ensures SortedByStart(r)
  {
    if s == [] then []
    else
      assert s == [s[0]] + s[1..];
      var rest := SortByStart(s[1..]);
      InsertKeepsOrder(s[0], rest);
      InsertByStart(s[0], rest)
  }

  lemma {:induction false} InsertKeepsOrder(p: Player, s: seq<Player>)
    requires SortedByStart(s)
    ensures SortedByStart(InsertByStart(p, s))
  {
    if s == [] || p.startPosition <= s[0].startPosition {
      assert forall i :: 0 <= i < |s| ==> p.startPosition <= s[i].startPosition by {
        forall i | 0 <= i < |s| ensures p.startPosition <= s[i].startPosition {
          assert s[0].startPosition <= s[i].startPosition;
        }
      }
      ConsSorted(p, s);
    } else {
      InsertKeepsOrder(p, s[1..]);
      InsertAbove(p, s[1..], s[0].startPosition);
      ConsSorted(s[0], InsertByStart(p, s[1..]));
    }
  }

  /** A player no later than anyone of a sorted s can go in front of it. */
  lemma ConsSorted(x: Player, t: seq<Player>)
    requires SortedByStart(t) && forall i :: 0 <= i < |t| ==> x.startPosition <= t[i].startPosition
    ensures SortedByStart([x] + t)
  {
    var r := [x] + t;
    forall i, j | 0 <= i < j < |r| ensures r[i].startPosition <= r[j].startPosition {
      assert r[j] == t[j - 1];
      if i > 0 {
        assert r[i] == t[i - 1];
      }
    }
  }

  /** A start position nobody in s nor p is below is one nobody is below after the insertion. */
  lemma {:induction false} InsertAbove(p: Player, s: seq<Player>, k: int)
    requires k <= p.startPosition && forall i :: 0 <= i < |s| ==> k <= s[i].startPosition
    ensures forall i :: 0 <= i < |InsertByStart(p, s)| ==> k <= InsertByStart(p, s)[i].startPosition
  {
    if s != [] && p.startPosition > s[0].startPosition {
      InsertAbove(p, s[1..], k);
      assert InsertByStart(p, s) == [s[0]] + InsertByStart(p, s[1..]);
    }
  }

  /** Inserting p puts it among the players with its start position after none of them. */
  lemma {:induction false} InsertKeepsTies(p: Player, s: seq<Player>, k: int)
    ensures WithStart(InsertByStart(p, s), k) == (if p.startPosition == k then [p] else []) + WithStart(s, k)
  {
    var mine := if p.startPosition == k then [p] else [];
    if s == [] || p.startPosition <= s[0].startPosition {
      assert InsertByStart(p, s) == [p] + s;
      assert ([p] + s)[1..] == s;
    } else {
      var tail := InsertByStart(p, s[1..]);
      var first := if s[0].startPosition == k then [s[0]] else [];
      assert InsertByStart(p, s) == [s[0]] + tail;
      assert ([s[0]] + tail)[1..] == tail;
      assert WithStart(InsertByStart(p, s), k) == first + WithStart(tail, k);
      InsertKeepsTies(p, s[1..], k);
      assert WithStart(s, k) == first + WithStart(s[1..], k);
      // p and s[0] have different start positions, so at most one of them is kept
      if first == [] {
        assert WithStart(s, k) == WithStart(s[1..], k);
        assert WithStart(InsertByStart(p, s), k) == WithStart(tail, k);
      } else {
        assert mine == [];
        assert WithStart(tail, k) == WithStart(s[1..], k);
      }
    }
  }

  /** The sort is stable: for every start position, the players holding it keep their
      relative order. */
  lemma {:induction false} SortIsStable(s: seq<Player>, k: int)
    ensures WithStart(SortByStart(s), k) == WithStart(s, k)
  {
    if s != [] {
      SortIsStable(s[1..], k);
      InsertKeepsTies(s[0], SortByStart(s[1..]), k);
    }
  }

  // ---------------------------------------------------------------------------
  // Substitution bookkeeping

  function Repeat<T>(x: T, n: nat): (r: seq<T>)
    ensures |r| == n && forall i :: 0 <= i < n ==> r[i] == x
  {
    if n == 0 then [] else [x] + Repeat(x, n - 1)
  }

  /** How many players in rs play the given position. */
  function CountAt(rs: seq<Player>, pos: string): nat {
    if rs == [] then 0 else (if rs[0].position == pos then 1 else 0) + CountAt(rs[1..], pos)
  }

  /** The last player in rs who plays the given position. */
  function LastAt(rs: seq<Player>, pos: string): (r: Option<Player>)
    ensures r.Some? ==> r.value in rs && r.value.position == pos
  {
    if rs == [] then None
    else if rs[|rs| - 1].position == pos then Some(rs[|rs| - 1])
    else LastAt(rs[..|rs| - 1], pos)
  }

  /** There is a last player of a position exactly when somebody plays it. */
  lemma {:induction false} LastAtExists(rs: seq<Player>, pos: string)
    ensures LastAt(rs, pos).None? <==> CountAt(rs, pos) == 0
  {
    if rs != [] {
      CountFront(rs, pos);
      LastAtExists(rs[..|rs| - 1], pos);
    }
  }

  lemma {:induction false} CountConcat(a: seq<Player>, b: seq<Player>, pos: string)
    ensures CountAt(a + b, pos) == CountAt(a, pos) + CountAt(b, pos)
  {
    if a != [] {
      assert (a + b)[0] == a[0] && (a + b)[1..] == a[1..] + b;
      assert CountAt(a + b, pos) == (if a[0].position == pos then 1 else 0) + CountAt(a[1..] + b, pos);
      CountConcat(a[1..], b, pos);
    } else {
      assert a + b == b;
    }
  }

  lemma CountFront(rs: seq<Player>, pos: string)
    requires rs != []
    ensures CountAt(rs, pos) == CountAt(rs[..|rs| - 1], pos) + (if rs[|rs| - 1].position == pos then 1 else 0)
  {
    assert rs == rs[..|rs| - 1] + [rs[|rs| - 1]];
    CountConcat(rs[..|rs| - 1], [rs[|rs| - 1]], pos);
  }

  lemma {:induction false} CountRepeat(x: Player, n: nat, pos: string)
    requires x.position != pos
    ensures CountAt(Repeat(x, n), pos) == 0
  {
    if n > 0 {
      assert Repeat(x, n)[1..] == Repeat(x, n - 1);
      CountRepeat(x, n - 1, pos);
    }
  }

  /** Appending players of another position leaves the last match where it was. */
  lemma {:induction false} LastAtIgnoresTail(a: seq<Player>, b: seq<Player>, pos: string)
    requires CountAt(b, pos) == 0
    ensures LastAt(a + b, pos) == LastAt(a, pos)
  {
    if b != [] {
      assert b[0].position != pos;
      CountFront(b, pos);
      assert (a + b)[..|a + b| - 1] == a + b[..|b| - 1];
      LastAtIgnoresTail(a, b[..|b| - 1], pos);
    } else {
      assert a + b == a;
    }
  }

  /** team with slot replaced by sub, when there is one. */
  function Put(team: seq<Player>, slot: nat, sub: Option<Player>): (r: seq<Player>)
    requires slot < |team|
    ensures |r| == |team|
  {
    if sub.Some? then team[slot := sub.value] else team
  }

  /** One walk over the reserves for a displaced player: every reserve who plays the
      entering position is written into the slot, and each time the displaced player is
      appended to the reserves. The walk covers the list it appends to; it ends because
      the appended player never plays the entering position. So the LAST matching reserve
      stays in the slot, the displaced player is appended once per matching reserve, and
      no reserve is ever removed (both as the source does it). */
  method SwapIn(team: seq<Player>, reserves: seq<Player>, slot: nat, player: Player, entering: string)
    returns (t: seq<Player>, rs: seq<Player>)
    requires slot < |team|
    requires player.position != entering
    ensures t == Put(team, slot, LastAt(reserves, entering))
    ensures rs == reserves + Repeat(player, CountAt(reserves, entering))
  {
    t, rs := team, reserves;
    var i := 0;
    while i < |rs|
      invariant 0 <= i <= |rs|
      invariant rs == reserves + Repeat(player, CountAt(rs[..i], entering))
      invariant t == Put(team, slot, LastAt(rs[..i], entering))
      decreases CountAt(rs[i..], entering), |rs| - i
    {
      var sub := rs[i];
      if sub.position == entering {
        SwapInMatch(reserves, rs, i, player, entering);
        rs := rs + [player];
        t := t[slot := sub];
      } else {
        SwapInSkip(reserves, rs, i, player, entering);
      }
      i := i + 1;
    }
    SwapInDone(reserves, rs, player, entering);
  }

  /** A round of SwapIn's walk that meets a reserve of the entering position. */
  lemma SwapInMatch(reserves: seq<Player>, rs: seq<Player>, i: nat, player: Player, entering: string)
    requires i < |rs| && rs[i].position == entering && player.position != entering
    requires rs == reserves + Repeat(player, CountAt(rs[..i], entering))
    ensures (rs + [player])[..i + 1] == rs[..i + 1]
    ensures rs + [player] == reserves + Repeat(player, CountAt(rs[..i + 1], entering))
    ensures LastAt(rs[..i + 1], entering) == Some(rs[i])
    ensures CountAt((rs + [player])[i + 1..], entering) < CountAt(rs[i..], entering)
  {
    var sub := rs[i];
    assert rs[..i + 1] == rs[..i] + [sub];
    assert rs[..i + 1][..i] == rs[..i];
    assert rs[i..] == [sub] + rs[i + 1..];
    CountConcat(rs[..i], [sub], entering);
    CountConcat([sub], rs[i + 1..], entering);
    RepeatSnoc(player, CountAt(rs[..i], entering));
    assert (rs + [player])[i + 1..] == rs[i + 1..] + [player];
    CountConcat(rs[i + 1..], [player], entering);
  }

  /** A round of SwapIn's walk that passes over a reserve of another position. */
  lemma SwapInSkip(reserves: seq<Player>, rs: seq<Player>, i: nat, player: Player, entering: string)
    requires i < |rs| && rs[i].position != entering
    requires rs == reserves + Repeat(player, CountAt(rs[..i], entering))
    ensures rs == reserves + Repeat(player, CountAt(rs[..i + 1], entering))
    ensures LastAt(rs[..i + 1], entering) == LastAt(rs[..i], entering)
    ensures CountAt(rs[i + 1..], entering) == CountAt(rs[i..], entering)
  {
    var sub := rs[i];
    assert rs[..i + 1] == rs[..i] + [sub];
    assert rs[..i + 1][..i] == rs[..i];
    assert rs[i..] == [sub] + rs[i + 1..];
    CountConcat(rs[..i], [sub], entering);
    CountConcat([sub], rs[i + 1..], entering);
  }

  /** When SwapIn's walk reaches the end, the appended copies hide nothing. */
  lemma SwapInDone(reserves: seq<Player>, rs: seq<Player>, player: Player, entering: string)
    requires player.position != entering
    requires rs == reserves + Repeat(player, CountAt(rs[..|rs|], entering))
    ensures rs == reserves + Repeat(player, CountAt(reserves, entering))
    ensures LastAt(rs[..|rs|], entering) == LastAt(reserves, entering)
  {
    assert rs[..|rs|] == rs;
    var extra := Repeat(player, CountAt(rs, entering));
    CountConcat(reserves, extra, entering);
    CountRepeat(player, CountAt(rs, entering), entering);
    LastAtIgnoresTail(reserves, extra, entering);
  }

  lemma {:induction false} RepeatSnoc<T>(x: T, n: nat)
    ensures Repeat(x, n + 1) == Repeat(x, n) + [x]
  {
    if n > 0 {
      RepeatSnoc(x, n - 1);
    }
  }

  /** Whether the row entry at index i (possibly out of range) plays the leaving position. */
  predicate Leaves(row: seq<Player>, leaving: string, i: int) {
    0 <= i < |row| && row[i].position == leaving
  }

  /** The line-up after a row pass: slot j takes the last reserve of the entering position
      when the row entry at index j - shift plays the leaving position, and keeps its
      occupant otherwise. */
  function AfterRowPass(team: seq<Player>, reserves: seq<Player>, row: seq<Player>, leaving: string, entering: string, shift: nat): (r: seq<Player>)
    ensures |r| == |team|
  {
    var sub := LastAt(reserves, entering);
    seq(|team|, j requires 0 <= j < |team| => if sub.Some? && Leaves(row, leaving, j - shift) then sub.value else team[j])
  }

  /** What a row pass appends to the reserves: every displaced row entry, n times each,
      in row order. */
  function Displaced(row: seq<Player>, leaving: string, n: nat): seq<Player> {
    if row == [] then []
    else Displaced(row[..|row| - 1], leaving, n) + (if row[|row| - 1].position == leaving then Repeat(row[|row| - 1], n) else [])
  }

  lemma {:induction false} DisplacedHasNoEntering(row: seq<Player>, leaving: string, entering: string, n: nat)
    requires leaving != entering
    ensures CountAt(Displaced(row, leaving, n), entering) == 0
  {
    if row != [] {
      var last := row[|row| - 1];
      DisplacedHasNoEntering(row[..|row| - 1], leaving, entering, n);
      CountConcat(Displaced(row[..|row| - 1], leaving, n), if last.position == leaving then Repeat(last, n) else [], entering);
      if last.position == leaving {
        CountRepeat(last, n, entering);
      }
    }
  }

  lemma AfterRowPassEmpty(team: seq<Player>, reserves: seq<Player>, leaving: string, entering: string, shift: nat)
    ensures AfterRowPass(team, reserves, [], leaving, entering, shift) == team
  {
    var r := AfterRowPass(team, reserves, [], leaving, entering, shift);
    forall j | 0 <= j < |team| ensures r[j] == team[j] {
      assert !Leaves([], leaving, j - shift);
    }
  }

  lemma AfterRowPassStep(team: seq<Player>, reserves: seq<Player>, row: seq<Player>, k: nat, leaving: string, entering: string, shift: nat)
    requires k < |row| && k + shift < |team|
    ensures AfterRowPass(team, reserves, row[..k + 1], leaving, entering, shift)
         == if row[k].position == leaving
            then Put(AfterRowPass(team, reserves, row[..k], leaving, entering, shift), k + shift, LastAt(reserves, entering))
            else AfterRowPass(team, reserves, row[..k], leaving, entering, shift)
  {
    var before := AfterRowPass(team, reserves, row[..k], leaving, entering, shift);
    var after := AfterRowPass(team, reserves, row[..k + 1], leaving, entering, shift);
    var expected := if row[k].position == leaving then Put(before, k + shift, LastAt(reserves, entering)) else before;
    forall j | 0 <= j < |team| ensures after[j] == expected[j] {
      assert Leaves(row[..k + 1], leaving, j - shift) <==> Leaves(row[..k], leaving, j - shift) || (j - shift == k && row[k].position == leaving);
    }
  }

  /** Entry `k` of one substitution block: the walk of SwapIn when that entry plays the
      leaving position, nothing otherwise. */
  method RowStep(team: seq<Player>, reserves: seq<Player>, row: seq<Player>, k: nat, leaving: string, entering: string, shift: nat,
                 t: seq<Player>, rs: seq<Player>)
    returns (t': seq<Player>, rs': seq<Player>)
    requires leaving != entering
    requires k < |row| && |row| + shift <= |team|
    requires t == AfterRowPass(team, reserves, row[..k], leaving, entering, shift)
    requires rs == reserves + Displaced(row[..k], leaving, CountAt(reserves, entering))
    ensures t' == AfterRowPass(team, reserves, row[..k + 1], leaving, entering, shift)
    ensures rs' == reserves + Displaced(row[..k + 1], leaving, CountAt(reserves, entering))
  {
    var n := CountAt(reserves, entering);
    DisplacedHasNoEntering(row[..k], leaving, entering, n);
    CountConcat(reserves, Displaced(row[..k], leaving, n), entering);
    LastAtIgnoresTail(reserves, Displaced(row[..k], leaving, n), entering);
    assert row[..k + 1][..k] == row[..k];
    AfterRowPassStep(team, reserves, row, k, leaving, entering, shift);
    t', rs' := t, rs;
    if row[k].position == leaving {
      t', rs' := SwapIn(t, rs, k + shift, row[k], entering);
    }
  }

  /** One substitution block: for each entry of the row (a snapshot taken before the
      pass) that plays the leaving position, the reserves are walked as in SwapIn and the
      write goes to slot (entry index + shift). */
  method RowPass(team: seq<Player>, reserves: seq<Player>, row: seq<Player>, leaving: string, entering: string, shift: nat)
    returns (t: seq<Player>, rs: seq<Player>)
    requires leaving != entering
    requires |row| == 0 || |row| + shift <= |team|
    ensures t == AfterRowPass(team, reserves, row, leaving, entering, shift)
    ensures rs == reserves + Displaced(row, leaving, CountAt(reserves, entering))
  {
    var n := CountAt(reserves, entering);
    t, rs := team, reserves;
    var k := 0;
    AfterRowPassEmpty(team, reserves, leaving, entering, shift);
    while k < |row|
      invariant 0 <= k <= |row|
      invariant t == AfterRowPass(team, reserves, row[..k], leaving, entering, shift)
      invariant rs == reserves + Displaced(row[..k], leaving, n)
    {
      t, rs := RowStep(team, reserves, row, k, leaving, entering, shift, t, rs);
      k := k + 1;
    }
    assert row[..k] == row;
  }
}
