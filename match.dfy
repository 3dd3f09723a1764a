/** A set and a match: the court holds both line-ups and both reserve lists, which a set
    reorders, rotates and substitutes in place between rallies. */
module Matches {
  import opened Builtins
  import opened Players
  import opened Lineups
  import opened Rally

  // ---------------------------------------------------------------------------
  // Scoring

  /** The set goes on while neither team has 25, or while the lead is under 2. */
  predicate InPlay(a: int, b: int) {
    (a < 25 && b < 25) || -2 < a - b < 2
  }

  /** The scores a set can end on: 25 against at most 23, or a two-point lead past 25. */
  predicate Decided(a: int, b: int) {
    (a == 25 && b <= 23) || (b == 25 && a <= 23) || (a >= 26 && a == b + 2) || (b >= 26 && b == a + 2)
  }

  /** One more point ends a set in play only on a decided score. */
  lemma ScoreStep(a: nat, b: nat)
    requires InPlay(a, b)
    ensures InPlay(a + 1, b) || Decided(a + 1, b)
    ensures InPlay(a, b + 1) || Decided(a, b + 1)
  {
  }

  /** The score after the rally winner's point. A set in play stays in play or is decided. */
  function AddPoint(a: nat, b: nat, winner: Side): (r: (nat, nat))
    requires InPlay(a, b)
    ensures InPlay(r.0, r.1) || Decided(r.0, r.1)
    ensures if winner == One then r.1 == b && r.0 == a + 1 else r.0 == a && r.1 == b + 1
  {
    ScoreStep(a, b);
    if winner == One then (a + 1, b) else (a, b + 1)
  }

  /** The set count after a set won by `winner` with both teams under three: one more
      for the winner, the same for the loser. */
  function AddSet(a: nat, b: nat, winner: Side): (r: (nat, nat))
    requires a < 3 && b < 3
    ensures r.0 <= 3 && r.1 <= 3 && r.0 + r.1 == a + b + 1
    ensures if winner == One then r.1 == b && r.0 == a + 1 else r.0 == a && r.1 == b + 1
  {
    if winner == One then (a + 1, b) else (a, b + 1)
  }

  /** A decided score is over: a winner with at least 25 and a lead of at least 2. */
  lemma DecidedIsOver(a: int, b: int)
    requires Decided(a, b)
    ensures !InPlay(a, b) && a != b
    ensures (a >= 25 && a >= b + 2) || (b >= 25 && b >= a + 2)
  {
  }

  /** How many of the rallies (or sets) listed in `ws` side `s` won. */
  function Wins(ws: seq<Side>, s: Side): nat {
    multiset(ws)[s]
  }

  /** Every rally goes to one side or the other: the two tallies add up to the rallies. */
  lemma {:induction false} WinsSplit(ws: seq<Side>)
    ensures Wins(ws, One) + Wins(ws, Two) == |ws|
  {
    if ws != [] {
      var init := ws[..|ws| - 1];
      assert ws == init + [ws[|ws| - 1]];
      var last := ws[|ws| - 1];
      assert multiset(ws) == multiset(init) + multiset{last};
      assert multiset{last}[One] + multiset{last}[Two] == 1 by {
        if last == One { assert multiset{last}[Two] == 0; } else { assert multiset{last}[One] == 0; }
      }
      WinsSplit(init);
    }
  }

  /** One more rally adds one to its winner's tally and nothing to the other's. */
  lemma WinsSnoc(ws: seq<Side>, w: Side)
    ensures Wins(ws + [w], One) == Wins(ws, One) + (if w == One then 1 else 0)
    ensures Wins(ws + [w], Two) == Wins(ws, Two) + (if w == Two then 1 else 0)
  {
    assert multiset(ws + [w]) == multiset(ws) + multiset{w};
  }

  /** The score after a rally is the tally of the rallies with that one added. */
  lemma ScoreIsTally(a: nat, b: nat, ws: seq<Side>, w: Side)
    requires InPlay(a, b) && a == Wins(ws, One) && b == Wins(ws, Two)
    ensures AddPoint(a, b, w) == (Wins(ws + [w], One), Wins(ws + [w], Two))
  {
    WinsSnoc(ws, w);
  }

  datatype SetOutcome = SetWon(winner: Side, pointsOne: nat, pointsTwo: nat) | SetHalted(fault: Fault)

  datatype MatchOutcome =
    | MatchWon(winner: Side, setsOne: nat, setsTwo: nat)
    | MatchHalted(fault: Fault, setsOne: nat, setsTwo: nat)

  // ---------------------------------------------------------------------------
  // Substitution between rallies

  datatype Lineup = Lineup(one: seq<Player>, two: seq<Player>, reservesOne: seq<Player>, reservesTwo: seq<Player>)

  /** Everybody a line-up names, on court or in reserve. */
  function Everyone(l: Lineup): seq<Player> {
    l.one + l.two + l.reservesOne + l.reservesTwo
  }

  /** Nobody in the line-up comes from outside the squad. */
  predicate Within(l: Lineup, squad: set<Player>) {
    forall p :: p in Everyone(l) ==> p in squad
  }

  /** One of the four substitution passes: the team it changes, and whether it is the
      back-row pass (middle blockers off, the libero on) or the front-row pass (liberos
      off, a middle blocker on). */
  datatype Pass = Pass(side: Side, back: bool)

  /** The passes after every rally, in order: team one's back row, team one's front row,
      team two's back row, team two's front row. */
  const Passes: seq<Pass> := [Pass(One, true), Pass(One, false), Pass(Two, true), Pass(Two, false)]

  /** One pass on the line-up the passes before it left. As in the source, a back-row pass
      writes to slots 0 to 2 although it reads slots 0, 4 and 5, and both back-row passes
      read team ONE's back row. */
  function Apply(l: Lineup, p: Pass): (r: Lineup)
    ensures |r.one| == |l.one| && |r.two| == |l.two|
  {
    var team := if p.side == One then l.one else l.two;
    var reserves := if p.side == One then l.reservesOne else l.reservesTwo;
    var row := if p.back then BackRow(l.one) else FrontRow(team);
    var leaving := if p.back then "MB" else "L";
    var entering := if p.back then "L" else "MB";
    var t := AfterRowPass(team, reserves, row, leaving, entering, if p.back then 0 else 1);
    var rs := reserves + Displaced(row, leaving, CountAt(reserves, entering));
    if p.side == One then l.(one := t, reservesOne := rs) else l.(two := t, reservesTwo := rs)
  }

  /** The passes ps, one after the other. */
  function PassesFrom(l: Lineup, ps: seq<Pass>): (r: Lineup)
    ensures |r.one| == |l.one| && |r.two| == |l.two|
    decreases |ps|
  {
    if ps == [] then l else PassesFrom(Apply(l, ps[0]), ps[1..])
  }

  /** The four substitution passes after a rally. */
  function Substituted(l: Lineup): (r: Lineup)
    ensures |r.one| == |l.one| && |r.two| == |l.two|
  {
    PassesFrom(l, Passes)
  }

  /** The four passes written out: each pass reads its row from the line-up left by the
      passes before it, and the pass for team two's back row reads team one's. */
  lemma SubstitutedSteps(l: Lineup)
    ensures var rowOne := BackRow(l.one);
      var one1 := AfterRowPass(l.one, l.reservesOne, rowOne, "MB", "L", 0);
      var res1 := l.reservesOne + Displaced(rowOne, "MB", CountAt(l.reservesOne, "L"));
      var frontOne := FrontRow(one1);
      var one2 := AfterRowPass(one1, res1, frontOne, "L", "MB", 1);
      var res2 := res1 + Displaced(frontOne, "L", CountAt(res1, "MB"));
      var rowTwo := BackRow(one2);
      var two1 := AfterRowPass(l.two, l.reservesTwo, rowTwo, "MB", "L", 0);
      var resT1 := l.reservesTwo + Displaced(rowTwo, "MB", CountAt(l.reservesTwo, "L"));
      var frontTwo := FrontRow(two1);
      var two2 := AfterRowPass(two1, resT1, frontTwo, "L", "MB", 1);
      var resT2 := resT1 + Displaced(frontTwo, "L", CountAt(resT1, "MB"));
      Substituted(l) == Lineup(one2, two2, res2, resT2)
  {
    var rowOne := BackRow(l.one);
    var one1 := AfterRowPass(l.one, l.reservesOne, rowOne, "MB", "L", 0);
    var res1 := l.reservesOne + Displaced(rowOne, "MB", CountAt(l.reservesOne, "L"));
    var l1 := Lineup(one1, l.two, res1, l.reservesTwo);
    assert Apply(l, Passes[0]) == l1;
    var frontOne := FrontRow(one1);
    var one2 := AfterRowPass(one1, res1, frontOne, "L", "MB", 1);
    var res2 := res1 + Displaced(frontOne, "L", CountAt(res1, "MB"));
    var l2 := Lineup(one2, l.two, res2, l.reservesTwo);
    assert Apply(l1, Passes[1]) == l2;
    var rowTwo := BackRow(one2);
    var two1 := AfterRowPass(l.two, l.reservesTwo, rowTwo, "MB", "L", 0);
    var resT1 := l.reservesTwo + Displaced(rowTwo, "MB", CountAt(l.reservesTwo, "L"));
    var l3 := Lineup(one2, two1, res2, resT1);
    assert Apply(l2, Passes[2]) == l3;
    var frontTwo := FrontRow(two1);
    var two2 := AfterRowPass(two1, resT1, frontTwo, "L", "MB", 1);
    var resT2 := resT1 + Displaced(frontTwo, "L", CountAt(resT1, "MB"));
    var l4 := Lineup(one2, two2, res2, resT2);
    assert Apply(l3, Passes[3]) == l4;
    assert Passes[1..][0] == Passes[1] && Passes[1..][1..][0] == Passes[2] && Passes[1..][1..][1..][0] == Passes[3];
    assert Passes[1..][1..][1..][1..] == [];
    assert PassesFrom(l3, Passes[1..][1..][1..]) == l4;
    assert PassesFrom(l2, Passes[1..][1..]) == l4;
    assert PassesFrom(l1, Passes[1..]) == l4;
  }

  /** The four passes run one after the other, as the source's four loops do. */
  method RunPasses(l: Lineup, ghost squad: set<Player>) returns (r: Lineup)
    requires |l.one| == 6 && |l.two| == 6
    requires Within(l, squad)
    ensures r == Substituted(l)
    ensures |r.one| == 6 && |r.two| == 6 && Within(r, squad)
  {
    SubstitutedSteps(l);
    SubstitutedShape(l, squad);
    var one1, res1 := RowPass(l.one, l.reservesOne, BackRow(l.one), "MB", "L", 0);
    var one2, res2 := RowPass(one1, res1, FrontRow(one1), "L", "MB", 1);
    var two1, resT1 := RowPass(l.two, l.reservesTwo, BackRow(one2), "MB", "L", 0);
    var two2, resT2 := RowPass(two1, resT1, FrontRow(two1), "L", "MB", 1);
    r := Lineup(one2, two2, res2, resT2);
  }

  lemma PassMembers(team: seq<Player>, reserves: seq<Player>, row: seq<Player>, leaving: string, entering: string, shift: nat, p: Player)
    requires p in AfterRowPass(team, reserves, row, leaving, entering, shift)
    ensures p in team || p in reserves
  {
    var r := AfterRowPass(team, reserves, row, leaving, entering, shift);
    var j :| 0 <= j < |r| && r[j] == p;
  }

  lemma {:induction false} DisplacedMembers(row: seq<Player>, leaving: string, n: nat, p: Player)
    requires p in Displaced(row, leaving, n)
    ensures p in row && p.position == leaving
  {
    var init := row[..|row| - 1];
    var last := row[|row| - 1];
    var tail := if last.position == leaving then Repeat(last, n) else [];
    assert Displaced(row, leaving, n) == Displaced(init, leaving, n) + tail;
    if p in Displaced(init, leaving, n) {
      DisplacedMembers(init, leaving, n, p);
      assert p in init;
    }
  }

  /** One pass brings in nobody who was not already on the team or in reserve. */
  lemma PassCloses(team: seq<Player>, reserves: seq<Player>, row: seq<Player>, leaving: string, entering: string, shift: nat, p: Player)
    requires forall q :: q in row ==> q in team
    requires p in AfterRowPass(team, reserves, row, leaving, entering, shift)
          || p in reserves + Displaced(row, leaving, CountAt(reserves, entering))
    ensures p in team || p in reserves
  {
    if p in AfterRowPass(team, reserves, row, leaving, entering, shift) {
      PassMembers(team, reserves, row, leaving, entering, shift, p);
    } else if p !in reserves {
      DisplacedMembers(row, leaving, CountAt(reserves, entering), p);
    }
  }

  /** Substitution moves players around but brings in nobody new. */
  lemma SubstitutedCloses(l: Lineup, p: Player)
    requires p in Everyone(Substituted(l))
    ensures p in Everyone(l)
  {
    SubstitutedSteps(l);
    var rowOne := BackRow(l.one);
    var one1 := AfterRowPass(l.one, l.reservesOne, rowOne, "MB", "L", 0);
    var res1 := l.reservesOne + Displaced(rowOne, "MB", CountAt(l.reservesOne, "L"));
    var frontOne := FrontRow(one1);
    var one2 := AfterRowPass(one1, res1, frontOne, "L", "MB", 1);
    var res2 := res1 + Displaced(frontOne, "L", CountAt(res1, "MB"));
    var rowTwo := BackRow(one2);
    var two1 := AfterRowPass(l.two, l.reservesTwo, rowTwo, "MB", "L", 0);
    var resT1 := l.reservesTwo + Displaced(rowTwo, "MB", CountAt(l.reservesTwo, "L"));
    var frontTwo := FrontRow(two1);
    var two2 := AfterRowPass(two1, resT1, frontTwo, "L", "MB", 1);
    var resT2 := resT1 + Displaced(frontTwo, "L", CountAt(resT1, "MB"));
    var all := Everyone(l);
    forall q | q in one1 || q in res1 ensures q in all {
      PassCloses(l.one, l.reservesOne, rowOne, "MB", "L", 0, q);
    }
    forall q | q in one2 || q in res2 ensures q in all {
      PassCloses(one1, res1, frontOne, "L", "MB", 1, q);
    }
    forall q | q in two1 || q in resT1 ensures q in all {
      if q !in l.two && q !in l.reservesTwo {
        if q in two1 {
          PassMembers(l.two, l.reservesTwo, rowTwo, "MB", "L", 0, q);
        } else {
          DisplacedMembers(rowTwo, "MB", CountAt(l.reservesTwo, "L"), q);
        }
      }
    }
    forall q | q in two2 || q in resT2 ensures q in all {
      PassCloses(two1, resT1, frontTwo, "L", "MB", 1, q);
    }
  }

  /** Substitution keeps six players a side, only ever appends to the reserves, and keeps
      everybody within a squad that held everybody before. */
  lemma SubstitutedShape(l: Lineup, squad: set<Player>)
    requires |l.one| == 6 && |l.two| == 6
    requires Within(l, squad)
    ensures var s := Substituted(l);
      |s.one| == 6 && |s.two| == 6
      && l.reservesOne <= s.reservesOne && l.reservesTwo <= s.reservesTwo
      && Within(s, squad)
  {
    SubstitutedSteps(l);
    forall p | p in Everyone(Substituted(l)) ensures p in squad {
      SubstitutedCloses(l, p);
    }
  }

  /** The back-row pass reads slots 0, 4 and 5 but writes slots 0, 1 and 2: a middle blocker
      in slot 4 stays on court in the back row, and whoever is in slot 1 makes way for the
      libero instead. */
  lemma BackRowPassShifts(team: seq<Player>, reserves: seq<Player>)
    requires |team| == 6 && team[4].position == "MB" && CountAt(reserves, "L") > 0
    ensures var r := AfterRowPass(team, reserves, BackRow(team), "MB", "L", 0);
      r[4] == team[4] && LastAt(reserves, "L") == Some(r[1]) && r[1].position == "L"
  {
    LastAtExists(reserves, "L");
    assert Leaves(BackRow(team), "MB", 1);
    assert !Leaves(BackRow(team), "MB", 4);
  }

  /** Which slots a back-row pass changes: only slots 0 to 2, each by the row entry of the
      same index. */
  lemma BackRowPassSlots(team: seq<Player>, reserves: seq<Player>)
    requires |team| == 6
    ensures var r := AfterRowPass(team, reserves, BackRow(team), "MB", "L", 0);
      var row := [team[0], team[4], team[5]];
      r[3..] == team[3..]
      && forall k :: 0 <= k < 3 ==>
           r[k] == if row[k].position == "MB" && LastAt(reserves, "L").Some? then LastAt(reserves, "L").value else team[k]
  {
    var r := AfterRowPass(team, reserves, BackRow(team), "MB", "L", 0);
    forall k | 3 <= k < 6 ensures r[k] == team[k] {
      assert !Leaves(BackRow(team), "MB", k);
    }
  }

  /** The front-row pass reads and writes the same slots, 1 to 3: exactly the liberos
      there give way to the last middle blocker in reserve. */
  lemma FrontRowPassSlots(team: seq<Player>, reserves: seq<Player>)
    requires |team| == 6
    ensures var r := AfterRowPass(team, reserves, FrontRow(team), "L", "MB", 1);
      r[0] == team[0] && r[4..] == team[4..]
      && forall k :: 1 <= k <= 3 ==>
           r[k] == if team[k].position == "L" && LastAt(reserves, "MB").Some? then LastAt(reserves, "MB").value else team[k]
  {
    var r := AfterRowPass(team, reserves, FrontRow(team), "L", "MB", 1);
    assert !Leaves(FrontRow(team), "L", -1);
    forall k | 4 <= k < 6 ensures r[k] == team[k] {
      assert !Leaves(FrontRow(team), "L", k - 1);
    }
  }

  /** A pass over a row with nobody to take off changes nothing. */
  lemma PassWithoutLeavers(team: seq<Player>, reserves: seq<Player>, row: seq<Player>, leaving: string, entering: string, shift: nat)
    requires forall k :: 0 <= k < |row| ==> row[k].position != leaving
    ensures AfterRowPass(team, reserves, row, leaving, entering, shift) == team
    ensures Displaced(row, leaving, CountAt(reserves, entering)) == []
  {
    var r := AfterRowPass(team, reserves, row, leaving, entering, shift);
    forall j | 0 <= j < |team| ensures r[j] == team[j] {
      assert !Leaves(row, leaving, j - shift);
    }
    NoLeaversDisplaced(row, leaving, CountAt(reserves, entering));
  }

  lemma {:induction false} NoLeaversDisplaced(row: seq<Player>, leaving: string, n: nat)
    requires forall k :: 0 <= k < |row| ==> row[k].position != leaving
    ensures Displaced(row, leaving, n) == []
  {
    if row != [] {
      NoLeaversDisplaced(row[..|row| - 1], leaving, n);
    }
  }

  /** Team two's back row is judged by team one's: when team one ends its passes with no
      middle blocker in its back row, team two's own back-row middle blockers stay on and
      only its front-row pass runs. */
  lemma TeamTwoReadsTeamOne(l: Lineup)
    requires |l.one| == 6 && |l.two| == 6
    requires forall k :: 0 <= k < 3 ==> BackRow(Substituted(l).one)[k].position != "MB"
    ensures var s := Substituted(l);
      s.two == AfterRowPass(l.two, l.reservesTwo, FrontRow(l.two), "L", "MB", 1)
      && s.reservesTwo == l.reservesTwo + Displaced(FrontRow(l.two), "L", CountAt(l.reservesTwo, "MB"))
  {
    SubstitutedSteps(l);
    var row := BackRow(Substituted(l).one);
    PassWithoutLeavers(l.two, l.reservesTwo, row, "MB", "L", 0);
    assert l.reservesTwo + Displaced(row, "MB", CountAt(l.reservesTwo, "L")) == l.reservesTwo;
  }

  /** The back-row pass of SubstitutionDuplicates: the lone libero takes slots 1 and 2,
      and the middle blocker from slot 5 becomes the last middle blocker in reserve. */
  lemma DuplicatesBackPass(l: Lineup, libero: Player)
    requires |l.one| == 6
    requires l.reservesOne == [libero] && libero.position == "L"
    requires l.one[0].position != "MB" && l.one[4].position == "MB" && l.one[5].position == "MB"
    ensures var rowOne := BackRow(l.one);
      var one1 := AfterRowPass(l.one, l.reservesOne, rowOne, "MB", "L", 0);
      var res1 := l.reservesOne + Displaced(rowOne, "MB", CountAt(l.reservesOne, "L"));
      one1[1] == libero && one1[2] == libero && one1[3] == l.one[3] && one1[5] == l.one[5]
      && LastAt(res1, "MB") == Some(l.one[5])
  {
    var rowOne := BackRow(l.one);
    assert LastAt(l.reservesOne, "L") == Some(libero);
    BackRowPassSlots(l.one, l.reservesOne);
    assert CountAt(l.reservesOne, "L") == 1;
    var front := Displaced(rowOne[..2], "MB", 1);
    assert rowOne[..|rowOne| - 1] == rowOne[..2];
    assert Displaced(rowOne, "MB", 1) == front + Repeat(l.one[5], 1);
    var res1 := l.reservesOne + Displaced(rowOne, "MB", CountAt(l.reservesOne, "L"));
    assert res1 == (l.reservesOne + front) + [l.one[5]];
  }

  /** Substitution can put one player in several slots at once. With middle blockers in
      slots 4 and 5 and a single libero in reserve, the back-row pass puts that libero in
      slots 1 and 2; the front-row pass then replaces both with the last middle blocker in
      reserve, the one just sent off from slot 5, who also still stands in slot 5. */
  lemma SubstitutionDuplicates(l: Lineup, libero: Player)
    requires |l.one| == 6 && |l.two| == 6
    requires l.reservesOne == [libero] && libero.position == "L"
    requires l.one[0].position != "MB" && l.one[4].position == "MB" && l.one[5].position == "MB"
    requires l.one[3].position != "L"
    ensures var s := Substituted(l).one;
      s[1] == l.one[5] && s[2] == l.one[5] && s[5] == l.one[5] && !Distinct(s)
  {
    SubstitutedSteps(l);
    var rowOne := BackRow(l.one);
    var one1 := AfterRowPass(l.one, l.reservesOne, rowOne, "MB", "L", 0);
    var res1 := l.reservesOne + Displaced(rowOne, "MB", CountAt(l.reservesOne, "L"));
    DuplicatesBackPass(l, libero);
    FrontRowPassSlots(one1, res1);
    var s := Substituted(l).one;
    assert s == AfterRowPass(one1, res1, FrontRow(one1), "L", "MB", 1);
    assert s[5] == one1[5];
  }

  /** Team one's passes in CrossTeam: with no libero on court or in reserve, neither pass
      changes team one. */
  lemma CrossTeamOne(l: Lineup)
    requires |l.one| == 6
    requires forall k :: 0 <= k < 6 ==> l.one[k].position != "L"
    requires CountAt(l.reservesOne, "L") == 0
    ensures var rowOne := BackRow(l.one);
      var one1 := AfterRowPass(l.one, l.reservesOne, rowOne, "MB", "L", 0);
      var res1 := l.reservesOne + Displaced(rowOne, "MB", CountAt(l.reservesOne, "L"));
      one1 == l.one && AfterRowPass(one1, res1, FrontRow(one1), "L", "MB", 1) == l.one
  {
    var rowOne := BackRow(l.one);
    LastAtExists(l.reservesOne, "L");
    var one1 := AfterRowPass(l.one, l.reservesOne, rowOne, "MB", "L", 0);
    assert one1 == l.one;
    var res1 := l.reservesOne + Displaced(rowOne, "MB", CountAt(l.reservesOne, "L"));
    PassWithoutLeavers(one1, res1, FrontRow(one1), "L", "MB", 1);
  }

  /** Team two's back-row pass in CrossTeam: judged by team one's back row, it puts team
      two's last libero in reserve in slot 1 and leaves slots 2 and 3, and team one's slot-4
      middle blocker becomes the last middle blocker in team two's reserves. */
  lemma CrossTeamBack(l: Lineup)
    requires |l.one| == 6 && |l.two| == 6
    requires l.one[4].position == "MB" && l.one[0].position != "MB" && l.one[5].position != "MB"
    requires CountAt(l.reservesTwo, "L") > 0
    ensures var rowTwo := BackRow(l.one);
      var two1 := AfterRowPass(l.two, l.reservesTwo, rowTwo, "MB", "L", 0);
      var resT1 := l.reservesTwo + Displaced(rowTwo, "MB", CountAt(l.reservesTwo, "L"));
      LastAt(l.reservesTwo, "L").Some?
      && two1[1] == LastAt(l.reservesTwo, "L").value && two1[2] == l.two[2] && two1[3] == l.two[3]
      && LastAt(resT1, "MB") == Some(l.one[4])
  {
    var rowTwo := BackRow(l.one);
    LastAtExists(l.reservesTwo, "L");
    var two1 := AfterRowPass(l.two, l.reservesTwo, rowTwo, "MB", "L", 0);
    assert Leaves(rowTwo, "MB", 1) && !Leaves(rowTwo, "MB", 2) && !Leaves(rowTwo, "MB", 3);
    var c := CountAt(l.reservesTwo, "L");
    var shed := Displaced(rowTwo, "MB", c);
    assert rowTwo[..|rowTwo| - 1][..1] == rowTwo[..1];
    assert shed == Displaced(rowTwo[..2], "MB", c) + [];
    assert Displaced(rowTwo[..2], "MB", c) == Displaced(rowTwo[..1], "MB", c) + Repeat(l.one[4], c);
    var resT1 := l.reservesTwo + shed;
    assert resT1[|resT1| - 1] == l.one[4];
  }

  /** Team two's back-row pass reads team one's back row and appends team one's players to
      team two's reserves. With a middle blocker in team one's slot 4 only, no libero on
      either court or in team one's reserves, and a libero in team two's reserves, that
      libero takes team two's slot 1; the front-row pass then replaces the libero with team
      one's middle blocker, who now stands in team two's slot 1 and still in team one's
      slot 4. */
  lemma CrossTeam(l: Lineup)
    requires |l.one| == 6 && |l.two| == 6
    requires l.one[4].position == "MB" && l.one[0].position != "MB" && l.one[5].position != "MB"
    requires forall k :: 0 <= k < 6 ==> l.one[k].position != "L" && l.two[k].position != "L"
    requires CountAt(l.reservesOne, "L") == 0 && CountAt(l.reservesTwo, "L") > 0
    ensures var s := Substituted(l);
      s.one == l.one && s.one[4] == l.one[4] && s.two[1] == l.one[4]
  {
    SubstitutedSteps(l);
    CrossTeamOne(l);
    CrossTeamBack(l);
    var two1 := AfterRowPass(l.two, l.reservesTwo, BackRow(l.one), "MB", "L", 0);
    assert Leaves(FrontRow(two1), "L", 0);
  }

  // ---------------------------------------------------------------------------
  // Serve change

  /** The line-up with the given side's team rotated by one slot. */
  function Rotated(l: Lineup, s: Side): (r: Lineup)
    requires |l.one| > 0 && |l.two| > 0
    ensures multiset(Everyone(r)) == multiset(Everyone(l))
  {
    if s == One then l.(one := RotateLeft(l.one)) else l.(two := RotateLeft(l.two))
  }

  lemma RotatedWithin(l: Lineup, s: Side, squad: set<Player>)
    requires |l.one| > 0 && |l.two| > 0 && Within(l, squad)
    ensures Within(Rotated(l, s), squad)
  {
    forall p | p in Everyone(Rotated(l, s)) ensures p in squad {
      SameMembers(Everyone(Rotated(l, s)), Everyone(l), p);
    }
  }

  /** Sorting both line-ups by start position brings in nobody new. */
  lemma SortedWithin(l: Lineup, squad: set<Player>)
    requires Within(l, squad)
    ensures Within(l.(one := SortByStart(l.one), two := SortByStart(l.two)), squad)
  {
    var sorted := l.(one := SortByStart(l.one), two := SortByStart(l.two));
    forall p | p in Everyone(sorted) ensures p in squad {
      if p in sorted.one {
        SameMembers(sorted.one, l.one, p);
      } else if p in sorted.two {
        SameMembers(sorted.two, l.two, p);
      }
    }
  }

  lemma SameMembers(a: seq<Player>, b: seq<Player>, p: Player)
    requires multiset(a) == multiset(b) && p in a
    ensures p in b
  {
    assert p in multiset(a);
  }

  // ---------------------------------------------------------------------------
  // A set, rally by rally

  /** Who serves after the rallies in `ws`: team one first, then each rally's winner. */
  function Serving(ws: seq<Side>): Side {
    if ws == [] then One else ws[|ws| - 1]
  }

  /** The winner of the last rally serves the next. */
  lemma ServingSnoc(ws: seq<Side>, w: Side)
    ensures Serving(ws + [w]) == w
  {
  }

  /** What one rally does to the line-up: the serve change, then the substitutions. */
  function AfterRally(l: Lineup, serving: Side, w: Side): (r: Lineup)
    requires |l.one| == 6 && |l.two| == 6
    ensures |r.one| == 6 && |r.two| == 6
  {
    Substituted(if w != serving then Rotated(l, w) else l)
  }

  /** The line-up after rallies won by `ws` in turn, each starting from the line-up the one
      before it left. */
  function AfterRallies(l: Lineup, ws: seq<Side>): (r: Lineup)
    requires |l.one| == 6 && |l.two| == 6
    ensures |r.one| == 6 && |r.two| == 6
    decreases |ws|
  {
    if ws == [] then l
    else
      var init := ws[..|ws| - 1];
      AfterRally(AfterRallies(l, init), Serving(init), ws[|ws| - 1])
  }

  /** One more rally: its winner serves next, and the line-up is the one that rally
      leaves behind it. */
  lemma AfterRalliesSnoc(l: Lineup, ws: seq<Side>, w: Side)
    requires |l.one| == 6 && |l.two| == 6
    ensures Serving(ws + [w]) == w
    ensures AfterRallies(l, ws + [w]) == AfterRally(AfterRallies(l, ws), Serving(ws), w)
  {
    assert (ws + [w])[..|ws|] == ws;
  }

  /** Every rally of the set started on a score still in play: the score before the last
      one, and so on back to the first. */
  ghost predicate StartedInPlay(winners: seq<Side>)
    decreases |winners|
  {
    winners != [] ==>
      var init := winners[..|winners| - 1];
      InPlay(Wins(init, One), Wins(init, Two)) && StartedInPlay(init)
  }

  /** Read rally by rally: the score before each rally was in play. */
  lemma {:induction false} StartedInPlayPrefixes(winners: seq<Side>)
    requires StartedInPlay(winners)
    ensures forall k :: 0 <= k < |winners| ==> InPlay(Wins(winners[..k], One), Wins(winners[..k], Two))
    decreases |winners|
  {
    if winners != [] {
      var n := |winners| - 1;
      StartedInPlayPrefixes(winners[..n]);
      assert forall k :: 0 <= k < n ==> winners[..n][..k] == winners[..k];
    }
  }

  /** A rally started on a score in play keeps every rally of the set started in play. */
  lemma StartedInPlaySnoc(winners: seq<Side>, w: Side)
    requires StartedInPlay(winners) && InPlay(Wins(winners, One), Wins(winners, Two))
    ensures StartedInPlay(winners + [w])
  {
    assert (winners + [w])[..|winners|] == winners;
  }

  /** Both teams in start-position order, stably: the line-up a set starts from. */
  function SortedTeams(l: Lineup): (r: Lineup)
    ensures |r.one| == |l.one| && |r.two| == |l.two|
    ensures multiset(r.one) == multiset(l.one) && multiset(r.two) == multiset(l.two)
    ensures SortedByStart(r.one) && SortedByStart(r.two)
    ensures r.reservesOne == l.reservesOne && r.reservesTwo == l.reservesTwo
  {
    l.(one := SortByStart(l.one), two := SortByStart(l.two))
  }


  /** How a set ended: the outcome, the draws left, the line-up and the stats after it, and
      who won each of its rallies, in order. */
  datatype SetRun = SetRun(outcome: SetOutcome, rest: seq<nat>, lineup: Lineup, book: Book, winners: seq<Side>)

  /** The rest of a set from line-up l, with the stats in `book`, after the rallies won by
      `winners`: while the score is in play, the last winner (team one at first) serves a
      rally on the current line-up. A halted rally ends the set; a point goes to the rally's
      winner, the line-up changes as AfterRally says, and the set goes on. */
  function SetFrom(l: Lineup, book: Book, winners: seq<Side>, draws: seq<nat>): (run: SetRun)
    requires |l.one| == 6 && |l.two| == 6
    ensures |run.lineup.one| == 6 && |run.lineup.two| == 6
    decreases |draws|
  {
    var a, b := Wins(winners, One), Wins(winners, Two);
    if !InPlay(a, b) then SetRun(SetWon(if a > b then One else Two, a, b), draws, l, book, winners)
    else
      var serving := Serving(winners);
      var r := RallyFrom(l.one, l.two, book, Serve(serving), draws);
      if r.next.Halted? then SetRun(SetHalted(r.next.fault), r.rest, l, r.book, winners)
      else
        SetFrom(AfterRally(l, serving, r.next.winner), r.book, winners + [r.next.winner], r.rest)
  }

  /** SetFrom on a score that is no longer in play: the set is won by the side ahead. */
  lemma SetFromOver(l: Lineup, book: Book, winners: seq<Side>, draws: seq<nat>)
    requires |l.one| == 6 && |l.two| == 6
    requires !InPlay(Wins(winners, One), Wins(winners, Two))
    ensures var a, b := Wins(winners, One), Wins(winners, Two);
      SetFrom(l, book, winners, draws) == SetRun(SetWon(if a > b then One else Two, a, b), draws, l, book, winners)
  {
  }

  /** SetFrom on a score in play whose rally halts: the set halts with the rally. */
  lemma SetFromHalt(l: Lineup, book: Book, winners: seq<Side>, draws: seq<nat>)
    requires |l.one| == 6 && |l.two| == 6
    requires InPlay(Wins(winners, One), Wins(winners, Two))
    requires RallyFrom(l.one, l.two, book, Serve(Serving(winners)), draws).next.Halted?
    ensures var r := RallyFrom(l.one, l.two, book, Serve(Serving(winners)), draws);
      SetFrom(l, book, winners, draws) == SetRun(SetHalted(r.next.fault), r.rest, l, r.book, winners)
  {
  }

  /** SetFrom on a score in play whose rally ends on a point: the set goes on from what the
      rally leaves. */
  lemma SetFromPoint(l: Lineup, book: Book, winners: seq<Side>, draws: seq<nat>)
    requires |l.one| == 6 && |l.two| == 6
    requires InPlay(Wins(winners, One), Wins(winners, Two))
    requires RallyFrom(l.one, l.two, book, Serve(Serving(winners)), draws).next.Point?
    ensures var r := RallyFrom(l.one, l.two, book, Serve(Serving(winners)), draws);
      var w := r.next.winner;
      SetFrom(l, book, winners, draws) == SetFrom(AfterRally(l, Serving(winners), w), r.book, winners + [w], r.rest)
  {
  }

  /** How a set ended, read off its rallies: a won set ends on a decided score that is the
      tally of the rallies, won by the side with more points; a halted set stopped on a
      score in play. */
  ghost predicate SetEnds(run: SetRun) {
    (run.outcome.SetWon? ==>
       run.outcome.pointsOne == Wins(run.winners, One) && run.outcome.pointsTwo == Wins(run.winners, Two)
       && Decided(run.outcome.pointsOne, run.outcome.pointsTwo)
       && (run.outcome.winner == One <==> run.outcome.pointsOne > run.outcome.pointsTwo))
    && (run.outcome.SetHalted? ==> InPlay(Wins(run.winners, One), Wins(run.winners, Two)))
  }

  /** What the rest of a set leaves on record when it starts after the rallies `winners` of
      a set begun on line-up `start`: those rallies are followed by the set's own, every
      rally started on a score in play, the line-up is the one all of them leave, each new
      rally used at least one draw, the set ends as SetEnds says, and a set that ran out of
      draws used them all. */
  ghost predicate SetRecord(start: Lineup, winners: seq<Side>, draws: seq<nat>, run: SetRun)
    requires |start.one| == 6 && |start.two| == 6
  {
    winners <= run.winners && StartedInPlay(run.winners)
    && run.lineup == AfterRallies(start, run.winners)
    && |run.winners| - |winners| <= |draws| - |run.rest|
    && SetEnds(run)
    && (run.outcome == SetHalted(OutOfDraws) ==> run.rest == [])
  }

  /** A record for the set after one more rally, played on at least one draw, is a record
      for the set before it. */
  lemma SetRecordBack(start: Lineup, winners: seq<Side>, w: Side, draws: seq<nat>, rest: seq<nat>, run: SetRun)
    requires |start.one| == 6 && |start.two| == 6
    requires SetRecord(start, winners + [w], rest, run) && |rest| < |draws|
    ensures SetRecord(start, winners, draws, run)
  {
    assert winners <= winners + [w];
  }

  /** The record of a set whose score is no longer in play. */
  lemma SetRecordOver(start: Lineup, l: Lineup, book: Book, winners: seq<Side>, draws: seq<nat>)
    requires |start.one| == 6 && |start.two| == 6
    requires l == AfterRallies(start, winners) && StartedInPlay(winners)
    requires Decided(Wins(winners, One), Wins(winners, Two))
    ensures SetRecord(start, winners, draws, SetFrom(l, book, winners, draws))
  {
    var a, b := Wins(winners, One), Wins(winners, Two);
    DecidedIsOver(a, b);
    SetFromOver(l, book, winners, draws);
    WonRecord(start, l, winners, draws, book);
  }

  lemma WonRecord(start: Lineup, l: Lineup, winners: seq<Side>, draws: seq<nat>, book: Book)
    requires |start.one| == 6 && |start.two| == 6
    requires l == AfterRallies(start, winners) && StartedInPlay(winners)
    requires Decided(Wins(winners, One), Wins(winners, Two))
    ensures var a, b := Wins(winners, One), Wins(winners, Two);
      SetRecord(start, winners, draws, SetRun(SetWon(if a > b then One else Two, a, b), draws, l, book, winners))
  {
  }

  /** The record of a set whose next rally halts. */
  lemma SetRecordHalt(start: Lineup, l: Lineup, book: Book, winners: seq<Side>, draws: seq<nat>)
    requires |start.one| == 6 && |start.two| == 6
    requires l == AfterRallies(start, winners) && StartedInPlay(winners)
    requires InPlay(Wins(winners, One), Wins(winners, Two))
    requires RallyFrom(l.one, l.two, book, Serve(Serving(winners)), draws).next.Halted?
    ensures SetRecord(start, winners, draws, SetFrom(l, book, winners, draws))
  {
    SetFromHalt(l, book, winners, draws);
    var r := RallyFrom(l.one, l.two, book, Serve(Serving(winners)), draws);
    HaltedRecord(start, l, winners, draws, r.next.fault, r.rest, r.book);
  }

  lemma HaltedRecord(start: Lineup, l: Lineup, winners: seq<Side>, draws: seq<nat>, fault: Fault, rest: seq<nat>, book: Book)
    requires |start.one| == 6 && |start.two| == 6
    requires l == AfterRallies(start, winners) && StartedInPlay(winners)
    requires InPlay(Wins(winners, One), Wins(winners, Two))
    requires |rest| <= |draws| && (fault == OutOfDraws ==> rest == [])
    ensures SetRecord(start, winners, draws, SetRun(SetHalted(fault), rest, l, book, winners))
  {
  }

  /** The record of a set whose next rally ends on a point: the record of the rest of the
      set after that rally, read back one rally. */
  lemma {:induction false} SetRecordPoint(start: Lineup, l: Lineup, book: Book, winners: seq<Side>, draws: seq<nat>)
    requires |start.one| == 6 && |start.two| == 6
    requires l == AfterRallies(start, winners) && StartedInPlay(winners)
    requires InPlay(Wins(winners, One), Wins(winners, Two))
    requires RallyFrom(l.one, l.two, book, Serve(Serving(winners)), draws).next.Point?
    ensures SetRecord(start, winners, draws, SetFrom(l, book, winners, draws))
    decreases |draws|, 0
  {
    var serving := Serving(winners);
    var r := RallyFrom(l.one, l.two, book, Serve(serving), draws);
    var w := r.next.winner;
    var l' := AfterRally(l, serving, w);
    SetFromPoint(l, book, winners, draws);
    ScoreIsTally(Wins(winners, One), Wins(winners, Two), winners, w);
    StartedInPlaySnoc(winners, w);
    AfterRalliesSnoc(start, winners, w);
    SetFromRecord(start, l', r.book, winners + [w], r.rest);
    SetRecordBack(start, winners, w, draws, r.rest, SetFrom(l, book, winners, draws));
  }

  /** What a set leaves on record, from any point of it on: see SetRecord. */
  lemma {:induction false} SetFromRecord(start: Lineup, l: Lineup, book: Book, winners: seq<Side>, draws: seq<nat>)
    requires |start.one| == 6 && |start.two| == 6
    requires l == AfterRallies(start, winners) && StartedInPlay(winners)
    requires InPlay(Wins(winners, One), Wins(winners, Two)) || Decided(Wins(winners, One), Wins(winners, Two))
    ensures SetRecord(start, winners, draws, SetFrom(l, book, winners, draws))
    decreases |draws|, 1
  {
    if !InPlay(Wins(winners, One), Wins(winners, Two)) {
      SetRecordOver(start, l, book, winners, draws);
    } else if RallyFrom(l.one, l.two, book, Serve(Serving(winners)), draws).next.Halted? {
      SetRecordHalt(start, l, book, winners, draws);
    } else {
      SetRecordPoint(start, l, book, winners, draws);
    }
  }

  /** A set won from the start took at least 25 rallies, and so at least 25 draws. */
  lemma WonSetLength(l: Lineup, book: Book, draws: seq<nat>)
    requires |l.one| == 6 && |l.two| == 6
    ensures var run := SetFrom(l, book, [], draws);
      run.outcome.SetWon? ==> |run.winners| >= 25 && |draws| - |run.rest| >= 25
  {
    SetFromRecord(l, l, book, [], draws);
    var run := SetFrom(l, book, [], draws);
    WinsSplit(run.winners);
  }


  // ---------------------------------------------------------------------------
  // The court

  class Court {
    var one: seq<Player>
    var two: seq<Player>
    var reservesOne: seq<Player>
    var reservesTwo: seq<Player>
    /** Everybody who can ever appear on this court. */
    ghost const squad: set<Player>

    function State(): Lineup
      reads this
    {
      Lineup(one, two, reservesOne, reservesTwo)
    }

    /** Six a side, and nobody from outside the squad. */
    ghost predicate Valid()
      reads this
    {
      |one| == 6 && |two| == 6 && Within(State(), squad)
    }

    constructor (one: seq<Player>, two: seq<Player>, reservesOne: seq<Player>, reservesTwo: seq<Player>)
      requires |one| == 6 && |two| == 6
      ensures Valid()
      ensures State() == Lineup(one, two, reservesOne, reservesTwo)
      ensures squad == set p | p in Everyone(State())
    {
      this.one := one;
      this.two := two;
      this.reservesOne := reservesOne;
      this.reservesTwo := reservesTwo;
      squad := set p | p in one + two + reservesOne + reservesTwo;
    }

    /** The four substitution passes, one after the other. */
    method Substitute()
      requires Valid()
      modifies this
      ensures Valid() && unchanged(squad)
      ensures State() == Substituted(old(State()))
    {
      var after := RunPasses(State(), squad);
      Assign(after);
    }

    /** Puts a whole line-up on the court. */
    method Assign(l: Lineup)
      modifies this
      ensures State() == l && unchanged(squad)
    {
      one, two, reservesOne, reservesTwo := l.one, l.two, l.reservesOne, l.reservesTwo;
    }

    /** After a rally: the winner serves next, and a team that wins the serve back rotates. */
    method ChangeServe(winner: Side, serving: Side) returns (next: Side)
      requires Valid()
      modifies this
      ensures Valid() && unchanged(squad)
      ensures next == winner
      ensures State() == if winner != serving then Rotated(old(State()), winner) else old(State())
    {
      if winner != serving {
        RotatedWithin(State(), winner, squad);
        Assign(Rotated(State(), winner));
      }
      next := winner;
    }

    /** The start of a set: both teams in start-position order, stably. */
    method SortTeams()
      requires Valid()
      modifies this
      ensures Valid()
      ensures State() == SortedTeams(old(State()))
    {
      SortedWithin(State(), squad);
      Assign(SortedTeams(State()));
    }

    /** One pass of the set loop's body without the score: a rally with whoever serves,
        then what follows it. The rally is `target`, the one the stats in `book` predict,
        and the players are left with the stats it predicts; a halted rally leaves the
        line-up as it was. */
    method PlayTurn(serving: Side, draws: seq<nat>, ghost book: Book, ghost target: Turn) returns (end: Phase, rest: seq<nat>, next: Side)
      requires Valid() && Agrees(book, squad)
      requires target == RallyFrom(one, two, book, Serve(serving), draws)
      modifies this, squad
      ensures Valid()
      ensures end == target.next && rest == target.rest && Agrees(target.book, squad)
      ensures next == if end.Point? then end.winner else serving
      ensures State() == if end.Point? then AfterRally(old(State()), serving, end.winner) else old(State())
    {
      end, rest := Rally(serving, draws, book, target);
      next := FollowUp(end, serving);
    }

    /** play_point(): a rally on the court as it stands, which changes the players' stats
        and nothing else. The rally is `target`, the one the stats in `book` predict. */
    method Rally(serving: Side, draws: seq<nat>, ghost book: Book, ghost target: Turn) returns (end: Phase, rest: seq<nat>)
      requires Valid() && Agrees(book, squad)
      requires target == RallyFrom(one, two, book, Serve(serving), draws)
      modifies squad
      ensures unchanged(this)
      ensures end == target.next && rest == target.rest && Agrees(target.book, squad)
    {
      assert Tracks(book, squad, one, two);
      ghost var trace;
      end, rest, trace := PlayRally(one, two, serving, draws, squad, book, target);
    }

    /** What follows a rally: once a point is won, the serve change, then the
        substitutions; after a halted rally, nothing. */
    method FollowUp(end: Phase, serving: Side) returns (next: Side)
      requires Valid()
      modifies this
      ensures Valid() && unchanged(squad)
      ensures next == if end.Point? then end.winner else serving
      ensures State() == if end.Point? then AfterRally(old(State()), serving, end.winner) else old(State())
    {
      next := serving;
      if end.Point? {
        next := ChangeServe(end.winner, serving);
        Substitute();
      }
    }

    /** Part way through a set whose rest, from the sorted line-up it started on, is
        `target`: the court is valid, `book` holds the players' stats, and the set from
        here, after the rallies won by `winners`, is still `target`. */
    ghost predicate SetContinues(book: Book, winners: seq<Side>, draws: seq<nat>, target: SetRun)
      reads this, squad
    {
      Valid() && Agrees(book, squad) && SetFrom(State(), book, winners, draws) == target
    }

    /** One rally of a set on a score still in play, read against SetFrom: a halted rally
        ends the set as `target` says, and after a point the set goes on, from the new
        line-up, score and stats and on fewer draws, to the same `target`. */
    method PlayRound(serving: Side, draws: seq<nat>, ghost book: Book, ghost winners: seq<Side>, ghost target: SetRun)
      returns (end: Phase, rest: seq<nat>, next: Side, ghost after: Book)
      requires SetContinues(book, winners, draws, target)
      requires InPlay(Wins(winners, One), Wins(winners, Two)) && serving == Serving(winners)
      modifies this, squad
      ensures end.Point? || end.Halted?
      ensures end.Halted? ==>
        (Valid() && Agrees(after, squad) && target == SetRun(SetHalted(end.fault), rest, State(), after, winners))
      ensures end.Point? ==>
        next == end.winner && |rest| < |draws| && SetContinues(after, winners + [end.winner], rest, target)
    {
      ghost var l := State();
      ghost var r := RallyFrom(one, two, book, Serve(serving), draws);
      end, rest, next := PlayTurn(serving, draws, book, r);
      after := r.book;
      if end.Halted? {
        SetFromHalt(l, book, winners, draws);
      } else {
        SetFromPoint(l, book, winners, draws);
      }
    }

    /** game_set(): both teams back in start-position order, team one serving first, then
        rallies until the score is decided, with the serve change and substitutions after
        every rally. The set is `target`, the one SetFrom plays from the sorted line-up and
        the stats before it, and the court and the players are left as it leaves them. */
    method PlaySet(draws: seq<nat>, ghost book: Book, ghost target: SetRun) returns (outcome: SetOutcome, rest: seq<nat>)
      requires Valid() && Agrees(book, squad)
      requires target == SetFrom(SortedTeams(State()), book, [], draws)
      modifies this, squad
      ensures Valid()
      ensures outcome == target.outcome && rest == target.rest && State() == target.lineup && Agrees(target.book, squad)
    {
      SortTeams();
      outcome, rest := PlayRallies(draws, book, target);
    }

    /** The rally loop of game_set(), from 0-0 with team one serving: rallies while the
        score is in play, each point counted for the side that won it. The set is
        `target`, the one SetFrom plays from the court and the stats before it, and the
        players are left with the stats it predicts. */
    method PlayRallies(draws: seq<nat>, ghost book: Book, ghost target: SetRun) returns (outcome: SetOutcome, rest: seq<nat>)
      requires SetContinues(book, [], draws, target)
      modifies this, squad
      ensures Valid()
      ensures outcome == target.outcome && rest == target.rest && State() == target.lineup && Agrees(target.book, squad)
    {
      var serving := One;
      var pointsOne: nat, pointsTwo: nat := 0, 0;
      rest := draws;
      ghost var winners: seq<Side> := [];
      ghost var b := book;
      while InPlay(pointsOne, pointsTwo)
        invariant SetContinues(b, winners, rest, target)
        invariant pointsOne == Wins(winners, One) && pointsTwo == Wins(winners, Two)
        invariant serving == Serving(winners)
        decreases |rest|
      {
        var end, after, next;
        end, after, next, b := PlayRound(serving, rest, b, winners, target);
        if end.Halted? {
          return SetHalted(end.fault), after;
        }
        ScoreIsTally(pointsOne, pointsTwo, winners, end.winner);
        ServingSnoc(winners, end.winner);
        var score := AddPoint(pointsOne, pointsTwo, end.winner);
        pointsOne, pointsTwo := score.0, score.1;
        winners := winners + [end.winner];
        rest := after;
        serving := next;
      }
      SetFromOver(State(), b, winners, rest);
      outcome := SetWon(if pointsOne > pointsTwo then One else Two, pointsOne, pointsTwo);
    }

    /** The set loop of match(): sets until a team has won three, each with the score
        counted by who won it. The match is `target`, the one MatchFrom plays from the
        court and the stats before it, and the players are left with the stats it
        predicts. */
    method PlaySets(draws: seq<nat>, ghost book: Book, ghost target: MatchRun) returns (outcome: MatchOutcome, rest: seq<nat>)
      requires Continues(book, [], draws, target)
      modifies this, squad
      ensures Valid()
      ensures outcome == target.outcome && rest == target.rest && State() == target.lineup && Agrees(target.book, squad)
    {
      var setsOne: nat, setsTwo: nat := 0, 0;
      rest := draws;
      ghost var setWinners: seq<Side> := [];
      ghost var b := book;
      while setsOne < 3 && setsTwo < 3
        invariant Continues(b, setWinners, rest, target)
        invariant setsOne == Wins(setWinners, One) && setsTwo == Wins(setWinners, Two)
        decreases (3 - setsOne) + (3 - setsTwo)
      {
        var played;
        played, rest, b, setWinners := PlayMatchSet(rest, b, setWinners, target);
        if played.SetHalted? {
          return MatchHalted(played.fault, setsOne, setsTwo), rest;
        }
        var sets := AddSet(setsOne, setsTwo, played.winner);
        setsOne, setsTwo := sets.0, sets.1;
      }
      MatchFromOver(State(), b, setWinners, rest);
      outcome := MatchWon(if setsOne >= 3 then One else Two, setsOne, setsTwo);
    }

    /** Part way through a match whose rest, from the line-up before its first set, is
        `target`: the court is valid, `book` holds the players' stats, and the match from
        here, after the sets won by `setWinners`, is still `target`. */
    ghost predicate Continues(book: Book, setWinners: seq<Side>, draws: seq<nat>, target: MatchRun)
      reads this, squad
    {
      Valid() && Agrees(book, squad) && MatchFrom(State(), book, setWinners, draws) == target
    }

    /** One set of a match with both teams under three sets, read against MatchFrom: a
        halted set ends the match as `target` says, and after a won set the match goes on,
        from the new line-up and stats and on what the set left of the draws, to the same
        `target`, with the set's winner one set up. */
    method PlayMatchSet(draws: seq<nat>, ghost book: Book, ghost setWinners: seq<Side>, ghost target: MatchRun)
      returns (played: SetOutcome, rest: seq<nat>, ghost after: Book, ghost winners: seq<Side>)
      requires Continues(book, setWinners, draws, target)
      requires Wins(setWinners, One) < 3 && Wins(setWinners, Two) < 3
      modifies this, squad
      ensures played.SetHalted? ==>
        (Valid() && Agrees(after, squad) &&
         target == MatchRun(MatchHalted(played.fault, Wins(setWinners, One), Wins(setWinners, Two)), rest, State(), after, setWinners))
      ensures played.SetWon? ==> Continues(after, winners, rest, target)
      ensures played.SetWon? ==> winners == setWinners + [played.winner]
      ensures played.SetWon? ==> Wins(winners, One) == Wins(setWinners, One) + (if played.winner == One then 1 else 0)
      ensures played.SetWon? ==> Wins(winners, Two) == Wins(setWinners, Two) + (if played.winner == Two then 1 else 0)
    {
      ghost var l := State();
      ghost var run := SetFrom(SortedTeams(l), book, [], draws);
      played, rest := PlaySet(draws, book, run);
      after := run.book;
      winners := setWinners;
      if played.SetHalted? {
        MatchFromHalt(l, book, setWinners, draws);
      } else {
        MatchFromSet(l, book, setWinners, draws);
        winners := setWinners + [played.winner];
        WinsSnoc(setWinners, played.winner);
      }
    }
  }


  // ---------------------------------------------------------------------------
  // Starters and reserves

  /** list.remove(): the list without the first occurrence of x. */
  function RemoveFirst(s: seq<Player>, x: Player): (r: seq<Player>)
    requires x in s
    ensures multiset(r) + multiset{x} == multiset(s)
  {
    assert s == [s[0]] + s[1..];
    if s[0] == x then s[1..]
    else
      assert s == [s[0]] + s[1..];
      [s[0]] + RemoveFirst(s[1..], x)
  }

  /** Removing x takes out the x that comes first, whatever follows it. */
  lemma {:induction false} RemoveFirstSkips(a: seq<Player>, x: Player, b: seq<Player>)
    requires x !in a
    ensures RemoveFirst(a + [x] + b, x) == a + b
  {
    if a != [] {
      assert (a + [x] + b)[1..] == a[1..] + [x] + b;
      RemoveFirstSkips(a[1..], x, b);
    }
  }

  /** match(): everybody past the sixth player of the sorted roster is a reserve, and each
      reserve is removed from the team by identity. With distinct players the team is
      exactly the first six. */
  method SplitRoster(sorted: seq<Player>) returns (team: seq<Player>, reserves: seq<Player>)
    requires |sorted| >= 6
    ensures reserves == sorted[6..]
    ensures |team| == 6 && multiset(team) + multiset(reserves) == multiset(sorted)
    ensures Distinct(sorted) ==> team == sorted[..6]
  {
    reserves := [];
    if |sorted| > 6 {
      var i := 6;
      while i < |sorted|
        invariant 6 <= i <= |sorted| && reserves == sorted[6..i]
      {
        reserves := reserves + [sorted[i]];
        i := i + 1;
      }
    }
    assert sorted == sorted[..6] + reserves;
    team := RemoveEach(sorted[..6], reserves);
  }

  lemma Cancel<T>(a: multiset<T>, b: multiset<T>, x: T)
    requires a + multiset{x} == b + multiset{x}
    ensures a == b
  {
    forall y | true ensures a[y] == b[y] {
      assert (a + multiset{x})[y] == (b + multiset{x})[y];
    }
  }

  /** Removes each of xs, in order, from a list that starts with head and goes on with xs. */
  method RemoveEach(head: seq<Player>, xs: seq<Player>) returns (team: seq<Player>)
    ensures |team| == |head| && multiset(team) == multiset(head)
    ensures (forall k :: 0 <= k < |xs| ==> xs[k] !in head) ==> team == head
  {
    team := head + xs;
    ghost var disjoint := forall k :: 0 <= k < |xs| ==> xs[k] !in head;
    var k := 0;
    while k < |xs|
      invariant 0 <= k <= |xs|
      invariant |team| == |head| + |xs| - k
      invariant multiset(team) == multiset(head) + multiset(xs[k..])
      invariant disjoint ==> team == head + xs[k..]
    {
      RemoveEachStep(head, xs, k, team, disjoint);
      team := RemoveFirst(team, xs[k]);
      k := k + 1;
    }
  }

  /** One round of RemoveEach: removing xs[k] keeps the loop's account of the list. */
  lemma RemoveEachStep(head: seq<Player>, xs: seq<Player>, k: nat, team: seq<Player>, disjoint: bool)
    requires k < |xs|
    requires multiset(team) == multiset(head) + multiset(xs[k..])
    requires disjoint ==> (forall j :: 0 <= j < |xs| ==> xs[j] !in head) && team == head + xs[k..]
    ensures xs[k] in team
    ensures multiset(RemoveFirst(team, xs[k])) == multiset(head) + multiset(xs[k + 1..])
    ensures disjoint ==> RemoveFirst(team, xs[k]) == head + xs[k + 1..]
  {
    RemoveEachCount(head, xs, k, team);
    if disjoint {
      RemoveEachOrder(head, xs, k);
    }
  }

  lemma RemoveEachCount(head: seq<Player>, xs: seq<Player>, k: nat, team: seq<Player>)
    requires k < |xs|
    requires multiset(team) == multiset(head) + multiset(xs[k..])
    ensures xs[k] in team
    ensures multiset(RemoveFirst(team, xs[k])) == multiset(head) + multiset(xs[k + 1..])
  {
    var x := xs[k];
    assert xs[k..] == [x] + xs[k + 1..];
    var others := multiset(head) + multiset(xs[k + 1..]);
    assert multiset(team) == others + multiset{x};
    assert x in multiset(team);
    var after := RemoveFirst(team, x);
    Cancel(multiset(after), others, x);
  }

  lemma RemoveEachOrder(head: seq<Player>, xs: seq<Player>, k: nat)
    requires k < |xs| && forall j :: 0 <= j < |xs| ==> xs[j] !in head
    ensures RemoveFirst(head + xs[k..], xs[k]) == head + xs[k + 1..]
  {
    var x := xs[k];
    assert head + xs[k..] == head + [x] + xs[k + 1..];
    RemoveFirstSkips(head, x, xs[k + 1..]);
  }

  lemma FromRoster(team: seq<Player>, reserves: seq<Player>, sorted: seq<Player>, roster: seq<Player>, p: Player)
    requires multiset(team) + multiset(reserves) == multiset(sorted) && multiset(sorted) == multiset(roster)
    requires p in team || p in reserves
    ensures p in roster
  {
    assert p in multiset(team) || p in multiset(reserves);
    assert p in multiset(roster);
  }


  // ---------------------------------------------------------------------------
  // The match

  /** Every set of the match started with neither team on three sets: the set before the
      last one, and so on back to the first. */
  ghost predicate StartedOpen(setWinners: seq<Side>)
    decreases |setWinners|
  {
    setWinners != [] ==>
      var init := setWinners[..|setWinners| - 1];
      Wins(init, One) < 3 && Wins(init, Two) < 3 && StartedOpen(init)
  }

  /** Read set by set: neither team had three sets before any set of the match. */
  lemma {:induction false} StartedOpenPrefixes(setWinners: seq<Side>)
    requires StartedOpen(setWinners)
    ensures forall k :: 0 <= k < |setWinners| ==> Wins(setWinners[..k], One) < 3 && Wins(setWinners[..k], Two) < 3
    decreases |setWinners|
  {
    if setWinners != [] {
      var n := |setWinners| - 1;
      StartedOpenPrefixes(setWinners[..n]);
      assert forall k :: 0 <= k < n ==> setWinners[..n][..k] == setWinners[..k];
    }
  }

  /** Sets that all started open leave each team on at most three, and a team on three won
      the last set. */
  lemma OpenTally(setWinners: seq<Side>)
    requires StartedOpen(setWinners)
    ensures Wins(setWinners, One) <= 3 && Wins(setWinners, Two) <= 3
    ensures Wins(setWinners, One) == 3 ==> setWinners[|setWinners| - 1] == One
    ensures Wins(setWinners, Two) == 3 ==> setWinners[|setWinners| - 1] == Two
  {
    if setWinners != [] {
      var init := setWinners[..|setWinners| - 1];
      assert setWinners == init + [setWinners[|setWinners| - 1]];
      WinsSnoc(init, setWinners[|setWinners| - 1]);
    }
  }

  /** How a match ended: the outcome, the draws left, the line-up and the stats after it,
      and who won each set, in order. */
  datatype MatchRun = MatchRun(outcome: MatchOutcome, rest: seq<nat>, lineup: Lineup, book: Book, setWinners: seq<Side>)

  /** The rest of a match from line-up l, with the stats in `book`, after the sets won by
      `setWinners`: won by the first team to three sets, and otherwise MatchNext. */
  function MatchFrom(l: Lineup, book: Book, setWinners: seq<Side>, draws: seq<nat>): (m: MatchRun)
    requires |l.one| == 6 && |l.two| == 6
    decreases 6 - |setWinners|, 1
  {
    var a, b := Wins(setWinners, One), Wins(setWinners, Two);
    if a >= 3 || b >= 3 then MatchRun(MatchWon(if a >= 3 then One else Two, a, b), draws, l, book, setWinners)
    else MatchNext(l, book, setWinners, draws)
  }

  /** The rest of a match in which neither team has three sets: the next set is SetFrom on
      the line-up sorted by start position, its winner is the next entry of setWinners, and
      the match goes on from the line-up and the stats the set leaves. A halted set halts
      the match. */
  function MatchNext(l: Lineup, book: Book, setWinners: seq<Side>, draws: seq<nat>): (m: MatchRun)
    requires |l.one| == 6 && |l.two| == 6
    requires Wins(setWinners, One) < 3 && Wins(setWinners, Two) < 3
    decreases 6 - |setWinners|, 0
  {
    var run := SetFrom(SortedTeams(l), book, [], draws);
    if run.outcome.SetHalted? then
      MatchRun(MatchHalted(run.outcome.fault, Wins(setWinners, One), Wins(setWinners, Two)), run.rest, run.lineup, run.book, setWinners)
    else
      WinsSplit(setWinners);
      MatchFrom(run.lineup, run.book, setWinners + [run.outcome.winner], run.rest)
  }

  /** MatchFrom once a team has three sets: the match is won by that team. */
  lemma MatchFromOver(l: Lineup, book: Book, setWinners: seq<Side>, draws: seq<nat>)
    requires |l.one| == 6 && |l.two| == 6
    requires Wins(setWinners, One) >= 3 || Wins(setWinners, Two) >= 3
    ensures var a, b := Wins(setWinners, One), Wins(setWinners, Two);
      MatchFrom(l, book, setWinners, draws) == MatchRun(MatchWon(if a >= 3 then One else Two, a, b), draws, l, book, setWinners)
  {
  }

  /** MatchFrom with both teams under three sets and a set that halts: the match halts. */
  lemma MatchFromHalt(l: Lineup, book: Book, setWinners: seq<Side>, draws: seq<nat>)
    requires |l.one| == 6 && |l.two| == 6
    requires Wins(setWinners, One) < 3 && Wins(setWinners, Two) < 3
    requires SetFrom(SortedTeams(l), book, [], draws).outcome.SetHalted?
    ensures var run := SetFrom(SortedTeams(l), book, [], draws);
      MatchFrom(l, book, setWinners, draws)
        == MatchRun(MatchHalted(run.outcome.fault, Wins(setWinners, One), Wins(setWinners, Two)), run.rest, run.lineup, run.book, setWinners)
  {
    assert MatchFrom(l, book, setWinners, draws) == MatchNext(l, book, setWinners, draws);
  }

  /** MatchFrom with both teams under three sets and a set that is won: the match goes on
      from what the set leaves. */
  lemma MatchFromSet(l: Lineup, book: Book, setWinners: seq<Side>, draws: seq<nat>)
    requires |l.one| == 6 && |l.two| == 6
    requires Wins(setWinners, One) < 3 && Wins(setWinners, Two) < 3
    requires SetFrom(SortedTeams(l), book, [], draws).outcome.SetWon?
    ensures var run := SetFrom(SortedTeams(l), book, [], draws);
      MatchFrom(l, book, setWinners, draws)
        == MatchFrom(run.lineup, run.book, setWinners + [run.outcome.winner], run.rest)
  {
    assert MatchFrom(l, book, setWinners, draws) == MatchNext(l, book, setWinners, draws);
  }

  /** How a match ended, read off its sets: the set counts are the tallies of the set
      winners, at most three each and five in all; a won match went to the team that won
      the last set and reached three, the other staying under; a halted match stopped with
      both under three. */
  ghost predicate MatchEnds(m: MatchRun) {
    m.outcome.setsOne == Wins(m.setWinners, One) && m.outcome.setsTwo == Wins(m.setWinners, Two)
    && m.outcome.setsOne + m.outcome.setsTwo == |m.setWinners| <= 5
    && (m.outcome.MatchWon? ==>
          |m.setWinners| > 0 && m.setWinners[|m.setWinners| - 1] == m.outcome.winner
          && if m.outcome.winner == One then m.outcome.setsOne == 3 && m.outcome.setsTwo < 3
             else m.outcome.setsTwo == 3 && m.outcome.setsOne < 3)
    && (m.outcome.MatchHalted? ==> m.outcome.setsOne < 3 && m.outcome.setsTwo < 3)
  }

  /** What the rest of a match leaves on record after the sets `setWinners`: those sets are
      followed by the match's own, each started with neither team on three; the match ends
      as MatchEnds says; one that ran out of draws used them all; and every won set used at
      least 25 draws. */
  ghost predicate MatchRecord(setWinners: seq<Side>, draws: seq<nat>, m: MatchRun) {
    setWinners <= m.setWinners && StartedOpen(m.setWinners)
    && MatchEnds(m)
    && (m.outcome.MatchHalted? && m.outcome.fault == OutOfDraws ==> m.rest == [])
    && 25 * (|m.setWinners| - |setWinners|) <= |draws| - |m.rest|
  }

  /** A record for the match after one more set, played on at least 25 draws, is a record
      for the match before it. */
  lemma MatchRecordBack(setWinners: seq<Side>, w: Side, draws: seq<nat>, rest: seq<nat>, m: MatchRun)
    requires MatchRecord(setWinners + [w], rest, m) && |draws| - |rest| >= 25
    ensures MatchRecord(setWinners, draws, m)
  {
    assert setWinners <= setWinners + [w];
  }

  /** The record of a match in which a team has three sets. */
  lemma MatchRecordOver(l: Lineup, book: Book, setWinners: seq<Side>, draws: seq<nat>)
    requires |l.one| == 6 && |l.two| == 6 && StartedOpen(setWinners)
    requires Wins(setWinners, One) >= 3 || Wins(setWinners, Two) >= 3
    ensures MatchRecord(setWinners, draws, MatchFrom(l, book, setWinners, draws))
  {
    OpenTally(setWinners);
    WinsSplit(setWinners);
    MatchFromOver(l, book, setWinners, draws);
  }

  /** The record of a match whose next set halts. */
  lemma MatchRecordHalt(l: Lineup, book: Book, setWinners: seq<Side>, draws: seq<nat>)
    requires |l.one| == 6 && |l.two| == 6 && StartedOpen(setWinners)
    requires Wins(setWinners, One) < 3 && Wins(setWinners, Two) < 3
    requires SetFrom(SortedTeams(l), book, [], draws).outcome.SetHalted?
    ensures MatchRecord(setWinners, draws, MatchFrom(l, book, setWinners, draws))
  {
    var sorted := SortedTeams(l);
    SetFromRecord(sorted, sorted, book, [], draws);
    WinsSplit(setWinners);
    MatchFromHalt(l, book, setWinners, draws);
  }

  /** Adding a set won from neither team on three keeps every set started open. */
  lemma StartedOpenSnoc(setWinners: seq<Side>, w: Side)
    requires StartedOpen(setWinners)
    requires Wins(setWinners, One) < 3 && Wins(setWinners, Two) < 3
    ensures StartedOpen(setWinners + [w])
  {
    assert (setWinners + [w])[..|setWinners|] == setWinners;
  }

  /** What a match leaves on record, from any point of it on: see MatchRecord. */
  lemma {:induction false} MatchFromRecord(l: Lineup, book: Book, setWinners: seq<Side>, draws: seq<nat>)
    requires |l.one| == 6 && |l.two| == 6 && StartedOpen(setWinners)
    ensures MatchRecord(setWinners, draws, MatchFrom(l, book, setWinners, draws))
    decreases 6 - |setWinners|
  {
    var a, b := Wins(setWinners, One), Wins(setWinners, Two);
    if a >= 3 || b >= 3 {
      MatchRecordOver(l, book, setWinners, draws);
    } else {
      var sorted := SortedTeams(l);
      var run := SetFrom(sorted, book, [], draws);
      if run.outcome.SetHalted? {
        MatchRecordHalt(l, book, setWinners, draws);
      } else {
        var w := run.outcome.winner;
        WonSetLength(sorted, book, draws);
        WinsSplit(setWinners);
        StartedOpenSnoc(setWinners, w);
        MatchFromSet(l, book, setWinners, draws);
        MatchFromRecord(run.lineup, run.book, setWinners + [w], run.rest);
        MatchRecordBack(setWinners, w, draws, run.rest, MatchFrom(run.lineup, run.book, setWinners + [w], run.rest));
      }
    }
  }

  /** Everybody on the two rosters. */
  function Squad(rosterOne: seq<Player>, rosterTwo: seq<Player>): set<Player> {
    set p | p in rosterOne + rosterTwo
  }

  /** A roster player ends up on the team or among the reserves. */
  lemma ToRoster(team: seq<Player>, reserves: seq<Player>, sorted: seq<Player>, roster: seq<Player>, p: Player)
    requires multiset(team) + multiset(reserves) == multiset(sorted) && multiset(sorted) == multiset(roster)
    requires p in roster
    ensures p in team || p in reserves
  {
    assert p in multiset(roster);
    assert p in multiset(team) || p in multiset(reserves);
  }

  /** The line-up a match starts from: six a side, each roster's reserves are the players
      past its first six in start-position order, every roster player is a starter or a
      reserve of their own team, and when no two players of a roster are the same the
      starters are its first six in start-position order. */
  ghost predicate Starting(l: Lineup, rosterOne: seq<Player>, rosterTwo: seq<Player>)
    requires |rosterOne| >= 6 && |rosterTwo| >= 6
  {
    |l.one| == 6 && |l.two| == 6
    && l.reservesOne == SortByStart(rosterOne)[6..] && l.reservesTwo == SortByStart(rosterTwo)[6..]
    && multiset(l.one) + multiset(l.reservesOne) == multiset(rosterOne)
    && multiset(l.two) + multiset(l.reservesTwo) == multiset(rosterTwo)
    && (Distinct(SortByStart(rosterOne)) ==> l.one == SortByStart(rosterOne)[..6])
    && (Distinct(SortByStart(rosterTwo)) ==> l.two == SortByStart(rosterTwo)[..6])
  }

  /** The set-up in match(): sort both rosters by start position and split off the
      reserves, onto a new court whose squad is everybody on the two rosters. No player's
      stats change, so `book` still holds them. */
  method SetUp(rosterOne: seq<Player>, rosterTwo: seq<Player>, ghost book: Book) returns (court: Court)
    requires |rosterOne| >= 6 && |rosterTwo| >= 6
    requires Agrees(book, Squad(rosterOne, rosterTwo))
    ensures fresh(court) && court.Valid() && court.squad == Squad(rosterOne, rosterTwo)
    ensures Starting(court.State(), rosterOne, rosterTwo)
    ensures Agrees(book, court.squad)
  {
    ghost var squad := Squad(rosterOne, rosterTwo);
    var sortedOne := SortByStart(rosterOne);
    var sortedTwo := SortByStart(rosterTwo);
    var teamOne, reservesOne := SplitRoster(sortedOne);
    var teamTwo, reservesTwo := SplitRoster(sortedTwo);
    court := new Court(teamOne, teamTwo, reservesOne, reservesTwo);
    forall p | p in court.squad ensures p in squad {
      if p in teamOne || p in reservesOne {
        FromRoster(teamOne, reservesOne, sortedOne, rosterOne, p);
      } else {
        FromRoster(teamTwo, reservesTwo, sortedTwo, rosterTwo, p);
      }
    }
    forall p | p in squad ensures p in court.squad {
      if p in rosterOne {
        ToRoster(teamOne, reservesOne, sortedOne, rosterOne, p);
      } else {
        ToRoster(teamTwo, reservesTwo, sortedTwo, rosterTwo, p);
      }
    }
  }

  /** match(): set up the court, then play sets until a team has won three. The match is
      the one MatchFrom plays from the starting line-up and the players' stats before it,
      and the players are left with the stats it predicts. */
  method Match(rosterOne: seq<Player>, rosterTwo: seq<Player>, draws: seq<nat>)
    returns (outcome: MatchOutcome, rest: seq<nat>, ghost start: Lineup)
    requires |rosterOne| >= 6 && |rosterTwo| >= 6
    modifies Squad(rosterOne, rosterTwo)
    ensures Starting(start, rosterOne, rosterTwo)
    ensures var m := MatchFrom(start, old(Ledger(Squad(rosterOne, rosterTwo))), [], draws);
      outcome == m.outcome && rest == m.rest && Agrees(m.book, Squad(rosterOne, rosterTwo))
  {
    ghost var book := Ledger(Squad(rosterOne, rosterTwo));
    var court := SetUp(rosterOne, rosterTwo, book);
    start := court.State();
    ghost var target := MatchFrom(start, book, [], draws);
    outcome, rest := court.PlaySets(draws, book, target);
  }
}
