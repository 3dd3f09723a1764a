/** One rally, from the serve to the point, as a state machine. Each phase is one of the
    source's mutually recursive functions with its arguments; a step method performs that
    function's skill check and returns the phase its tail call would enter.

    Randomness comes from a finite stream of draws: a d20 roll takes the head x of the
    stream as x % 20 + 1, a random choice from a candidate list xs takes xs[x % |xs|].
    A step that cannot get every draw it would make does not start; the rally then halts
    with OutOfDraws. */
module Rally {
  import opened Builtins
  import opened Players
  import opened Lineups

  datatype Side = One | Two

  function Other(s: Side): Side {
    if s == One then Two else One
  }

  function TeamOf(one: seq<Player>, two: seq<Player>, s: Side): seq<Player> {
    if s == One then one else two
  }

  /** Why a rally stopped without a point. */
  datatype Fault =
    | OutOfDraws  // the draw stream ran dry
    | NoSetter    // the setter candidates were empty: random.choice raises IndexError
    | NoSpiker    // the spike pool was empty: random.choice raises IndexError

  /** Where a rally is: the function about to run with the arguments it was called with,
      or the end. `side` is the team the function treats as its own. */
  datatype Phase =
    | Serve(side: Side)
    | Receive(side: Side, target: Player, difficulty: int)
    | Set(side: Side, receiver: Player)
    | Block(side: Side, setScore: int, spiker: Player)
    | Spike(side: Side, blockScore: Rating, spiker: Player, blocker: Player)
    | Point(winner: Side)
    | Halted(fault: Fault)

  predicate Terminal(ph: Phase) {
    ph.Point? || ph.Halted?
  }

  // ---------------------------------------------------------------------------
  // Draws

  function Roll(x: nat): (d: int)
    ensures 1 <= d <= 20
  {
    x % 20 + 1
  }

  function Choice<T>(xs: seq<T>, x: nat): (r: T)
    requires |xs| > 0
    ensures r in xs
  {
    xs[x % |xs|]
  }

  /** `rest` is what remains of `draws` once some of its head has been consumed. */
  ghost predicate Suffix(rest: seq<nat>, draws: seq<nat>) {
    |rest| <= |draws| && rest == draws[|draws| - |rest|..]
  }

  /** Consuming draws twice consumes a head of the original stream. */
  lemma SuffixChain(draws: seq<nat>, middle: seq<nat>, rest: seq<nat>)
    requires Suffix(middle, draws) && Suffix(rest, middle)
    ensures Suffix(rest, draws)
  {
    var k := |draws| - |middle|;
    assert rest == middle[|middle| - |rest|..];
    assert draws[|draws| - |rest|..] == draws[k..][|middle| - |rest|..];
  }

  /** A step's use of the stream: it takes draws from the front, and only a halted step
      may take none. */
  ghost predicate Progress(draws: seq<nat>, rest: seq<nat>, next: Phase) {
    Suffix(rest, draws) && (!next.Halted? ==> |rest| < |draws|)
  }

  /** A step's use of the stream, and one that runs out of draws leaves none. */
  ghost predicate Fair(draws: seq<nat>, rest: seq<nat>, next: Phase) {
    Progress(draws, rest, next) && (next == Halted(OutOfDraws) ==> rest == [])
  }

  // ---------------------------------------------------------------------------
  // Candidate lists

  predicate IsServeTarget(p: Player) {
    p.position == "MB" || p.position == "WS" || p.position == "O"
  }

  /** The players of team who play the given position, in team order. */
  function OfPosition(team: seq<Player>, pos: string): (r: seq<Player>)
    ensures forall i :: 0 <= i < |r| ==> r[i] in team && r[i].position == pos
    ensures forall i :: 0 <= i < |team| && team[i].position == pos ==> team[i] in r
  {
    if team == [] then []
    else (if team[0].position == pos then [team[0]] else []) + OfPosition(team[1..], pos)
  }

  /** The players of team other than p, in team order. */
  function Without(team: seq<Player>, p: Player): (r: seq<Player>)
    ensures forall i :: 0 <= i < |r| ==> r[i] in team && r[i] != p
    ensures forall i :: 0 <= i < |team| && team[i] != p ==> team[i] in r
  {
    if team == [] then []
    else (if team[0] != p then [team[0]] else []) + Without(team[1..], p)
  }

  /** The setter candidates: the team's 'S' players, unless the receiver is an 'S', in which
      case every teammate but the receiver. */
  function SetterChoices(team: seq<Player>, receiver: Player): (r: seq<Player>)
    ensures receiver.position != "S" ==>
      (forall i :: 0 <= i < |r| ==> r[i] in team && r[i].position == "S")
      && (forall i :: 0 <= i < |team| && team[i].position == "S" ==> team[i] in r)
    ensures receiver.position == "S" ==>
      (forall i :: 0 <= i < |r| ==> r[i] in team && r[i] != receiver)
      && (forall i :: 0 <= i < |team| && team[i] != receiver ==> team[i] in r)
  {
    if receiver.position != "S" then OfPosition(team, "S") else Without(team, receiver)
  }

  /** The setter random.choice lands on: an 'S' when the receiver is not one, otherwise
      any teammate but the receiver. */
  lemma ChosenSetter(team: seq<Player>, receiver: Player, x: nat)
    requires |SetterChoices(team, receiver)| > 0
    ensures var setter := Choice(SetterChoices(team, receiver), x);
      setter in team
      && (receiver.position != "S" ==> setter.position == "S")
      && (receiver.position == "S" ==> setter != receiver)
  {
    var setters := SetterChoices(team, receiver);
    assert setters[x % |setters|] == Choice(setters, x);
  }

  // ---------------------------------------------------------------------------
  // Stats books

  /** The stats of the players at one moment, keyed by player. */
  type Book = map<Player, Stats>

  /** A player's stats as the book lists them; every player a rally names is listed in the
      books the methods below keep. */
  function StatsIn(book: Book, p: Player): Stats {
    if p in book then book[p] else Stats(0.0, 0.0, 0.0, 0.0, 0.0)
  }

  /** The book once p has used skill k. */
  function Use(book: Book, p: Player, k: Skill): Book {
    book[p := Worn(p, StatsIn(book, p), k)]
  }

  /** The book lists exactly the players ps, with the stats they have now. */
  ghost predicate Agrees(book: Book, ps: set<Player>)
    reads ps
  {
    book.Keys == ps && forall p :: p in ps ==> book[p] == StatsOf(p)
  }

  /** The players ps as they stand. */
  ghost function Ledger(ps: set<Player>): (book: Book)
    reads ps
    ensures Agrees(book, ps)
  {
    map p | p in ps :: StatsOf(p)
  }

  /** Both teams are drawn from ps, and the book is in step with ps. */
  ghost predicate Tracks(book: Book, ps: set<Player>, one: seq<Player>, two: seq<Player>)
    reads ps
  {
    (forall p :: p in one ==> p in ps) && (forall p :: p in two ==> p in ps) && Agrees(book, ps)
  }

  /** The book gives every player of the team the stats they have now. */
  ghost predicate Current(book: Book, team: seq<Player>)
    reads team
  {
    forall p :: p in team ==> StatsIn(book, p) == StatsOf(p)
  }

  // ---------------------------------------------------------------------------
  // The spike pool

  /** How many spike-pool entries a player with these stats gets before front-row doubling;
      range() of a non-positive count is empty. */
  function WeightOf(st: Stats): int {
    Round(st.jumping + st.power + st.sense)
  }

  function Weight(p: Player): int
    reads p
  {
    WeightOf(StatsOf(p))
  }

  /** A teammate of weight w who gets spike-pool entries: not the setter, not a libero, and
      w positive. */
  predicate Gets(p: Player, setter: Player, w: int) {
    p != setter && p.position != "L" && w > 0
  }

  /** The number of entries the slot at `index` earns an occupant of weight w: w, doubled in
      slots 1 to 3, or none. */
  function SlotWeight(p: Player, index: nat, setter: Player, w: int): nat {
    if Gets(p, setter, w) then (if 1 <= index <= 3 then 2 * w else w) else 0
  }

  /** The number of entries each slot earns its occupant, slot by slot, for the stats in the
      book. */
  function SlotCounts(team: seq<Player>, setter: Player, book: Book): (cs: seq<nat>)
    ensures |cs| == |team|
    ensures forall k :: 0 <= k < |team| ==> cs[k] == SlotWeight(team[k], k, setter, WeightOf(StatsIn(book, team[k])))
  {
    if team == [] then []
    else
      var n := |team| - 1;
      SlotCounts(team[..n], setter, book) + [SlotWeight(team[n], n, setter, WeightOf(StatsIn(book, team[n])))]
  }

  /** The entries of the first n slots, in slot order: each slot's occupant as many times as
      the slot's count. */
  function Stack(team: seq<Player>, counts: seq<nat>, n: nat): seq<Player>
    requires n <= |team| == |counts|
  {
    if n == 0 then [] else Stack(team, counts, n - 1) + Repeat(team[n - 1], counts[n - 1])
  }

  /** The list random.choice picks the spiker from, for the stats in the book. */
  function SpikePool(team: seq<Player>, setter: Player, book: Book): seq<Player> {
    Stack(team, SlotCounts(team, setter, book), |team|)
  }

  lemma {:induction false} StackMembers(team: seq<Player>, counts: seq<nat>, n: nat, p: Player)
    requires n <= |team| == |counts|
    ensures p in Stack(team, counts, n) <==> exists k :: 0 <= k < n && team[k] == p && counts[k] > 0
  {
    if n > 0 {
      StackMembers(team, counts, n - 1, p);
      var r := Repeat(team[n - 1], counts[n - 1]);
      if counts[n - 1] > 0 {
        assert r[0] == team[n - 1];
      }
    }
  }

  /** The spike pool holds exactly the players other than the setter and the liberos whose
      weight is positive. */
  lemma SpikePoolMembers(team: seq<Player>, setter: Player, book: Book, p: Player)
    ensures p in SpikePool(team, setter, book) <==> p in team && p != setter && p.position != "L" && WeightOf(StatsIn(book, p)) > 0
  {
    var cs := SlotCounts(team, setter, book);
    StackMembers(team, cs, |team|, p);
    if p in team {
      var k :| 0 <= k < |team| && team[k] == p;
      assert cs[k] == SlotWeight(p, k, setter, WeightOf(StatsIn(book, p)));
    }
  }

  lemma {:induction false} MultisetRepeat(p: Player, m: nat, q: Player)
    ensures multiset(Repeat<Player>(p, m))[q] == if p == q then m else 0
  {
    if m > 0 {
      assert Repeat<Player>(p, m) == [p] + Repeat<Player>(p, m - 1);
      MultisetRepeat(p, m - 1, q);
    }
  }

  predicate Distinct(team: seq<Player>) {
    forall i, j :: 0 <= i < j < |team| ==> team[i] != team[j]
  }

  /** No slot below n other than slot i holds the player of slot i. */
  predicate AloneBelow(team: seq<Player>, n: nat, i: nat)
    requires n <= |team| && i < |team|
  {
    forall j :: 0 <= j < n && j != i ==> team[j] != team[i]
  }

  /** What the first n slots earn player p: the sum of the counts of the slots holding p. */
  function Share(team: seq<Player>, counts: seq<nat>, n: nat, p: Player): nat
    requires n <= |team| == |counts|
  {
    if n == 0 then 0 else Share(team, counts, n - 1, p) + (if team[n - 1] == p then counts[n - 1] else 0)
  }

  /** Slot n - 1 adds its count to its own occupant's entries and nothing to anyone else's. */
  lemma StackStep(team: seq<Player>, counts: seq<nat>, n: nat, p: Player)
    requires 0 < n <= |team| == |counts|
    ensures multiset(Stack(team, counts, n))[p]
         == multiset(Stack(team, counts, n - 1))[p] + (if team[n - 1] == p then counts[n - 1] else 0)
  {
    var before := Stack(team, counts, n - 1);
    var e := Repeat(team[n - 1], counts[n - 1]);
    assert multiset(before + e) == multiset(before) + multiset(e);
    MultisetRepeat(team[n - 1], counts[n - 1], p);
  }

  lemma {:induction false} StackShare(team: seq<Player>, counts: seq<nat>, n: nat, p: Player)
    requires n <= |team| == |counts|
    ensures multiset(Stack(team, counts, n))[p] == Share(team, counts, n, p)
  {
    if n > 0 {
      StackShare(team, counts, n - 1, p);
      StackStep(team, counts, n, p);
    }
  }

  /** A player alone in slot i among the first n slots earns just that slot's count. */
  lemma {:induction false} ShareAlone(team: seq<Player>, counts: seq<nat>, n: nat, i: nat)
    requires n <= |team| == |counts| && i < |team| && AloneBelow(team, n, i)
    ensures Share(team, counts, n, team[i]) == if i < n then counts[i] else 0
  {
    if n > 0 {
      assert AloneBelow(team, n - 1, i);
      ShareAlone(team, counts, n - 1, i);
    }
  }

  /** Every player has in the spike pool the entries of every slot that holds them, even
      when substitution has put them in several slots. */
  lemma SpikePoolCount(team: seq<Player>, setter: Player, book: Book, p: Player)
    ensures multiset(SpikePool(team, setter, book))[p] == Share(team, SlotCounts(team, setter, book), |team|, p)
  {
    StackShare(team, SlotCounts(team, setter, book), |team|, p);
  }

  /** In a line-up of distinct players, an eligible player has Weight entries in the spike
      pool, twice that in slots 1 to 3, and an ineligible one none. */
  lemma SpikePoolCountDistinct(team: seq<Player>, setter: Player, book: Book, i: nat)
    requires i < |team| && Distinct(team)
    ensures var p := team[i];
      multiset(SpikePool(team, setter, book))[p] ==
        var w := WeightOf(StatsIn(book, p));
        if p == setter || p.position == "L" || w <= 0 then 0 else if 1 <= i <= 3 then 2 * w else w
  {
    assert AloneBelow(team, |team|, i);
    SpikePoolCount(team, setter, book, team[i]);
    ShareAlone(team, SlotCounts(team, setter, book), |team|, i);
  }

  /** Builds the spike pool as the source does: for every teammate other than the setter
      and the liberos, one entry per unit of rounded jumping + power + sense, each entry
      doubled for slots 1 to 3. */
  method BuildSpikePool(team: seq<Player>, setter: Player, ghost book: Book) returns (pool: seq<Player>)
    requires Current(book, team)
    ensures pool == SpikePool(team, setter, book)
  {
    pool := [];
    var index := 0;
    while index < |team|
      invariant 0 <= index <= |team|
      invariant pool == Stack(team, SlotCounts(team, setter, book), index)
    {
      pool := AppendSlot(team, setter, index, pool, book);
      index := index + 1;
    }
  }

  /** The body of the outer loop: the pool so far grows by the entries of slot `index`. */
  method AppendSlot(team: seq<Player>, setter: Player, index: nat, pool: seq<Player>, ghost book: Book)
    returns (grown: seq<Player>)
    requires index < |team| && Current(book, team)
    requires pool == Stack(team, SlotCounts(team, setter, book), index)
    ensures grown == Stack(team, SlotCounts(team, setter, book), index + 1)
  {
    var entries := SlotEntries(team[index], index, setter);
    grown := pool + entries;
  }

  /** One round of the outer loop: the slot's entries, or none for the setter and liberos. */
  method SlotEntries(player: Player, index: nat, setter: Player) returns (entries: seq<Player>)
    ensures entries == Repeat(player, SlotWeight(player, index, setter, Weight(player)))
  {
    entries := [];
    if player != setter && player.position != "L" {
      var w := Weight(player);
      var front := 1 <= index <= 3;
      entries := AddEntries(player, w, front);
    }
  }

  /** The inner loop of the pool: w rounds, each adding the player once, or twice when
      `front`. */
  method AddEntries(player: Player, w: int, front: bool) returns (entries: seq<Player>)
    ensures entries == if w > 0 then Repeat(player, if front then 2 * w else w) else []
  {
    entries := [];
    var i := 0;
    while i < w
      invariant 0 <= i <= if w > 0 then w else 0
      invariant entries == Repeat(player, if front then 2 * i else i)
    {
      RepeatSnoc(player, if front then 2 * i else i);
      entries := entries + [player];
      if front {
        RepeatSnoc(player, 2 * i + 1);
        entries := entries + [player];
      }
      i := i + 1;
    }
  }

  // ---------------------------------------------------------------------------
  // Transitions

  /** The phase b may follow the phase a: who may act next and on which team. */
  ghost predicate Follows(one: seq<Player>, two: seq<Player>, a: Phase, b: Phase) {
    match a
    case Serve(s) =>
      b == Halted(OutOfDraws) || b == Point(Other(s))
      || (b.Receive? && b.side == Other(s) && b.target in TeamOf(one, two, Other(s)) && IsServeTarget(b.target))
    case Receive(s, t, _) =>
      b == Halted(OutOfDraws) || b == Point(Other(s)) || b == Set(s, t)
    case Set(s, r) =>
      b.Halted?
      || (b.Block? && b.side == Other(s) && b.spiker in TeamOf(one, two, s) && b.spiker.position != "L")
    case Block(s, _, spiker) =>
      b == Halted(OutOfDraws)
      || (b.Spike? && b.side == Other(s) && b.spiker == spiker && b.blocker in FrontRow(TeamOf(one, two, s)))
    case Spike(s, blockScore, _, _) =>
      b == Halted(OutOfDraws)
      || (b.Receive? && b.side == s && b.target in BackRow(TeamOf(one, two, s))
          && Truthy(blockScore) && b.difficulty == blockScore.value)
      || (b.Receive? && b.side == Other(s) && b.target in BackRow(TeamOf(one, two, Other(s))))
    case _ => false
  }

  /** Every player a phase names plays for the team the phase says. */
  ghost predicate OnCourt(one: seq<Player>, two: seq<Player>, ph: Phase) {
    match ph
    case Receive(s, t, _) => t in TeamOf(one, two, s)
    case Set(s, r) => r in TeamOf(one, two, s)
    case Block(s, _, spiker) => spiker in TeamOf(one, two, Other(s))
    case Spike(s, _, spiker, blocker) => spiker in TeamOf(one, two, s) && blocker in TeamOf(one, two, Other(s))
    case _ => true
  }

  lemma FollowsStaysOnCourt(one: seq<Player>, two: seq<Player>, a: Phase, b: Phase)
    requires OnCourt(one, two, a) && Follows(one, two, a, b)
    ensures OnCourt(one, two, b)
  {
  }

  ghost predicate Chain(one: seq<Player>, two: seq<Player>, trace: seq<Phase>) {
    forall i :: 0 <= i < |trace| - 1 ==> Follows(one, two, trace[i], trace[i + 1])
  }

  /** A phase that may follow the last one extends the chain. */
  lemma ChainSnoc(one: seq<Player>, two: seq<Player>, trace: seq<Phase>, next: Phase)
    requires Chain(one, two, trace) && |trace| >= 1 && Follows(one, two, trace[|trace| - 1], next)
    ensures Chain(one, two, trace + [next])
  {
    var t := trace + [next];
    forall i | 0 <= i < |t| - 1 ensures Follows(one, two, t[i], t[i + 1]) {
      if i < |trace| - 1 {
        assert t[i] == trace[i] && t[i + 1] == trace[i + 1];
      }
    }
  }

  /** A point only ever follows the losing side's serve or receive phase. */
  lemma PointFollowsAFailure(one: seq<Player>, two: seq<Player>, trace: seq<Phase>)
    requires Chain(one, two, trace) && |trace| >= 2 && trace[|trace| - 1].Point?
    ensures var w := trace[|trace| - 1].winner;
      trace[|trace| - 2] == Serve(Other(w)) || (trace[|trace| - 2].Receive? && trace[|trace| - 2].side == Other(w))
  {
    assert Follows(one, two, trace[|trace| - 2], trace[|trace| - 1]);
  }

  // ---------------------------------------------------------------------------
  // The rally on a book of stats

  /** A step's result: the phase entered, the draws left, and the stats after. */
  datatype Turn = Turn(next: Phase, rest: seq<nat>, book: Book)

  /** The index of the first draw at or after k that picks an MB, WS or O from the
      opponents, or the end of the stream if none does. */
  function TargetFrom(opponent: seq<Player>, draws: seq<nat>, k: nat): (r: nat)
    requires |opponent| > 0 && k <= |draws|
    ensures k <= r <= |draws|
    ensures forall j :: k <= j < r ==> !IsServeTarget(Choice(opponent, draws[j]))
    ensures r < |draws| ==> IsServeTarget(Choice(opponent, draws[r]))
    decreases |draws| - k
  {
    if k == |draws| || IsServeTarget(Choice(opponent, draws[k])) then k else TargetFrom(opponent, draws, k + 1)
  }

  /** The index of the draw that settles the serve target: the first draw whose pick from
      the opponents lands on an MB, WS or O. */
  ghost predicate FirstTargetAt(opponent: seq<Player>, draws: seq<nat>, k: nat)
    requires |opponent| > 0
  {
    k < |draws| && IsServeTarget(Choice(opponent, draws[k]))
    && forall j :: 0 <= j < k ==> !IsServeTarget(Choice(opponent, draws[j]))
  }

  /** serve(): slot 0 serves at the first target the draws pick with the next draw as the
      roll; a miss gives the opponents the point, otherwise they receive at serve rating
      - 5. */
  function ServeOn(one: seq<Player>, two: seq<Player>, side: Side, book: Book, draws: seq<nat>): (t: Turn)
    requires |one| >= 6 && |two| >= 6
    ensures Fair(draws, t.rest, t.next)
  {
    var server := TeamOf(one, two, side)[0];
    var opponent := TeamOf(one, two, Other(side));
    var k := TargetFrom(opponent, draws, 0);
    if k + 1 >= |draws| then Turn(Halted(OutOfDraws), [], book)
    else
      var st := StatsIn(book, server);
      var r := ServeRating(Roll(draws[k + 1]), st.power, st.technique);
      Turn(if r.Score? then Receive(Other(side), Choice(opponent, draws[k]), r.value - 5) else Point(Other(side)),
           draws[k + 2..], Use(book, server, Serves))
  }

  /** receive(): the target receives; a miss gives the other team the point, otherwise the
      same team sets. */
  function ReceiveOn(side: Side, target: Player, difficulty: int, book: Book, draws: seq<nat>): (t: Turn)
    ensures Fair(draws, t.rest, t.next)
  {
    if |draws| == 0 then Turn(Halted(OutOfDraws), [], book)
    else
      var st := StatsIn(book, target);
      Turn(if ReceiveHolds(Roll(draws[0]), st.speed, st.sense, difficulty) then Set(side, target) else Point(Other(side)),
           draws[1..], Use(book, target, Receives(difficulty)))
  }

  /** set(): pick a setter, build the spike pool without the setter, set, and pick the
      spiker from the pool; the other team blocks next. */
  function SetOn(one: seq<Player>, two: seq<Player>, side: Side, receiver: Player, book: Book, draws: seq<nat>): (t: Turn)
    ensures Fair(draws, t.rest, t.next)
  {
    var team := TeamOf(one, two, side);
    var setters := SetterChoices(team, receiver);
    if |setters| == 0 then Turn(Halted(NoSetter), draws, book)
    else if |draws| < 2 then Turn(Halted(OutOfDraws), [], book)
    else
      var setter := Choice(setters, draws[0]);
      var pool := SpikePool(team, setter, book);
      if |pool| > 0 && |draws| < 3 then Turn(Halted(OutOfDraws), [], book)
      else
        var st := StatsIn(book, setter);
        var rating := SetRating(Roll(draws[1]), st.technique, st.sense);
        if |pool| == 0 then Turn(Halted(NoSpiker), draws[2..], Use(book, setter, Sets))
        else Turn(Block(Other(side), rating, Choice(pool, draws[2])), draws[3..], Use(book, setter, Sets))
  }

  /** block(): a blocker picked from slots 1 to 3 blocks the set; the other team spikes. */
  function BlockOn(one: seq<Player>, two: seq<Player>, side: Side, setScore: int, spiker: Player, book: Book, draws: seq<nat>): (t: Turn)
    requires |one| >= 6 && |two| >= 6
    ensures Fair(draws, t.rest, t.next)
  {
    if |draws| < 2 then Turn(Halted(OutOfDraws), [], book)
    else
      var blocker := Choice(FrontRow(TeamOf(one, two, side)), draws[0]);
      var st := StatsIn(book, blocker);
      Turn(Spike(Other(side), BlockRating(Roll(draws[1]), st.jumping, st.speed, setScore), spiker, blocker),
           draws[2..], Use(book, blocker, Blocks(setScore)))
  }

  /** spike(): the spiker attacks; a truthy block rating above the spike rating stuffs it and
      the attacking team receives the block from its back row, otherwise the defending
      team receives the spike from its back row. */
  function SpikeOn(one: seq<Player>, two: seq<Player>, side: Side, blockScore: Rating, spiker: Player, book: Book, draws: seq<nat>): (t: Turn)
    requires |one| >= 6 && |two| >= 6
    ensures Fair(draws, t.rest, t.next)
  {
    if |draws| < 2 then Turn(Halted(OutOfDraws), [], book)
    else
      var st := StatsIn(book, spiker);
      var blocked := Truthy(blockScore);
      var score := SpikeRating(Roll(draws[0]), blocked, st.power, st.jumping, st.sense);
      Turn(if blocked && blockScore.value > score
           then Receive(side, Choice(BackRow(TeamOf(one, two, side)), draws[1]), blockScore.value)
           else Receive(Other(side), Choice(BackRow(TeamOf(one, two, Other(side))), draws[1]), score),
           draws[2..], Use(book, spiker, Spikes(blocked)))
  }

  /** One tail call: runs the function the phase names. Every step takes draws from the
      front of the stream, only a halt may take none, and a step that runs out of draws
      leaves none. */
  function StepOn(one: seq<Player>, two: seq<Player>, book: Book, phase: Phase, draws: seq<nat>): (t: Turn)
    requires |one| >= 6 && |two| >= 6 && !Terminal(phase)
    ensures Fair(draws, t.rest, t.next)
  {
    match phase
    case Serve(s) => ServeOn(one, two, s, book, draws)
    case Receive(s, target, difficulty) => ReceiveOn(s, target, difficulty, book, draws)
    case Set(s, receiver) => SetOn(one, two, s, receiver, book, draws)
    case Block(s, setScore, spiker) => BlockOn(one, two, s, setScore, spiker, book, draws)
    case Spike(s, blockScore, spiker, _) => SpikeOn(one, two, s, blockScore, spiker, book, draws)
  }

  /** The rally from `phase` on, step after step until a point or a halt: the end phase, the
      draws left and the stats after. A rally that has started ends in a point only after
      using a draw, and one that ran out of draws leaves none. */
  function RallyFrom(one: seq<Player>, two: seq<Player>, book: Book, phase: Phase, draws: seq<nat>): (t: Turn)
    requires |one| >= 6 && |two| >= 6
    ensures Terminal(t.next) && Suffix(t.rest, draws)
    ensures !Terminal(phase) && t.next.Point? ==> |t.rest| < |draws|
    ensures !Terminal(phase) && t.next == Halted(OutOfDraws) ==> t.rest == []
    decreases |draws|, if Terminal(phase) then 0 else 1
  {
    if Terminal(phase) then Turn(phase, draws, book)
    else
      var s := StepOn(one, two, book, phase, draws);
      var t := RallyFrom(one, two, s.book, s.next, s.rest);
      SuffixChain(draws, s.rest, t.rest);
      t
  }

  /** A serve halts exactly when no draw but the last picks an MB, WS or O (the draw after
      the pick is the serve roll); it then has used up the stream. */
  lemma ServeHalts(one: seq<Player>, two: seq<Player>, side: Side, book: Book, draws: seq<nat>)
    requires |one| >= 6 && |two| >= 6
    ensures var t := ServeOn(one, two, side, book, draws);
      (t.next.Halted? <==> !exists k: nat :: k + 1 < |draws| && FirstTargetAt(TeamOf(one, two, Other(side)), draws, k))
      && (t.next.Halted? ==> t.next == Halted(OutOfDraws) && t.rest == [])
  {
    var opponent := TeamOf(one, two, Other(side));
    var k := TargetFrom(opponent, draws, 0);
    if k + 1 < |draws| {
      assert FirstTargetAt(opponent, draws, k);
    } else {
      forall j: nat | j + 1 < |draws| ensures !FirstTargetAt(opponent, draws, j) {
        assert !IsServeTarget(Choice(opponent, draws[j]));
      }
    }
  }

  /** The phase a step enters may follow the phase it ran: the transitions are the source's
      tail calls. */
  lemma StepFollows(one: seq<Player>, two: seq<Player>, book: Book, phase: Phase, draws: seq<nat>)
    requires |one| >= 6 && |two| >= 6 && !Terminal(phase)
    ensures Follows(one, two, phase, StepOn(one, two, book, phase, draws).next)
  {
    match phase {
      case Set(s, receiver) =>
        var team := TeamOf(one, two, s);
        var setters := SetterChoices(team, receiver);
        if |setters| > 0 && |draws| >= 3 {
          var setter := Choice(setters, draws[0]);
          var pool := SpikePool(team, setter, book);
          if |pool| > 0 {
            SpikePoolMembers(team, setter, book, Choice(pool, draws[2]));
          }
        }
      case _ =>
    }
  }

  /** The skill check of the phase fails on the book's stats: the serve misses, or the
      receive falls short of the difficulty. No other skill check can lose a point. */
  predicate CheckFails(one: seq<Player>, two: seq<Player>, book: Book, phase: Phase, draws: seq<nat>)
    requires |one| >= 6 && |two| >= 6
  {
    match phase
    case Serve(s) =>
      var k := TargetFrom(TeamOf(one, two, Other(s)), draws, 0);
      var server := StatsIn(book, TeamOf(one, two, s)[0]);
      k + 1 < |draws| && ServeRating(Roll(draws[k + 1]), server.power, server.technique).Miss?
    case Receive(s, t, d) =>
      |draws| > 0 && !ReceiveHolds(Roll(draws[0]), StatsIn(book, t).speed, StatsIn(book, t).sense, d)
    case _ => false
  }

  /** A step ends in a point exactly when its check fails, and the point goes to the side
      the phase plays against. */
  lemma StepPoint(one: seq<Player>, two: seq<Player>, book: Book, phase: Phase, draws: seq<nat>)
    requires |one| >= 6 && |two| >= 6 && !Terminal(phase)
    ensures var t := StepOn(one, two, book, phase, draws);
      (t.next.Point? <==> CheckFails(one, two, book, phase, draws))
      && (t.next.Point? ==> t.next.winner == Other(phase.side))
  {
  }

  /** The state the last step of the rally starts from. */
  function LastTurn(one: seq<Player>, two: seq<Player>, book: Book, phase: Phase, draws: seq<nat>): (l: Turn)
    requires |one| >= 6 && |two| >= 6 && !Terminal(phase)
    ensures !Terminal(l.next)
    decreases |draws|
  {
    var s := StepOn(one, two, book, phase, draws);
    if Terminal(s.next) then Turn(phase, draws, book) else LastTurn(one, two, s.book, s.next, s.rest)
  }

  /** What decides a rally: the step from its last state ends it, so the rally ends in a
      point exactly when that step's serve or receive check fails on the stats of that
      moment, and the point goes against the side that made the check. */
  lemma {:induction false} RallyDecided(one: seq<Player>, two: seq<Player>, book: Book, phase: Phase, draws: seq<nat>)
    requires |one| >= 6 && |two| >= 6 && !Terminal(phase)
    ensures var l := LastTurn(one, two, book, phase, draws);
      var r := RallyFrom(one, two, book, phase, draws);
      r == StepOn(one, two, l.book, l.next, l.rest)
      && (r.next.Point? <==> CheckFails(one, two, l.book, l.next, l.rest))
      && (r.next.Point? ==> r.next.winner == Other(l.next.side))
    decreases |draws|
  {
    var s := StepOn(one, two, book, phase, draws);
    if !Terminal(s.next) {
      RallyDecided(one, two, s.book, s.next, s.rest);
    }
    var l := LastTurn(one, two, book, phase, draws);
    StepPoint(one, two, l.book, l.next, l.rest);
  }


  // ---------------------------------------------------------------------------
  // Steps

  /** The serve-target resampling loop: pick an opponent, and pick again until the pick
      plays MB, WS or O. If no such opponent exists the source loops forever; here the
      stream runs dry. */
  method ChooseServeTarget(opponent: seq<Player>, draws: seq<nat>) returns (target: Option<Player>, k: nat)
    requires |opponent| > 0
    ensures k == TargetFrom(opponent, draws, 0)
    ensures target == if k < |draws| then Some(Choice(opponent, draws[k])) else None
  {
    k := 0;
    while k < |draws| && !IsServeTarget(Choice(opponent, draws[k]))
      invariant 0 <= k <= |draws|
      invariant TargetFrom(opponent, draws, k) == TargetFrom(opponent, draws, 0)
    {
      k := k + 1;
    }
    if k < |draws| {
      target := Some(Choice(opponent, draws[k]));
    } else {
      target := None;
    }
  }

  /** serve() on the players: the server's technique wears down unless the stream runs dry
      first, and the rally halts exactly when no draw but the last picks a target. */
  method ServeStep(one: seq<Player>, two: seq<Player>, side: Side, draws: seq<nat>, ghost ps: set<Player>, ghost book: Book)
    returns (next: Phase, rest: seq<nat>)
    requires |one| >= 6 && |two| >= 6 && Tracks(book, ps, one, two)
    modifies TeamOf(one, two, side)[0]
    ensures var t := ServeOn(one, two, side, book, draws);
      next == t.next && rest == t.rest && Agrees(t.book, ps)
    ensures next.Halted? <==> !exists k: nat :: k + 1 < |draws| && FirstTargetAt(TeamOf(one, two, Other(side)), draws, k)
  {
    ServeHalts(one, two, side, book, draws);
    var server := TeamOf(one, two, side)[0];
    var opponent := TeamOf(one, two, Other(side));
    var target, k := ChooseServeTarget(opponent, draws);
    if target.None? || k + 1 >= |draws| {
      return Halted(OutOfDraws), [];
    }
    var serveScore := server.Serve(Roll(draws[k + 1]));
    rest := draws[k + 2..];
    if serveScore.Score? {
      next := Receive(Other(side), target.value, serveScore.value - 5);
    } else {
      next := Point(Other(side));
    }
  }

  /** receive() on the players: the target's speed wears down. */
  method ReceiveStep(side: Side, target: Player, difficulty: int, draws: seq<nat>, ghost ps: set<Player>, ghost book: Book)
    returns (next: Phase, rest: seq<nat>)
    requires Agrees(book, ps) && target in ps
    modifies target
    ensures var t := ReceiveOn(side, target, difficulty, book, draws);
      next == t.next && rest == t.rest && Agrees(t.book, ps)
  {
    if |draws| == 0 {
      return Halted(OutOfDraws), [];
    }
    var ok := target.Receive(Roll(draws[0]), difficulty);
    rest := draws[1..];
    if ok {
      next := Set(side, target);
    } else {
      next := Point(Other(side));
    }
  }

  /** The setter a set step picks, when it can pick one. */
  function SetterFrame(team: seq<Player>, receiver: Player, draws: seq<nat>): set<Player> {
    var setters := SetterChoices(team, receiver);
    if |setters| > 0 && |draws| > 0 then {Choice(setters, draws[0])} else {}
  }

  lemma SetterOnCourt(team: seq<Player>, receiver: Player, draws: seq<nat>)
    ensures forall p :: p in SetterFrame(team, receiver, draws) ==> p in team
  {
    var setters := SetterChoices(team, receiver);
    if |setters| > 0 && |draws| > 0 {
      var k := draws[0] % |setters|;
      assert setters[k] in team;
    }
  }

  /** set() on the players: the spike pool is built on the stats before the set, and the
      setter's sense wears down once the set is made. */
  method SetStep(one: seq<Player>, two: seq<Player>, side: Side, receiver: Player, draws: seq<nat>, ghost ps: set<Player>, ghost book: Book)
    returns (next: Phase, rest: seq<nat>)
    requires Tracks(book, ps, one, two)
    modifies SetterFrame(TeamOf(one, two, side), receiver, draws)
    ensures var t := SetOn(one, two, side, receiver, book, draws);
      next == t.next && rest == t.rest && Agrees(t.book, ps)
  {
    var team := TeamOf(one, two, side);
    var setters := SetterChoices(team, receiver);
    if |setters| == 0 {
      return Halted(NoSetter), draws;
    }
    if |draws| < 2 {
      return Halted(OutOfDraws), [];
    }
    var setter := Choice(setters, draws[0]);
    SetterOnCourt(team, receiver, draws);
    var pool := BuildSpikePool(team, setter, book);
    if |pool| > 0 && |draws| < 3 {
      return Halted(OutOfDraws), [];
    }
    var rating := setter.Set(Roll(draws[1]));
    if |pool| == 0 {
      return Halted(NoSpiker), draws[2..];
    }
    next, rest := Block(Other(side), rating, Choice(pool, draws[2])), draws[3..];
  }

  /** block() on the players: the blocker's jumping wears down. */
  method BlockStep(one: seq<Player>, two: seq<Player>, side: Side, setScore: int, spiker: Player, draws: seq<nat>,
                   ghost ps: set<Player>, ghost book: Book)
    returns (next: Phase, rest: seq<nat>)
    requires |one| >= 6 && |two| >= 6 && Tracks(book, ps, one, two)
    modifies if |draws| > 0 then {Choice(FrontRow(TeamOf(one, two, side)), draws[0])} else {}
    ensures var t := BlockOn(one, two, side, setScore, spiker, book, draws);
      next == t.next && rest == t.rest && Agrees(t.book, ps)
  {
    if |draws| < 2 {
      return Halted(OutOfDraws), [];
    }
    var blocker := Choice(FrontRow(TeamOf(one, two, side)), draws[0]);
    var blockScore := blocker.Block(Roll(draws[1]), setScore);
    next, rest := Spike(Other(side), blockScore, spiker, blocker), draws[2..];
  }

  /** spike() on the players: the spiker's power wears down. */
  method SpikeStep(one: seq<Player>, two: seq<Player>, side: Side, blockScore: Rating, spiker: Player, draws: seq<nat>,
                   ghost ps: set<Player>, ghost book: Book)
    returns (next: Phase, rest: seq<nat>)
    requires |one| >= 6 && |two| >= 6 && Agrees(book, ps) && spiker in ps
    modifies spiker
    ensures var t := SpikeOn(one, two, side, blockScore, spiker, book, draws);
      next == t.next && rest == t.rest && Agrees(t.book, ps)
  {
    if |draws| < 2 {
      return Halted(OutOfDraws), [];
    }
    var spikeScore := spiker.Spike(Roll(draws[0]), Truthy(blockScore));
    rest := draws[2..];
    if Truthy(blockScore) && blockScore.value > spikeScore {
      next := Receive(side, Choice(BackRow(TeamOf(one, two, side)), draws[1]), blockScore.value);
    } else {
      next := Receive(Other(side), Choice(BackRow(TeamOf(one, two, Other(side))), draws[1]), spikeScore);
    }
  }

  // ---------------------------------------------------------------------------
  // The rally

  /** One tail call on the players: the step the book predicts, with the player who acted
      worn down in place. */
  method Step(one: seq<Player>, two: seq<Player>, phase: Phase, draws: seq<nat>, ghost ps: set<Player>, ghost book: Book)
    returns (next: Phase, rest: seq<nat>)
    requires |one| >= 6 && |two| >= 6 && Tracks(book, ps, one, two)
    requires !Terminal(phase) && OnCourt(one, two, phase)
    modifies one, two
    ensures var t := StepOn(one, two, book, phase, draws);
      next == t.next && rest == t.rest && Agrees(t.book, ps)
  {
    match phase {
      case Serve(s) =>
        next, rest := ServeStep(one, two, s, draws, ps, book);
      case Receive(s, target, difficulty) =>
        next, rest := ReceiveStep(s, target, difficulty, draws, ps, book);
      case Set(s, receiver) =>
        SetterOnCourt(TeamOf(one, two, s), receiver, draws);
        next, rest := SetStep(one, two, s, receiver, draws, ps, book);
      case Block(s, setScore, spiker) =>
        next, rest := BlockStep(one, two, s, setScore, spiker, draws, ps, book);
      case Spike(s, blockScore, spiker, _) =>
        next, rest := SpikeStep(one, two, s, blockScore, spiker, draws, ps, book);
    }
  }

  /** The trace runs along the chain from the serve to `phase`, a phase on the court. */
  ghost predicate Traced(one: seq<Player>, two: seq<Player>, server: Side, phase: Phase, trace: seq<Phase>) {
    |trace| >= 1 && trace[0] == Serve(server) && trace[|trace| - 1] == phase
    && (|trace| == 1 ==> phase == Serve(server))
    && Chain(one, two, trace) && OnCourt(one, two, phase)
  }

  /** Where the rally loop stands: the trace reaches `phase`, the book is in step with the
      players, and the rest of the rally from here is `target`. */
  ghost predicate Rallying(one: seq<Player>, two: seq<Player>, ps: set<Player>, server: Side, b: Book,
                           phase: Phase, rest: seq<nat>, trace: seq<Phase>, target: Turn)
    requires |one| >= 6 && |two| >= 6
    reads ps
  {
    Tracks(b, ps, one, two) && Traced(one, two, server, phase, trace) && RallyFrom(one, two, b, phase, rest) == target
  }

  /** One round of the rally loop: a step on the players, the phase it enters extending
      the trace, and the rest of the rally the same as before the step. */
  method Advance(one: seq<Player>, two: seq<Player>, phase: Phase, rest: seq<nat>, ghost ps: set<Player>, ghost b: Book,
                 ghost server: Side, ghost trace: seq<Phase>, ghost target: Turn)
    returns (next: Phase, after: seq<nat>, ghost b': Book, ghost trace': seq<Phase>)
    requires |one| >= 6 && |two| >= 6
    requires !Terminal(phase) && Rallying(one, two, ps, server, b, phase, rest, trace, target)
    modifies one, two
    ensures Rallying(one, two, ps, server, b', next, after, trace', target)
    ensures trace' == trace + [next] && Progress(rest, after, next)
  {
    next, after := Step(one, two, phase, rest, ps, b);
    StepFollows(one, two, b, phase, rest);
    FollowsStaysOnCourt(one, two, phase, next);
    ChainSnoc(one, two, trace, next);
    b' := StepOn(one, two, b, phase, rest).book;
    trace' := trace + [next];
  }

  /** Runs the chain of tail calls from serve() until a point is won or the rally halts,
      wearing the players down as it goes: the result is the rally the book of the players'
      stats before it predicts (`target`), and afterwards the players have the stats it
      predicts. `trace` lists the phases passed through. */
  method PlayRally(one: seq<Player>, two: seq<Player>, server: Side, draws: seq<nat>, ghost ps: set<Player>, ghost book: Book,
                   ghost target: Turn)
    returns (end: Phase, rest: seq<nat>, ghost trace: seq<Phase>)
    requires |one| >= 6 && |two| >= 6 && Tracks(book, ps, one, two)
    requires target == RallyFrom(one, two, book, Serve(server), draws)
    modifies ps
    ensures end == target.next && rest == target.rest && Agrees(target.book, ps)
    ensures |trace| >= 2 && trace[0] == Serve(server) && trace[|trace| - 1] == end
    ensures Chain(one, two, trace)
  {
    var phase := Serve(server);
    rest := draws;
    trace := [phase];
    ghost var b := book;
    while !Terminal(phase)
      invariant Rallying(one, two, ps, server, b, phase, rest, trace, target)
      decreases |rest|, if Terminal(phase) then 0 else 1
    {
      phase, rest, b, trace := Advance(one, two, phase, rest, ps, b, server, trace, target);
    }
    end := phase;
  }
}
