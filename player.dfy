/** A volleyball player: identity and rotation data fixed when the roster line is read,
    five stats that every skill check wears down, and the five skill checks. */
module Players {
  import opened Builtins

  /** What serve() and block() return: a rating, or Python's False. */
  datatype Rating = Miss | Score(value: int)

  /** Python truthiness of a serve/block result: False and the rating 0 are both falsy. */
  predicate Truthy(r: Rating) {
    r.Score? && r.value != 0
  }

  // ---------------------------------------------------------------------------
  // Roster fields: Name|Position|Power|Jumping|Stamina|Sense|Technique|Speed|StartPosition

  const PowerField := 2
  const JumpingField := 3
  const StaminaField := 4
  const SenseField := 5
  const TechniqueField := 6
  const SpeedField := 7
  const StartField := 8

  predicate IsIntField(fields: seq<string>, k: nat) {
    k < |fields| && ParseInt(fields[k]).Some?
  }

  /** A split roster line the constructor can read: at least nine fields (extra ones are
      ignored) and an integer wherever int() is applied. Anything else raises IndexError or
      ValueError in the source. */
  predicate WellFormed(fields: seq<string>) {
    |fields| >= 9
    && IsIntField(fields, PowerField) && IsIntField(fields, JumpingField)
    && IsIntField(fields, StaminaField) && IsIntField(fields, SenseField)
    && IsIntField(fields, TechniqueField) && IsIntField(fields, SpeedField)
    && IsIntField(fields, StartField)
  }

  function IntField(fields: seq<string>, k: nat): int
    requires IsIntField(fields, k)
  {
    ParseInt(fields[k]).value
  }

  /** The per-use fatigue derived from the raw stamina field. */
  function Decay(raw: int): real {
    (6 - raw) as real / 100.0
  }

  // ---------------------------------------------------------------------------
  // The rating rules, on the stat values in force when the skill is used

  function ServeRating(roll: int, power: real, technique: real): Rating {
    var rating := roll + Round(power + technique);
    if rating >= 10 then Score(rating) else Miss
  }

  function BlockRating(roll: int, jumping: real, speed: real, setScore: int): Rating {
    var rating := roll + Round(jumping + speed);
    if rating > setScore then Score(rating) else Miss
  }

  function SpikeRating(roll: int, blocked: bool, power: real, jumping: real, sense: real): int {
    if blocked then roll + Round(power + sense) else roll + Round(jumping + power)
  }

  function SetRating(roll: int, technique: real, sense: real): int {
    roll + Round(technique + sense)
  }

  function ReceiveHolds(roll: int, speed: real, sense: real, spike: int): bool {
    roll + Round(speed + sense) >= spike
  }

  /** The thresholds at their edges, for any roll and stats: a serve total of exactly 10
      goes in and 9 does not, a block total equal to the set fails and one above it
      holds, a receive total equal to the spike holds and one below it fails. */
  lemma ThresholdEdges(roll: int, a: real, b: real, setScore: int, spike: int)
    ensures roll + Round(a + b) == 10 ==> ServeRating(roll, a, b) == Score(10)
    ensures roll + Round(a + b) == 9 ==> ServeRating(roll, a, b) == Miss
    ensures roll + Round(a + b) == setScore ==> BlockRating(roll, a, b, setScore) == Miss
    ensures roll + Round(a + b) == setScore + 1 ==> BlockRating(roll, a, b, setScore) == Score(setScore + 1)
    ensures roll + Round(a + b) == spike ==> ReceiveHolds(roll, a, b, spike)
    ensures roll + Round(a + b) == spike - 1 ==> !ReceiveHolds(roll, a, b, spike)
  {
  }

  /** Fatigue never helps: with a lower stat every rating is at most what it was, a serve
      or block that succeeds tired also succeeds fresh, and so does a receive. */
  lemma ServeTires(roll: int, power: real, technique: real, tired: real)
    requires tired <= technique
    ensures ServeRating(roll, power, tired).Score? ==>
      ServeRating(roll, power, technique).Score? && ServeRating(roll, power, tired).value <= ServeRating(roll, power, technique).value
  {
    RoundMonotonic(power + tired, power + technique);
  }

  lemma BlockTires(roll: int, jumping: real, tired: real, speed: real, setScore: int)
    requires tired <= jumping
    ensures BlockRating(roll, tired, speed, setScore).Score? ==>
      BlockRating(roll, jumping, speed, setScore).Score? && BlockRating(roll, tired, speed, setScore).value <= BlockRating(roll, jumping, speed, setScore).value
  {
    RoundMonotonic(tired + speed, jumping + speed);
  }

  lemma SpikeTires(roll: int, blocked: bool, power: real, tired: real, jumping: real, sense: real)
    requires tired <= power
    ensures SpikeRating(roll, blocked, tired, jumping, sense) <= SpikeRating(roll, blocked, power, jumping, sense)
  {
    RoundMonotonic(tired + sense, power + sense);
    RoundMonotonic(jumping + tired, jumping + power);
  }

  lemma SetTires(roll: int, technique: real, sense: real, tired: real)
    requires tired <= sense
    ensures SetRating(roll, technique, tired) <= SetRating(roll, technique, sense)
  {
    RoundMonotonic(technique + tired, technique + sense);
  }

  lemma ReceiveTires(roll: int, speed: real, tired: real, sense: real, spike: int)
    requires tired <= speed
    ensures ReceiveHolds(roll, tired, sense, spike) ==> ReceiveHolds(roll, speed, sense, spike)
  {
    RoundMonotonic(tired + sense, speed + sense);
  }

  // ---------------------------------------------------------------------------
  // The player

  class Player {
    const name: string
    const position: string
    /** The decay rate; like name, position and start position it never changes. */
    const stamina: real
    const startPosition: int
    var power: real
    var jumping: real
    var sense: real
    var technique: real
    var speed: real

    /** Reads one roster line that has already been split on '|'. */
    constructor (fields: seq<string>)
      requires WellFormed(fields)
      ensures name == fields[0] && position == fields[1]
      ensures power == IntField(fields, PowerField) as real
      ensures jumping == IntField(fields, JumpingField) as real
      ensures stamina == Decay(IntField(fields, StaminaField))
      ensures sense == IntField(fields, SenseField) as real
      ensures technique == IntField(fields, TechniqueField) as real
      ensures speed == IntField(fields, SpeedField) as real
      ensures startPosition == IntField(fields, StartField)
    {
      name := fields[0];
      position := fields[1];
      power := IntField(fields, PowerField) as real;
      jumping := IntField(fields, JumpingField) as real;
      stamina := Decay(IntField(fields, StaminaField));
      sense := IntField(fields, SenseField) as real;
      technique := IntField(fields, TechniqueField) as real;
      speed := IntField(fields, SpeedField) as real;
      startPosition := IntField(fields, StartField);
    }

    /** Spikes with the given d20 roll; `blocked` is the truthiness of the block result.
        Wears power down by one decay and touches nothing else. */
    method Spike(roll: int, blocked: bool) returns (rating: int)
      requires 1 <= roll <= 20
      modifies this`power
      ensures rating == SpikeRating(roll, blocked, old(power), jumping, sense)
      ensures power == old(power) - stamina
      ensures jumping == old(jumping) && sense == old(sense)
      ensures technique == old(technique) && speed == old(speed)
      ensures StatsOf(this) == Worn(this, old(StatsOf(this)), Spikes(blocked))
    {
      rating := roll;
      if blocked {
        rating := rating + Round(power + sense);
      } else {
        rating := rating + Round(jumping + power);
      }
      power := power - stamina;
    }

    /** Tries to block a set of the given quality; succeeds only on a strictly higher
        rating. Wears jumping down by one decay and touches nothing else. */
    method Block(roll: int, setScore: int) returns (r: Rating)
      requires 1 <= roll <= 20
      modifies this`jumping
      ensures r == BlockRating(roll, old(jumping), speed, setScore)
      ensures jumping == old(jumping) - stamina
      ensures power == old(power) && sense == old(sense)
      ensures technique == old(technique) && speed == old(speed)
      ensures StatsOf(this) == Worn(this, old(StatsOf(this)), Blocks(setScore))
    {
      var rating := roll + Round(jumping + speed);
      jumping := jumping - stamina;
      if rating > setScore {
        r := Score(rating);
      } else {
        r := Miss;
      }
    }

    /** Serves; a total of ten or more goes in. Wears technique down by one decay and
        touches nothing else. */
    method Serve(roll: int) returns (r: Rating)
      requires 1 <= roll <= 20
      modifies this`technique
      ensures r == ServeRating(roll, power, old(technique))
      ensures technique == old(technique) - stamina
      ensures power == old(power) && jumping == old(jumping)
      ensures sense == old(sense) && speed == old(speed)
      ensures StatsOf(this) == Worn(this, old(StatsOf(this)), Serves)
    {
      var rating := roll + Round(power + technique);
      technique := technique - stamina;
      if rating >= 10 {
        r := Score(rating);
      } else {
        r := Miss;
      }
    }

    /** Sets the ball; never fails. Wears sense down by half a decay and touches nothing
        else. */
    method Set(roll: int) returns (rating: int)
      requires 1 <= roll <= 20
      modifies this`sense
      ensures rating == SetRating(roll, technique, old(sense))
      ensures sense == old(sense) - stamina / 2.0
      ensures power == old(power) && jumping == old(jumping)
      ensures technique == old(technique) && speed == old(speed)
      ensures StatsOf(this) == Worn(this, old(StatsOf(this)), Sets)
    {
      rating := roll + Round(technique + sense);
      sense := sense - stamina / 2.0;
    }

    /** Tries to receive an attack of the given rating; a tie is received. Wears speed
        down by one decay and touches nothing else. */
    method Receive(roll: int, spike: int) returns (ok: bool)
      requires 1 <= roll <= 20
      modifies this`speed
      ensures ok == ReceiveHolds(roll, old(speed), sense, spike)
      ensures speed == old(speed) - stamina
      ensures power == old(power) && jumping == old(jumping)
      ensures sense == old(sense) && technique == old(technique)
      ensures StatsOf(this) == Worn(this, old(StatsOf(this)), Receives(spike))
    {
      var rating := roll + Round(speed + sense);
      speed := speed - stamina;
      ok := rating >= spike;
    }
  }

  // ---------------------------------------------------------------------------
  // Repeated use: fatigue accumulates linearly

  /** The five mutable stats, to speak of "every other stat". */
  datatype Stat = Power | Jumping | Sense | Technique | Speed

  /** A player's five mutable stats at one moment. */
  datatype Stats = Stats(power: real, jumping: real, sense: real, technique: real, speed: real)

  function StatsOf(p: Player): Stats
    reads p
  {
    Stats(p.power, p.jumping, p.sense, p.technique, p.speed)
  }

  function StatOf(p: Player, s: Stat): real
    reads p
  {
    match s
    case Power => p.power
    case Jumping => p.jumping
    case Sense => p.sense
    case Technique => p.technique
    case Speed => p.speed
  }

  /** The stats with stat s lowered by d. */
  function Lowered(st: Stats, s: Stat, d: real): Stats {
    match s
    case Power => st.(power := st.power - d)
    case Jumping => st.(jumping := st.jumping - d)
    case Sense => st.(sense := st.sense - d)
    case Technique => st.(technique := st.technique - d)
    case Speed => st.(speed := st.speed - d)
  }

  /** A skill check together with its argument. */
  datatype Skill = Serves | Blocks(setScore: int) | Spikes(blocked: bool) | Sets | Receives(spike: int)

  /** The one stat each skill wears down. */
  function Wears(k: Skill): Stat {
    match k
    case Serves => Technique
    case Blocks(_) => Jumping
    case Spikes(_) => Power
    case Sets => Sense
    case Receives(_) => Speed
  }

  /** How much one use of the skill wears that stat down. */
  function WearOf(p: Player, k: Skill): real {
    if k.Sets? then p.stamina / 2.0 else p.stamina
  }

  /** p's stats st after p used skill k once. */
  function Worn(p: Player, st: Stats, k: Skill): Stats {
    Lowered(st, Wears(k), WearOf(p, k))
  }

  /** Uses skill k once: its stat drops by one wear and every other stat stays. */
  method UseSkill(p: Player, k: Skill, roll: int)
    requires 1 <= roll <= 20
    modifies p
    ensures forall s :: StatOf(p, s) == old(StatOf(p, s)) - (if s == Wears(k) then WearOf(p, k) else 0.0)
  {
    match k {
      case Serves => { var _ := p.Serve(roll); }
      case Blocks(setScore) => { var _ := p.Block(roll, setScore); }
      case Spikes(blocked) => { var _ := p.Spike(roll, blocked); }
      case Sets => { var _ := p.Set(roll); }
      case Receives(spike) => { var _ := p.Receive(roll, spike); }
    }
  }

  /** Uses one skill once per roll: the worn stat ends exactly |rolls| wears lower and
      every other stat where it was. */
  method Drill(p: Player, k: Skill, rolls: seq<int>)
    requires forall i :: 0 <= i < |rolls| ==> 1 <= rolls[i] <= 20
    modifies p
    ensures forall s :: StatOf(p, s) == old(StatOf(p, s)) - (if s == Wears(k) then |rolls| as real * WearOf(p, k) else 0.0)
  {
    var n := 0;
    ghost var worn := 0.0;
    while n < |rolls|
      invariant 0 <= n <= |rolls|
      invariant worn == n as real * WearOf(p, k)
      invariant forall s :: StatOf(p, s) == old(StatOf(p, s)) - (if s == Wears(k) then worn else 0.0)
    {
      UseSkill(p, k, rolls[n]);
      worn := worn + WearOf(p, k);
      n := n + 1;
    }
  }

}
