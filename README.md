# VolleyballSim in Dafny

A model of the core of VolleyballSim, a terminal volleyball simulator. Players are read
from `Name|Position|Power|Jumping|Stamina|Sense|Technique|Speed|StartPosition` roster
lines. Every skill check rolls a d20, adds two rounded stats and wears one stat down by the
player's stamina decay. A rally is a chain of serve, receive, set, block and spike calls
that ends when one side fails. A set runs to 25 points with a lead of two. Between rallies
the winner's line-up rotates on a serve change and the automatic libero and middle-blocker
substitutions run. A match persists until one side has won three sets.

Modules, one per concern:

- `Builtins` (`builtins.dfy`): Python's `round` (ties to even) on reals, and `int()` on a
  roster field with its inverse `str()`.
- `Players` (`player.dfy`): the `Player` class. The five skill checks are methods that take the d20 roll
  as an argument. Each returns the rating rule's result and lowers exactly one stat.
- `Lineups` (`lineup.dfy`): the row slots, the serve-change rotation and the stable sort by
  start position. Also the substitution walks: the walk over a reserve list that grows
  while it is walked, and the row pass.
- `Rally` (`rally.dfy`): the rally as a state machine. Each phase is the function about
  to run, with its arguments. The functions `ServeOn` to `SpikeOn`, `StepOn` and
  `RallyFrom` give the rally on a book of stats, a map from each player to their five
  stats. Each step method runs one of the source's functions on the players in place and
  does exactly what its function says. `PlayRally` plays the whole rally that `RallyFrom`
  gives, and keeps a ghost trace whose consecutive phases obey `Follows`.
- `Matches` (`match.dfy`): the `Court` class (line-ups and reserve lists, changed in place
  by a set), `game_set` as `Court.PlaySet`, the starter/reserve split and `match`. The
  functions `SetFrom` and `MatchFrom` give a set and a match on a line-up and a book.
  `Court.PlaySet` and `Match` play exactly those, and `SetFromRecord` and
  `MatchFromRecord` state what a set and a match leave on record.

Randomness is one finite stream of draws (`seq<nat>`):

- `random.randint(1, 20)` takes the next draw x as `x % 20 + 1`.
- `random.choice(xs)` takes `xs[x % |xs|]`.
- A step that cannot get every draw it would make does not start, and the rally halts with
  `OutOfDraws`. The serve-target resampling loop is the one exception: it consumes draws until one
  lands on an MB, WS or O.
- The stream bounds the otherwise unbounded rally recursion and the resampling loop.

The substitution code is modelled as written. Its quirks are flagged where they arise.
The first two are flagged in `Matches.Apply`, the last two in `Lineups.SwapIn`:

- The back-row passes read slots 0, 4 and 5 but write slots 0, 1 and 2.
- Team two's back-row pass reads team one's back row.
- A substitute is never removed from the reserves.
- The displaced player is appended to the reserves once per matching reserve, and the last matching reserve ends up in the slot.

The quirk lemmas in the table below show what these do to a line-up. One player can end
up in several slots (`Matches.SubstitutionDuplicates`). A player can also stand on both
teams at once (`Matches.CrossTeam`).

The front-row passes write to `index + 1` of an enumeration of slots 1 to 3. That is
exactly slots 1, 2 and 3, so they write the slots they read. This looks like an
off-by-one but is not one. `Matches.FrontRowPassSlots` proves that the slots line up.

## Model

| member | source | states |
|---|---|---|
| `Builtins.Round` | player.py:58 | Python's round() on a real: the nearest integer, an exact tie going to the even one (a definition; its properties are the two rows below) |
| `Builtins.RoundIsNearest` | player.py:56-60 | round() lands within one half of its argument, and an exact tie lands on an even integer |
| `Builtins.RoundMonotonic` | player.py:56-62 | round() preserves order, so lowering a stat never raises a rounded total |
| `Builtins.ParseInt` | player.py:17-24 | int() on a field: optional surrounding whitespace, an optional sign and ASCII digits give the number; anything else gives no value, where the source raises ValueError (a definition; the rows next to it state its properties) |
| `Builtins.ParseShowRoundTrip` | player.py:17-24 | int() reads back the decimal text of every integer, negative ones included |
| `Builtins.ParseIgnoresSurroundingSpace` | player.py:17 | a whitespace character before or after any field, well formed or not, does not change what int() reads |
| `Players.Truthy` | main.py:127 | Python truthiness of a serve or block result: False and the rating 0 are falsy, every other rating is truthy (a definition) |
| `Players.Player.constructor` | player.py:11-24 | from a line of at least nine fields with integers at fields 2 to 8: fields 0 and 1 are the name and position; fields 2, 3, 5, 6, 7 and 8 are read as integers into power, jumping, sense, technique, speed and start position; stamina is the decay of field 4 |
| `Players.Decay` | player.py:19 | the stamina a raw field gives: (6 - raw) / 100, exactly (a definition) |
| `Players.SpikeRating` | player.py:56-60 | the spike rating: the roll plus round(power + sense) after a truthy block, round(jumping + power) otherwise (a definition) |
| `Players.BlockRating` | player.py:74-81 | the block rating: roll + round(jumping + speed) when strictly above the set rating, the failure value otherwise (a definition) |
| `Players.ServeRating` | player.py:90-97 | the serve rating: roll + round(power + technique) when at least 10, the failure value otherwise (a definition) |
| `Players.SetRating` | player.py:105 | the set rating: roll + round(technique + sense), which never fails (a definition) |
| `Players.ReceiveHolds` | player.py:119-126 | a receive holds when roll + round(speed + sense) reaches the spike rating (a definition) |
| `Players.Player.Spike` | player.py:47-64 | the rating is roll + round(power + sense) after a truthy block, otherwise roll + round(jumping + power); power drops by stamina; the other four stats are unchanged |
| `Players.Player.Block` | player.py:66-81 | the rating roll + round(jumping + speed) is returned only when strictly above the set rating, otherwise the failure value; jumping drops by stamina; nothing else changes |
| `Players.Player.Serve` | player.py:83-97 | the rating roll + round(power + technique) is returned when it is at least 10, otherwise the failure value; technique drops by stamina; nothing else changes |
| `Players.Player.Set` | player.py:99-109 | the rating is roll + round(technique + sense) and never fails; sense drops by half the stamina; nothing else changes |
| `Players.Player.Receive` | player.py:111-126 | succeeds exactly when roll + round(speed + sense) reaches the spike rating; speed drops by stamina; nothing else changes |
| `Players.ThresholdEdges` | player.py:74-126 | for every roll and pair of stats: a serve total of exactly 10 goes in and one of 9 misses; a block total equal to the set fails and one above it holds; a receive total equal to the spike holds and one below it fails |
| `Players.ServeTires` | player.py:90-92 | with lower technique a serve rates no higher, and a serve that goes in tired also goes in fresh |
| `Players.BlockTires` | player.py:74-76 | with lower jumping a block rates no higher, and a block that succeeds tired also succeeds fresh |
| `Players.SpikeTires` | player.py:56-62 | with lower power a spike rates no higher, blocked or not |
| `Players.SetTires` | player.py:105-107 | with lower sense a set rates no higher |
| `Players.ReceiveTires` | player.py:119-121 | a receive that holds with lower speed also holds with the original speed |
| `Players.UseSkill` | player.py:47-126 | one use of any skill check lowers the one stat that check wears by one decay (half a decay for the set) and leaves the other four where they were |
| `Players.Drill` | player.py:47-126 | n uses of one skill lower its stat by exactly n decays (half decays for the set) and leave the other four stats where they were |
| `Lineups.BackRow` | main.py:129 | the back row of a six-player line-up is slots 0, 4 and 5, in that order |
| `Lineups.FrontRow` | main.py:103 | the front row (the blocker candidates) is slots 1, 2 and 3, in that order |
| `Lineups.RotateLeft` | main.py:184 | the rotation keeps the length and the players, moves every slot forward by one and sends slot 0 to the back |
| `Lineups.RotationsSplit` | main.py:183-184 | n serve changes move the first n players, in order, behind the others |
| `Lineups.FullCycle` | main.py:183-184 | as many serve changes as players bring the line-up back to where it started |
| `Lineups.SortByStart` | main.py:157-158 | sorting by start position keeps the length and the players and orders them by start position |
| `Lineups.SortIsStable` | main.py:157-158 | players sharing a start position keep their relative order, as list.sort guarantees |
| `Lineups.LastAtExists` | main.py:195-198 | there is a last reserve of a position exactly when some reserve plays it |
| `Lineups.SwapIn` | main.py:195-198 | walking the growing reserve list puts the LAST reserve of the entering position in the slot, and appends the displaced player once per such reserve |
| `Lineups.RowStep` | main.py:193-198 | one iteration of the outer loop of a substitution block: the line-up and reserves after row entries 0 to k are those after entries 0 to k - 1 with entry k's swap and appends added |
| `Lineups.RowPass` | main.py:193-198 | one substitution block over a row snapshot takes every slot whose row entry plays the leaving position to that last reserve, and appends each displaced entry once per entering reserve, in row order |
| `Rally.Roll` | player.py:56 | every d20 drawn from the stream is between 1 and 20 |
| `Rally.Choice` | main.py:18 | a random choice is always a member of the candidate list |
| `Rally.IsServeTarget` | main.py:19 | the serve target must play MB, WS or O (a definition) |
| `Rally.SetterChoices` | main.py:69-73 | the setter candidates are the team's S players when the receiver is not an S, otherwise every teammate but the receiver |
| `Rally.ChosenSetter` | main.py:69-73 | the chosen setter is on the team, is an S when the receiver is not one, and is never the receiver when the receiver is an S |
| `Rally.SpikePool` | main.py:76-82 | the weighted spike pool: every slot adds its occupant round(jumping + power + sense) times, twice that in slots 1 to 3, and nothing for the setter, a libero or a non-positive weight (a definition; the two rows below state what it holds) |
| `Rally.SpikePoolMembers` | main.py:76-82 | the spike pool holds exactly the teammates other than the setter and the liberos whose rounded jumping + power + sense is positive |
| `Rally.SpikePoolCount` | main.py:76-82 | in any line-up, duplicates left by substitution included, a player appears in the pool as often as the counts of all the slots holding them add up to |
| `Rally.StackShare` | main.py:76-82 | the entries appended for the first n slots hold each player exactly the sum of those slots' counts that hold them |
| `Rally.SpikePoolCountDistinct` | main.py:76-82 | in a line-up of distinct players an eligible player appears round(jumping + power + sense) times, twice that in slots 1 to 3, and an ineligible player never appears |
| `Rally.BuildSpikePool` | main.py:76-82 | the nested append loops build exactly that pool |
| `Rally.SlotEntries` | main.py:78-82 | the entries the inner loop adds for one slot: the occupant repeated by the slot's weight, which is doubled in slots 1 to 3 and zero for the setter, a libero or a non-positive weight |
| `Rally.AddEntries` | main.py:79-82 | the inner loop adds the player once per unit of weight, twice per unit in slots 1 to 3, and nothing for a non-positive weight |
| `Rally.Follows` | main.py:4-134 | the tail calls of the rally functions as a transition relation: which phase may follow which, on which side and with which player (a definition; `StepFollows` proves the steps keep to it) |
| `Rally.FollowsStaysOnCourt` | main.py:26-134 | every player a phase names plays for the side the phase says |
| `Rally.PointFollowsAFailure` | main.py:24-54 | in any chain of phases a point can only follow the losing side's serve or receive phase |
| `Rally.ServeOn` | main.py:4-30 | serve() on a book of stats: slot 0 serves at the first MB, WS or O the draws pick, on the next draw as the roll; a miss gives the opponents the point, otherwise they receive at rating - 5; the server's technique is worn; it takes draws from the front and halts only when they run out (a definition; `ServeHalts` and `StepPoint` state its properties) |
| `Rally.ReceiveOn` | main.py:32-54 | receive() on a book of stats: a failed receive gives the other team the point, a successful one leads to a set by the same team off the receiver; the receiver's speed is worn (a definition) |
| `Rally.SetOn` | main.py:56-89 | set() on a book of stats: the setter is picked from the setter candidates, the pool is built without the setter, the set rating goes to the other team's block with a spiker picked from the pool; an empty candidate list or pool halts; the setter's sense is worn (a definition) |
| `Rally.BlockOn` | main.py:91-107 | block() on a book of stats: the blocker is picked from slots 1 to 3, blocks the set rating, and the other side spikes; the blocker's jumping is worn (a definition) |
| `Rally.SpikeOn` | main.py:109-134 | spike() on a book of stats: a truthy block above the spike rating makes the attacking side receive from its own back row at the block rating, otherwise the defending side receives from its back row at the spike rating; the spiker's power is worn (a definition) |
| `Rally.StepOn` | main.py:4-134 | one tail call: it takes draws from the front of the stream, only a halt takes none, and a step that runs out of draws leaves none |
| `Rally.RallyFrom` | main.py:4-134 | the rally from a phase on, step after step until a point or a halt: it ends on a point or a halt, leaves a suffix of the draws, uses a draw before a point and uses them all when it runs out |
| `Rally.ServeHalts` | main.py:18-30 | a serve halts exactly when no draw but the last picks an MB, WS or O, and it then has used up the stream |
| `Rally.StepFollows` | main.py:4-134 | every step enters a phase that `Follows` allows after the one it ran |
| `Rally.StepPoint` | main.py:24-54 | a step ends in a point exactly when its serve misses or its receive fails on the book's stats, and the point goes against the side that made the check |
| `Rally.RallyDecided` | main.py:4-134 | a rally ends in a point exactly when the serve or receive check of its last step fails on the stats of that moment, and the point goes against the side that made the check |
| `Rally.ChooseServeTarget` | main.py:18-20 | the target is the pick of the first draw that lands on an MB, WS or O; no draw lands on one when the stream runs out |
| `Rally.ServeStep` | main.py:4-30 | serve() on the players does exactly what `ServeOn` gives, the server's technique worn in place, and halts exactly when no draw but the last picks a target |
| `Rally.ReceiveStep` | main.py:32-54 | receive() on the players does exactly what `ReceiveOn` gives, with the receiver's speed worn in place |
| `Rally.SetStep` | main.py:56-89 | set() on the players does exactly what `SetOn` gives: the pool is built on the stats before the set, and the setter's sense is worn in place |
| `Rally.BlockStep` | main.py:91-107 | block() on the players does exactly what `BlockOn` gives, with the blocker's jumping worn in place |
| `Rally.SpikeStep` | main.py:109-134 | spike() on the players does exactly what `SpikeOn` gives, with the spiker's power worn in place |
| `Rally.Step` | main.py:4-134 | any tail call on the players does exactly what `StepOn` gives, and the players' stats become the book `StepOn` leaves |
| `Rally.Advance` | main.py:4-134 | one step of the rally loop keeps the rally that is left equal to the one the rally started with: the stats after the step, the phase it enters and the draws it leaves give the same `RallyFrom` result, and the trace grows by a phase that follows the last one |
| `Rally.PlayRally` | main.py:4-134 | the rally from the serve ends exactly where `RallyFrom` says, on the draws it says, with every player's stats as it says; the ghost trace starts with the serve and each phase follows the one before it |
| `Matches.InPlay` | main.py:164 | the set loop's condition: both sides under 25, or a lead of less than two (a definition) |
| `Matches.ScoreStep` | main.py:164 | from a score in play, one more point leaves the set in play or on a decided score |
| `Matches.AddPoint` | main.py:171-174 | the rally winner's counter goes up by one and the other stays; from a score in play the set stays in play or is decided |
| `Matches.AddSet` | main.py:290-293 | the set winner's counter goes up by one and the other stays, so with both under three neither goes past three |
| `Matches.WinsSplit` | main.py:171-175 | every rally adds a point to exactly one side: the two tallies add up to the rallies played |
| `Matches.WinsSnoc` | main.py:171-175 | one more rally adds one to its winner's tally and nothing to the other's |
| `Matches.ScoreIsTally` | main.py:171-175 | the score after a rally is the tally of the rallies with that one added |
| `Matches.DecidedIsOver` | main.py:164 | a decided score ends the loop, with a winner on at least 25 and a lead of at least 2 |
| `Matches.Apply` | main.py:190-219 | one substitution pass as written, including its two quirks (a definition) |
| `Matches.Substituted` | main.py:190-219 | the four substitution passes of the set loop, as written, each reading the line-up the one before it left (a definition; the rows below state its properties) |
| `Matches.SubstitutedSteps` | main.py:190-219 | the four passes written out: team one's back and front rows, then team two's back row read from team one's line-up and team two's front row, each on what the pass before it left |
| `Matches.RunPasses` | main.py:190-219 | running the four passes one after the other computes exactly that result, six a side and within the squad |
| `Matches.SubstitutedShape` | main.py:190-219 | the substitution passes keep six players a side, only append to the reserves, and bring in nobody from outside the squad |
| `Matches.SubstitutedCloses` | main.py:190-219 | everybody on court or in reserve after the passes was on court or in reserve before |
| `Matches.PassWithoutLeavers` | main.py:193-198 | a pass over a row with nobody of the leaving position changes neither the line-up nor the reserves |
| `Matches.BackRowPassShifts` | main.py:193-198 | quirk: with a middle blocker in slot 4 and a libero in reserve, the blocker stays in slot 4 and slot 1 gets the libero |
| `Matches.BackRowPassSlots` | main.py:193-198 | quirk: the back-row pass changes only slots 0 to 2, slot k by the back-row entry of index k |
| `Matches.FrontRowPassSlots` | main.py:200-205 | the front-row pass replaces exactly the liberos in slots 1 to 3 and leaves slots 0, 4 and 5 alone |
| `Matches.TeamTwoReadsTeamOne` | main.py:207-212 | quirk: when team one's back row holds no middle blocker, team two's back-row middle blockers stay and only its front-row pass runs |
| `Matches.SubstitutionDuplicates` | main.py:193-205 | quirk: with middle blockers in slots 4 and 5 and one libero in reserve, the passes leave the slot-5 blocker in slots 1, 2 and 5 at once, so the line-up is no longer distinct |
| `Matches.CrossTeam` | main.py:207-219 | quirk: with no libero on either court, a libero only in team two's reserves and a middle blocker only in team one's slot 4, team one is left as it was and team one's slot-4 blocker also stands in team two's slot 1 |
| `Matches.Rotated` | main.py:183-187 | a serve-change rotation keeps the same players on the court and in reserve |
| `Matches.AfterRally` | main.py:182-219 | one rally's effect on the line-ups: the winner rotates when it was not serving, then the substitutions run; six a side stays six a side |
| `Matches.AfterRalliesSnoc` | main.py:163-219 | after one more rally its winner serves, and the line-up is that rally's effect on the line-up before it |
| `Matches.StartedInPlayPrefixes` | main.py:164 | every rally of a set started on a score still in play |
| `Matches.SetFrom` | main.py:164-219 | the rest of a set: while the score is in play the last winner, team one at first, serves the rally `RallyFrom` gives on the current line-up and stats; a halted rally ends the set, a point goes to its winner and the line-up changes as `AfterRally` says (a definition; `SetFromRecord` and `WonSetLength` state its properties) |
| `Matches.SetFromRecord` | main.py:164-226 | a set is the tally of its rallies: every rally started in play and used a draw, the line-up is what all of them leave, a won set ends on a decided score whose points are the rallies each side won and goes to the side with more points, a halted set stopped in play, and a set that ran out of draws used them all |
| `Matches.WonSetLength` | main.py:164 | a set won from 0-0 took at least 25 rallies and so at least 25 draws |
| `Matches.Court.constructor` | main.py:289 | the court starts from the two line-ups and two reserve lists, with six a side |
| `Matches.Court.Substitute` | main.py:190-219 | the line-ups and reserves become the result of the four passes in order, six a side, within the squad |
| `Matches.Court.ChangeServe` | main.py:182-187 | the rally winner serves next, and its team rotates exactly when it was not serving |
| `Matches.Court.SortTeams` | main.py:157-158 | both line-ups are stably sorted by start position, and nothing else changes |
| `Matches.Court.Rally` | main.py:166-169 | the rally served on the court ends exactly as `RallyFrom` says on the current line-up and stats, and leaves the players with the stats it gives |
| `Matches.Court.FollowUp` | main.py:182-219 | after a point the winner serves next and the line-ups become that rally's effect on them; after a halted rally nothing changes |
| `Matches.Court.PlayTurn` | main.py:164-219 | one pass of the set loop without the score: the rally is the one `RallyFrom` gives, a point's winner serves next and the line-ups become that rally's effect, and a halted rally leaves the line-ups as they were |
| `Matches.Court.PlayRound` | main.py:164-219 | one rally of a set in play keeps the set equal to the `SetFrom` result it started with: a halted rally ends the set as that result says, and a point leaves the rest of that same set to play, on fewer draws |
| `Matches.Court.PlayRallies` | main.py:160-226 | the rally loop from 0-0 with team one serving plays exactly the set `SetFrom` gives on the court and stats before it: its outcome, the draws it leaves, the line-up and the stats |
| `Matches.Court.PlaySet` | main.py:138-226 | game_set() sorts both teams and then plays exactly the set `SetFrom` gives from the sorted line-up: the outcome, the draws left, the line-up after it and the players' stats |
| `Matches.RemoveFirst` | main.py:270 | list.remove takes out exactly one occurrence of the player |
| `Matches.RemoveFirstSkips` | main.py:269-270 | removing a player takes out its first occurrence, whatever follows it |
| `Matches.RemoveEach` | main.py:269-270 | removing each reserve leaves the starters' players, and exactly the starters when no reserve is among them |
| `Matches.SplitRoster` | main.py:259-278 | the reserves are the sorted roster past the sixth player, in order; six starters remain; with distinct players they are the first six |
| `Matches.SetUp` | main.py:249-278 | the court starts from both rosters sorted by start position: the reserves are the players past the sixth, every roster player is a starter or a reserve of their own team, and with distinct players the starters are the first six |
| `Matches.StartedOpenPrefixes` | main.py:288 | every set of the match started with neither side on three sets |
| `Matches.OpenTally` | main.py:288-293 | sets that all started open leave each side on at most three, and a side on three won the last set |
| `Matches.MatchFrom` | main.py:288-293 | the rest of a match: won by the first side to three sets, and otherwise `MatchNext` (a definition; `MatchFromRecord` states its properties) |
| `Matches.MatchNext` | main.py:288-293 | the next set is `SetFrom` on the line-up sorted by start position, its winner gets the set, and the match goes on from the line-up and stats it leaves; a halted set halts the match (a definition) |
| `Matches.MatchFromRecord` | main.py:288-293 | a match is the tally of its sets: the counts are the set winners' tallies, every set started with neither side on three, at most five sets were played, a won match went to the winner of the last set with three sets against fewer, a halted one stopped with both under three, and every won set used at least 25 draws |
| `Matches.Court.PlayMatchSet` | main.py:288-293 | one set of a match with both sides under three keeps the match equal to the `MatchFrom` result it started with: a halted set ends the match as that result says, and a won set adds one to its winner and leaves the rest of that same match |
| `Matches.Court.PlaySets` | main.py:288-293 | the set loop plays exactly the match `MatchFrom` gives on the court and stats before it |
| `Matches.Match` | main.py:229-293 | match() sets up the court from the two rosters and plays exactly the match `MatchFrom` gives from the starting line-up and the players' stats before it: its outcome, the draws it leaves and every player's stats after it |

## Left out

- Printing, `time.sleep`, the ENTER prompts and the ANSI colour strings are presentation only.
- The file read and the line split of `team_setup`, and the top-level `input` calls, are I/O. The constructor takes the roster line already split on `|`.
- `Players.Player.constructor`: the raw line kept in `self.string` is not stored, because nothing in the core reads it.
- `Players.Player.constructor`: requires a line with at least nine fields and integers at fields 2 to 8. A shorter line (IndexError) or a field int() rejects (ValueError) raises in the source; the model states nothing for it.
- `__str__` and `__repr__` are presentation.
- The getters `get_position` and `get_start_position` are read as the constant fields `position` and `startPosition`.
- The probability distributions of `randint` and `choice` are left out, spike-pool weighting included. Draws are an injected stream, and the model states what each candidate list holds.
- Stats are Dafny reals. Python's binary floating-point artefacts in `(6 - raw)/100` and in the decayed stats are not reproduced.
- `Builtins.ParseInt`: Python's `int()` also accepts underscores between digits and non-ASCII digits and spaces. The model rejects them, so such a roster line is not well formed.
- Team identity: the source compares line-ups as lists by value (`winner == team_one`). The model labels the two sides instead. Two line-ups that held the same players in the same order are not modelled.
- The points and sets dictionaries are keyed by team name. Two teams with the same name would share one counter. The model keeps two counters.
- Exceptions: `random.choice` on an empty setter list or an empty spike pool raises `IndexError` in the source. The model ends the rally with `Halted(NoSetter)` or `Halted(NoSpiker)` instead, and the set and match stop with a halted outcome.
- The serve-target loop never ends when the opponents have no MB, WS or O. In the model it runs out of draws.
- Rosters and line-ups shorter than six players are excluded by the rally's, the court's and the match's preconditions. The source's docstrings require at least six.
- `Rally.SetStep`: a set step whose pool is non-empty halts without using the set when only two draws remain. This comes from the rule that a step does not start without all its draws, and it is not source behaviour.
- `Matches.SplitRoster`: with the same player object twice in a roster, the starters are stated only as a multiset. `team_setup` builds a fresh object for every line, so the case does not arise from the source.
- `Rally.PlayRally`: may change any player object passed in, not only the twelve on court. The book it ends on still fixes every player's stats.
- Player stats are given to the set and match functions as a book, a ghost map from each player to their stats. The methods keep the players' fields in step with it.
