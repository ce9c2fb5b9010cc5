# Score simulator: generation and point-in-time lookup

A model of a small program that simulates the score of a game between a
home and an away side. It generates a log of stamps, one per time step,
each holding an offset and the score (home, away) at that offset. It then
answers queries of the form "what was the score at or before offset t?".

- `stamps.dfy` (module `Stamps`): the data model. It holds `Score`, `Stamp`,
  the constants `TimestampsCount`, `OffsetMaxStep` and `InitialStamp`, the
  32-bit bounds, and the order predicates that the other modules share.
- `generator.dfy` (module `Generator`): `GenerateStamp` is one step and
  `GenerateGame` is the loop that folds it. A step's three random draws are
  an input value `Draw`. `IsStep` describes what any single step may do.
  `ValidGame` describes the shape of every game. The lemmas derive the
  global properties from these.
- `lookup.dfy` (module `Lookup`): `Position` is the linear search for the
  first stamp after the query. `GetScore` is the three-way answer built on
  it. The module also holds the properties of both on sorted logs and the
  four unit tests, written as lemmas.
- `game.dfy` (module `Game`): properties of queries made against a
  generated game.

`GetScore` returns a `Score` where the program returns the pair
`(home, away)`; the two carry the same information. The panic on an empty
log (the `expect` at src/main.rs:80) is the result `Err(EmptyStamps)`. The `expect` at src/main.rs:74, which would
fire if `next_index - 1` were out of bounds, cannot fire. `GetScore` indexes
`stamps[nextIndex - 1]` only after `Position`'s contract has proved that
index in range.

The program's documentation says queries should use a non-negative offset.
Its code does not demand this, so `GetScore` has no precondition.
`NonNegativeQueryOnGame` shows what that documented assumption buys: on a
generated game the 0:0 branch for queries before the first stamp is
unreachable.

## Model

| member | source | states |
|---|---|---|
| `Generator.GenerateStamp` | src/main.rs:28-50 | the next offset lies 1 to `OffsetMaxStep` after the previous one, by exactly the drawn amount; home gains one iff the score changed on the home side, away gains one iff it changed on the away side; with no change the score is unchanged; the result is an admissible step (`IsStep`) |
| `Generator.StepHasDraw` | src/main.rs:29-49 | every admissible step is produced by some draw, so `IsStep` describes `GenerateStamp` exactly |
| `Generator.GenerateGame` | src/main.rs:52-62 | the result has n + 1 stamps, starts with the initial stamp, and each later stamp is `GenerateStamp` of its predecessor with the matching draw; it is sorted strictly by offset, with scores that are non-negative and never decrease |
| `Generator.GeneratedIsValid` | src/main.rs:53-59 | a generated log has the shape of a valid game: the sentinel first, then admissible steps |
| `Generator.GeneratedUnique` | src/main.rs:52-62 | the draws and the step count determine the game |
| `Generator.ValidGameSpan` | src/main.rs:31-47 | between positions i <= j the offset grows by at least j - i and at most 3(j - i); neither counter decreases; the two together grow by at most j - i |
| `Generator.ValidGameOrdered` | src/main.rs:11-62 | a valid game is strictly sorted by offset; its scores never decrease and are never negative |
| `Generator.ValidGameBounds` | src/main.rs:9-62 | the stamp at position i has an offset between i and 3i, and non-negative counters that sum to at most i |
| `Generator.ValidGameFitsI32` | src/main.rs:3-26 | a game of at most `TimestampsCount` steps keeps every offset and counter within the signed 32-bit range |
| `Lookup.Position` | src/main.rs:69 | returns the index of the first stamp whose offset is greater than the query, with every earlier stamp at or before it; returns None iff every stamp is at or before the query |
| `Lookup.GetScore` | src/main.rs:64-84 | fails iff the log is empty; answers 0:0 when the first stamp lies after the query; answers the last score when no stamp lies after the query; otherwise answers the score of the unique stamp just before the first stamp past the query (on a strictly sorted log, the latest stamp at or before it) |
| `Lookup.AnsweringIndex` | src/main.rs:69-80 | a query that does not precede the first stamp is answered with the score at an in-range index: the stamp just before the first stamp past the query, or the last stamp when none lies past it (on a strictly sorted log, the latest stamp at or before the query); this is why the `next_index - 1` lookup cannot fail |
| `Lookup.ExactOffset` | src/main.rs:64-67 | on a strictly sorted log, a query at a stamp's exact offset returns that stamp's score |
| `Lookup.GetScoreMonotone` | src/main.rs:64-67 | with non-negative, non-decreasing scores, a later query succeeds exactly when an earlier one does, and its answer is componentwise at least the earlier one |
| `Lookup.TestSuccessfulMatch` | src/main.rs:96-113 | the three-stamp log queried at 20 answers (1, -1) |
| `Lookup.TestMatchBefore` | src/main.rs:115-126 | a query before the only stamp answers 0:0 |
| `Lookup.TestMatchBehind` | src/main.rs:128-142 | a query after the only stamp answers that stamp's score |
| `Lookup.TestUnsuccessfulMatch` | src/main.rs:144-148 | a query on an empty log fails |
| `Game.ExactQueryOnGame` | src/main.rs:52-84 | on a generated game, a query at any stamp's offset returns the stored score |
| `Game.NonNegativeQueryOnGame` | src/main.rs:64-80 | on a game, a query at a non-negative offset never takes the 0:0 branch; it answers the non-negative score of a stamp at or before the offset |
| `Game.QueryMonotoneOnGame` | src/main.rs:52-84 | on a game, queries always succeed, and a later query answers a componentwise larger-or-equal score |
| `Game.QueryAtZeroOnGame` | src/main.rs:86-90 | the program's own query, at offset 0 of a generated game, always answers 0:0 |

## Left out

- Random number generation (`thread_rng`, `gen_bool`, `gen_range`) is not modelled; the three draws of each step are an input `Draw`, and the offset draw is typed to the range 1..3 that `gen_range(1..=OFFSET_MAX_STEP)` produces.
- The probabilities `PROBABILITY_SCORE_CHANGED` and `PROBABILITY_HOME_SCORE` and the statistical distribution of games: they are floating-point parameters of the random draws, which are inputs here.
- `Generator.GenerateGame` takes the step count n as a parameter in place of the constant `TimestampsCount`; `ValidGameFitsI32` ties the two together.
- 32-bit arithmetic: fields are unbounded integers; `ValidGameFitsI32` proves that a game of `TimestampsCount` steps never leaves the i32 range, so no overflow arises in generation. Hand-built logs, like those of the unit tests, are not range-checked.
- `main` and its `dbg!` output are I/O; only the query it makes is stated, as `Game.QueryAtZeroOnGame`.
- Panic messages: only the failure itself is modelled, as `Err(EmptyStamps)`.
