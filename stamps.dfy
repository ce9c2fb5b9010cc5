/** The data model of the score simulator: a score is a pair of counters,
    home and away, and a stamp records the score at a time offset. A game
    is the sequence of stamps produced by the generator, starting from the
    initial stamp (offset 0, score 0:0). */
module Stamps {

  /** Number of generation steps of one game. */
  const TimestampsCount: nat := 50000

  /** Inclusive upper bound of the offset advance of one step. */
  const OffsetMaxStep: int := 3

  /** The bounds of a signed 32-bit integer, the width of every field. */
  const I32Min: int := -0x8000_0000
  const I32Max: int := 0x7fff_ffff

  datatype Score = Score(home: int, away: int)

  datatype Stamp = Stamp(offset: int, score: Score)

  /** The score 0:0, also the answer to a query before the first stamp. */
  const ZeroScore: Score := Score(0, 0)

  /** The sentinel every game starts with. */
  const InitialStamp: Stamp := Stamp(0, ZeroScore)

  predicate IsI32(x: int) {
    I32Min <= x <= I32Max
  }

  /** Componentwise order on scores. */
  predicate ScoreLe(a: Score, b: Score) {
    a.home <= b.home && a.away <= b.away
  }

  /** Offsets strictly increase along the sequence. */
  ghost predicate StrictlySorted(stamps: seq<Stamp>) {
    forall i, j :: 0 <= i < j < |stamps| ==> stamps[i].offset < stamps[j].offset
  }

  /** Neither counter ever decreases along the sequence. */
  ghost predicate ScoresNonDecreasing(stamps: seq<Stamp>) {
    forall i, j :: 0 <= i <= j < |stamps| ==> ScoreLe(stamps[i].score, stamps[j].score)
  }

  /** No counter is negative anywhere in the sequence. */
  ghost predicate ScoresNonNegative(stamps: seq<Stamp>) {
    forall i :: 0 <= i < |stamps| ==> ScoreLe(ZeroScore, stamps[i].score)
  }
}
