/** Queries against a generated game. */
module Game {
  import opened Stamps
  import opened Generator
  import opened Lookup

  /** Querying the exact offset of any stamp of a game returns the score
      stored in that stamp. */
  lemma ExactQueryOnGame(stamps: seq<Stamp>, k: nat)
    requires ValidGame(stamps) && k < |stamps|
    ensures GetScore(stamps, stamps[k].offset) == Ok(stamps[k].score)
  {
    ValidGameOrdered(stamps);
    ExactOffset(stamps, k);
  }

  /** A query at a non-negative offset never fails and never falls into the
      0:0 branch for queries before the first stamp: it answers with the
      score of a stamp at or before the offset, which is never negative. */
  lemma NonNegativeQueryOnGame(stamps: seq<Stamp>, offset: int) returns (i: nat)
    requires ValidGame(stamps) && offset >= 0
    ensures Position(stamps, offset) != Some(0)
    ensures i < |stamps| && stamps[i].offset <= offset
    ensures GetScore(stamps, offset) == Ok(stamps[i].score)
    ensures ScoreLe(ZeroScore, stamps[i].score)
  {
    i := AnsweringIndex(stamps, offset);
    ValidGameBounds(stamps, i);
  }

  /** On a game, the answer to a later query is componentwise at least the
      answer to an earlier one. */
  lemma QueryMonotoneOnGame(stamps: seq<Stamp>, offset1: int, offset2: int)
    requires ValidGame(stamps) && offset1 <= offset2
    ensures GetScore(stamps, offset1).Ok? && GetScore(stamps, offset2).Ok?
    ensures ScoreLe(GetScore(stamps, offset1).value, GetScore(stamps, offset2).value)
  {
    ValidGameOrdered(stamps);
    GetScoreMonotone(stamps, offset1, offset2);
  }

  /** The query the program makes, at offset 0, always answers 0:0: the
      sentinel is the only stamp at or before offset 0. */
  lemma QueryAtZeroOnGame(stamps: seq<Stamp>)
    requires ValidGame(stamps)
    ensures GetScore(stamps, 0) == Ok(ZeroScore)
  {
    if |stamps| > 1 {
      assert IsStep(stamps[0], stamps[1]);
    }
    assert JustBeforeFirstAfter(stamps, 0, 0);
  }
}
