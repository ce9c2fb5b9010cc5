/** Generation of a game: one random step at a time, folded over a fixed
    number of steps. The three random draws of a step are inputs here. */
module Generator {
  import opened Stamps

  /** An offset advance as drawn from the inclusive range 1..OffsetMaxStep. */
  type OffsetChange = d: int | 1 <= d <= OffsetMaxStep witness 1

  /** The three draws of one step: did the score change, is the change on
      the home side, and how far the offset advances. */
  datatype Draw = Draw(scoreChanged: bool, homeScoreChange: bool, offsetChange: OffsetChange)

  /** What any single generation step may do: advance the offset by 1 to
      OffsetMaxStep, and add one to at most one of the two counters. */
  ghost predicate IsStep(previous: Stamp, next: Stamp) {
    && previous.offset < next.offset <= previous.offset + OffsetMaxStep
    && (next.score.home == previous.score.home || next.score.home == previous.score.home + 1)
    && (next.score.away == previous.score.away || next.score.away == previous.score.away + 1)
    && !(next.score.home != previous.score.home && next.score.away != previous.score.away)
  }

  /** One generation step from the previous stamp. */
  function GenerateStamp(previous: Stamp, draw: Draw): (next: Stamp)
    ensures IsStep(previous, next)
    ensures next.offset - previous.offset == draw.offsetChange
    ensures next.score.home == previous.score.home + 1 <==> draw.scoreChanged && draw.homeScoreChange
    ensures next.score.away == previous.score.away + 1 <==> draw.scoreChanged && !draw.homeScoreChange
    ensures !draw.scoreChanged ==> next.score == previous.score
  {
    Stamp(
      previous.offset + draw.offsetChange,
      Score(
        previous.score.home + (if draw.scoreChanged && draw.homeScoreChange then 1 else 0),
        previous.score.away + (if draw.scoreChanged && !draw.homeScoreChange then 1 else 0)))
  }

  /** Every admissible step is produced by some choice of draws, so IsStep
      describes GenerateStamp exactly. */
  lemma StepHasDraw(previous: Stamp, next: Stamp)
    requires IsStep(previous, next)
    ensures exists draw :: GenerateStamp(previous, draw) == next
  {
    var homeChanged := next.score.home != previous.score.home;
    var awayChanged := next.score.away != previous.score.away;
    var draw := Draw(homeChanged || awayChanged, homeChanged, next.offset - previous.offset);
    assert GenerateStamp(previous, draw) == next;
  }

  /** The stamps are the initial stamp followed by one step per draw, each
      computed from its predecessor. */
  ghost predicate Generated(stamps: seq<Stamp>, draws: seq<Draw>) {
    && |stamps| >= 1
    && |stamps| <= |draws| + 1
    && stamps[0] == InitialStamp
    && forall i :: 0 <= i < |stamps| - 1 ==> stamps[i + 1] == GenerateStamp(stamps[i], draws[i])
  }

  /** The shape of every generated game: the sentinel first, then one
      admissible step after another. */
  ghost predicate ValidGame(stamps: seq<Stamp>) {
    && |stamps| >= 1
    && stamps[0] == InitialStamp
    && forall i :: 0 <= i < |stamps| - 1 ==> IsStep(stamps[i], stamps[i + 1])
  }

  /** Builds a game of n steps, consuming the first n draws. */
  method GenerateGame(n: nat, draws: seq<Draw>) returns (stamps: seq<Stamp>)
    requires n <= |draws|
    ensures |stamps| == n + 1
    ensures stamps[0] == InitialStamp
    ensures Generated(stamps, draws)
    ensures ValidGame(stamps)
    ensures StrictlySorted(stamps) && ScoresNonDecreasing(stamps) && ScoresNonNegative(stamps)
  {
    stamps := [InitialStamp];
    var current := InitialStamp;
    for i := 0 to n
      invariant |stamps| == i + 1
      invariant current == stamps[i]
      invariant Generated(stamps, draws)
    {
      current := GenerateStamp(current, draws[i]);
      stamps := stamps + [current];
    }
    GeneratedIsValid(stamps, draws);
    ValidGameOrdered(stamps);
  }

  lemma GeneratedIsValid(stamps: seq<Stamp>, draws: seq<Draw>)
    requires Generated(stamps, draws)
    ensures ValidGame(stamps)
  {
  }

  /** A game is determined by its draws and its length. */
  lemma GeneratedUnique(s1: seq<Stamp>, s2: seq<Stamp>, draws: seq<Draw>)
    requires Generated(s1, draws) && Generated(s2, draws) && |s1| == |s2|
    ensures s1 == s2
  {
    forall i | 0 <= i < |s1|
      ensures s1[i] == s2[i]
    {
      GeneratedUniqueAt(s1, s2, draws, i);
    }
  }

  lemma {:induction false} GeneratedUniqueAt(s1: seq<Stamp>, s2: seq<Stamp>, draws: seq<Draw>, i: nat)
    requires Generated(s1, draws) && Generated(s2, draws) && i < |s1| && i < |s2|
    ensures s1[i] == s2[i]
  {
    if i > 0 {
      GeneratedUniqueAt(s1, s2, draws, i - 1);
    }
  }

  /** Between positions i and j of a valid game the offset grows by at least
      j - i and at most OffsetMaxStep * (j - i), neither counter decreases,
      and the two counters together grow by at most j - i. */
  lemma {:induction false} ValidGameSpan(stamps: seq<Stamp>, i: nat, j: nat)
    requires ValidGame(stamps)
    requires i <= j < |stamps|
    ensures stamps[i].offset + (j - i) <= stamps[j].offset <= stamps[i].offset + OffsetMaxStep * (j - i)
    ensures ScoreLe(stamps[i].score, stamps[j].score)
    ensures (stamps[j].score.home + stamps[j].score.away) - (stamps[i].score.home + stamps[i].score.away) <= j - i
    decreases j - i
  {
    if i < j {
      ValidGameSpan(stamps, i, j - 1);
      assert IsStep(stamps[j - 1], stamps[j]);
    }
  }

  /** A valid game is sorted strictly by offset, and its scores are
      non-negative and never decrease. */
  lemma ValidGameOrdered(stamps: seq<Stamp>)
    requires ValidGame(stamps)
    ensures StrictlySorted(stamps)
    ensures ScoresNonDecreasing(stamps)
    ensures ScoresNonNegative(stamps)
  {
    forall i, j | 0 <= i <= j < |stamps|
      ensures i < j ==> stamps[i].offset < stamps[j].offset
      ensures ScoreLe(stamps[i].score, stamps[j].score)
    {
      ValidGameSpan(stamps, i, j);
    }
    forall i | 0 <= i < |stamps|
      ensures ScoreLe(ZeroScore, stamps[i].score)
    {
      ValidGameSpan(stamps, 0, i);
    }
  }

  /** Position i of a valid game lies at offset i to OffsetMaxStep * i, and
      at most i goals have been scored by then. */
  lemma ValidGameBounds(stamps: seq<Stamp>, i: nat)
    requires ValidGame(stamps) && i < |stamps|
    ensures i <= stamps[i].offset <= OffsetMaxStep * i
    ensures 0 <= stamps[i].score.home && 0 <= stamps[i].score.away
    ensures stamps[i].score.home + stamps[i].score.away <= i
  {
    ValidGameSpan(stamps, 0, i);
  }

  /** A game of at most TimestampsCount steps never overflows the 32-bit
      fields of a stamp. */
  lemma ValidGameFitsI32(stamps: seq<Stamp>)
    requires ValidGame(stamps) && |stamps| <= TimestampsCount + 1
    ensures forall i :: 0 <= i < |stamps| ==>
      IsI32(stamps[i].offset) && IsI32(stamps[i].score.home) && IsI32(stamps[i].score.away)
  {
    forall i | 0 <= i < |stamps|
      ensures IsI32(stamps[i].offset) && IsI32(stamps[i].score.home) && IsI32(stamps[i].score.away)
    {
      ValidGameBounds(stamps, i);
    }
  }
}
