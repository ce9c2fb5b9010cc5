/** Point-in-time lookup: the score at or before a given offset. */
module Lookup {
  import opened Stamps

  datatype Option<T> = None | Some(value: T)

  /** The one failure of a lookup: it was asked of an empty sequence. */
  datatype LookupError = EmptyStamps

  datatype Result<T> = Ok(value: T) | Err(error: LookupError)

  /** The index of the first stamp whose offset is strictly greater than
      the queried offset, or None when there is no such stamp. */
  function Position(stamps: seq<Stamp>, offset: int): (r: Option<nat>)
    ensures r.Some? ==> r.value < |stamps| && stamps[r.value].offset > offset
    ensures r.Some? ==> forall j :: 0 <= j < r.value ==> stamps[j].offset <= offset
    ensures r.None? <==> forall j :: 0 <= j < |stamps| ==> stamps[j].offset <= offset
  {
    if stamps == [] then None
    else if stamps[0].offset > offset then Some(0)
    else match Position(stamps[1..], offset)
      case None => None
      case Some(k) => Some(k + 1)
  }

  /** Stamp i is the stamp just before the first stamp past the offset: it
      and every stamp before it lie at or before the offset, and the next
      one (if any) lies after it. On a strictly sorted sequence this is the
      latest stamp at or before the offset; on an unsorted one a later stamp
      may also lie at or before it. */
  ghost predicate JustBeforeFirstAfter(stamps: seq<Stamp>, offset: int, i: int) {
    && 0 <= i < |stamps|
    && (forall j :: 0 <= j <= i ==> stamps[j].offset <= offset)
    && (i + 1 < |stamps| ==> stamps[i + 1].offset > offset)
  }

  /** The score at the given offset: that of the stamp just before the
      first stamp past it (on a strictly sorted sequence, the latest stamp
      at or before it), 0:0 when the first stamp already lies after it, and
      an error for an empty sequence. */
  function GetScore(stamps: seq<Stamp>, offset: int): (r: Result<Score>)
    ensures r.Err? <==> stamps == []
    ensures stamps != [] && stamps[0].offset > offset ==> r == Ok(ZeroScore)
    ensures stamps != [] && (forall j :: 0 <= j < |stamps| ==> stamps[j].offset <= offset) ==>
      r == Ok(stamps[|stamps| - 1].score)
    ensures stamps != [] && stamps[0].offset <= offset ==>
      exists i :: JustBeforeFirstAfter(stamps, offset, i) && r == Ok(stamps[i].score)
    ensures forall i :: JustBeforeFirstAfter(stamps, offset, i) ==> r == Ok(stamps[i].score)
  {
    match Position(stamps, offset)
    case Some(0) => Ok(ZeroScore)
    case Some(nextIndex) =>
      assert JustBeforeFirstAfter(stamps, offset, nextIndex - 1);
      Ok(stamps[nextIndex - 1].score)
    case None =>
      if stamps == [] then Err(EmptyStamps)
      else
        assert JustBeforeFirstAfter(stamps, offset, |stamps| - 1);
        Ok(stamps[|stamps| - 1].score)
  }

  /** On a sequence sorted strictly by offset, querying the exact offset
      of a stamp returns that stamp's score. */
  lemma ExactOffset(stamps: seq<Stamp>, k: nat)
    requires StrictlySorted(stamps) && k < |stamps|
    ensures GetScore(stamps, stamps[k].offset) == Ok(stamps[k].score)
  {
    assert JustBeforeFirstAfter(stamps, stamps[k].offset, k);
  }

  /** The index of the stamp whose score a query answers with, when the
      query does not precede the first stamp. */
  lemma AnsweringIndex(stamps: seq<Stamp>, offset: int) returns (i: nat)
    requires stamps != [] && stamps[0].offset <= offset
    ensures JustBeforeFirstAfter(stamps, offset, i)
    ensures GetScore(stamps, offset) == Ok(stamps[i].score)
  {
    match Position(stamps, offset)
    case Some(k) => i := k - 1;
    case None => i := |stamps| - 1;
  }

  /** A later query never answers with a smaller score, provided the
      scores are non-negative and never decrease along the sequence. */
  lemma GetScoreMonotone(stamps: seq<Stamp>, offset1: int, offset2: int)
    requires ScoresNonDecreasing(stamps) && ScoresNonNegative(stamps)
    requires offset1 <= offset2
    ensures GetScore(stamps, offset1).Ok? == GetScore(stamps, offset2).Ok?
    ensures GetScore(stamps, offset1).Ok? ==>
      ScoreLe(GetScore(stamps, offset1).value, GetScore(stamps, offset2).value)
  {
    if stamps != [] && stamps[0].offset <= offset1 {
      var i1 := AnsweringIndex(stamps, offset1);
      var i2 := AnsweringIndex(stamps, offset2);
      assert i1 <= i2;
      assert ScoreLe(stamps[i1].score, stamps[i2].score);
    } else if stamps != [] && stamps[0].offset <= offset2 {
      var i2 := AnsweringIndex(stamps, offset2);
      assert ScoreLe(ZeroScore, stamps[i2].score);
    }
  }

  // The unit tests of the lookup, as lemmas about the model.

  lemma TestSuccessfulMatch()
    ensures GetScore([Stamp(10, Score(1, 0)), Stamp(20, Score(1, -1)), Stamp(30, Score(0, -1))], 20)
      == Ok(Score(1, -1))
  {
  }

  lemma TestMatchBefore()
    ensures GetScore([Stamp(10, Score(10, -10))], 5) == Ok(ZeroScore)
  {
  }

  lemma TestMatchBehind()
    ensures GetScore([Stamp(10, Score(10, -10))], 15) == Ok(Score(10, -10))
  {
  }

  lemma TestUnsuccessfulMatch()
    ensures GetScore([], 10) == Err(EmptyStamps)
  {
  }
}
