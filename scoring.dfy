/** The score display: a tens place and a ones place, each a row of ten digit
    sprites of which the ones whose digit matches are shown. */
module Scoring {

  /** Sprites per place: the digits 0 to 9. */
  const Digits: nat := 10

  /** The visibility of a row of n sprites when digit d is selected. */
  function Row(n: nat, d: int): (row: seq<bool>)
  {
    seq(n, i => i == d)
  }

  /** The number of shown sprites in a row. */
  function ShownCount(row: seq<bool>): (c: nat)
    ensures c <= |row|
  {
    if row == [] then 0
    else ShownCount(row[..|row| - 1]) + (if row[|row| - 1] then 1 else 0)
  }

  /** The digit a reader sees: the first shown sprite, or |row| if none. */
  function Reading(row: seq<bool>): (d: nat)
    ensures d <= |row|
    ensures d < |row| ==> row[d]
  {
    if row == [] then 0
    else if row[0] then 0
    else 1 + Reading(row[1..])
  }

  /** A row selecting digit d shows one sprite when d is one of its digits
      and none otherwise. */
  lemma {:induction false} ShownCountOfRow(n: nat, d: int)
    ensures ShownCount(Row(n, d)) == if 0 <= d < n then 1 else 0
  {
    if n > 0 {
      assert Row(n, d)[..n - 1] == Row(n - 1, d);
      ShownCountOfRow(n - 1, d);
    }
  }

  /** A row selecting digit d reads back as d, or as "no digit" (n) when d is
      out of range. */
  lemma {:induction false} ReadingOfRow(n: nat, d: int)
    ensures Reading(Row(n, d)) == if 0 <= d < n then d else n
  {
    if n > 0 {
      assert Row(n, d)[1..] == Row(n - 1, d - 1);
      ReadingOfRow(n - 1, d - 1);
    }
  }

  /** For any score, exactly one ones-place sprite is shown and at most one
      tens-place sprite, none once the score reaches 100. */
  lemma ShownSprites(score: nat)
    ensures ShownCount(Row(Digits, score % 10)) == 1
    ensures ShownCount(Row(Digits, score / 10)) <= 1
    ensures ShownCount(Row(Digits, score / 10)) == 0 <==> score >= 100
  {
    ShownCountOfRow(Digits, score % 10);
    ShownCountOfRow(Digits, score / 10);
  }

  /** Below 100, reading the two places back gives the score; at 100 and
      above the tens place reads as empty and the ones place as score % 10. */
  lemma DisplayReadsBack(score: nat)
    ensures score < 100 ==>
              10 * Reading(Row(Digits, score / 10)) + Reading(Row(Digits, score % 10)) == score
    ensures score >= 100 ==>
              Reading(Row(Digits, score / 10)) == Digits && Reading(Row(Digits, score % 10)) == score % 10
  {
    ReadingOfRow(Digits, score % 10);
    ReadingOfRow(Digits, score / 10);
  }

  class ScoreDisplay {
    /** Shown flags of the tens-place sprites 0..9 and of the ones-place ones. */
    const tens: array<bool>
    const ones: array<bool>

    ghost predicate Valid()
    {
      tens.Length == Digits && ones.Length == Digits && tens != ones
    }

    /** The display shows score: tens sprite i iff score / 10 == i, ones sprite
        i iff score % 10 == i. */
    ghost predicate Shows(score: nat)
      reads tens, ones
    {
      tens[..] == Row(Digits, score / 10) && ones[..] == Row(Digits, score % 10)
    }

    /** Only the two "0" sprites are shown at first. */
    constructor ()
      ensures Valid() && fresh(tens) && fresh(ones)
      ensures Shows(0)
    {
      var t := new bool[Digits];
      var o := new bool[Digits];
      for i := 0 to Digits
        invariant forall j :: 0 <= j < i ==> t[j] == (j == 0) && o[j] == (j == 0)
      {
        if i == 0 {
          t[i] := true;
          o[i] := true;
        } else {
          t[i] := false;
          o[i] := false;
        }
      }
      tens, ones := t, o;
    }

    /** Shows the digits of score, sprite by sprite. */
    method Tick(score: nat)
      requires Valid()
      modifies tens, ones
      ensures Shows(score)
    {
      for i := 0 to Digits
        invariant forall j :: 0 <= j < i ==> tens[j] == (score / 10 == j) && ones[j] == (score % 10 == j)
      {
        tens[i] := score / 10 == i;
        ones[i] := score % 10 == i;
      }
    }
  }
}
