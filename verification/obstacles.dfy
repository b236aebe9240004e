/** The pipe generator of app/Game.js: on every pipe-interval tick a new
    pair is spawned at the right edge, its top height read from a fixed
    11-entry table and its gap shrinking with the score. */
module Obstacles {
  import opened Wrappers
  import opened Physics

  const PipeHeights: seq<int> := [100, 130, 150, 200, 60, 220, 250, 340, 270, 80, 300]
  const BasePipeGap: int := 150
  const MinPipeGap: int := 120

  /** JavaScript's `%`, which truncates toward zero: the remainder takes the
      sign of the dividend. */
  function JsRem(a: int, n: int): (r: int)
    requires n > 0
    ensures a >= 0 ==> 0 <= r < n
    ensures a < 0 ==> -n < r <= 0
    ensures a == n * JsQuot(a, n) + r
  {
    if a >= 0 then a % n else -((-a) % n)
  }

  /** JavaScript's `Math.trunc(a / n)`: the quotient rounded toward zero. */
  function JsQuot(a: int, n: int): int
    requires n > 0
  {
    if a >= 0 then a / n else -((-a) / n)
  }

  /** `score + (lastPipeHeight ?? 0) % pipeHeights.length`: the remainder
      binds tighter than the addition, so the index is not reduced modulo
      the table length. */
  function TableIndex(score: nat, last: Option<int>): (i: int)
    ensures last.None? ==> i == score
    ensures last.Some? && last.value >= 0 ==> i == score + last.value % |PipeHeights|
    ensures score - |PipeHeights| < i < score + |PipeHeights|
  {
    score + JsRem(last.GetOr(0), |PipeHeights|)
  }

  /** `pipeHeights[scoreIndex]`: `undefined` (None) outside the table. */
  function TopHeight(score: nat, last: Option<int>): (r: Option<int>)
    ensures r.Some? <==> 0 <= TableIndex(score, last) < |PipeHeights|
    ensures r.Some? ==> r.value in PipeHeights
    ensures r.Some? ==> r.value == PipeHeights[TableIndex(score, last)]
    ensures last.Some? && last.value >= 0 && score + last.value % 11 < 11 ==>
      r == Some(PipeHeights[score + last.value % 11])
  {
    var i := TableIndex(score, last);
    if 0 <= i < |PipeHeights| then Some(PipeHeights[i]) else None
  }

  /** `Math.max(pipeGap - score * 2, 120)`. */
  function PipeGap(score: nat): (gap: int)
    ensures MinPipeGap <= gap <= BasePipeGap
    ensures gap == BasePipeGap - 2 * score || (gap == MinPipeGap && BasePipeGap - 2 * score < MinPipeGap)
  {
    if BasePipeGap - score * 2 >= MinPipeGap then BasePipeGap - score * 2 else MinPipeGap
  }

  /** The pair spawned at score `score` after a previous top height `last`. */
  function SpawnPipe(score: nat, last: Option<int>): (p: Pipe)
    ensures p.x == BoardWidth && !p.scored
    ensures p.opening.Some? <==> TopHeight(score, last).Some?
    ensures p.opening.Some? ==>
      && p.opening.value.top == TopHeight(score, last).value
      && p.opening.value.top + PipeGap(score) + p.opening.value.bottom == BoardHeight
  {
    var opening := match TopHeight(score, last)
      case Some(top) => Some(Opening(top, BoardHeight - top - PipeGap(score)))
      case None => None;
    Pipe(BoardWidth, opening, false)
  }

  /** A larger score never widens the gap. */
  lemma GapNonIncreasing(s1: nat, s2: nat)
    requires s1 <= s2
    ensures PipeGap(s2) <= PipeGap(s1)
  {
  }

  /** The lookup is defined exactly while `score + last % 11` stays below
      the table length. */
  lemma LookupDefinedIff(score: nat, last: nat)
    ensures TopHeight(score, Some(last)).Some? <==> score + last % 11 < 11
  {
  }

  /** After an undefined lookup the next index is the score itself. */
  lemma LookupAfterUndefined(score: nat)
    ensures TopHeight(score, None).Some? <==> score < 11
    ensures score < 11 ==> TopHeight(score, None) == Some(PipeHeights[score])
  {
  }

  /** The first pair of a round: score 0 and the reset height 320 give index
      320 % 11 = 1, so the top pipe is 130 high and the bottom one 360. */
  lemma FirstPipeOfRound()
    ensures SpawnPipe(0, Some(BoardHeight / 2)) == Pipe(BoardWidth, Some(Opening(130, 360)), false)
  {
  }

  /** The index can run past the table: after a 130-high pair (130 % 11 = 9),
      spawning at score 2 asks for entry 11 of an 11-entry table. */
  lemma TableOverrun()
    ensures TableIndex(2, Some(130)) == |PipeHeights|
    ensures SpawnPipe(2, Some(130)).opening.None?
  {
  }
}
