/** What one animation frame does to the pipe list (app/Game.js): every pair
    moves left by the game speed and is scored once its trailing edge has
    passed the bird; afterwards the pairs that left the board are dropped. */
module PipeList {
  import opened Physics

  /** The trailing edge of `p` is left of the bird. */
  predicate Passed(p: Pipe)
  {
    p.x + PipeWidth < BirdX
  }

  /** Part of `p` is still on the board. */
  predicate OnScreen(p: Pipe)
  {
    p.x + PipeWidth > 0
  }

  /** Number of pairs whose `scored` flag is set. */
  function ScoredCount(ps: seq<Pipe>): (n: nat)
    ensures n <= |ps|
  {
    if ps == [] then 0 else (if ps[0].scored then 1 else 0) + ScoredCount(ps[1..])
  }

  /** The pipe list after moving and scoring, and the number of points the
      frame awarded. */
  datatype Advanced = Advanced(pipes: seq<Pipe>, gained: nat)

  /** One iteration of the frame's `forEach`: move, then score if the pair
      is unscored and has been passed. */
  function MoveAndScore(p: Pipe): (q: Pipe)
    ensures q.x == p.x + GameSpeed && q.opening == p.opening
    ensures q.scored <==> p.scored || Passed(q)
  {
    var moved := p.(x := p.x + GameSpeed);
    if !moved.scored && Passed(moved) then moved.(scored := true) else moved
  }

  /** The frame's `forEach` over the pipes, counting the `setScore(+1)`
      calls it makes. */
  function Advance(ps: seq<Pipe>): (r: Advanced)
    ensures |r.pipes| == |ps|
    ensures forall i :: 0 <= i < |ps| ==>
      r.pipes[i].x == ps[i].x + GameSpeed && r.pipes[i].opening == ps[i].opening
    ensures forall i :: 0 <= i < |ps| && ps[i].scored ==> r.pipes[i].scored
    ensures forall i :: 0 <= i < |ps| && r.pipes[i].scored != ps[i].scored ==> Passed(r.pipes[i])
    ensures forall i :: 0 <= i < |ps| && Passed(r.pipes[i]) ==> r.pipes[i].scored
    ensures ScoredCount(r.pipes) == ScoredCount(ps) + r.gained
  {
    if ps == [] then Advanced([], 0)
    else
      var head := MoveAndScore(ps[0]);
      var rest := Advance(ps[1..]);
      var pipes := [head] + rest.pipes;
      assert pipes[1..] == rest.pipes;
      Advanced(pipes, (if head.scored != ps[0].scored then 1 else 0) + rest.gained)
  }

  /** `filter(pipe => pipe.x + pipeWidth > 0)`. */
  function KeepOnScreen(ps: seq<Pipe>): (r: seq<Pipe>)
    ensures forall p :: p in r <==> p in ps && OnScreen(p)
    ensures IsSubsequence(r, ps)
    ensures |r| == OnScreenCount(ps)
  {
    if ps == [] then []
    else
      var rest := KeepOnScreen(ps[1..]);
      assert ps == [ps[0]] + ps[1..];
      if OnScreen(ps[0]) then
        assert ([ps[0]] + rest)[1..] == rest;
        [ps[0]] + rest
      else
        rest
  }

  /** Number of entries of `ps` still on the board, duplicates counted. */
  function OnScreenCount(ps: seq<Pipe>): (n: nat)
    ensures n <= |ps|
  {
    if ps == [] then 0 else (if OnScreen(ps[0]) then 1 else 0) + OnScreenCount(ps[1..])
  }

  /** `a` is `b` with some elements deleted, the rest in their order. */
  ghost predicate IsSubsequence(a: seq<Pipe>, b: seq<Pipe>)
    decreases |b|
  {
    if a == [] then true
    else if b == [] then false
    else (a[0] == b[0] && IsSubsequence(a[1..], b[1..])) || IsSubsequence(a, b[1..])
  }

  /** A pair that was already scored contributes nothing: when every pair
      is scored, the frame awards no point. */
  lemma {:induction false} NoRescoring(ps: seq<Pipe>)
    requires forall i :: 0 <= i < |ps| ==> ps[i].scored
    ensures Advance(ps).gained == 0
  {
    AllScored(ps);
  }

  /** ScoredCount counts every pair when all are scored. */
  lemma {:induction false} AllScored(ps: seq<Pipe>)
    requires forall i :: 0 <= i < |ps| ==> ps[i].scored
    ensures ScoredCount(ps) == |ps|
  {
    if ps != [] {
      AllScored(ps[1..]);
    }
  }

  /** Filtering is idempotent: a second pass removes nothing. */
  lemma {:induction false} KeepOnScreenIdempotent(ps: seq<Pipe>)
    ensures KeepOnScreen(KeepOnScreen(ps)) == KeepOnScreen(ps)
  {
    if ps != [] {
      KeepOnScreenIdempotent(ps[1..]);
      var rest := KeepOnScreen(ps[1..]);
      if OnScreen(ps[0]) {
        assert ([ps[0]] + rest)[1..] == rest;
      }
    }
  }

  /** Dropping pairs never raises the number of scored ones. */
  lemma {:induction false} ScoredCountOfSubsequence(a: seq<Pipe>, b: seq<Pipe>)
    requires IsSubsequence(a, b)
    ensures ScoredCount(a) <= ScoredCount(b)
    decreases |b|
  {
    if a != [] {
      if a[0] == b[0] && IsSubsequence(a[1..], b[1..]) {
        ScoredCountOfSubsequence(a[1..], b[1..]);
      } else {
        ScoredCountOfSubsequence(a, b[1..]);
      }
    }
  }

  /** Appending an unscored pair leaves the number of scored pairs as is. */
  lemma {:induction false} ScoredCountAppendUnscored(ps: seq<Pipe>, p: Pipe)
    requires !p.scored
    ensures ScoredCount(ps + [p]) == ScoredCount(ps)
  {
    if ps == [] {
      assert [p][1..] == [];
    } else {
      assert (ps + [p])[1..] == ps[1..] + [p];
      ScoredCountAppendUnscored(ps[1..], p);
    }
  }

  /** An order-preserving selection of on-screen pairs never has more
      entries than `ps` has on the board. */
  lemma {:induction false} OnScreenSelectionBound(a: seq<Pipe>, ps: seq<Pipe>)
    requires IsSubsequence(a, ps)
    requires forall i :: 0 <= i < |a| ==> OnScreen(a[i])
    ensures |a| <= OnScreenCount(ps)
    decreases |ps|
  {
    if a != [] {
      if a[0] == ps[0] && IsSubsequence(a[1..], ps[1..]) {
        OnScreenSelectionBound(a[1..], ps[1..]);
      } else {
        OnScreenSelectionBound(a, ps[1..]);
      }
    }
  }

  /** The filter is the only order-preserving selection of on-screen pairs
      that keeps as many entries as `ps` has on the board: duplicates are
      kept, never merged. */
  lemma {:induction false} KeepOnScreenUnique(a: seq<Pipe>, ps: seq<Pipe>)
    requires IsSubsequence(a, ps)
    requires forall i :: 0 <= i < |a| ==> OnScreen(a[i])
    requires |a| == OnScreenCount(ps)
    ensures a == KeepOnScreen(ps)
    decreases |ps|
  {
    if ps == [] {
    } else if a == [] {
      assert |KeepOnScreen(ps)| == 0;
    } else if OnScreen(ps[0]) {
      if a[0] == ps[0] && IsSubsequence(a[1..], ps[1..]) {
        KeepOnScreenUnique(a[1..], ps[1..]);
        assert a == [a[0]] + a[1..];
      } else {
        OnScreenSelectionBound(a, ps[1..]);
        assert false;
      }
    } else {
      assert a[0] != ps[0];
      KeepOnScreenUnique(a, ps[1..]);
    }
  }
}
