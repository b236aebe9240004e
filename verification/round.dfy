/** The single-client round of app/Game.js as one immutable state and one
    pure transition per event: animation frame, pipe-interval tick,
    countdown tick, Space key and inbound topic message. */
module Round {
  import opened Wrappers
  import opened Physics
  import opened Obstacles
  import opened PipeList

  /** Everything the round keeps between events. `countdown` None is
      JavaScript's `null`; `lastPipeHeight` None is `undefined`. */
  datatype State = State(
    bird: Bird,
    pipes: seq<Pipe>,
    score: nat,
    lastPipeHeight: Option<int>,
    gameOver: bool,
    countdown: Option<int>)

  /** The discrete events the React timers, animation loop, keyboard and
      topic subscription deliver. A message carries its parsed `event`. */
  datatype Event =
    | AnimationFrame
    | PipeInterval
    | CountdownTimer
    | KeyDown(code: string)
    | Inbound(event: string)

  /** The phases of a round, derived from `gameOver` and `countdown`. */
  datatype Phase = Over | Counting(n: int) | Running | Stray

  /** The state when the component mounts: waiting, game over, no countdown. */
  const Initial: State := State(Bird((BoardHeight / 2) as real, 0.0), [], 0, Some(BoardHeight / 2), true, None)

  function PhaseOf(s: State): Phase
  {
    match s.countdown
    case Some(n) => if s.gameOver then Counting(n) else Stray
    case None => if s.gameOver then Over else Running
  }

  /** `resetGame`: the bird back at the centre at rest, no pipes, score 0,
      countdown 3. `gameOver` is left as it was. */
  function ResetGame(s: State): (r: State)
    ensures r.bird == Bird(320.0, 0.0)
    ensures r.pipes == [] && r.score == 0 && r.lastPipeHeight == Some(320)
    ensures r.countdown == Some(3) && r.gameOver == s.gameOver
  {
    State(Bird((BoardHeight / 2) as real, 0.0), [], 0, Some(BoardHeight / 2), s.gameOver, Some(3))
  }

  /** `updateGame`: one animation frame. */
  function UpdateGame(s: State): (r: State)
    ensures s.gameOver || s.countdown.Some? ==> r == s
    ensures !s.gameOver && s.countdown.None? ==>
      && r.bird == Step(s.bird)
      && r.gameOver == (Collides(r.bird, r.pipes) || r.bird.y + BirdHeight as real >= BoardHeight as real)
      && r.countdown.None?
      && r.lastPipeHeight == s.lastPipeHeight
      && r.score == s.score + (ScoredCount(Advance(s.pipes).pipes) - ScoredCount(s.pipes))
      && IsSubsequence(r.pipes, Advance(s.pipes).pipes)
      && (forall p :: p in r.pipes <==> p in Advance(s.pipes).pipes && OnScreen(p))
      && |r.pipes| == OnScreenCount(Advance(s.pipes).pipes)
  {
    if s.gameOver || s.countdown.Some? then s
    else
      var bird := Step(s.bird);
      var advanced := Advance(s.pipes);
      var pipes := KeepOnScreen(advanced.pipes);
      var over := Collides(bird, pipes) || bird.y + BirdHeight as real >= BoardHeight as real;
      State(bird, pipes, s.score + advanced.gained, s.lastPipeHeight, over, None)
  }

  /** `generatePipes`: the interval runs only while playing; each tick
      appends one pair and remembers its top height. */
  function GeneratePipes(s: State): (r: State)
    ensures s.gameOver || s.countdown.Some? ==> r == s
    ensures !s.gameOver && s.countdown.None? ==>
      && r.pipes == s.pipes + [SpawnPipe(s.score, s.lastPipeHeight)]
      && r.lastPipeHeight == TopHeight(s.score, s.lastPipeHeight)
      && r.bird == s.bird && r.score == s.score
      && r.gameOver == s.gameOver && r.countdown == s.countdown
  {
    if s.gameOver || s.countdown.Some? then s
    else
      s.(pipes := s.pipes + [SpawnPipe(s.score, s.lastPipeHeight)],
         lastPipeHeight := TopHeight(s.score, s.lastPipeHeight))
  }

  /** The countdown effect: a positive count goes down by one, zero ends the
      countdown and starts play; `null` (and any negative count) arms no
      timer. */
  function CountdownTick(s: State): (r: State)
    ensures r.bird == s.bird && r.pipes == s.pipes && r.score == s.score
    ensures r.lastPipeHeight == s.lastPipeHeight
    ensures s.countdown.Some? && s.countdown.value > 0 ==>
      r.countdown == Some(s.countdown.value - 1) && r.gameOver == s.gameOver
    ensures s.countdown == Some(0) ==> r.countdown.None? && !r.gameOver
    ensures s.countdown.None? || s.countdown.value < 0 ==> r == s
  {
    match s.countdown
    case Some(n) =>
      if n > 0 then s.(countdown := Some(n - 1))
      else if n == 0 then s.(countdown := None, gameOver := false)
      else s
    case None => s
  }

  /** The keydown handler: Space jumps while the game is on and restarts
      it when it is over; every other key is ignored. */
  function HandleKeyDown(s: State, code: string): (r: State)
    ensures code == "Space" && !s.gameOver ==> r == s.(bird := Bird(s.bird.y, JumpVelocity))
    ensures code == "Space" && s.gameOver ==> r == ResetGame(s)
    ensures code != "Space" ==> r == s
  {
    if code != "Space" then s
    else if !s.gameOver then s.(bird := ApplyJump(s.bird))
    else ResetGame(s)
  }

  /** `processMessage`: only `start-game` is acted on, and only when the
      game is over. */
  function ProcessMessage(s: State, event: string): (r: State)
    ensures event == "start-game" && s.gameOver ==> r == ResetGame(s)
    ensures event != "start-game" || !s.gameOver ==> r == s
  {
    if event == "start-game" && s.gameOver then ResetGame(s) else s
  }

  /** Dispatches an event to its handler. Only the countdown timer and a
      restart move the countdown; only frames, pipe ticks and a restart touch
      the pipes; only frames and a restart change the score; messages other
      than `start-game` do nothing. */
  function Next(s: State, e: Event): (r: State)
    ensures r.countdown != s.countdown ==> e.CountdownTimer? || r == ResetGame(s)
    ensures r.pipes != s.pipes ==> e.AnimationFrame? || e.PipeInterval? || r == ResetGame(s)
    ensures r.score != s.score ==> e.AnimationFrame? || r == ResetGame(s)
    ensures e.Inbound? && e.event != "start-game" ==> r == s
  {
    match e
    case AnimationFrame => UpdateGame(s)
    case PipeInterval => GeneratePipes(s)
    case CountdownTimer => CountdownTick(s)
    case KeyDown(code) => HandleKeyDown(s, code)
    case Inbound(event) => ProcessMessage(s, event)
  }

  function Run(s: State, events: seq<Event>): State
    decreases |events|
  {
    if events == [] then s else Run(Next(s, events[0]), events[1..])
  }

  function Ticks(s: State, n: nat): State
  {
    if n == 0 then s else CountdownTick(Ticks(s, n - 1))
  }

  /** Every pair on the board came out of the height table with a gap in
      [120, 150] and is still at least partly on the board. */
  ghost predicate WellFormedPipe(p: Pipe)
  {
    && OnScreen(p)
    && p.x <= BoardWidth
    && (p.opening.Some? ==>
          && p.opening.value.top in PipeHeights
          && MinPipeGap <= BoardHeight - p.opening.value.top - p.opening.value.bottom <= BasePipeGap)
  }

  /** What every reachable state satisfies: the bird never above the board,
      a countdown only while the game is over and only from 3 down to 0,
      every pair well formed, the remembered height either the reset
      height or a table entry, and every scored pair on the board already
      paid for in the score. */
  ghost predicate Inv(s: State)
  {
    && s.bird.y >= 0.0
    && (s.countdown.Some? ==> s.gameOver && 0 <= s.countdown.value <= 3)
    && (forall i :: 0 <= i < |s.pipes| ==> WellFormedPipe(s.pipes[i]))
    && (s.lastPipeHeight.Some? ==>
          s.lastPipeHeight.value == BoardHeight / 2 || s.lastPipeHeight.value in PipeHeights)
    && ScoredCount(s.pipes) <= s.score
  }

  lemma InitialInv()
    ensures Inv(Initial) && PhaseOf(Initial) == Over
  {
  }

  /** A consistent state is over, counting down from 3..0, or running. */
  lemma InvPhase(s: State)
    requires Inv(s)
    ensures PhaseOf(s) == Over || PhaseOf(s) == Running
      || (PhaseOf(s).Counting? && 0 <= PhaseOf(s).n <= 3)
  {
  }

  /** Every event keeps the invariant. */
  lemma NextInv(s: State, e: Event)
    requires Inv(s)
    ensures Inv(Next(s, e))
  {
    match e
    case AnimationFrame =>
      if !s.gameOver && s.countdown.None? {
        var r := UpdateGame(s);
        var adv := Advance(s.pipes).pipes;
        forall i | 0 <= i < |r.pipes|
          ensures WellFormedPipe(r.pipes[i])
        {
          assert r.pipes[i] in adv;
          var j :| 0 <= j < |adv| && adv[j] == r.pipes[i];
          assert WellFormedPipe(s.pipes[j]);
        }
        ScoredCountOfSubsequence(r.pipes, adv);
      }
    case PipeInterval =>
      if !s.gameOver && s.countdown.None? {
        var r := GeneratePipes(s);
        var p := SpawnPipe(s.score, s.lastPipeHeight);
        assert WellFormedPipe(p);
        ScoredCountAppendUnscored(s.pipes, p);
        forall i | 0 <= i < |r.pipes|
          ensures WellFormedPipe(r.pipes[i])
        {
          if i < |s.pipes| {
            assert r.pipes[i] == s.pipes[i];
          }
        }
      }
    case CountdownTimer =>
    case KeyDown(_) =>
    case Inbound(_) =>
  }

  /** Every state reachable from the mounted component keeps the invariant. */
  lemma {:induction false} RunInv(s: State, events: seq<Event>)
    requires Inv(s)
    ensures Inv(Run(s, events))
    decreases |events|
  {
    if events != [] {
      NextInv(s, events[0]);
      RunInv(Next(s, events[0]), events[1..]);
    }
  }

  /** A running round only keeps running or ends; no event moves it
      straight into a countdown. */
  lemma RunningNeverCountsDown(s: State, e: Event)
    requires PhaseOf(s) == Running
    ensures PhaseOf(Next(s, e)) == Running || PhaseOf(Next(s, e)) == Over
  {
  }

  /** An ended round stays over until Space or a start message restarts it,
      and it can only restart into a countdown from 3. */
  lemma OverOnlyRestarts(s: State, e: Event)
    requires PhaseOf(s) == Over
    ensures Next(s, e) == s || Next(s, e) == ResetGame(s)
    ensures PhaseOf(Next(s, e)) == Over || PhaseOf(Next(s, e)) == Counting(3)
  {
  }

  /** In a consistent state a frame or pipe tick never changes the countdown,
      and a countdown is only ever entered by a reset. */
  lemma CountdownOnlyFromReset(s: State, e: Event)
    requires Inv(s)
    requires s.countdown.None? && Next(s, e).countdown.Some?
    ensures Next(s, e) == ResetGame(s)
  {
  }

  /** After a reset from an ended round the countdown shows 3, 2, 1, 0 and
      play starts on exactly the fourth tick. */
  lemma {:induction false} FourTicksToPlay(s: State)
    requires s.gameOver
    ensures forall k :: 0 <= k < 4 ==> PhaseOf(Ticks(ResetGame(s), k)) == Counting(3 - k)
    ensures PhaseOf(Ticks(ResetGame(s), 4)) == Running
    ensures Ticks(ResetGame(s), 4) == ResetGame(s).(countdown := None, gameOver := false)
  {
    var r := ResetGame(s);
    assert Ticks(r, 1) == r.(countdown := Some(2));
    assert Ticks(r, 2) == r.(countdown := Some(1));
    assert Ticks(r, 3) == r.(countdown := Some(0));
    assert Ticks(r, 4) == r.(countdown := None, gameOver := false);
  }

  /** Frames and pipe ticks do nothing outside play. */
  lemma IdleOutsidePlay(s: State)
    requires PhaseOf(s) != Running
    ensures UpdateGame(s) == s && GeneratePipes(s) == s
  {
  }

  /** The score only moves up, except that a restart sets it to 0. */
  lemma ScoreNeverDrops(s: State, e: Event)
    ensures Next(s, e).score >= s.score || Next(s, e) == ResetGame(s)
  {
  }

  /** Space during a countdown restarts it: `gameOver` is still set while
      counting, so the handler takes the restart branch. */
  lemma SpaceDuringCountdown(s: State)
    requires PhaseOf(s).Counting?
    ensures PhaseOf(HandleKeyDown(s, "Space")) == Counting(3)
  {
  }

  /** While playing, Space sets the velocity to the jump impulse whatever
      it was, and moves nothing else. */
  lemma SpaceWhilePlaying(s: State)
    requires PhaseOf(s) == Running
    ensures HandleKeyDown(s, "Space").bird.velocityY == JumpVelocity
    ensures HandleKeyDown(s, "Space").bird.y == s.bird.y
    ensures HandleKeyDown(s, "Space").(bird := s.bird) == s
  {
  }
}
