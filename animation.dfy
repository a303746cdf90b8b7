/** The frame and death-timer state machine behind every sprite: a cursor
    into a list of frames that advances once per interval, wrapping when
    the animation loops and stopping, finished, when it does not. A dying
    unit is done once its non-looping death animation is finished. */
module Animations {
  import opened Common

  /** Where an animation stands: the frame index and whether it is done. */
  datatype Cursor = Cursor(index: int, finished: bool)

  /** One timed advance over `count` frames: the next frame, or past the
      last one either back to the first (looping) or held on the last and
      finished (not looping). */
  function Advance(c: Cursor, count: nat, loop: bool): (r: Cursor)
    ensures count > 0 && 0 <= c.index < count ==> 0 <= r.index < count
    ensures loop ==> r.finished == c.finished
    ensures !loop ==> (r.finished <==> c.finished || c.index + 1 >= count)
    ensures r.index == c.index + 1 || r.index == (if loop then 0 else count - 1)
  {
    if c.index + 1 >= count then
      if loop then Cursor(0, c.finished) else Cursor(count - 1, true)
    else
      Cursor(c.index + 1, c.finished)
  }

  /** The cursor after `n` updates that each found the interval elapsed;
      a finished cursor no longer moves. */
  function Run(c: Cursor, count: nat, loop: bool, n: nat): Cursor
    decreases n
  {
    if n == 0 || c.finished then c else Run(Advance(c, count, loop), count, loop, n - 1)
  }

  /** A non-looping animation shows frames 0, 1, ... in turn and is
      finished exactly once it has been advanced as many times as it has
      frames, holding the last frame from then on. */
  lemma {:induction false} OneShotFinishes(count: nat, i: nat, n: nat)
    requires i < count
    ensures Run(Cursor(i, false), count, false, n) ==
      if i + n < count then Cursor(i + n, false) else Cursor(count - 1, true)
    decreases n
  {
    if n > 0 {
      if i + 1 < count {
        OneShotFinishes(count, i + 1, n - 1);
      } else {
        var c := Advance(Cursor(i, false), count, false);
        assert c == Cursor(count - 1, true);
        assert Run(c, count, false, n - 1) == c;
      }
    }
  }

  /** A looping animation is never finished and its index stays in range:
      from frame `i`, `n` advances reach frame `i + n`, and once they pass
      the last frame the animation is wherever it would be after the
      surplus advances from the first frame. */
  lemma {:induction false} LoopCycles(count: nat, i: nat, n: nat)
    requires i < count
    ensures !Run(Cursor(i, false), count, true, n).finished
    ensures 0 <= Run(Cursor(i, false), count, true, n).index < count
    ensures i + n < count ==> Run(Cursor(i, false), count, true, n) == Cursor(i + n, false)
    ensures i + n >= count ==>
      Run(Cursor(i, false), count, true, n) == Run(Cursor(0, false), count, true, i + n - count)
    decreases n
  {
    if n > 0 {
      if i + 1 < count {
        LoopCycles(count, i + 1, n - 1);
      } else {
        assert Advance(Cursor(i, false), count, true) == Cursor(0, false);
        LoopCycles(count, 0, n - 1);
      }
    }
  }

  /** Hence a looping animation repeats itself every `count` advances. */
  lemma LoopPeriodic(count: nat, n: nat)
    requires count > 0
    ensures Run(Cursor(0, false), count, true, count + n) == Run(Cursor(0, false), count, true, n)
  {
    LoopCycles(count, 0, count + n);
  }

  class Animation<F> {
    const frames: seq<F>
    const interval: real
    const loop: bool
    var index: int
    var lastTime: real
    var finished: bool

    /** A new animation shows its first frame, is not finished and starts
        its interval at `now`. */
    constructor (frames: seq<F>, interval: real, loop: bool, now: real)
      ensures this.frames == frames && this.interval == interval && this.loop == loop
      ensures index == 0 && !finished && lastTime == now
    {
      this.frames, this.interval, this.loop := frames, interval, loop;
      index, finished, lastTime := 0, false, now;
    }

    /** The death animation a stronghold proxy carries: no frames and
        already finished, so the proxy never waits on it. */
    constructor Spent(now: real)
      ensures frames == [] && !loop && interval == 0.1
      ensures index == 0 && finished && lastTime == now
    {
      frames, interval, loop := [], 0.1, false;
      index, finished, lastTime := 0, true, now;
    }

    function Position(): Cursor
      reads this
    {
      Cursor(index, finished)
    }

    /** With at least one frame, the index names one of them. */
    predicate Valid()
      reads this
    {
      |frames| > 0 ==> 0 <= index < |frames|
    }

    /** Advances one frame once the interval has elapsed since the last
        advance; a finished animation is frozen. */
    method Update(now: real)
      modifies this`index, this`lastTime, this`finished
      ensures old(finished) || !Ready(now, old(lastTime), interval) ==> unchanged(this)
      ensures !old(finished) && Ready(now, old(lastTime), interval) ==>
        Position() == Advance(old(Position()), |frames|, loop) && lastTime == now
      ensures old(Valid()) ==> Valid()
    {
      if finished {
        return;
      }
      if now - lastTime >= interval {
        index := index + 1;
        if index >= |frames| {
          if loop {
            index := 0;
          } else {
            index := |frames| - 1;
            finished := true;
          }
        }
        lastTime := now;
      }
    }

    /** The current frame; reading past the end (possible only with no
        frames at all) is the game's index error, modelled as None. */
    function GetFrame(): (r: Option<F>)
      reads this
      ensures Valid() && |frames| > 0 ==> r == Some(frames[index])
      ensures r.Some? ==> r.value in frames
      ensures |frames| == 0 ==> r.None?
    {
      if 0 <= index < |frames| then Some(frames[index]) else None
    }
  }

  /** A three-frame death animation, updated once per interval, is finished
      on the third update and shows its last frame. */
  method DeathAnimationEnds(t0: real, interval: real)
    returns (afterTwo: bool, afterThree: bool, shown: Option<int>)
    requires interval > 0.0
    ensures !afterTwo && afterThree && shown == Some(3)
  {
    var a := new Animation([1, 2, 3], interval, false, t0);
    a.Update(t0 + interval);
    a.Update(t0 + 2.0 * interval);
    afterTwo := a.finished;
    a.Update(t0 + 3.0 * interval);
    afterThree := a.finished;
    shown := a.GetFrame();
  }
}
