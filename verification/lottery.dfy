/**
 * The draw animation of `danmuji.py`: for every delay of a fixed, growing
 * schedule the result box shows a name drawn at random from the candidates,
 * and the name left on display at the end is the winner.
 */
module Lottery {
  import opened Wrappers

  const LotteryIntervalMin: int := 10
  const LotteryIntervalMax: int := 500
  const LotteryIntervalInc: int := 5

  /** Python's `range(start, stop, step)` for a positive step. */
  function Range(start: int, stop: int, step: int): (r: seq<int>)
    requires step > 0
    ensures start >= stop ==> r == []
    ensures start < stop ==> start + (|r| - 1) * step < stop <= start + |r| * step
    ensures forall i | 0 <= i < |r| :: r[i] == start + i * step
    decreases stop - start
  {
    if start >= stop then []
    else
      var rest := Range(start + step, stop, step);
      var r := [start] + rest;
      assert |rest| * step + step == |r| * step;
      forall i | 1 <= i < |r| ensures r[i] == start + i * step {
        assert r[i] == rest[i - 1] == start + step + (i - 1) * step;
      }
      r
  }

  /** The delays, in milliseconds, between the displays of one draw. */
  function Schedule(): seq<int> {
    Range(LotteryIntervalMin, LotteryIntervalMax, LotteryIntervalInc)
  }

  /**
   * The schedule is `10, 15, ..., 495`: 98 delays, strictly increasing, each
   * at least the minimum and below the maximum.
   */
  lemma ScheduleShape()
    ensures |Schedule()| == 98
    ensures Schedule()[0] == 10 && Schedule()[97] == 495
    ensures forall i | 0 <= i < |Schedule()| :: Schedule()[i] == 10 + 5 * i
    ensures forall i, j | 0 <= i < j < |Schedule()| :: Schedule()[i] < Schedule()[j]
    ensures forall i | 0 <= i < |Schedule()| ::
      LotteryIntervalMin <= Schedule()[i] < LotteryIntervalMax
  {
  }

  /** One step of the animation: the name put on display, then the pause after it. */
  datatype Frame = Frame(shown: string, delayMs: int)

  /**
   * What a draw over `candidates` looks like: nothing when there are no
   * candidates; otherwise one frame per scheduled delay, in order, each
   * showing a candidate.
   */
  ghost predicate IsAnimation(candidates: seq<string>, frames: seq<Frame>) {
    && (|candidates| == 0 ==> frames == [])
    && (|candidates| > 0 ==> |frames| == |Schedule()|)
    && (forall i | 0 <= i < |frames| :: frames[i].delayMs == Schedule()[i])
    && (forall i | 0 <= i < |frames| :: frames[i].shown in candidates)
  }

  /**
   * The loop of `start_lottery`: skipped when there are no candidates,
   * otherwise one `np.random.choice(candidates)` per delay of the schedule.
   * The random choice is modelled as an unconstrained pick among the candidates.
   */
  method Animate(candidates: seq<string>) returns (frames: seq<Frame>)
    ensures |candidates| == 0 ==> frames == []
    ensures |candidates| > 0 ==> |frames| == |Schedule()|
    ensures forall i | 0 <= i < |frames| :: frames[i].delayMs == Schedule()[i]
    ensures forall i | 0 <= i < |frames| :: frames[i].shown in candidates
    ensures IsAnimation(candidates, frames)
  {
    frames := [];
    if |candidates| > 0 {
      var schedule := Schedule();
      for k := 0 to |schedule|
        invariant |frames| == k
        invariant forall i | 0 <= i < k :: frames[i].delayMs == schedule[i]
        invariant forall i | 0 <= i < k :: frames[i].shown in candidates
      {
        assert candidates[0] in candidates;
        var pick :| pick in candidates;
        frames := frames + [Frame(pick, schedule[k])];
      }
    }
  }

  /** The name left on display when the animation ends, if any was shown. */
  function Winner(frames: seq<Frame>): Option<string> {
    if frames == [] then None else Some(frames[|frames| - 1].shown)
  }

  /**
   * A draw has a winner exactly when there are candidates, the winner is one
   * of them, and with a single candidate it is that candidate.
   */
  lemma WinnerIsCandidate(candidates: seq<string>, frames: seq<Frame>)
    requires IsAnimation(candidates, frames)
    ensures Winner(frames).Some? <==> |candidates| > 0
    ensures Winner(frames).Some? ==> Winner(frames).value in candidates
    ensures |candidates| == 1 ==> Winner(frames) == Some(candidates[0])
  {
  }
}
