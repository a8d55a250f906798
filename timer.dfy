/** A one-shot ("Once" mode) game-engine timer, as the menu's rate limiter uses it.
    Durations and deltas are whole nanoseconds, the resolution of the engine's
    `Duration`. The timer keeps its own `finished` flag, set by a tick that reaches
    the duration and cleared by a reset, and a "just finished" flag that is true only
    right after the tick that finished it. */
module Timers {

  datatype Timer = Timer(elapsed: nat, duration: nat, finished: bool, justFinished: bool)

  /** The states a timer can reach from `NewTimer` through ticks and resets. */
  predicate TimerValid(t: Timer)
  {
    && t.elapsed <= t.duration
    && (t.justFinished ==> t.finished)
    && (t.finished ==> t.elapsed == t.duration)
    && (0 < t.duration ==> (t.finished <==> t.elapsed == t.duration))
  }

  /** A fresh timer: nothing elapsed, not finished. */
  function NewTimer(duration: nat): (t: Timer)
    ensures TimerValid(t) && t.duration == duration
    ensures t.elapsed == 0 && !t.finished && !t.justFinished
  {
    Timer(0, duration, false, false)
  }

  /** Advances the timer by `delta`. A finished one-shot timer stays where it is and
      only loses its "just finished" edge; otherwise the elapsed time grows and
      saturates at the duration, where the timer finishes. */
  function Tick(t: Timer, delta: nat): (r: Timer)
    ensures r.duration == t.duration
    ensures TimerValid(t) ==> TimerValid(r)
    ensures r.finished <==> t.finished || t.elapsed + delta >= t.duration
    ensures r.justFinished <==> !t.finished && r.finished
    ensures !r.finished ==> r.elapsed == t.elapsed + delta
    ensures TimerValid(t) ==> t.elapsed <= r.elapsed
  {
    if t.finished then t.(justFinished := false)
    else if t.elapsed + delta >= t.duration then Timer(t.duration, t.duration, true, true)
    else Timer(t.elapsed + delta, t.duration, false, false)
  }

  /** Restarts the timer: nothing elapsed, not finished, same duration. */
  function Reset(t: Timer): (r: Timer)
    ensures TimerValid(r) && r.duration == t.duration
    ensures r.elapsed == 0 && !r.finished && !r.justFinished
  {
    Timer(0, t.duration, false, false)
  }

  /** True when the timer has run out, either earlier or on the last tick. */
  predicate Expired(t: Timer)
  {
    t.finished || t.justFinished
  }

  function SumDeltas(deltas: seq<nat>): nat
  {
    if deltas == [] then 0 else deltas[0] + SumDeltas(deltas[1..])
  }

  /** Ticks the timer once per delta, in order. */
  function TickAll(t: Timer, deltas: seq<nat>): Timer
    decreases |deltas|
  {
    if deltas == [] then t else TickAll(Tick(t, deltas[0]), deltas[1..])
  }

  /** On a valid timer "just finished" adds nothing to "finished". */
  lemma ExpiredIsFinished(t: Timer)
    requires TimerValid(t)
    ensures Expired(t) <==> t.finished
  {
  }

  /** A run of ticks finishes a timer of positive duration exactly when their total
      reaches the time that was left, and until then the elapsed time is the sum of
      the deltas. */
  lemma {:induction false} TickAllFinishes(t: Timer, deltas: seq<nat>)
    requires TimerValid(t) && 0 < t.duration
    ensures TimerValid(TickAll(t, deltas))
    ensures TickAll(t, deltas).finished <==> t.finished || t.elapsed + SumDeltas(deltas) >= t.duration
    ensures !TickAll(t, deltas).finished ==> TickAll(t, deltas).elapsed == t.elapsed + SumDeltas(deltas)
    decreases |deltas|
  {
    if deltas != [] {
      assert SumDeltas(deltas) == deltas[0] + SumDeltas(deltas[1..]);
      TickAllFinishes(Tick(t, deltas[0]), deltas[1..]);
    }
  }
}
