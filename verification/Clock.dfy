/** The clock interrupt (software/src/clock.c:72-94): tick, time slice, timers. */
module Clock {
  import opened Threads
  import opened ThreadLemmas
  import T = TimerSpec
  import L = TimerLemmas
  import TimerList
  import K = Kernel

  /** The time slice part of one tick: what remains, and whether the thread has to yield. */
  function Slice(remaining: int, slice: int): (int, bool) {
    var r := (remaining - 1) % TICKS;
    if r == 0 then (slice, true) else (r, false)
  }

  /** n ticks during which the same thread runs: what remains, and how often it had to yield. */
  function Slices(remaining: int, slice: int, n: nat): (int, nat) {
    if n == 0 then (remaining, 0)
    else
      var before := Slices(remaining, slice, n - 1);
      var now := Slice(before.0, slice);
      (now.0, if now.1 then before.1 + 1 else before.1)
  }

  /** How many ticks a slice lasts; the count of a slice of 0 runs through all of 32 bits. */
  function SliceLength(slice: int): int {
    if slice == 0 then TICKS else slice
  }

  /** From the start of a slice: no yield before its k-th tick, and one at that tick. */
  lemma {:induction false} OneSlice(slice: int, n: nat, y: nat, j: nat)
    requires 0 <= slice < TICKS && j <= SliceLength(slice) && Slices(slice, slice, n) == (slice, y)
    ensures Slices(slice, slice, n + j)
         == if j == 0 then (slice, y)
            else if j < SliceLength(slice) then (SliceLength(slice) - j, y) else (slice, y + 1)
    decreases j
  {
    if j > 0 { OneSlice(slice, n, y, j - 1); }
  }

  /** A thread with a slice of k ticks has to yield at every k-th tick of its own and at no other:
      after q full slices and j more ticks it has yielded q times and has k - j ticks left. */
  lemma {:induction false} YieldEverySlice(slice: int, q: nat, j: nat)
    requires 0 <= slice < TICKS && j < SliceLength(slice)
    ensures q * SliceLength(slice) + j >= 0
    ensures Slices(slice, slice, q * SliceLength(slice) + j) == (if j == 0 then slice else SliceLength(slice) - j, q)
    decreases q
  {
    var k := SliceLength(slice);
    FullSlices(slice, q);
    OneSlice(slice, q * k, q, j);
    hide Slices;
  }

  lemma {:induction false} FullSlices(slice: int, q: nat)
    requires 0 <= slice < TICKS
    ensures q * SliceLength(slice) >= 0 && Slices(slice, slice, q * SliceLength(slice)) == (slice, q)
    decreases q
  {
    if q > 0 {
      FullSlices(slice, q - 1);
      OneSlice(slice, (q - 1) * SliceLength(slice), q - 1, SliceLength(slice));
      OneMore(q, SliceLength(slice));
      hide Slices;
    }
  }

  lemma OneMore(q: nat, k: nat)
    requires q > 0
    ensures q * k == (q - 1) * k + k
  {}

  class Clock {
    const timers: TimerList.TimerList
    const k: K.Kernel
    /** remaining_tick and init_tick of the threads */
    var remaining: map<Tid, int>
    var slice: map<Tid, int>

    constructor (list: TimerList.TimerList, kernel: K.Kernel, slices: map<Tid, int>)
      ensures timers == list && k == kernel && remaining == slices && slice == slices
    {
      timers, k, remaining, slice := list, kernel, slices, slices;
    }

    /** rt_tick_increase while thread t runs, up to the first `rounds` rounds of its rt_timer_check */
    method TickIncrease(t: Tid, scripts: T.Scripts, rounds: nat) returns (done: bool)
      requires T.Shape(timers.View()) && T.NamesAll(timers.timers, scripts)
      requires k.Valid() && t in k.tcb && t in remaining && t in slice
      modifies this`remaining, timers, k.rq
      ensures var w := T.Advance(old(timers.View()));
        && T.Shape(w) && done == T.EndsBy(w, scripts, rounds)
        && timers.View() == if done then T.UpTo(w, scripts, rounds).(checking := false) else T.UpTo(w, scripts, rounds)
      ensures done && old(timers.Valid()) && L.ScriptsOk(old(timers.timers), scripts) ==> timers.Valid()
      ensures remaining == old(remaining)[t := Slice(old(remaining[t]), slice[t]).0]
      ensures k.Valid() && old(k.tcb[t].prio) < old(|k.rq.table|)
      ensures k.View() == if Slice(old(remaining[t]), slice[t]).1 then Yield(old(k.View()), t) else old(k.View())
    {
      hide K.BitsInOrder, Placed, Yield, L.Between, L.Enabled, L.Next, T.UpTo, T.EndsBy, T.NamesAll, L.ScriptsOk;
      PlacedRanges(k.View());
      remaining := remaining[t := (remaining[t] - 1) % TICKS];
      if remaining[t] == 0 {
        remaining := remaining[t := slice[t]];
        k.Yield(t);
      }
      done := timers.Tick(scripts, rounds);
    }
  }
}
