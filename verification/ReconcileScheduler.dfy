/** How the controller schedules passes: one timer, a rerun flag, the run loop's own wait, and backoff. */
module ReconcileScheduler {
  import opened Domain

  function Power2(n: nat): nat {
    if n == 0 then 1 else 2 * Power2(n - 1)
  }

  function Min(a: real, b: real): real {
    if a <= b then a else b
  }

  function Max(a: real, b: real): real {
    if a >= b then a else b
  }

  /** Half of the ceiling, and a random part of the other half. */
  function Jittered(ceiling: nat, random: real): real {
    var half := ceiling as real / 2.0;
    half + random * half
  }

  /** `Math.round`. */
  function Round(x: real): int {
    (x + 0.5).Floor
  }

  /** A request for a pass: due at a time, or as soon as the running pass is over. */
  datatype Demand = DueBy(time: real) | AfterThisPass

  /** A drawn backoff: between half the ceiling and the ceiling, unless the server asked for longer. */
  predicate Drawn(delay: real, ceiling: nat, retryAfter: Option<nat>) {
    && ceiling as real / 2.0 <= delay
    && (retryAfter.Some? ==> retryAfter.value as real <= delay)
    && (delay <= ceiling as real || (retryAfter.Some? && delay == retryAfter.value as real))
  }

  datatype Runner = Loop | Timer

  datatype Ending = Clean | Transient(retryAfter: Option<nat>) | Threw(retryAfter: Option<nat>)

  /** What the run loop is doing between its own passes. */
  datatype Wait = InPass | Interval(until: real) | Retry(until: real)

  class Scheduler {
    const debounce: nat
    const retryBase: nat
    const retryMax: nat
    const interval: nat
    var now: real
    var reconciling: bool
    var rerunRequested: bool
    var timer: Option<real>
    var retryAttempt: nat
    var runner: Runner
    var wait: Wait
    /** The demands made since the latest pass began. */
    ghost var unserved: set<Demand>
    /** When the latest pass ended, and the delay its ending allows the next one. */
    ghost var ended: real
    ghost var grace: real
    /** How many passes have begun. */
    ghost var passes: nat

    /** The timer or the run loop's retry wait will call for a pass by this time. */
    ghost predicate CallsBy(time: real)
      reads this
    {
      (timer.Some? && timer.value <= time) || (wait.Retry? && wait.until <= time)
    }

    /**
     * What will start a pass after the demand: for one with a due time, a timer due no later; for one held
     * back by a running pass, the rerun flag while that pass runs, and afterwards a call for a pass within
     * the allowed delay of its end.
     */
    ghost predicate Covered(demand: Demand)
      reads this
    {
      match demand
      case DueBy(time) => timer.Some? && timer.value <= time
      case AfterThisPass => if reconciling then rerunRequested else CallsBy(ended + grace)
    }

    ghost predicate Valid()
      reads this
    {
      (forall demand :: demand in unserved ==> Covered(demand)) && (wait.InPass? <==> reconciling && runner == Loop)
    }

    constructor (debounce: nat, retryBase: nat, retryMax: nat, interval: nat)
      ensures Valid() && unserved == {} && !reconciling && timer.None? && wait == Interval(0.0)
    {
      this.debounce, this.retryBase, this.retryMax, this.interval := debounce, retryBase, retryMax, interval;
      now, reconciling, rerunRequested, timer, retryAttempt, runner := 0.0, false, false, None, 0, Timer;
      wait := Interval(0.0);
      unserved, ended, grace, passes := {}, 0.0, 0.0, 0;
    }

    // ---------------------------------------------------------------- delays

    function Ceiling(): nat
      reads this
    {
      var doubled := retryBase * Power2(if retryAttempt <= 30 then retryAttempt else 30);
      if retryMax <= doubled then retryMax else doubled
    }

    /** Capped exponential backoff with jitter, between half the ceiling and the ceiling; a larger Retry-After wins. */
    method NextRetryDelay(retryAfter: Option<nat>, random: real) returns (delay: real)
      requires 0.0 <= random < 1.0
      modifies this`retryAttempt
      ensures retryAttempt == old(retryAttempt) + 1
      ensures Drawn(delay, old(Ceiling()), retryAfter)
    {
      var ceiling := Ceiling();
      retryAttempt := retryAttempt + 1;
      JitterBounds(ceiling, random);
      var asked := if retryAfter.Some? then retryAfter.value as real else 0.0;
      delay := Max(asked, Round(Jittered(ceiling, random)) as real);
    }

    /** While failing, events preempt the backoff at most once per base delay. */
    function EventDelay(): real
      reads this
    {
      if retryAttempt == 0 then debounce as real else Max(debounce as real, retryBase as real)
    }

    // ---------------------------------------------------------------- the timer

    /** `scheduleReconcile`: the pending due time becomes the earlier of the two. */
    method ScheduleReconcile(delay: real)
      requires Valid()
      modifies this`timer, this`unserved
      ensures Valid()
      ensures timer == Some(if old(timer).Some? then Min(old(timer).value, now + delay) else now + delay)
      ensures unserved == old(unserved) + {DueBy(now + delay)}
    {
      var dueAt := now + delay;
      unserved := unserved + {DueBy(dueAt)};
      if timer.Some? && timer.value <= dueAt { return; }
      timer := Some(dueAt);
    }

    /** The timer fires: it is forgotten first, so that a request during the pass sets a new one. */
    method FireTimer() returns (began: bool)
      requires Valid() && timer.Some? && timer.value <= now
      modifies this
      ensures Valid() && timer.None? && began == !old(reconciling) && reconciling && wait == old(wait) && now == old(now)
      ensures retryAttempt == old(retryAttempt) && passes == old(passes) + (if began then 1 else 0)
      ensures if began then unserved == {} && !rerunRequested && runner == Timer
              else unserved == {AfterThisPass} && rerunRequested && runner == old(runner)
    {
      timer := None;
      began := !reconciling;
      if reconciling {
        rerunRequested, unserved := true, {AfterThisPass};
      } else {
        reconciling, rerunRequested, runner, unserved, passes := true, false, Timer, {}, passes + 1;
      }
    }

    // ---------------------------------------------------------------- the run loop

    /** The run loop wakes and calls for a pass; during a pass that only asks for another one. */
    method WakeLoop() returns (began: bool)
      requires Valid() && !wait.InPass? && wait.until <= now
      modifies this
      ensures Valid() && began == !old(reconciling) && reconciling && timer == old(timer) && now == old(now)
      ensures retryAttempt == old(retryAttempt) && passes == old(passes) + (if began then 1 else 0)
      ensures if began then unserved == {} && !rerunRequested && wait.InPass?
              else unserved == old(unserved) + {AfterThisPass} && rerunRequested && wait == Interval(now + interval as real)
    {
      began := !reconciling;
      if reconciling {
        rerunRequested, unserved := true, unserved + {AfterThisPass};
        wait := Interval(now + interval as real);
      } else {
        reconciling, rerunRequested, runner, unserved, passes := true, false, Loop, {}, passes + 1;
        wait := InPass;
      }
    }

    /**
     * The end of a pass: a clean one resets the backoff, a transient failure schedules a retry, and a
     * request made during the pass is scheduled ahead of any backoff. A pass that throws leaves its rerun
     * flag to the retry: the timer's for a pass the timer began, the run loop's wait for one of its own.
     * Either way what the pass held back is called for within the event delay of its end, or, after a pass
     * that threw, within the backoff drawn for it.
     */
    method EndPass(ending: Ending, random: real)
      requires Valid() && reconciling && 0.0 <= random < 1.0
      modifies this
      ensures Valid() && !reconciling && !wait.InPass? && now == old(now) && old(unserved) <= unserved
      ensures retryAttempt == if ending.Clean? then 0 else old(retryAttempt) + 1
      ensures old(timer).Some? ==> timer.Some? && timer.value <= old(timer).value
      ensures !ending.Threw? && old(rerunRequested) ==> !rerunRequested && timer.Some? && timer.value <= now + EventDelay()
      ensures ending.Transient? ==> timer.Some?
      ensures ended == now && passes == old(passes)
      ensures !ending.Threw? ==> grace == EventDelay()
      ensures ending.Threw? ==> Drawn(grace, old(Ceiling()), ending.retryAfter)
      ensures ending.Threw? ==> if old(runner) == Loop then wait == Retry(now + grace) && timer == old(timer)
                                else timer.Some? && timer.value <= now + grace
    {
      var byLoop := runner == Loop;
      ended := now;
      if ending.Threw? {
        var delay := NextRetryDelay(ending.retryAfter, random);
        grace := delay;
        if byLoop {
          wait := Retry(now + delay);
        } else {
          ScheduleReconcile(delay);
        }
      } else {
        if ending.Clean? {
          retryAttempt := 0;
        } else {
          var delay := NextRetryDelay(ending.retryAfter, random);
          ScheduleReconcile(delay);
        }
        grace := EventDelay();
        if rerunRequested {
          ScheduleReconcile(EventDelay());
          rerunRequested := false;
        }
        if byLoop {
          wait := Interval(now + interval as real);
        }
      }
      reconciling := false;
    }

    /** Time passes. */
    method Elapse(time: real)
      requires Valid() && time >= 0.0
      modifies this`now
      ensures Valid() && now == old(now) + time
    {
      now := now + time;
    }
  }

  lemma JitterBounds(ceiling: nat, random: real)
    requires 0.0 <= random < 1.0
    ensures ceiling as real / 2.0 <= Round(Jittered(ceiling, random)) as real <= ceiling as real
  {
    var half, jittered := ceiling as real / 2.0, Jittered(ceiling, random);
    JitteredBounds(ceiling, random);
    hide Jittered;
    var low := (ceiling + 1) / 2;
    assert half <= low as real <= half + 0.5;
    assert low as real <= jittered + 0.5 <= ceiling as real + 0.5;
    FloorBetween(low, jittered + 0.5, ceiling);
  }

  lemma JitteredBounds(ceiling: nat, random: real)
    requires 0.0 <= random < 1.0
    ensures ceiling as real / 2.0 <= Jittered(ceiling, random) <= ceiling as real
  {
    var half := ceiling as real / 2.0;
    ProductNotNegative(random, half);
    var rest := 1.0 - random;
    ProductNotNegative(rest, half);
    assert rest * half == half - random * half;
  }

  lemma ProductNotNegative(a: real, b: real)
    requires a >= 0.0 && b >= 0.0
    ensures a * b >= 0.0
  {
  }

  lemma FloorBetween(low: int, y: real, high: int)
    requires low as real <= y <= high as real + 0.5
    ensures low as real <= y.Floor as real <= high as real
  {
    var f := y.Floor;
    assert low as real < (f + 1) as real && f as real < (high + 1) as real;
    assert low < f + 1 && f < high + 1;
  }

  // ---------------------------------------------------------------- the controller's day

  datatype Event =
    | Request(delay: real)
    | Fire
    | Wake
    | Finish(ending: Ending, random: real)
    | Pause(time: real)

  /** The time after the events, started at the given time. */
  function Clock(start: real, events: seq<Event>): real {
    if events == [] then start
    else Clock(start, events[..|events| - 1]) + if events[|events| - 1].Pause? then events[|events| - 1].time else 0.0
  }

  /** When the request among the events asks for a pass. */
  function Due(start: real, events: seq<Event>, request: nat): real
    requires request < |events| && events[request].Request?
  {
    Clock(start, events[..request]) + events[request].delay
  }

  /** An event among `events` after the given one. */
  ghost predicate Later(events: set<nat>, event: nat) {
    exists j :: j in events && j > event
  }

  /**
   * What has become of a request: a pass began after it; or the timer is due no later than it asked; or a
   * running pass held it back when it fell due, and the next pass is called for within the allowed delay of
   * that pass's end.
   */
  ghost predicate Served(s: Scheduler, begun: set<nat>, held: set<nat>, request: nat, due: real)
    reads s
  {
    Later(begun, request) || s.Covered(DueBy(due)) || (Later(held, request) && s.Covered(AfterThisPass))
  }

  predicate Possible(event: Event) {
    (event.Finish? ==> 0.0 <= event.random < 1.0) && (event.Pause? ==> event.time >= 0.0)
  }

  /** One event: it begins a pass, or finds one running that it has to wait for, or leaves every demand standing. */
  method Happen(s: Scheduler, event: Event) returns (ghost began: bool, ghost waits: bool)
    requires s.Valid() && Possible(event)
    modifies s
    ensures s.Valid() && s.now == old(s.now) + if event.Pause? then event.time else 0.0
    ensures s.passes == old(s.passes) + (if began then 1 else 0) && (began || waits ==> event.Fire? || event.Wake?)
    ensures if began then s.unserved == {} && !waits else if waits then AfterThisPass in s.unserved else old(s.unserved) <= s.unserved
    ensures event.Request? ==> DueBy(old(s.now) + event.delay) in s.unserved
  {
    began, waits := false, false;
    match event {
      case Request(delay) => s.ScheduleReconcile(delay);
      case Fire =>
        if s.timer.Some? && s.timer.value <= s.now {
          var starts := s.FireTimer();
          began, waits := starts, !starts;
        }
      case Wake =>
        if !s.wait.InPass? && s.wait.until <= s.now {
          var starts := s.WakeLoop();
          began, waits := starts, !starts;
        }
      case Finish(ending, random) => if s.reconciling { s.EndPass(ending, random); }
      case Pause(time) => s.Elapse(time);
    }
  }

  /**
   * Any sequence of requests, timer firings, loop wakes and pass endings. No request is lost and none is
   * late without cause; and a call for a pass that found another one running is itself followed by a pass
   * within the allowed delay of that one's end.
   */
  method Drive(s: Scheduler, events: seq<Event>)
    returns (ghost begun: set<nat>, ghost held: set<nat>)
    requires s.Valid() && s.unserved == {}
    requires forall event :: event in events ==> Possible(event)
    modifies s
    ensures s.Valid() && s.now == Clock(old(s.now), events)
    ensures forall i :: 0 <= i < |events| && events[i].Request? ==> Served(s, begun, held, i, Due(old(s.now), events, i))
    ensures forall j :: j in held ==> Later(begun, j) || s.Covered(AfterThisPass)
    ensures forall j :: j in begun + held ==> j < |events| && (events[j].Fire? || events[j].Wake?)
    ensures |begun| == s.passes - old(s.passes)
  {
    begun, held := {}, {};
    ghost var start := s.now;
    var i := 0;
    while i < |events|
      invariant 0 <= i <= |events| && s.Valid() && s.now == Clock(start, events[..i])
      invariant forall k :: 0 <= k < i && events[k].Request? ==>
        Later(begun, k) || DueBy(Due(start, events, k)) in s.unserved || (Later(held, k) && AfterThisPass in s.unserved)
      invariant forall j :: j in held ==> Later(begun, j) || AfterThisPass in s.unserved
      invariant forall j :: j in begun + held ==> j < i && (events[j].Fire? || events[j].Wake?)
      invariant |begun| == s.passes - old(s.passes)
    {
      assert events[i] in events;
      assert events[..i + 1][..i] == events[..i];
      ghost var earlier, before := begun, held;
      ghost var began, waits := Happen(s, events[i]);
      begun := if began then begun + {i} else begun;
      held := if waits then held + {i} else held;
      assert earlier <= begun && (begun != earlier ==> i in begun);
      assert before <= held && (held != before ==> i in held);
      i := i + 1;
    }
    assert events[..i] == events;
  }
}
