/**
 The debouncer of the mempool statistics: triggers arm a timer, the timer starts a run, the end of a
 run arms it again if triggers came in meanwhile. The event loop's timers are part of the state.
 */
module MempoolStatDebouncers {
  import opened Types

  /** MEMPOOL_STATS_DEBOUNCE_INTERVAL and MEMPOOL_STATS_DEBOUNCE_MAX_INTERVAL, read from the environment. */
  datatype Config = Config(interval: nat, maxInterval: nat)

  type TimerId = nat

  /** The three fields, and the timers the event loop still has to fire. */
  datatype State = State(triggeredAt: Option<nat>, debounce: Option<TimerId>, running: bool,
                         timers: map<TimerId, nat>, nextId: TimerId)

  const IDLE := State(None, None, false, map[], 0)

  // ---- What the code does ------------------------------------------------------------------------

  /** Math.max(0, Math.min(MAX - waited, INTERVAL)) */
  function Delay(c: Config, waited: int): nat {
    var left := if c.maxInterval - waited < c.interval then c.maxInterval - waited else c.interval;
    if left < 0 then 0 else left
  }

  /** A new timer; the one it replaces is cancelled if it is still pending. */
  function Armed(c: Config, s: State, first: nat, now: nat): State {
    var kept := if s.debounce.Some? then s.timers - {s.debounce.value} else s.timers;
    s.(debounce := Some(s.nextId), timers := kept[s.nextId := now + Delay(c, now - first)], nextId := s.nextId + 1)
  }

  function OnTrigger(c: Config, s: State, now: nat): State {
    var first := if s.triggeredAt.Some? then s.triggeredAt.value else now;
    var s' := s.(triggeredAt := Some(first));
    if s'.running then s' else Armed(c, s', first, now)
  }

  function OnFire(s: State, id: TimerId): State {
    s.(running := true, triggeredAt := None, timers := s.timers - {id})
  }

  function OnFinish(c: Config, s: State, now: nat): State {
    var s' := s.(running := false, debounce := None);
    if s'.triggeredAt.Some? then OnTrigger(c, s', now) else s'
  }

  class MempoolStatDebouncer {
    const config: Config
    var triggeredAt: Option<nat>
    var debounce: Option<TimerId>
    var running: bool
    var timers: map<TimerId, nat>   // the event loop's
    var nextId: TimerId

    constructor (config: Config)
      ensures this.config == config && Current() == IDLE
    {
      this.config := config;
      triggeredAt, debounce, running, timers, nextId := None, None, false, map[], 0;
    }

    function Current(): State
      reads this
    {
      State(triggeredAt, debounce, running, timers, nextId)
    }

    /** debounceMempoolStat */
    method Debounce(now: nat)
      modifies this
      ensures Current() == OnTrigger(config, old(Current()), now)
    {
      if triggeredAt.None? {
        triggeredAt := Some(now);
      }
      if running {
        return;
      }
      var waited := now - triggeredAt.value;
      var delay := Delay(config, waited);
      if debounce.Some? {
        timers := timers - {debounce.value};
      }
      timers, debounce, nextId := timers[nextId := now + delay], Some(nextId), nextId + 1;
    }

    /** The timer's callback, up to the point where it waits for the database. */
    method StartRun(id: TimerId)
      modifies this
      ensures Current() == OnFire(old(Current()), id)
    {
      timers := timers - {id};
      running := true;
      triggeredAt := None;
    }

    /** The finally block of the callback. */
    method FinishRun(now: nat)
      modifies this
      ensures Current() == OnFinish(config, old(Current()), now)
    {
      running := false;
      debounce := None;
      if triggeredAt.Some? {
        Debounce(now);
      }
    }
  }

  // ---- Traces ------------------------------------------------------------------------------------

  datatype Event = Trigger(now: nat) | Fire(now: nat, id: TimerId) | Finish(now: nat)

  function Step(c: Config, s: State, e: Event): State {
    match e
    case Trigger(now) => OnTrigger(c, s, now)
    case Fire(_, id) => OnFire(s, id)
    case Finish(now) => OnFinish(c, s, now)
  }

  function After(c: Config, es: seq<Event>): State {
    if es == [] then IDLE else Step(c, After(c, es[..|es| - 1]), es[|es| - 1])
  }

  function Clock(es: seq<Event>): nat {
    if es == [] then 0 else es[|es| - 1].now
  }

  /** What the event loop can do: fire a timer that is due, end a run that is going on. */
  predicate Enabled(s: State, e: Event) {
    match e
    case Trigger(_) => true
    case Fire(now, id) => id in s.timers && s.timers[id] <= now
    case Finish(_) => s.running
  }

  /** Triggers, firings and ends of runs, in any order the event loop allows, as time goes on. */
  predicate Trace(c: Config, es: seq<Event>) {
    es == [] ||
    (var init, e := es[..|es| - 1], es[|es| - 1];
     Trace(c, init) && Clock(init) <= e.now && Enabled(After(c, init), e))
  }

  /** The time of the first trigger since the last run started. */
  function Waiting(es: seq<Event>): Option<nat> {
    if es == [] then None
    else
      var w := Waiting(es[..|es| - 1]);
      match es[|es| - 1]
      case Trigger(now) => if w.Some? then w else Some(now)
      case Fire(_, _) => None
      case Finish(_) => w
  }

  /**
   Either a run is going on and no timer is pending; or nothing waits and nothing is pending; or exactly
   one timer is pending, the current one, armed by the last event.
   */
  ghost predicate Shape(c: Config, s: State, clock: nat) {
    && (s.debounce.Some? ==> s.debounce.value < s.nextId)
    && (s.running || s.triggeredAt.None? ==> s.timers == map[])
    && (!s.running && s.triggeredAt.Some? ==>
          && s.debounce.Some?
          && s.timers == map[s.debounce.value := clock + Delay(c, clock - s.triggeredAt.value)])
  }

  lemma {:induction false} TraceShape(c: Config, es: seq<Event>)
    requires Trace(c, es)
    ensures Shape(c, After(c, es), Clock(es)) && After(c, es).triggeredAt == Waiting(es)
  {
    if es != [] {
      var init, e := es[..|es| - 1], es[|es| - 1];
      TraceShape(c, init);
      var s := After(c, init);
      if e.Fire? {
        assert s.timers - {e.id} == map[];
      } else if e.Trigger? && s.debounce.Some? {
        assert s.timers - {s.debounce.value} == map[];
      }
    }
  }

  /** No run starts while another is going on. */
  lemma NeverTwoRuns(c: Config, es: seq<Event>)
    requires Trace(c, es) && es != [] && es[|es| - 1].Fire?
    ensures !After(c, es[..|es| - 1]).running && After(c, es).running
    ensures After(c, es).timers == map[]
  {
    TraceShape(c, es[..|es| - 1]);
    TraceShape(c, es);
  }

  ghost predicate Served(es: seq<Event>, i: nat) {
    exists j :: i < j < |es| && es[j].Fire?
  }

  lemma {:induction false} ServedOrWaits(es: seq<Event>, i: nat)
    requires i < |es| && es[i].Trigger?
    ensures Served(es, i) || Waiting(es).Some?
  {
    var init, last := es[..|es| - 1], |es| - 1;
    if i < last {
      ServedOrWaits(init, i);
      if Served(init, i) {
        var j :| i < j < |init| && init[j].Fire?;
        assert es[j].Fire?;
      } else if es[last].Fire? {
        assert Served(es, i);
      }
    }
  }

  /**
   Every trigger is followed by a run that starts after it, or one is still to come: a run is going on
   that will arm the timer when it ends, or a timer is pending.
   */
  lemma EveryTriggerServed(c: Config, es: seq<Event>, i: nat)
    requires Trace(c, es) && i < |es| && es[i].Trigger?
    ensures Served(es, i) || (After(c, es).triggeredAt.Some? && (After(c, es).running || After(c, es).timers != map[]))
  {
    ServedOrWaits(es, i);
    if !Served(es, i) {
      TraceShape(c, es);
      var s := After(c, es);
      if !s.running {
        assert s.debounce.value in s.timers;
      }
    }
  }

  /** When a run ends with triggers waiting, the next one is due at once or at the first trigger's deadline. */
  lemma FinishRearms(c: Config, es: seq<Event>, now: nat)
    requires Trace(c, es) && After(c, es).running && Waiting(es).Some? && Clock(es) <= now
    ensures var s := OnFinish(c, After(c, es), now);
      !s.running && s.debounce.Some? && s.timers == map[s.debounce.value := now + Delay(c, now - Waiting(es).value)]
  {
    TraceShape(c, es);
  }

  function LastEnd(es: seq<Event>): nat {
    if es == [] then 0 else if es[|es| - 1].Finish? then es[|es| - 1].now else LastEnd(es[..|es| - 1])
  }

  /** Nothing happens after a pending timer was due, other than its firing. */
  predicate Punctual(c: Config, es: seq<Event>) {
    es == [] ||
    (var init := es[..|es| - 1];
     Punctual(c, init) && (forall id :: id in After(c, init).timers ==> es[|es| - 1].now <= After(c, init).timers[id]))
  }

  function Max(a: int, b: int): int {
    if a < b then b else a
  }

  /**
   The time bound: while no run is going on and a trigger waits, a timer is due no later than the maximum
   interval after the first waiting trigger, or the time of the last event. It is due no later than that
   maximum or the end of the last run exactly when the last event came no later.
   */
  lemma DueInTime(c: Config, es: seq<Event>)
    requires Trace(c, es) && !After(c, es).running && Waiting(es).Some?
    ensures var s, bound := After(c, es), Max(Waiting(es).value + c.maxInterval, LastEnd(es));
      && s.debounce.Some? && s.timers.Keys == {s.debounce.value}
      && s.timers[s.debounce.value] <= Max(Waiting(es).value + c.maxInterval, Clock(es))
      && (s.timers[s.debounce.value] <= bound <==> Clock(es) <= bound)
  {
    TraceShape(c, es);
  }

  /**
   And it is not due early: a waiting trigger waits the interval after the last event, cut short only by the
   maximum after the first waiting trigger, and not at all once that is over.
   */
  lemma DueExactly(c: Config, es: seq<Event>)
    requires Trace(c, es) && !After(c, es).running && Waiting(es).Some?
    ensures var s, last := After(c, es), Waiting(es).value + c.maxInterval;
      && s.debounce.Some? && s.debounce.value in s.timers
      && var due := s.timers[s.debounce.value];
      && Clock(es) <= due
      && (Clock(es) + c.interval <= last ==> due == Clock(es) + c.interval)
      && (Clock(es) <= last < Clock(es) + c.interval ==> due == last)
      && (last < Clock(es) ==> due == Clock(es))
  {
    TraceShape(c, es);
  }

  /** So no run starts less than the interval after the last trigger, unless the first one has waited the maximum. */
  lemma RunsAreApart(c: Config, es: seq<Event>)
    requires Trace(c, es) && es != [] && es[|es| - 1].Fire?
    ensures var init, now := es[..|es| - 1], es[|es| - 1].now;
      Waiting(init).Some? && (Clock(init) + c.interval <= now || Waiting(init).value + c.maxInterval <= now)
  {
    var init := es[..|es| - 1];
    TraceShape(c, init);
    DueExactly(c, init);
  }

  /** In particular a punctual event loop meets the bound. */
  lemma {:induction false} PunctualInTime(c: Config, es: seq<Event>)
    requires Trace(c, es) && Punctual(c, es) && !After(c, es).running && Waiting(es).Some?
    ensures var s := After(c, es);
      && s.debounce.Some? && s.debounce.value in s.timers
      && s.timers[s.debounce.value] <= Max(Waiting(es).value + c.maxInterval, LastEnd(es))
  {
    TraceShape(c, es);
    var init := es[..|es| - 1];
    TraceShape(c, init);
    if Waiting(init).Some? && es[|es| - 1].Trigger? {
      PunctualInTime(c, init);
    }
  }

  /** With a late event loop the end of the last run is no bound: triggers keep pushing an overdue timer back. */
  lemma LateLoopDelays()
    ensures var c, es := Config(1, 1), [Trigger(0), Trigger(5)];
      && Trace(c, es) && Waiting(es) == Some(0) && LastEnd(es) == 0
      && After(c, es).timers == map[1 := 5] && Max(Waiting(es).value + c.maxInterval, LastEnd(es)) < 5
  {
    var c := Config(1, 1);
    var one, two := [Trigger(0)], [Trigger(0), Trigger(5)];
    assert one[..0] == [] && two[..1] == one;
    assert After(c, []) == IDLE && Trace(c, []) && Waiting([]) == None;
    assert After(c, one) == OnTrigger(c, IDLE, 0) && Waiting(one) == Some(0) && Trace(c, one);
    assert After(c, one).timers == map[0 := 1];
    assert After(c, two) == OnTrigger(c, After(c, one), 5);
    assert LastEnd(one) == LastEnd([]) == 0;
    assert map[0 := 1] - {0} == map[];
  }
}
