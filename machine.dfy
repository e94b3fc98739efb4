/**
 * The timer's state machine as functions on a snapshot of its fields: the
 * specification the methods of `Controller.Timer` are proved against and the
 * subject of the lemmas about sequences of calls. Emitted events and calls to
 * the host's timer facility are appended to a trace in the order the source
 * performs them.
 */
module Machine {
  import opened Wrappers
  import opened Options
  import opened Delay

  /** `Timer.state`; `Unset` is the state of a timer that was never started or stopped. */
  datatype State = Unset | Running | Paused | Resumed | Resetting | Stopped

  /** The events a timer emits: `tick`, and `toll` with the new state. */
  datatype Event = Tick | Toll(state: State)

  /** One observable effect: an emitted event, a wake-up scheduled after `after` ms, or a wake-up cancelled. */
  datatype Effect = Emit(event: Event) | SetTimer(after: int) | ClearTimer

  /** The fields of a timer; `pending` is the scheduled wake-up (`this.timer`) with its delay. */
  datatype TimerState = TimerState(
    state: State,
    attempts: nat,
    delay: int,
    overed: bool,
    pending: Option<int>,
    trace: seq<Effect>)

  /** The branches of the overrun `switch` in the tick callback. */
  datatype Branch = StopBranch | ResetBranch | Continue

  /** The overrun `switch`: a stored value that matches no case (`undefined`) falls through. */
  function OverrunBranch(s: StoredOverrun): Branch {
    match s
    case Known(OverrunStop) => StopBranch
    case Known(OverrunReset) => ResetBranch
    case Known(OverrunOverload) => Continue
    case Undefined => Continue
  }

  /** The overrun test of a tick: the attempts reached `maxAttempts` or the delay reached `maxDelay`. */
  predicate Exceeds(o: Options, attempts: int, delay: int) {
    attempts >= o.maxAttempts || (o.maxDelay.Some? && delay >= o.maxDelay.value)
  }

  function Logged(m: TimerState, e: Effect): TimerState {
    m.(trace := m.trace + [e])
  }

  /** A timer just constructed. */
  function Fresh(o: Options): TimerState {
    TimerState(Unset, 0, o.delay, false, None, [])
  }

  /** `__nextTick`: schedule the next wake-up after the current delay. */
  function NextTick(m: TimerState): TimerState {
    Logged(m, SetTimer(m.delay)).(pending := Some(m.delay))
  }

  /** `__reset(stop, noNotify)`. */
  function ResetInternal(o: Options, m: TimerState, stop: bool, noNotify: bool): TimerState {
    var cancelled := if m.pending.Some? then Logged(m, ClearTimer) else m;
    var cleared := cancelled.(pending := None, delay := o.delay, attempts := 0, overed := false);
    if stop then cleared
    else
      var announced := cleared.(state := Resetting);
      var notified := if noNotify then announced else Logged(announced, Emit(Toll(Resetting)));
      NextTick(notified.(state := Running))
  }

  /** `reset(stop)`: always without the `reset` toll. */
  function Reset(o: Options, m: TimerState, stop: bool): TimerState {
    ResetInternal(o, m, stop, true)
  }

  function Start(o: Options, m: TimerState): TimerState {
    if m.state != Running then Reset(o, m, false) else m
  }

  function Stop(o: Options, m: TimerState): TimerState {
    if m.state == Stopped then m
    else
      var cleared := ResetInternal(o, m, true, true).(state := Stopped);
      Logged(cleared, Emit(Toll(cleared.state)))
  }

  function Pause(o: Options, m: TimerState): TimerState {
    if m.state != Running then m
    else
      var paused := ResetInternal(o, m, true, true).(attempts := m.attempts, state := Paused);
      Logged(paused, Emit(Toll(paused.state)))
  }

  function Resume(o: Options, m: TimerState): TimerState
    requires o.maxAttempts >= 1
  {
    if m.state != Paused then m
    else
      var resumed := m.(state := Resumed);
      var announced := Logged(resumed, Emit(Toll(resumed.state)));
      NextTick(announced.(state := Running, delay := NextDelay(o, announced.attempts + 1)))
  }

  /**
   * The body of the wake-up callback: the wake-up is spent, one more attempt
   * is counted, the delay for the attempt after it is computed, and the
   * overrun flag is set once the limits are reached (and then kept).
   */
  function Fire(o: Options, m: TimerState): TimerState
    requires o.maxAttempts >= 1
    requires m.pending.Some?
  {
    var ticked := m.(pending := None, attempts := m.attempts + 1);
    var next := ticked.(delay := NextDelay(o, ticked.attempts + 1));
    var checked := if next.overed then next else next.(overed := Exceeds(o, next.attempts, next.delay));
    var branch := if checked.overed then OverrunBranch(Known(o.overrun)) else Continue;
    match branch
    case StopBranch => Stop(o, Logged(checked, Emit(Tick)))
    case ResetBranch => Reset(o, Logged(checked, Emit(Tick)), false)
    case Continue => Logged(NextTick(checked), Emit(Tick))
  }

  /** Up to `n` wake-ups, each firing only while one is pending. */
  function Run(o: Options, m: TimerState, n: nat): TimerState
    requires o.maxAttempts >= 1
    decreases n
  {
    if n == 0 || m.pending.None? then m else Run(o, Fire(o, m), n - 1)
  }

  /** The number of `tick` events in a trace. */
  function Ticks(t: seq<Effect>): nat {
    if t == [] then 0 else Ticks(t[..|t| - 1]) + (if t[|t| - 1] == Emit(Tick) then 1 else 0)
  }

  /** The states announced by `toll` events in a trace, in order. */
  function Tolls(t: seq<Effect>): seq<State> {
    if t == [] then []
    else
      var last := t[|t| - 1];
      Tolls(t[..|t| - 1]) + (if last.Emit? && last.event.Toll? then [last.event.state] else [])
  }

  /** A `toll` only ever announces a pause, a resume or a stop. */
  predicate Announced(e: Effect) {
    e.Emit? && e.event.Toll? ==> e.event.state == Paused || e.event.state == Resumed || e.event.state == Stopped
  }

  /**
   * What holds between calls: no transient state, a pending wake-up only
   * while running and with the current delay, no `reset` or `running` toll,
   * and, when overrun stops or resets the timer, fewer attempts than
   * `maxAttempts` and the overrun flag clear.
   */
  predicate Inv(o: Options, m: TimerState) {
    m.state != Resumed && m.state != Resetting
    && (m.pending.Some? ==> m.state == Running && m.pending.value == m.delay)
    && (forall i :: 0 <= i < |m.trace| ==> Announced(m.trace[i]))
    && (o.overrun != OverrunOverload ==> m.attempts < o.maxAttempts && !m.overed)
  }

  /** A wake-up is pending exactly while the timer is running. */
  predicate Live(m: TimerState) {
    m.pending.Some? <==> m.state == Running
  }

  /** The timer is ready for the first attempt of a cycle. */
  predicate CycleStart(o: Options, m: TimerState) {
    m.state == Running && m.attempts == 0 && m.delay == o.delay && m.pending == Some(o.delay) && !m.overed
  }

  /** No delay for the indices `lo` to `hi` reaches a bounded `maxDelay`. */
  predicate UnderCap(o: Options, lo: nat, hi: nat)
    requires o.maxAttempts >= 1
  {
    o.maxDelay.None? || forall j: nat :: lo <= j <= hi ==> NextDelay(o, j) < o.maxDelay.value
  }

  // ----- one call at a time -----

  /** A fresh timer satisfies the invariant and has no wake-up. */
  lemma FreshIsValid(o: Options)
    requires ValidOptions(o)
    ensures Inv(o, Fresh(o)) && Live(Fresh(o)) && Fresh(o).state == Unset
  {
  }

  lemma {:induction false} TicksSnoc(t: seq<Effect>, e: Effect)
    ensures Ticks(t + [e]) == Ticks(t) + (if e == Emit(Tick) then 1 else 0)
    ensures Tolls(t + [e]) == Tolls(t) + (if e.Emit? && e.event.Toll? then [e.event.state] else [])
  {
  }

  /** `pause`, `resume`, `stop` and `start` do nothing at all when their guard fails. */
  lemma GuardedNoOps(o: Options, m: TimerState)
    requires o.maxAttempts >= 1
    ensures m.state != Running ==> Pause(o, m) == m
    ensures m.state != Paused ==> Resume(o, m) == m
    ensures m.state == Stopped ==> Stop(o, m) == m
    ensures m.state == Running ==> Start(o, m) == m
  {
  }

  /** From any state but running, `start` cancels a leftover wake-up and begins a new cycle, silently. */
  lemma StartRestarts(o: Options, m: TimerState)
    requires m.state != Running
    ensures var r := Start(o, m);
      CycleStart(o, r)
      && r.trace == m.trace + (if m.pending.Some? then [ClearTimer] else []) + [SetTimer(o.delay)]
  {
  }

  /** `stop` from any other state, a fresh one included, clears the timer and tolls `stop`. */
  lemma StopClears(o: Options, m: TimerState)
    requires m.state != Stopped
    ensures var r := Stop(o, m);
      r.state == Stopped && r.attempts == 0 && r.delay == o.delay && !r.overed && r.pending.None?
      && r.trace == m.trace + (if m.pending.Some? then [ClearTimer] else []) + [Emit(Toll(Stopped))]
  {
  }

  /** Counting ticks and collecting tolls distribute over concatenation. */
  lemma {:induction false} TraceAppend(a: seq<Effect>, b: seq<Effect>)
    ensures Ticks(a + b) == Ticks(a) + Ticks(b)
    ensures Tolls(a + b) == Tolls(a) + Tolls(b)
    decreases |b|
  {
    if b == [] {
      assert a + b == a;
    } else {
      var init := b[..|b| - 1];
      TraceAppend(a, init);
      assert a + b == (a + init) + [b[|b| - 1]];
      assert b == init + [b[|b| - 1]];
      TicksSnoc(a + init, b[|b| - 1]);
      TicksSnoc(init, b[|b| - 1]);
    }
  }

  /** The trace `__reset` appends: a cancellation, the `reset` toll, the new wake-up, as applicable. */
  function ResetEffects(o: Options, m: TimerState, stop: bool, noNotify: bool): seq<Effect> {
    (if m.pending.Some? then [ClearTimer] else [])
    + (if !stop && !noNotify then [Emit(Toll(Resetting))] else [])
    + (if !stop then [SetTimer(o.delay)] else [])
  }

  lemma ResetInternalTrace(o: Options, m: TimerState, stop: bool, noNotify: bool)
    ensures ResetInternal(o, m, stop, noNotify).trace == m.trace + ResetEffects(o, m, stop, noNotify)
  {
  }

  /**
   * `__reset` announces `reset` only when asked to notify and not to stop;
   * no caller asks, so no `reset` toll is ever emitted.
   */
  lemma ResetTollOnlyWhenNotifying(o: Options, m: TimerState, stop: bool, noNotify: bool)
    ensures Tolls(ResetInternal(o, m, stop, noNotify).trace) == Tolls(m.trace) + (if !stop && !noNotify then [Resetting] else [])
    ensures Tolls(Reset(o, m, stop).trace) == Tolls(m.trace)
  {
    ResetInternalTrace(o, m, stop, noNotify);
    ResetInternalTrace(o, m, stop, true);
    ResetEffectsTolls(o, m, stop, noNotify);
    ResetEffectsTolls(o, m, stop, true);
    TraceAppend(m.trace, ResetEffects(o, m, stop, noNotify));
    TraceAppend(m.trace, ResetEffects(o, m, stop, true));
  }

  lemma ResetEffectsTolls(o: Options, m: TimerState, stop: bool, noNotify: bool)
    ensures Tolls(ResetEffects(o, m, stop, noNotify)) == if !stop && !noNotify then [Resetting] else []
  {
    var c: seq<Effect> := if m.pending.Some? then [ClearTimer] else [];
    var n: seq<Effect> := if !stop && !noNotify then [Emit(Toll(Resetting))] else [];
    var s: seq<Effect> := if !stop then [SetTimer(o.delay)] else [];
    assert ResetEffects(o, m, stop, noNotify) == c + n + s;
    TraceAppend(c + n, s);
    TraceAppend(c, n);
    assert Tolls(c) == [] && Tolls(s) == [];
    assert Tolls(n) == if !stop && !noNotify then [Resetting] else [];
  }

  /**
   * `reset(true)` on a running timer cancels its wake-up but leaves the state
   * running: no wake-up is pending although the timer is running, and `start`
   * then does nothing.
   */
  lemma ResetStopWhileRunningStalls(o: Options, m: TimerState)
    requires m.state == Running
    ensures var r := Reset(o, m, true);
      r.state == Running && r.pending.None? && !Live(r) && Start(o, r) == r
  {
  }

  /** `pause` keeps the attempt count; `resume` goes on from it, with the delay for the next attempt. */
  lemma PauseKeepsProgress(o: Options, m: TimerState)
    requires o.maxAttempts >= 1
    requires m.state == Running
    ensures var p := Pause(o, m);
      p.state == Paused && p.attempts == m.attempts && p.pending.None? && !p.overed
      && p.trace == m.trace + (if m.pending.Some? then [ClearTimer] else []) + [Emit(Toll(Paused))]
    ensures var p := Pause(o, m); var r := Resume(o, p);
      r.state == Running && r.attempts == m.attempts
      && r.delay == NextDelay(o, m.attempts + 1) && r.pending == Some(r.delay)
      && r.trace == p.trace + [Emit(Toll(Resumed)), SetTimer(r.delay)]
  {
  }

  /** Pausing, resuming and stopping a running timer tolls exactly `pause`, `resume`, `stop`. */
  lemma PauseResumeStopTolls(o: Options, m: TimerState)
    requires o.maxAttempts >= 1
    requires m.state == Running
    ensures var r := Stop(o, Resume(o, Pause(o, m)));
      Tolls(r.trace) == Tolls(m.trace) + [Paused, Resumed, Stopped]
      && r.state == Stopped && r.attempts == 0 && r.pending.None?
  {
    var p := Pause(o, m);
    var q := Resume(o, p);
    var r := Stop(o, q);
    PauseKeepsProgress(o, m);
    StopClears(o, q);
    var c: seq<Effect> := if m.pending.Some? then [ClearTimer] else [];
    assert r.trace == m.trace + c + [Emit(Toll(Paused))] + [Emit(Toll(Resumed)), SetTimer(q.delay)] + [ClearTimer, Emit(Toll(Stopped))];
    LifecycleTolls(m.trace, c, q.delay);
  }

  lemma LifecycleTolls(t: seq<Effect>, c: seq<Effect>, d: int)
    requires c == [] || c == [ClearTimer]
    ensures Tolls(t + c + [Emit(Toll(Paused))] + [Emit(Toll(Resumed)), SetTimer(d)] + [ClearTimer, Emit(Toll(Stopped))])
      == Tolls(t) + [Paused, Resumed, Stopped]
  {
    var p := t + c + [Emit(Toll(Paused))];
    if c == [] {
      assert t + c == t;
    } else {
      TicksSnoc(t, ClearTimer);
    }
    TicksSnoc(t + c, Emit(Toll(Paused)));
    var q := p + [Emit(Toll(Resumed))];
    TicksSnoc(p, Emit(Toll(Resumed)));
    TicksSnoc(q, SetTimer(d));
    assert p + [Emit(Toll(Resumed)), SetTimer(d)] == q + [SetTimer(d)];
    var r := q + [SetTimer(d)] ;
    TicksSnoc(r, ClearTimer);
    TicksSnoc(r + [ClearTimer], Emit(Toll(Stopped)));
    assert r + [ClearTimer, Emit(Toll(Stopped))] == r + [ClearTimer] + [Emit(Toll(Stopped))];
  }

  /** A tick that does not stop or reset the timer schedules the next wake-up before it emits `tick`. */
  lemma FireContinues(o: Options, m: TimerState)
    requires ValidOptions(o)
    requires m.pending.Some?
    requires var a := m.attempts + 1;
      !(m.overed || Exceeds(o, a, NextDelay(o, a + 1))) || o.overrun == OverrunOverload
    ensures var a := m.attempts + 1; var d := NextDelay(o, a + 1);
      Fire(o, m) == m.(attempts := a, delay := d, overed := m.overed || Exceeds(o, a, d),
                       pending := Some(d), trace := m.trace + [SetTimer(d), Emit(Tick)])
  {
  }

  /** On overrun with `stop`, the tick is emitted before the `stop` toll, and the timer ends cleared. */
  lemma FireOverrunStop(o: Options, m: TimerState)
    requires ValidOptions(o) && o.overrun == OverrunStop
    requires m.state == Running && m.pending.Some?
    requires var a := m.attempts + 1; m.overed || Exceeds(o, a, NextDelay(o, a + 1))
    ensures Fire(o, m) == m.(state := Stopped, attempts := 0, delay := o.delay, overed := false,
                             pending := None, trace := m.trace + [Emit(Tick), Emit(Toll(Stopped))])
  {
  }

  /** On overrun with `reset`, the tick is emitted, then a new cycle begins without a toll. */
  lemma FireOverrunReset(o: Options, m: TimerState)
    requires ValidOptions(o) && o.overrun == OverrunReset
    requires m.pending.Some?
    requires var a := m.attempts + 1; m.overed || Exceeds(o, a, NextDelay(o, a + 1))
    ensures CycleStart(o, Fire(o, m))
    ensures Fire(o, m).trace == m.trace + [Emit(Tick), SetTimer(o.delay)]
  {
  }

  /** Once set, the overrun flag stays set; only a stop or a reset, which zero the attempts, clears it. */
  lemma OveredIsSticky(o: Options, m: TimerState)
    requires ValidOptions(o)
    requires m.pending.Some? && m.overed
    ensures Fire(o, m).overed || (Fire(o, m).attempts == 0 && o.overrun != OverrunOverload)
    ensures o.overrun == OverrunOverload ==> Fire(o, m).overed
  {
  }

  /** An `undefined` overrun setting behaves in a tick exactly as 'overload'. */
  lemma UndefinedOverrunActsAsOverload()
    ensures OverrunBranch(Undefined) == OverrunBranch(Known(OverrunOverload)) == Continue
  {
  }

  // ----- the invariant -----

  lemma StartKeepsInv(o: Options, m: TimerState)
    requires ValidOptions(o) && Inv(o, m)
    ensures Inv(o, Start(o, m))
    ensures Live(m) ==> Live(Start(o, m))
  {
  }

  lemma StopKeepsInv(o: Options, m: TimerState)
    requires ValidOptions(o) && Inv(o, m)
    ensures Inv(o, Stop(o, m))
    ensures Live(m) ==> Live(Stop(o, m))
  {
  }

  /** `reset(stop)` keeps the invariant; `reset(false)` also keeps a wake-up pending iff running. */
  lemma ResetKeepsInv(o: Options, m: TimerState, stop: bool)
    requires ValidOptions(o) && Inv(o, m)
    ensures Inv(o, Reset(o, m, stop))
    ensures Live(m) && !stop ==> Live(Reset(o, m, stop))
    ensures Live(m) && m.state != Running ==> Live(Reset(o, m, stop))
  {
  }

  lemma PauseKeepsInv(o: Options, m: TimerState)
    requires ValidOptions(o) && Inv(o, m)
    ensures Inv(o, Pause(o, m))
    ensures Live(m) ==> Live(Pause(o, m))
  {
  }

  lemma ResumeKeepsInv(o: Options, m: TimerState)
    requires ValidOptions(o) && Inv(o, m)
    ensures Inv(o, Resume(o, m))
    ensures Live(m) ==> Live(Resume(o, m))
  {
  }

  lemma FireKeepsInv(o: Options, m: TimerState)
    requires ValidOptions(o) && Inv(o, m)
    requires m.pending.Some?
    ensures Inv(o, Fire(o, m))
    ensures Live(m) ==> Live(Fire(o, m))
  {
  }

  /** A trace that keeps the invariant holds no `reset` and no `running` toll. */
  lemma {:induction false} NoResetOrRunningToll(t: seq<Effect>)
    requires forall i :: 0 <= i < |t| ==> Announced(t[i])
    ensures Resetting !in Tolls(t) && Running !in Tolls(t) && Unset !in Tolls(t)
  {
    if t != [] {
      var init := t[..|t| - 1];
      assert forall i :: 0 <= i < |init| ==> Announced(init[i]) by {
        forall i | 0 <= i < |init| ensures Announced(init[i]) {
          assert init[i] == t[i];
        }
      }
      NoResetOrRunningToll(init);
      assert Announced(t[|t| - 1]);
    }
  }

  // ----- sequences of wake-ups -----

  /** Every tick emits exactly one `tick`; only a tick that stops the timer also tolls, and only `stop`. */
  lemma FireTicksOnce(o: Options, m: TimerState)
    requires ValidOptions(o)
    requires m.state == Running && m.pending.Some?
    ensures Ticks(Fire(o, m).trace) == Ticks(m.trace) + 1
    ensures Tolls(Fire(o, m).trace) == Tolls(m.trace) + (if Fire(o, m).state == Stopped then [Stopped] else [])
    ensures Fire(o, m).state == Running || Fire(o, m).state == Stopped
  {
    var a := m.attempts + 1;
    var d := NextDelay(o, a + 1);
    var reached := m.overed || Exceeds(o, a, d);
    if reached && o.overrun == OverrunStop {
      FireOverrunStop(o, m);
      TwoEffects(m.trace, Emit(Tick), Emit(Toll(Stopped)));
    } else if reached && o.overrun == OverrunReset {
      FireOverrunReset(o, m);
      TwoEffects(m.trace, Emit(Tick), SetTimer(o.delay));
    } else {
      FireContinues(o, m);
      TwoEffects(m.trace, SetTimer(d), Emit(Tick));
    }
  }

  lemma TwoEffects(t: seq<Effect>, e1: Effect, e2: Effect)
    ensures Ticks(t + [e1, e2]) == Ticks(t) + (if e1 == Emit(Tick) then 1 else 0) + (if e2 == Emit(Tick) then 1 else 0)
    ensures Tolls(t + [e1, e2]) == Tolls(t) + (if e1.Emit? && e1.event.Toll? then [e1.event.state] else [])
                                            + (if e2.Emit? && e2.event.Toll? then [e2.event.state] else [])
  {
    TicksSnoc(t, e1);
    TicksSnoc(t + [e1], e2);
    assert t + [e1, e2] == t + [e1] + [e2];
  }

  /** Running `a` wake-ups and then `b` more is running `a + b`. */
  lemma {:induction false} RunAppend(o: Options, m: TimerState, a: nat, b: nat)
    requires o.maxAttempts >= 1
    ensures Run(o, m, a + b) == Run(o, Run(o, m, a), b)
    decreases a
  {
    if a > 0 && m.pending.Some? {
      RunAppend(o, Fire(o, m), a - 1, b);
    }
  }

  /**
   * With overrun `stop` and no delay reaching `maxDelay`, a running timer
   * ticks until its attempts reach `maxAttempts`, emitting one `tick` per
   * attempt, and then stops with the `stop` toll right after the last tick;
   * no further wake-up fires.
   */
  lemma {:induction false} OverrunStopEndsRun(o: Options, m: TimerState, n: nat)
    requires ValidOptions(o) && o.overrun == OverrunStop
    requires m.state == Running && m.pending.Some? && m.attempts < o.maxAttempts && !m.overed
    requires UnderCap(o, m.attempts + 2, o.maxAttempts)
    requires n >= o.maxAttempts - m.attempts
    ensures var r := Run(o, m, n);
      r.state == Stopped && r.attempts == 0 && r.pending.None? && !r.overed
      && Ticks(r.trace) == Ticks(m.trace) + (o.maxAttempts - m.attempts)
      && Tolls(r.trace) == Tolls(m.trace) + [Stopped]
      && |r.trace| >= 2 && r.trace[|r.trace| - 2..] == [Emit(Tick), Emit(Toll(Stopped))]
    decreases o.maxAttempts - m.attempts
  {
    var f := Fire(o, m);
    var a := m.attempts + 1;
    FireTicksOnce(o, m);
    if a == o.maxAttempts {
      FireOverrunStop(o, m);
      assert Run(o, f, n - 1) == f;
    } else {
      assert o.maxDelay.None? || NextDelay(o, a + 1) < o.maxDelay.value;
      FireContinues(o, m);
      OverrunStopEndsRun(o, f, n - 1);
    }
  }

  /**
   * Started from any state but running, with overrun `stop`, `maxAttempts = k`
   * and no delay reaching `maxDelay`, the timer emits exactly `k` ticks and
   * then the `stop` toll, however many more wake-ups are waited for.
   */
  lemma StartTicksMaxAttemptsThenStops(o: Options, m: TimerState, n: nat)
    requires ValidOptions(o) && o.overrun == OverrunStop
    requires m.state != Running
    requires UnderCap(o, 2, o.maxAttempts)
    requires n >= o.maxAttempts
    ensures var r := Run(o, Start(o, m), n);
      r.state == Stopped && r.pending.None?
      && Ticks(r.trace) == Ticks(Start(o, m).trace) + o.maxAttempts
      && Tolls(r.trace) == Tolls(m.trace) + [Stopped]
  {
    StartRestarts(o, m);
    ResetTollOnlyWhenNotifying(o, m, false, true);
    OverrunStopEndsRun(o, Start(o, m), n);
  }

  /**
   * With overrun `reset` and no delay reaching `maxDelay`, a running timer
   * ticks until its attempts reach `maxAttempts` and is then at the start of
   * a new cycle, having emitted one `tick` per attempt and no toll.
   */
  lemma {:induction false} OverrunResetEndsCycle(o: Options, m: TimerState)
    requires ValidOptions(o) && o.overrun == OverrunReset
    requires m.state == Running && m.pending.Some? && m.attempts < o.maxAttempts && !m.overed
    requires UnderCap(o, m.attempts + 2, o.maxAttempts)
    ensures var r := Run(o, m, o.maxAttempts - m.attempts);
      CycleStart(o, r)
      && Ticks(r.trace) == Ticks(m.trace) + (o.maxAttempts - m.attempts)
      && Tolls(r.trace) == Tolls(m.trace)
    decreases o.maxAttempts - m.attempts
  {
    var f := Fire(o, m);
    var a := m.attempts + 1;
    FireTicksOnce(o, m);
    if a == o.maxAttempts {
      FireOverrunReset(o, m);
      assert Run(o, m, 1) == Run(o, f, 0);
    } else {
      assert o.maxDelay.None? || NextDelay(o, a + 1) < o.maxDelay.value;
      FireContinues(o, m);
      OverrunResetEndsCycle(o, f);
      assert Run(o, m, o.maxAttempts - m.attempts) == Run(o, f, o.maxAttempts - f.attempts);
    }
  }

  /** With overrun `reset`, the timer runs forever in cycles of `maxAttempts` ticks, never tolling. */
  lemma {:induction false} OverrunResetCycles(o: Options, m: TimerState, cycles: nat)
    requires ValidOptions(o) && o.overrun == OverrunReset
    requires CycleStart(o, m)
    requires UnderCap(o, 2, o.maxAttempts)
    ensures var r := Run(o, m, cycles * o.maxAttempts);
      CycleStart(o, r)
      && Ticks(r.trace) == Ticks(m.trace) + cycles * o.maxAttempts
      && Tolls(r.trace) == Tolls(m.trace)
  {
    if cycles > 0 {
      var k := o.maxAttempts;
      OverrunResetCycles(o, m, cycles - 1);
      var mid := Run(o, m, (cycles - 1) * k);
      assert cycles * k == (cycles - 1) * k + k;
      RunAppend(o, m, (cycles - 1) * k, k);
      OverrunResetEndsCycle(o, mid);
    }
  }

  /**
   * With overrun 'overload', a running timer keeps ticking: every wake-up
   * counts one more attempt and emits one `tick`, the delay follows the
   * attempts (and stays at its value for `maxAttempts` once they pass it),
   * and no toll is emitted.
   */
  lemma {:induction false} OverloadKeepsTicking(o: Options, m: TimerState, n: nat)
    requires ValidOptions(o) && o.overrun == OverrunOverload
    requires m.state == Running && m.pending == Some(m.delay)
    ensures var r := Run(o, m, n);
      r.state == Running && r.pending == Some(r.delay) && r.attempts == m.attempts + n
      && Ticks(r.trace) == Ticks(m.trace) + n && Tolls(r.trace) == Tolls(m.trace)
      && (m.overed ==> r.overed)
    ensures n >= 1 ==> Run(o, m, n).delay == NextDelay(o, m.attempts + n + 1)
    ensures n >= 1 && m.attempts + n + 1 >= o.maxAttempts ==> Run(o, m, n).delay == NextDelay(o, o.maxAttempts)
    decreases n
  {
    if n > 0 {
      var f := Fire(o, m);
      FireContinues(o, m);
      FireTicksOnce(o, m);
      OverloadKeepsTicking(o, f, n - 1);
      assert Run(o, m, n) == Run(o, f, n - 1);
    }
  }
}
