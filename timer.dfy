/**
 * The timer object of lib/timer.js: its fields, updated in place by its
 * methods in the order the source updates them. Each method is proved to
 * leave the fields as the matching function of module `Machine` says, and to
 * keep `Machine.Inv`. Emitting an event appends it to `trace`; so do the calls
 * to the host's `setTimeout` and `clearTimeout`, whose wake-up is the field
 * `pending` and whose firing is a call of `Fire`.
 */
module Controller {
  import opened Wrappers
  import opened Options
  import opened Delay
  import Machine

  class Timer {
    const options: Options
    var state: Machine.State
    var attempts: nat
    var delay: int
    var overed: bool
    var pending: Option<int>
    var trace: seq<Machine.Effect>

    /** The fields as one value, for the specifications in `Machine`. */
    function Snapshot(): Machine.TimerState
      reads this
    {
      Machine.TimerState(state, attempts, delay, overed, pending, trace)
    }

    ghost predicate Valid()
      reads this
    {
      ValidOptions(options) && Machine.Inv(options, Snapshot())
    }

    /** `Timer(options)`: normalise the options, then start at once if `autostart` is set. */
    constructor (raw: RawOptions)
      requires Supported(raw)
      ensures options == Normalize(raw)
      ensures Snapshot() == if options.autostart then Machine.Start(options, Machine.Fresh(options)) else Machine.Fresh(options)
      ensures Valid()
    {
      var o := Normalize(raw);
      options := o;
      state := Machine.Unset;
      attempts := 0;
      delay := o.delay;
      overed := false;
      pending := None;
      trace := [];
      new;
      SupportedIsValid(raw);
      Machine.FreshIsValid(options);
      Machine.StartKeepsInv(options, Snapshot());
      if options.autostart {
        Start();
      }
    }

    /** `__nextTick`: schedule the wake-up after the current delay. */
    method NextTick()
      modifies this
      ensures Snapshot() == Machine.NextTick(old(Snapshot()))
    {
      pending := Some(delay);
      trace := trace + [Machine.SetTimer(delay)];
    }

    /** `__reset(stop, noNotify)`. */
    method ResetInternal(stop: bool, noNotify: bool)
      modifies this
      ensures Snapshot() == Machine.ResetInternal(options, old(Snapshot()), stop, noNotify)
    {
      if pending.Some? {
        trace := trace + [Machine.ClearTimer];
      }
      pending := None;
      delay := options.delay;
      attempts := 0;
      overed := false;
      if !stop {
        state := Machine.Resetting;
        if !noNotify {
          trace := trace + [Machine.Emit(Machine.Toll(state))];
        }
        state := Machine.Running;
        NextTick();
      }
    }

    method Start()
      modifies this
      ensures Snapshot() == Machine.Start(options, old(Snapshot()))
      ensures old(Valid()) ==> Valid()
    {
      if Valid() {
        Machine.StartKeepsInv(options, Snapshot());
      }
      if state != Machine.Running {
        Reset(false);
      }
    }

    method Stop()
      modifies this
      ensures Snapshot() == Machine.Stop(options, old(Snapshot()))
      ensures old(Valid()) ==> Valid()
    {
      if Valid() {
        Machine.StopKeepsInv(options, Snapshot());
      }
      if state == Machine.Stopped {
        return;
      }
      ResetInternal(true, true);
      state := Machine.Stopped;
      trace := trace + [Machine.Emit(Machine.Toll(state))];
    }

    method Reset(stop: bool)
      modifies this
      ensures Snapshot() == Machine.Reset(options, old(Snapshot()), stop)
      ensures old(Valid()) ==> Valid()
    {
      if Valid() {
        Machine.ResetKeepsInv(options, Snapshot(), stop);
      }
      ResetInternal(stop, true);
    }

    method Pause()
      modifies this
      ensures Snapshot() == Machine.Pause(options, old(Snapshot()))
      ensures old(Valid()) ==> Valid()
    {
      if Valid() {
        Machine.PauseKeepsInv(options, Snapshot());
      }
      if state != Machine.Running {
        return;
      }
      var pausedAttempts := attempts;
      ResetInternal(true, true);
      attempts := pausedAttempts;
      state := Machine.Paused;
      trace := trace + [Machine.Emit(Machine.Toll(state))];
    }

    method Resume()
      requires ValidOptions(options)
      modifies this
      ensures Snapshot() == Machine.Resume(options, old(Snapshot()))
      ensures old(Valid()) ==> Valid()
    {
      if Valid() {
        Machine.ResumeKeepsInv(options, Snapshot());
      }
      if state != Machine.Paused {
        return;
      }
      state := Machine.Resumed;
      trace := trace + [Machine.Emit(Machine.Toll(state))];
      state := Machine.Running;
      delay := NextDelay(options, attempts + 1);
      NextTick();
    }

    /** The wake-up callback of `__nextTick`, run when the pending wake-up fires. */
    method Fire()
      requires ValidOptions(options)
      requires pending.Some?
      modifies this
      ensures Snapshot() == Machine.Fire(options, old(Snapshot()))
      ensures old(Valid()) ==> Valid()
    {
      if Valid() {
        Machine.FireKeepsInv(options, Snapshot());
      }
      pending := None;
      attempts := attempts + 1;
      delay := NextDelay(options, attempts + 1);
      if !overed {
        overed := Machine.Exceeds(options, attempts, delay);
      }
      if overed {
        match Machine.OverrunBranch(Known(options.overrun)) {
          case StopBranch =>
            trace := trace + [Machine.Emit(Machine.Tick)];
            Stop();
            return;
          case ResetBranch =>
            trace := trace + [Machine.Emit(Machine.Tick)];
            Reset(false);
            return;
          case Continue =>
        }
      }
      NextTick();
      trace := trace + [Machine.Emit(Machine.Tick)];
    }
  }

  /**
   * A timer with default options, started, paused, resumed and stopped:
   * it tolls exactly `pause`, `resume` and `stop`, in that order.
   */
  method PauseResumeStop() returns (tolls: seq<Machine.State>)
    ensures tolls == [Machine.Paused, Machine.Resumed, Machine.Stopped]
  {
    var t := new Timer(NoOptions);
    DefaultOptions();
    t.Start();
    Machine.StartRestarts(t.options, Machine.Fresh(t.options));
    ghost var running := t.Snapshot();
    t.Pause();
    t.Resume();
    t.Stop();
    Machine.PauseResumeStopTolls(t.options, running);
    tolls := Machine.Tolls(t.trace);
  }
}
