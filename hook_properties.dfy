/**
 * Properties of the wake-word listener hook over single steps and over runs of
 * events: the single-instance invariant and exactly where it breaks, the
 * silence of transient errors, the connection gate on restarts, and recovery.
 */
module HookProperties {
  import opened Wrappers
  import opened Recognizer
  import opened Pending
  import opened SpeechRecognitionHook

  predicate Single(s: Hook)
  {
    SingleInstance(s.current, s.running)
  }

  /** Every step keeps the handles in use among those created. */
  lemma ApplyKeepsWellFormed(s: Hook, e: Event)
    requires WellFormed(s)
    ensures WellFormed(Apply(s, e))
  {
  }

  lemma {:induction false} RunKeepsWellFormed(s: Hook, events: seq<Event>)
    requires WellFormed(s)
    ensures WellFormed(Run(s, events))
    decreases |events|
  {
    if events != [] {
      ApplyKeepsWellFormed(s, events[0]);
      RunKeepsWellFormed(Apply(s, events[0]), events[1..]);
    }
  }

  /**
   * A successful start leaves exactly one recognizer running, the one just
   * created, which is newer than every recognizer before it.
   */
  lemma StartLeavesOnlyNewest(s: Hook)
    requires WellFormed(s) && Single(s)
    ensures var r := StartStep(s, true, Started);
              && r.current == Some(s.nextId) && r.running == {s.nextId}
              && (forall h :: h in s.running ==> h < s.nextId)
              && r.restarting && r.pending[|r.pending| - 1] == ClearRestarting
  {
  }

  /**
   * A start schedules exactly one timer, and that timer, run next, clears the
   * restart guard whatever the start's outcome.
   */
  lemma GuardClearedByItsTimer(s: Hook, outcome: StartOutcome, supported: bool, o: StartOutcome)
    ensures var r := StartStep(s, true, outcome);
              && |r.pending| == |s.pending| + 1
              && !TimerStep(r, |s.pending|, supported, o).restarting
  {
  }

  /** The restart guard is only ever set while a timer that clears it is pending. */
  predicate GuardClearable(s: Hook)
  {
    s.restarting ==> ClearRestarting in s.pending
  }

  lemma ApplyKeepsGuardClearable(s: Hook, e: Event)
    requires GuardClearable(s)
    ensures GuardClearable(Apply(s, e))
  {
    if e.TimerFired? && e.i < |s.pending| && s.pending[e.i] != ClearRestarting && s.restarting {
      var rest := Without(s.pending, e.i);
      assert ClearRestarting in multiset(s.pending);
      assert ClearRestarting in multiset(rest);
    }
  }

  lemma {:induction false} RunKeepsGuardClearable(s: Hook, events: seq<Event>)
    requires GuardClearable(s)
    ensures GuardClearable(Run(s, events))
    decreases |events|
  {
    if events != [] {
      ApplyKeepsGuardClearable(s, events[0]);
      RunKeepsGuardClearable(Apply(s, events[0]), events[1..]);
    }
  }

  /**
   * The guard never sticks: after any run from the initial state, while the
   * guard is set some pending timer clears it when it runs, whatever ran in
   * between.
   */
  lemma GuardNeverSticks(events: seq<Event>, supported: bool, o: StartOutcome)
    ensures var r := Run(Initial, events);
              r.restarting ==>
                exists i :: 0 <= i < |r.pending| && r.pending[i] == ClearRestarting
                            && !TimerStep(r, i, supported, o).restarting
  {
    RunKeepsGuardClearable(Initial, events);
    var r := Run(Initial, events);
    if r.restarting {
      var i :| 0 <= i < |r.pending| && r.pending[i] == ClearRestarting;
      assert !TimerStep(r, i, supported, o).restarting;
    }
  }

  /** Stopping twice is stopping once. */
  lemma StopIdempotent(s: Hook)
    ensures StopStep(StopStep(s)) == StopStep(s)
  {
  }

  /**
   * The one way a step can break the single-instance invariant: an error
   * reported by a recognizer other than the running current one clears the
   * slot without stopping the current one.
   */
  predicate Orphans(s: Hook, e: Event)
  {
    && e.Errored?
    && RestartsOnError(s, e.code, e.connected)
    && s.current.Some? && s.current.value != e.h && s.current.value in s.running
  }

  /** A step keeps the single-instance invariant exactly when it does not orphan. */
  lemma SingleInstanceStep(s: Hook, e: Event)
    requires Single(s)
    ensures Single(Apply(s, e)) <==> !Orphans(s, e)
  {
    if e.TimerFired? && e.i < |s.pending| {
      var rest := s.(pending := Without(s.pending, e.i));
      assert Single(rest);
      if s.pending[e.i] == ClearRestarting {
        assert Apply(s, e) == rest.(restarting := false);
      } else {
        assert Apply(s, e) == StartStep(rest, e.supported, e.outcome);
      }
    }
  }

  /** No step of the run orphans the current recognizer. */
  predicate NoOrphans(s: Hook, events: seq<Event>)
    decreases |events|
  {
    events == [] || (!Orphans(s, events[0]) && NoOrphans(Apply(s, events[0]), events[1..]))
  }

  lemma {:induction false} RunKeepsSingleInstance(s: Hook, events: seq<Event>)
    requires Single(s) && NoOrphans(s, events)
    ensures Single(Run(s, events))
    decreases |events|
  {
    if events != [] {
      SingleInstanceStep(s, events[0]);
      RunKeepsSingleInstance(Apply(s, events[0]), events[1..]);
    }
  }

  /** Running a trace is applying its first event and running the rest. */
  lemma RunCons(s: Hook, e: Event, events: seq<Event>)
    ensures Run(s, [e] + events) == Run(Apply(s, e), events)
  {
    assert ([e] + events)[1..] == events;
  }

  /**
   * The invariant is not guaranteed: a late `network` error from an earlier
   * recognizer `a`, once the guard has cleared, forgets the running current
   * recognizer without stopping it, and the restart this schedules leaves two
   * recognizers running.
   */
  lemma StaleErrorLeavesTwoRunning(s: Hook, a: Handle)
    requires WellFormed(s) && s.current.Some? && s.running == {s.current.value}
    requires a != s.current.value && !s.restarting
    ensures var r := Run(s, [Errored(a, NetworkCode, false), TimerFired(|s.pending|, true, Started)]);
              && r.running == {s.current.value, s.nextId} && s.current.value != s.nextId
              && r.current == Some(s.nextId) && r.notices == s.notices
  {
    var s1 := Apply(s, Errored(a, NetworkCode, false));
    assert s1.current == None && s1.running == s.running && s1.pending == s.pending + [RestartAfterError];
    RunCons(s1, TimerFired(|s.pending|, true, Started), []);
    RunCons(s, Errored(a, NetworkCode, false), [TimerFired(|s.pending|, true, Started)]);
  }

  /**
   * The state that lemma starts from is reached from the initial one by two
   * starts and the first guard timer.
   */
  lemma TwoStartsReachStaleSetting()
    ensures var r := Run(Initial, [CallStart(true, Started), CallStart(true, Started),
                                   TimerFired(0, true, Started)]);
              && WellFormed(r) && r.current == Some(1) && r.running == {1} && !r.restarting
  {
    var e1, e3 := CallStart(true, Started), TimerFired(0, true, Started);
    var s1 := Hook(Some(0), true, false, [ClearRestarting], [], 0, {0}, 1);
    var s2 := Hook(Some(1), true, false, [ClearRestarting, ClearRestarting], [], 0, {1}, 2);
    var s3 := Hook(Some(1), false, false, [ClearRestarting], [], 0, {1}, 2);
    assert Apply(Initial, e1) == s1;
    assert Apply(s1, e1) == s2;
    assert Apply(s2, e3) == s3 by {
      assert Without(s2.pending, 0) == [ClearRestarting];
    }
    RunCons(s2, e3, []);
    RunCons(s1, e1, [e3]);
    RunCons(Initial, e1, [e1, e3]);
  }

  /** Every event of the run is an `onerror` callback. */
  predicate AllErrors(events: seq<Event>)
  {
    forall k :: 0 <= k < |events| ==> events[k].Errored?
  }

  /** Any number of `aborted` and `network` errors never shows a toast. */
  lemma {:induction false} TransientErrorsAreSilent(s: Hook, events: seq<Event>)
    requires AllErrors(events)
    requires forall k :: 0 <= k < |events| ==> SilentCode(events[k].code)
    ensures Run(s, events).notices == s.notices
    decreases |events|
  {
    if events != [] {
      TransientErrorsAreSilent(Apply(s, events[0]), events[1..]);
    }
  }

  /**
   * While a restart is under way, errors of any code neither notify nor touch
   * the slot or the timers: the guard holds until its timer runs.
   */
  lemma {:induction false} ErrorsWhileRestartingAreSilent(s: Hook, events: seq<Event>)
    requires s.restarting && AllErrors(events)
    ensures var r := Run(s, events);
              r.notices == s.notices && r.current == s.current && r.pending == s.pending && r.restarting
    decreases |events|
  {
    if events != [] {
      ErrorsWhileRestartingAreSilent(Apply(s, events[0]), events[1..]);
    }
  }

  /** Every event is a recognizer callback delivered while connected. */
  predicate ConnectedCallbacks(events: seq<Event>)
  {
    forall k :: 0 <= k < |events| ==>
      match events[k]
      case Began => true
      case Result(_, connected) => connected
      case Ended(_, connected) => connected
      case Errored(_, _, connected) => connected
      case _ => false
  }

  /**
   * While connected, recognizer callbacks schedule no restart, create no
   * recognizer and never invoke the wake-word callback.
   */
  lemma {:induction false} ConnectedGateStopsRestarts(s: Hook, events: seq<Event>)
    requires ConnectedCallbacks(events)
    ensures var r := Run(s, events);
              r.pending == s.pending && r.nextId == s.nextId && r.wakeSignals == s.wakeSignals
    decreases |events|
  {
    if events != [] {
      ConnectedGateStopsRestarts(Apply(s, events[0]), events[1..]);
    }
  }

  /**
   * A `network` error from the running recognizer, while disconnected and not
   * restarting, is recovered without a toast: the restart it schedules brings
   * up a new recognizer as the only running one.
   */
  lemma NetworkErrorRecoversSilently(s: Hook, c: Handle)
    requires s.current == Some(c) && s.running == {c} && !s.restarting
    ensures var r := Run(s, [Errored(c, NetworkCode, false), TimerFired(|s.pending|, true, Started)]);
              && r.current == Some(s.nextId) && r.running == {s.nextId}
              && r.notices == s.notices && r.restarting
  {
    var s1 := Apply(s, Errored(c, NetworkCode, false));
    assert s1.current == None && s1.running == {} && s1.pending == s.pending + [RestartAfterError];
    var s2 := Apply(s1, TimerFired(|s.pending|, true, Started));
    RunCons(s1, TimerFired(|s.pending|, true, Started), []);
    RunCons(s, Errored(c, NetworkCode, false), [TimerFired(|s.pending|, true, Started)]);
  }

  /** Any other error code from the running recognizer notifies once and restarts. */
  lemma FaultNotifiesAndRestarts(s: Hook, c: Handle, code: string)
    requires s.current == Some(c) && !s.restarting && !SilentCode(code)
    ensures var r := Apply(s, Errored(c, code, false));
              && r.notices == s.notices + [RecognitionFault]
              && r.current == None && r.pending == s.pending + [RestartAfterError]
  {
  }
}
