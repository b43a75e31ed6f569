/**
 * Properties of the chat component over single steps and over runs of events:
 * the transcript only grows, the single-instance invariant and exactly where
 * the component breaks it, the connection gate, and the fallbacks to the
 * listener after a session ends or fails to open.
 */
module ChatProperties {
  import opened Wrappers
  import opened Recognizer
  import opened Pending
  import opened BoneQuestChat

  predicate Single(s: Chat)
  {
    SingleInstance(s.current, s.running)
  }

  /** Running a trace is applying its first event and running the rest. */
  lemma RunCons(s: Chat, e: Event, events: seq<Event>)
    ensures Run(s, [e] + events) == Run(Apply(s, e), events)
  {
    assert ([e] + events)[1..] == events;
  }

  /** Only a reported message changes the transcript, and then only by extending it. */
  lemma ApplyKeepsTranscript(s: Chat, e: Event)
    ensures s.messages <= Apply(s, e).messages
    ensures !e.MessageReceived? ==> Apply(s, e).messages == s.messages
  {
    if e.MessageReceived? {
      var r := MessageStep(s, e.source, e.text);
      assert r.messages[..|s.messages|] == s.messages;
    }
  }

  /** Whatever happens, earlier transcript entries are never changed or dropped. */
  lemma {:induction false} TranscriptOnlyGrows(s: Chat, events: seq<Event>)
    ensures s.messages <= Run(s, events).messages
    decreases |events|
  {
    if events != [] {
      ApplyKeepsTranscript(s, events[0]);
      TranscriptOnlyGrows(Apply(s, events[0]), events[1..]);
    }
  }

  /**
   * A disconnect with permission keeps the transcript and re-arms the
   * listener: the delayed start it schedules brings up a new recognizer.
   */
  lemma DisconnectKeepsTranscriptAndRearms(s: Chat, ok: bool)
    requires Single(s)
    ensures var s1 := DisconnectStep(s, true);
              && s1.pending == s.pending + [Rearm]
              && var r := TaskStep(s1, |s.pending|, true, Started, ok);
                   && r.messages == s.messages && !r.ready
                   && r.current == Some(s.nextId) && r.running == {s.nextId}
  {
    var s1 := DisconnectStep(s, true);
    var rest := s1.(pending := Without(s1.pending, |s.pending|));
    assert Single(rest);
  }

  /**
   * A failed session open falls back to the listener: the re-arm it schedules
   * brings up a new recognizer as the only running one.
   */
  lemma FailedOpenFallsBackToListener(s: Chat, i: nat)
    requires i < |s.pending| && s.pending[i] == AwaitOpen && Single(s)
    ensures var s1 := TaskStep(s, i, true, Started, false);
              && s1.notices == s.notices + [OpenFailed]
              && s1.pending[|s1.pending| - 1] == Rearm
              && var r := TaskStep(s1, |s1.pending| - 1, true, Started, true);
                   r.current == Some(s.nextId) && r.running == {s.nextId}
  {
  }

  /** A session ended from the toggle re-arms the listener once the end is confirmed. */
  lemma EndedSessionRearms(s: Chat, granted: bool)
    requires s.hasMicPermission || granted
    ensures var s1 := ToggleStep(s, true, granted);
              && s1.pending == s.pending + [AwaitEnd]
              && var r := TaskStep(s1, |s.pending|, true, Started, true);
                   r.pending == s.pending + [Rearm] && r.notices == s.notices + [SessionEnded]
  {
  }

  /**
   * The toggle does not guard against a second click while the first open is
   * in flight: two clicks while disconnected start two session opens.
   */
  lemma RapidTogglesOpenTwice(s: Chat, granted: bool)
    requires s.hasMicPermission || granted
    ensures var r := Run(s, [Toggled(false, granted), Toggled(false, granted)]);
              r.opens == s.opens + 2 && r.pending == s.pending + [AwaitOpen, AwaitOpen]
  {
    var s1 := Apply(s, Toggled(false, granted));
    var s2 := Apply(s1, Toggled(false, granted));
    assert s2.pending == s.pending + [AwaitOpen, AwaitOpen];
    RunCons(s1, Toggled(false, granted), []);
    RunCons(s, Toggled(false, granted), [Toggled(false, granted)]);
  }

  /**
   * The two ways a step can break the single-instance invariant: an error
   * from another recognizer clears the slot while the current one runs, or the
   * 300 ms resume finds the current recognizer running, its `start()` throws
   * and the slot is cleared without stopping it.
   */
  predicate Orphans(s: Chat, e: Event)
  {
    && s.current.Some? && s.current.value in s.running
    && ( || (e.Errored? && e.code != AbortedCode && !e.connected && e.h != s.current.value)
         || (e.Settled? && e.i < |s.pending| && s.pending[e.i] == ResumeAfterEnd))
  }

  /** A step keeps the single-instance invariant exactly when it does not orphan. */
  lemma SingleInstanceStep(s: Chat, e: Event)
    requires Single(s)
    ensures Single(Apply(s, e)) <==> !Orphans(s, e)
  {
    if e.Settled? && e.i < |s.pending| {
      var rest := s.(pending := Without(s.pending, e.i));
      assert Single(rest);
      match s.pending[e.i]
      case Rearm =>
        assert Apply(s, e) == StartStep(rest, e.supported, e.outcome);
      case ResumeAfterEnd =>
        if s.current.Some? && (s.current.value in s.running || !e.ok) {
          assert Apply(s, e) == rest.(current := None, pending := rest.pending + [Rearm]);
        }
      case AwaitOpen =>
        assert Apply(s, e).current == s.current && Apply(s, e).running == s.running;
      case AwaitEnd =>
        assert Apply(s, e).current == s.current && Apply(s, e).running == s.running;
    }
  }

  /** No step of the run orphans the current recognizer. */
  predicate NoOrphans(s: Chat, events: seq<Event>)
    decreases |events|
  {
    events == [] || (!Orphans(s, events[0]) && NoOrphans(Apply(s, events[0]), events[1..]))
  }

  lemma {:induction false} RunKeepsSingleInstance(s: Chat, events: seq<Event>)
    requires Single(s) && NoOrphans(s, events)
    ensures Single(Run(s, events))
    decreases |events|
  {
    if events != [] {
      SingleInstanceStep(s, events[0]);
      RunKeepsSingleInstance(Apply(s, events[0]), events[1..]);
    }
  }

  lemma ApplyKeepsWellFormed(s: Chat, e: Event)
    requires WellFormed(s)
    ensures WellFormed(Apply(s, e))
  {
  }

  lemma {:induction false} RunKeepsWellFormed(s: Chat, events: seq<Event>)
    requires WellFormed(s)
    ensures WellFormed(Run(s, events))
    decreases |events|
  {
    if events != [] {
      ApplyKeepsWellFormed(s, events[0]);
      RunKeepsWellFormed(Apply(s, events[0]), events[1..]);
    }
  }

  /**
   * The component does break it: the late `onend` of a replaced recognizer `a`
   * schedules a resume; the resume throws on the running current recognizer,
   * forgets it, and the re-arm that follows leaves two recognizers running.
   */
  lemma StaleEndLeavesTwoRunning(s: Chat, a: Handle, ok: bool)
    requires WellFormed(s) && s.current.Some? && s.running == {s.current.value}
    requires a != s.current.value
    ensures var s1 := EndedStep(s, a, false);
              && s1.pending == s.pending + [ResumeAfterEnd]
              && var s2 := TaskStep(s1, |s.pending|, true, Started, ok);
                   && s2.current == None && s2.running == s.running && s2.pending == s.pending + [Rearm]
                   && var r := TaskStep(s2, |s.pending|, true, Started, ok);
                        && r.running == {s.current.value, s.nextId} && s.current.value != s.nextId
                        && r.current == Some(s.nextId)
  {
    var s1 := EndedStep(s, a, false);
    assert s1.running == s.running;
    var s2 := TaskStep(s1, |s.pending|, true, Started, ok);
    assert Without(s1.pending, |s.pending|) == s.pending;
    assert s2.pending == s.pending + [Rearm];
    assert Without(s2.pending, |s.pending|) == s.pending;
  }

  /**
   * That setting arises from the initial state: two disconnects with
   * permission schedule two re-arms, and running both replaces the first
   * recognizer by a second one; the first one's late `onend` is the one above.
   */
  lemma TwoRearmsReachStaleSetting(ok: bool)
    ensures var s2 := DisconnectStep(DisconnectStep(Initial, true), true);
              && s2.pending == [Rearm, Rearm]
              && var r := TaskStep(TaskStep(s2, 0, true, Started, ok), 0, true, Started, ok);
                   WellFormed(r) && r.current == Some(1) && r.running == {1}
  {
    var s2 := DisconnectStep(DisconnectStep(Initial, true), true);
    assert Without(s2.pending, 0) == [Rearm];
    var s3 := TaskStep(s2, 0, true, Started, ok);
    assert s3.current == Some(0) && s3.running == {0} && s3.nextId == 1 && s3.pending == [Rearm];
    assert Without(s3.pending, 0) == [];
  }

  /** Every event of the run is an `onerror` callback with the code `aborted`. */
  predicate AllAborted(events: seq<Event>)
  {
    forall k :: 0 <= k < |events| ==> events[k].Errored? && events[k].code == AbortedCode
  }

  /** `aborted` errors, however many, neither notify nor touch the slot or the timers. */
  lemma {:induction false} AbortedErrorsAreIgnored(s: Chat, events: seq<Event>)
    requires AllAborted(events)
    ensures var r := Run(s, events);
              r.notices == s.notices && r.current == s.current && r.pending == s.pending
    decreases |events|
  {
    if events != [] {
      AbortedErrorsAreIgnored(Apply(s, events[0]), events[1..]);
    }
  }

  /** Every event is a recognizer callback delivered while connected. */
  predicate ConnectedCallbacks(events: seq<Event>)
  {
    forall k :: 0 <= k < |events| ==>
      match events[k]
      case Began => true
      case Result(_, connected) => connected
      case Ended(_, connected) => connected
      case Errored(_, _, connected) => connected
      case _ => false
  }

  /**
   * While connected, recognizer callbacks schedule nothing, open no session and
   * create no recognizer.
   */
  lemma {:induction false} ConnectedGateStopsRestarts(s: Chat, events: seq<Event>)
    requires ConnectedCallbacks(events)
    ensures var r := Run(s, events);
              r.pending == s.pending && r.opens == s.opens && r.nextId == s.nextId
    decreases |events|
  {
    if events != [] {
      ConnectedGateStopsRestarts(Apply(s, events[0]), events[1..]);
    }
  }
}
