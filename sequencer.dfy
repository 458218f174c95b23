/** The playback sequencer of src/App.tsx: the `useEffect` that reveals the
    script one step at a time on timers (App.tsx:347-373) and the
    `handleCallEnd` handler of the incoming-call overlay (App.tsx:381-387).

    React's state (`currentStep`, `messages`, `showCall`, `callEnded`) and the
    timers become a `State` value with an explicit clock in milliseconds. Each
    state setter is applied and the effect then re-runs when one of its
    dependencies (`currentStep`, `callEnded`) changed; its cleanup cancels the
    timer it armed before. The class `Player` at the end holds the same state
    in fields and updates it step by step; its methods are specified by the
    functions here. */
module Sequencer {
  import opened Wrappers
  import opened Script

  /** Delays, in milliseconds. */
  const FirstRevealDelay: nat := 500
  const RevealDelay: nat := 1200
  const ShowCallDelay: nat := 1000
  const ResumeDelay: nat := 500

  /** What the effect's pending timer does when it fires: show the call
      overlay, or append the captured message and advance the cursor. */
  datatype TimerAction = ShowCallOverlay | Reveal(message: Step)

  /** A pending timer and the clock time at which it fires. */
  datatype Timer = Timer(action: TimerAction, due: nat)

  /** The sequencer's state. `effectTimer` is the one timer the effect may
      have pending (its cleanup clears it on every re-run); `resumeTimer` is
      the due time of the timer `handleCallEnd` arms, which nothing cancels. */
  datatype State = State(
    currentStep: nat,
    messages: seq<Step>,
    showCall: bool,
    callEnded: bool,
    now: nat,
    effectTimer: Option<Timer>,
    resumeTimer: Option<nat>)

  /** The timer one run of the effect arms, if any (App.tsx:348-372). */
  function Schedule(script: seq<Step>, s: State): (r: Option<Timer>)
    // Past the end of the script nothing is scheduled.
    ensures s.currentStep >= |script| ==> r == None
    // At a `call` step the only timer shows the overlay, one second later.
    ensures s.currentStep < |script| && script[s.currentStep].kind == Call ==>
              r == Some(Timer(ShowCallOverlay, s.now + ShowCallDelay))
    // Right after a `call` step nothing is scheduled until the call has ended.
    ensures 0 < s.currentStep < |script| && script[s.currentStep].kind != Call ==>
              (r == None <==> script[s.currentStep - 1].kind == Call && !s.callEnded)
    // Otherwise the current step is revealed, 500 ms after mount, 1200 ms later on.
    ensures s.currentStep < |script| && script[s.currentStep].kind != Call &&
            !(0 < s.currentStep && script[s.currentStep - 1].kind == Call && !s.callEnded) ==>
              r == Some(Timer(Reveal(script[s.currentStep]),
                              s.now + (if s.currentStep == 0 then FirstRevealDelay else RevealDelay)))
    // A reveal is only ever of the current step.
    ensures r.Some? && r.value.action.Reveal? ==>
              s.currentStep < |script| && r.value.action.message == script[s.currentStep]
  {
    if s.currentStep < |script| then
      var message := script[s.currentStep];
      if message.kind == Call then
        Some(Timer(ShowCallOverlay, s.now + ShowCallDelay))
      else if s.currentStep > 0 && script[s.currentStep - 1].kind == Call && !s.callEnded then
        None
      else
        Some(Timer(Reveal(message), s.now + (if s.currentStep == 0 then FirstRevealDelay else RevealDelay)))
    else
      None
  }

  /** A re-run of the effect: the cleanup cancels the pending timer and the
      body arms the next; nothing else changes. */
  function WithEffect(script: seq<Step>, s: State): State {
    s.(effectTimer := Schedule(script, s))
  }

  /** The state after the first render, when the effect runs for the first time. */
  function Mount(script: seq<Step>): State {
    WithEffect(script, State(0, [], false, false, 0, None, None))
  }

  predicate HasPending(s: State) {
    s.effectTimer.Some? || s.resumeTimer.Some?
  }

  /** The resume timer is due no later than the effect's timer. On a tie it
      fires first, having been armed first. */
  predicate ResumeFiresFirst(s: State) {
    s.resumeTimer.Some? && (s.effectTimer.None? || s.resumeTimer.value <= s.effectTimer.value.due)
  }

  /** The earliest pending timer fires and the clock moves to its due time. */
  function Fire(script: seq<Step>, s: State): State
    requires HasPending(s)
  {
    if ResumeFiresFirst(s) then
      // handleCallEnd's timer: `setCurrentStep(prev => prev + 1)`.
      WithEffect(script, s.(now := s.resumeTimer.value, resumeTimer := None, currentStep := s.currentStep + 1))
    else
      var t := s.effectTimer.value;
      var s' := s.(now := t.due, effectTimer := None);
      match t.action
      case ShowCallOverlay =>
        // `showCall` is no dependency of the effect: it does not re-run.
        s'.(showCall := true)
      case Reveal(message) =>
        var shown := if message.kind != Call then s'.messages + [message] else s'.messages;
        WithEffect(script, s'.(messages := shown, currentStep := s'.currentStep + 1))
  }

  /** `handleCallEnd`, the accept button of the overlay, which is on screen
      only while `showCall` holds. The effect re-runs if `callEnded` changed. */
  function EndCall(script: seq<Step>, s: State): State
    requires s.showCall
  {
    var s' := s.(showCall := false, callEnded := true, resumeTimer := Some(s.now + ResumeDelay));
    if s.callEnded then s' else WithEffect(script, s')
  }

  /** The states the sequencer can be in, started by `Mount` and driven by
      `Fire` and `EndCall`. */
  predicate Inv(script: seq<Step>, s: State) {
    && s.currentStep <= |script|
    // The transcript is exactly the non-call steps before the cursor.
    && s.messages == Played(script[..s.currentStep])
    // The cursor has passed a call step only once the call has ended, so the
    // blocking branch of the effect is never taken.
    && (s.currentStep > 0 && script[s.currentStep - 1].kind == Call ==> s.callEnded)
    && (s.effectTimer.Some? ==>
          && s.currentStep < |script|
          && !s.showCall
          && s.now <= s.effectTimer.value.due
          && (s.effectTimer.value.action == ShowCallOverlay <==> script[s.currentStep].kind == Call)
          && (s.effectTimer.value.action.Reveal? ==> s.effectTimer.value.action.message == script[s.currentStep]))
    && (s.showCall ==>
          && s.currentStep < |script|
          && script[s.currentStep].kind == Call
          && s.effectTimer.None?
          && s.resumeTimer.None?)
    && (s.resumeTimer.Some? ==>
          && s.currentStep < |script|
          && script[s.currentStep].kind == Call
          && s.callEnded
          && s.now <= s.resumeTimer.value
          && (s.effectTimer.Some? ==> s.resumeTimer.value <= s.effectTimer.value.due))
    // Before the end something is always going to happen.
    && (s.currentStep < |script| && !s.showCall && s.resumeTimer.None? ==> s.effectTimer.Some?)
  }

  lemma MountInv(script: seq<Step>)
    ensures Inv(script, Mount(script))
  {
    assert script[..0] == [];
  }

  lemma {:induction false} FireInv(script: seq<Step>, s: State)
    requires Inv(script, s) && HasPending(s)
    ensures Inv(script, Fire(script, s))
  {
    if ResumeFiresFirst(s) {
      FireResumeInv(script, s);
    } else if s.effectTimer.value.action.Reveal? {
      FireRevealInv(script, s);
    }
  }

  /** Re-running the effect on a state with no timer pending and no overlay
      up establishes the invariant. */
  lemma WithEffectInv(script: seq<Step>, n: State)
    requires n.currentStep <= |script| && n.messages == Played(script[..n.currentStep])
    requires n.currentStep > 0 && script[n.currentStep - 1].kind == Call ==> n.callEnded
    requires !n.showCall && n.resumeTimer.None?
    ensures Inv(script, WithEffect(script, n))
  {
  }

  /** The resume timer moves the cursor past the accepted call step. */
  lemma FireResumeInv(script: seq<Step>, s: State)
    requires Inv(script, s) && ResumeFiresFirst(s)
    ensures Inv(script, Fire(script, s))
  {
    var c, x := s.currentStep, script[s.currentStep];
    assert x.kind == Call;
    var n := s.(now := s.resumeTimer.value, resumeTimer := None, currentStep := c + 1);
    assert n.messages == Played(script[..n.currentStep]) by {
      assert script[..c + 1] == script[..c] + [x];
      PlayedSnoc(script[..c], x);
    }
    WithEffectInv(script, n);
    assert Fire(script, s) == WithEffect(script, n);
  }

  /** A reveal timer appends the current step and moves the cursor on. */
  lemma FireRevealInv(script: seq<Step>, s: State)
    requires Inv(script, s) && HasPending(s) && !ResumeFiresFirst(s)
    requires s.effectTimer.value.action.Reveal?
    ensures Inv(script, Fire(script, s))
  {
    var c, x := s.currentStep, script[s.currentStep];
    assert s.effectTimer.value.action.message == x && x.kind != Call;
    var n := s.(now := s.effectTimer.value.due, effectTimer := None, messages := s.messages + [x], currentStep := c + 1);
    assert n.messages == Played(script[..n.currentStep]) by {
      assert script[..c + 1] == script[..c] + [x];
      PlayedSnoc(script[..c], x);
    }
    WithEffectInv(script, n);
    assert Fire(script, s) == WithEffect(script, n);
  }

  lemma EndCallInv(script: seq<Step>, s: State)
    requires Inv(script, s) && s.showCall
    ensures Inv(script, EndCall(script, s))
  {
  }

  /** Every timer that fires does one of three things: it shows the overlay
      at a call step, reveals the current non-call step (appending exactly
      it and advancing the cursor by one), or moves past an ended call
      without appending. The transcript never loses or reorders entries and
      the clock never goes back. */
  lemma {:induction false} FireCases(script: seq<Step>, s: State)
    requires Inv(script, s) && HasPending(s)
    ensures var r := Fire(script, s);
      && s.currentStep < |script|
      && s.now <= r.now
      && (|| (&& script[s.currentStep].kind == Call && !s.showCall && r.showCall
              && r.currentStep == s.currentStep && r.messages == s.messages)
          || (&& script[s.currentStep].kind != Call && !r.showCall
              && r.currentStep == s.currentStep + 1 && r.messages == s.messages + [script[s.currentStep]])
          || (&& script[s.currentStep].kind == Call && s.callEnded && !r.showCall
              && r.currentStep == s.currentStep + 1 && r.messages == s.messages))
  {
  }

  /** Until the end of the script the sequencer never gets stuck: a timer is
      pending or the overlay waits for the viewer. */
  lemma NoDeadlock(script: seq<Step>, s: State)
    requires Inv(script, s) && s.currentStep < |script|
    ensures HasPending(s) || s.showCall
  {
  }

  /** At the end of the script nothing more is scheduled and the transcript
      holds every non-call step of the script, in order. */
  lemma AtEnd(script: seq<Step>, s: State)
    requires Inv(script, s) && s.currentStep == |script|
    ensures !HasPending(s) && !s.showCall
    ensures s.messages == Played(script)
  {
    assert script[..|script|] == script;
  }

  /** A bound on the events left: four per step, less what has been done at
      the current one. */
  function Remaining(script: seq<Step>, s: State): nat
    requires s.currentStep <= |script|
  {
    4 * (|script| - s.currentStep) + (if s.resumeTimer.Some? then 1 else if s.showCall then 2 else 3)
  }

  /** The overlays still to be shown from `s`: one per call step from the
      cursor on, less the current one if its overlay is up or was accepted. */
  function OverlaysAhead(script: seq<Step>, s: State): int
    requires s.currentStep <= |script|
  {
    Calls(script[s.currentStep..]) - (if s.showCall || s.resumeTimer.Some? then 1 else 0)
  }

  /** One timer firing uses up one event, shows the overlay at most once
      and only extends the transcript. */
  lemma {:induction false} FireProgress(script: seq<Step>, s: State)
    requires Inv(script, s) && HasPending(s)
    ensures var t := Fire(script, s);
      && Inv(script, t)
      && Remaining(script, t) < Remaining(script, s)
      && OverlaysAhead(script, t) + (if t.showCall then 1 else 0) == OverlaysAhead(script, s)
      && s.messages <= t.messages
  {
    var c := s.currentStep;
    FireInv(script, s);
    FireCases(script, s);
    assert script[c..][1..] == script[c + 1..];
  }

  /** Accepting the call uses up one event and shows no overlay. */
  lemma EndCallProgress(script: seq<Step>, s: State)
    requires Inv(script, s) && s.showCall
    ensures var t := EndCall(script, s);
      && Inv(script, t)
      && Remaining(script, t) < Remaining(script, s)
      && OverlaysAhead(script, t) == OverlaysAhead(script, s)
      && !t.showCall && t.messages == s.messages
  {
    EndCallInv(script, s);
  }

  /** The outcome of a whole playback: the final state and how many times the
      call overlay appeared on the way. */
  datatype Playback = Playback(final: State, overlaysShown: nat)

  /** Plays the script from `s` to the end: timers fire in order, and the
      viewer accepts the call as soon as the overlay appears. The playback
      always reaches the end, where the transcript is the whole script minus
      its call steps, and the overlay appears once per call step ahead. */
  function Play(script: seq<Step>, s: State): (r: Playback)
    requires Inv(script, s)
    ensures Inv(script, r.final)
    ensures r.final.currentStep == |script| && !HasPending(r.final) && !r.final.showCall
    ensures r.final.messages == Played(script)
    ensures s.messages <= r.final.messages
    ensures r.overlaysShown == OverlaysAhead(script, s)
    decreases Remaining(script, s)
  {
    if s.currentStep == |script| then
      AtEnd(script, s);
      assert script[s.currentStep..] == [];
      Playback(s, 0)
    else if HasPending(s) then
      var t := Fire(script, s);
      FireProgress(script, s);
      var r := Play(script, t);
      Playback(r.final, r.overlaysShown + (if t.showCall then 1 else 0))
    else
      NoDeadlock(script, s);
      EndCallProgress(script, s);
      Play(script, EndCall(script, s))
  }

  /** After mount the first step (when it is no call) is revealed 500 ms in,
      and it is then the whole transcript. */
  lemma FirstReveal(script: seq<Step>)
    requires |script| > 0 && script[0].kind != Call
    ensures Mount(script).effectTimer == Some(Timer(Reveal(script[0]), FirstRevealDelay))
    ensures var t := Fire(script, Mount(script));
      t.now == FirstRevealDelay && t.currentStep == 1 && t.messages == [script[0]]
  {
  }

  /** Once a step has been revealed, the next non-call step follows 1200 ms
      later. */
  lemma RevealCadence(script: seq<Step>, s: State)
    requires Inv(script, s) && HasPending(s) && !ResumeFiresFirst(s)
    requires s.effectTimer.value.action.Reveal?
    ensures var t := Fire(script, s);
      && t.now == s.effectTimer.value.due
      && t.currentStep == s.currentStep + 1
      && (t.currentStep < |script| && script[t.currentStep].kind != Call ==>
            t.effectTimer == Some(Timer(Reveal(script[t.currentStep]), t.now + RevealDelay)))
  {
  }

  /** Accepting the call hides the overlay and re-runs the effect, which
      arms a new 1000 ms overlay timer at the call step; the 500 ms resume
      timer fires first, moves the cursor past the call and so cancels it:
      the overlay does not come back. */
  lemma {:induction false} AcceptedCallStaysHidden(script: seq<Step>, s: State)
    requires Inv(script, s) && s.showCall && !s.callEnded
    ensures var a := EndCall(script, s);
      && !a.showCall && a.callEnded
      && a.resumeTimer == Some(s.now + ResumeDelay)
      && a.effectTimer == Some(Timer(ShowCallOverlay, s.now + ShowCallDelay))
    ensures var b := Fire(script, EndCall(script, s));
      && b.now == s.now + ResumeDelay
      && b.currentStep == s.currentStep + 1
      && b.messages == s.messages
      && !b.showCall && b.resumeTimer.None?
      && (b.currentStep == |script| ==> b.effectTimer.None?)
      && (b.currentStep < |script| && script[b.currentStep].kind != Call ==>
            b.effectTimer == Some(Timer(Reveal(script[b.currentStep]), b.now + RevealDelay)))
  {
    var a := EndCall(script, s);
    assert ResumeFiresFirst(a);
  }

  /** The whole playback from mount: every non-call step of the script is
      shown, in order, and the overlay appears once per call step. */
  function PlayFromMount(script: seq<Step>): (r: Playback)
    ensures r.final.currentStep == |script| && !HasPending(r.final) && !r.final.showCall
    ensures r.final.messages == Played(script)
    ensures r.overlaysShown == Calls(script)
  {
    MountInv(script);
    assert script[0..] == script;
    Play(script, Mount(script))
  }

  /** A script whose only call step is at `k`, past the first step, opens
      with its first step 500 ms after mount, ends with every other step in
      order, and shows the call overlay exactly once. */
  lemma OneCallPlayback(script: seq<Step>, k: int)
    requires 0 < k < |script| && CallOnlyAt(script, k)
    ensures var t := Fire(script, Mount(script));
      t.now == FirstRevealDelay && t.messages == [script[0]]
    ensures var r := PlayFromMount(script);
      && r.final.messages == script[..k] + script[k + 1..]
      && |r.final.messages| == |script| - 1
      && r.overlaysShown == 1
  {
    FirstReveal(script);
    OneCallPlayed(script, k);
  }

  /** The demo opens with the bot greeting, revealed 500 ms after mount; its
      whole playback ends with the 55 non-call steps of `chatFlow` in order,
      and the call overlay appears exactly once on the way. */
  lemma ChatFlowPlayback()
    ensures |ChatFlow| == 56 && ChatFlow[0].kind == Bot
    ensures var t := Fire(ChatFlow, Mount(ChatFlow));
      t.now == 500 && t.messages == [ChatFlow[0]]
    ensures var r := PlayFromMount(ChatFlow);
      && r.final.messages == ChatFlow[..27] + ChatFlow[28..]
      && |r.final.messages| == 55
      && r.overlaysShown == 1
  {
    ChatFlowShape();
    OneCallPlayback(ChatFlow, 27);
  }

  /** The `App` component's sequencing state, updated in place the way the
      state setters and timers of App.tsx update it. */
  class Player {
    const script: seq<Step>
    var currentStep: nat
    var messages: seq<Step>
    var showCall: bool
    var callEnded: bool
    var now: nat
    var effectTimer: Option<Timer>
    var resumeTimer: Option<nat>

    function Snapshot(): State
      reads this
    {
      State(currentStep, messages, showCall, callEnded, now, effectTimer, resumeTimer)
    }

    ghost predicate Valid()
      reads this
    {
      Inv(script, Snapshot())
    }

    /** The first render, followed by the first run of the effect. */
    constructor (script: seq<Step>)
      ensures this.script == script
      ensures Snapshot() == Mount(script) && Valid()
    {
      this.script := script;
      currentStep, messages := 0, [];
      showCall, callEnded := false, false;
      now, effectTimer, resumeTimer := 0, None, None;
      new;
      RunEffect();
      MountInv(script);
    }

    /** One run of the effect: clear the timer it armed last time, then arm
        the next one, if any. */
    method RunEffect()
      modifies this
      ensures Snapshot() == WithEffect(script, old(Snapshot()))
    {
      effectTimer := None;
      if currentStep < |script| {
        var message := script[currentStep];
        if message.kind == Call {
          effectTimer := Some(Timer(ShowCallOverlay, now + ShowCallDelay));
          return;
        }
        if currentStep > 0 && script[currentStep - 1].kind == Call && !callEnded {
          return;
        }
        var delay := if currentStep == 0 then FirstRevealDelay else RevealDelay;
        effectTimer := Some(Timer(Reveal(message), now + delay));
      }
    }

    /** The earliest pending timer fires. */
    method Tick()
      requires Valid() && HasPending(Snapshot())
      modifies this
      ensures Snapshot() == Fire(script, old(Snapshot())) && Valid()
    {
      ghost var s := Snapshot();
      FireInv(script, s);
      if resumeTimer.Some? && (effectTimer.None? || resumeTimer.value <= effectTimer.value.due) {
        assert ResumeFiresFirst(s);
        now := resumeTimer.value;
        resumeTimer := None;
        currentStep := currentStep + 1;
        RunEffect();
      } else {
        assert !ResumeFiresFirst(s);
        var timer := effectTimer.value;
        now := timer.due;
        effectTimer := None;
        match timer.action
        case ShowCallOverlay =>
          showCall := true;
        case Reveal(message) =>
          if message.kind != Call {
            messages := messages + [message];
          }
          currentStep := currentStep + 1;
          RunEffect();
      }
      assert Snapshot() == Fire(script, s);
    }

    /** `handleCallEnd`: the viewer accepts the call on the overlay. */
    method HandleCallEnd()
      requires Valid() && showCall
      modifies this
      ensures Snapshot() == EndCall(script, old(Snapshot())) && Valid()
    {
      EndCallInv(script, Snapshot());
      var wasEnded := callEnded;
      showCall := false;
      callEnded := true;
      resumeTimer := Some(now + ResumeDelay);
      if !wasEnded {
        RunEffect();
      }
    }
  }
}
