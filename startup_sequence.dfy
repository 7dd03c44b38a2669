/** The boot animation (components/StartupSequence.tsx): a phase that three
    timers advance, registered at fixed offsets from the start of the effect,
    a startup sound played when the effect starts, and a completion callback. */
module Startup {

  /** The visual phases of the boot screen. */
  datatype Phase = Logo | Text | Fadeout

  /** Position of a phase in the order logo, text, fadeout. */
  function Rank(p: Phase): nat {
    match p
    case Logo => 0
    case Text => 1
    case Fadeout => 2
  }

  /** The three timers one run of the effect registers. */
  datatype Timer = TextTimer | FadeTimer | CompleteTimer

  const TextDelay: int := 1000
  const FadeDelay: int := 6000
  const CompleteDelay: int := 7500

  const AllTimers: set<Timer> := {TextTimer, FadeTimer, CompleteTimer}

  /** Observable side effects of the component, in order: the startup sound
      and calls of the completion callback. */
  datatype Event = StartupSound | Completed

  /** The timers of a run that have not fired `elapsed` ms after it started;
      each timer's offset is measured from the start, not from the previous one. */
  function Pending(elapsed: int): set<Timer> {
    (if elapsed < TextDelay then {TextTimer} else {}) +
    (if elapsed < FadeDelay then {FadeTimer} else {}) +
    (if elapsed < CompleteDelay then {CompleteTimer} else {})
  }

  /** The phase `elapsed` ms into a run that began with the phase at `p`. */
  function PhaseFrom(p: Phase, elapsed: int): Phase {
    if elapsed >= FadeDelay then Fadeout
    else if elapsed >= TextDelay then Text
    else p
  }

  /** The side effects of one run, `elapsed` ms after it started. */
  function RunTrace(elapsed: int): seq<Event> {
    [StartupSound] + (if elapsed >= CompleteDelay then [Completed] else [])
  }

  /** In a run that starts on the logo, the phase is the logo before 1000 ms,
      the text from 1000 ms to 6000 ms, and the fade from 6000 ms on. */
  lemma BootTimeline(elapsed: int)
    ensures PhaseFrom(Logo, elapsed) == Logo <==> elapsed < TextDelay
    ensures PhaseFrom(Logo, elapsed) == Text <==> TextDelay <= elapsed < FadeDelay
    ensures PhaseFrom(Logo, elapsed) == Fadeout <==> FadeDelay <= elapsed
  {
  }

  /** A run that starts before the fade only moves the phase forward. */
  lemma PhaseOnlyAdvances(p: Phase, e1: int, e2: int)
    requires Rank(p) <= Rank(Text) && e1 <= e2
    ensures Rank(PhaseFrom(p, e1)) <= Rank(PhaseFrom(p, e2))
  {
  }

  /** The phase is React state and survives a re-run of the effect: a run that
      starts after the fade brings the phase back to the text once its text
      timer fires. */
  lemma RerunAfterFadeRegresses()
    ensures PhaseFrom(Fadeout, 0) == Fadeout
    ensures PhaseFrom(Fadeout, TextDelay) == Text
    ensures Rank(PhaseFrom(Fadeout, TextDelay)) < Rank(PhaseFrom(Fadeout, 0))
  {
  }

  /** Timers only leave the pending set as time passes; all have fired exactly
      when the completion offset is reached. */
  lemma PendingShrinks(e1: int, e2: int)
    requires e1 <= e2
    ensures Pending(e2) <= Pending(e1)
    ensures Pending(e2) == {} <==> CompleteDelay <= e2
  {
    if e2 < CompleteDelay {
      assert CompleteTimer in Pending(e2);
    }
  }

  /** A run plays the startup sound once, at its start, and calls the
      completion callback once, from 7500 ms on, and never before. */
  lemma CompletesOnce(elapsed: int)
    ensures multiset(RunTrace(elapsed))[StartupSound] == 1
    ensures RunTrace(elapsed)[0] == StartupSound
    ensures multiset(RunTrace(elapsed))[Completed] == if elapsed >= CompleteDelay then 1 else 0
  {
  }

  /** Between two times of one run, the timers due in between are exactly the
      pending ones whose offset has been reached; firing them, in offset order,
      gives the phase and the trace of the later time. */
  lemma FiringKeepsSchedule(p: Phase, e0: int, e1: int)
    requires 0 <= e0 <= e1
    ensures Pending(e1) == Pending(e0) - (if TextDelay <= e1 then {TextTimer} else {})
                                       - (if FadeDelay <= e1 then {FadeTimer} else {})
                                       - (if CompleteDelay <= e1 then {CompleteTimer} else {})
    ensures PhaseFrom(p, e1) ==
              if FadeTimer in Pending(e0) && FadeDelay <= e1 then Fadeout
              else if TextTimer in Pending(e0) && TextDelay <= e1 then Text
              else PhaseFrom(p, e0)
    ensures RunTrace(e1) ==
              RunTrace(e0) + (if CompleteTimer in Pending(e0) && CompleteDelay <= e1 then [Completed] else [])
  {
  }

  /** One mounted StartupSequence component. `live` holds while a run of the
      effect has registered its timers and its cleanup has not run. */
  class StartupSequence {
    var phase: Phase
    var start: int           // time the current run of the effect began
    var clock: int           // latest time delivered to the component
    var pending: set<Timer>  // timers registered, not fired and not cleared
    var events: seq<Event>   // side effects so far, in order
    ghost var live: bool
    ghost var phaseAtStart: Phase  // the phase when the current run began
    ghost var priorEvents: seq<Event>  // the events before the current run

    ghost predicate Valid()
      reads this
    {
      start <= clock &&
      (!live ==> pending == {}) &&
      (live ==>
        pending == Pending(clock - start) &&
        phase == PhaseFrom(phaseAtStart, clock - start) &&
        events == priorEvents + RunTrace(clock - start))
    }

    /** Mounting at time `now`: the phase starts on the logo and the effect runs. */
    constructor (now: int)
      ensures Valid() && live && phaseAtStart == Logo
      ensures phase == Logo && start == now && clock == now
      ensures pending == AllTimers && events == [StartupSound]
    {
      phase := Logo;
      start, clock := now, now;
      pending := {};
      events := [];
      live, phaseAtStart, priorEvents := false, Logo, [];
      new;
      RunEffect();
    }

    /** The effect body: play the startup sound and register the three timers,
        all measured from the current time. */
    method RunEffect()
      requires Valid() && !live
      modifies this
      ensures Valid() && live && phaseAtStart == old(phase)
      ensures phase == old(phase) && start == old(clock) && clock == old(clock)
      ensures pending == AllTimers
      ensures events == old(events) + [StartupSound]
    {
      events := events + [StartupSound];
      start := clock;
      pending := AllTimers;
      assert Pending(0) == AllTimers;
      live, phaseAtStart, priorEvents := true, phase, old(events);
    }

    /** The effect's cleanup: clear every timer still registered. */
    method Cleanup()
      requires Valid()
      modifies this
      ensures Valid() && !live && pending == {}
      ensures phase == old(phase) && events == old(events)
      ensures start == old(start) && clock == old(clock)
    {
      pending := {};
      live := false;
    }

    /** A re-run of the effect because the completion callback changed: the
        previous run's timers are cleared, then a fresh run starts now. */
    method Rerun()
      requires Valid()
      modifies this
      ensures Valid() && live && phaseAtStart == old(phase)
      ensures phase == old(phase) && start == old(clock) && clock == old(clock)
      ensures pending == AllTimers
      ensures events == old(events) + [StartupSound]
    {
      Cleanup();
      RunEffect();
    }

    /** Time advances to `now`: every registered timer whose deadline has come
        fires, in deadline order. `completed` says whether the completion
        callback was called. */
    method Tick(now: int) returns (completed: bool)
      requires Valid() && clock <= now
      modifies this
      ensures Valid() && clock == now
      ensures live == old(live) && start == old(start)
      ensures phaseAtStart == old(phaseAtStart) && priorEvents == old(priorEvents)
      ensures live ==> phase == PhaseFrom(phaseAtStart, now - start)
      ensures live && Rank(phaseAtStart) <= Rank(Text) ==> Rank(old(phase)) <= Rank(phase)
      ensures !live ==> phase == old(phase) && pending == {}
      ensures completed <==> live && old(clock) < start + CompleteDelay <= now
      ensures events == old(events) + (if completed then [Completed] else [])
    {
      FiringKeepsSchedule(phaseAtStart, clock - start, now - start);
      if Rank(phaseAtStart) <= Rank(Text) {
        PhaseOnlyAdvances(phaseAtStart, clock - start, now - start);
      }
      // The due timers fire in offset order, so a later phase overwrites an earlier one.
      var fireText := TextTimer in pending && start + TextDelay <= now;
      var fireFade := FadeTimer in pending && start + FadeDelay <= now;
      completed := CompleteTimer in pending && start + CompleteDelay <= now;
      var ph := if fireFade then Fadeout else if fireText then Text else phase;
      var ev := events + (if completed then [Completed] else []);
      pending := pending - (if fireText then {TextTimer} else {})
                         - (if fireFade then {FadeTimer} else {})
                         - (if completed then {CompleteTimer} else {});
      phase, events, clock := ph, ev, now;
    }

    /** What the render shows: the manufacturer text and whether the screen is
        faded out. */
    method Render() returns (textVisible: bool, faded: bool)
      requires Valid()
      ensures textVisible <==> phase != Logo
      ensures faded <==> phase == Fadeout
      ensures live && phaseAtStart == Logo ==>
                (textVisible <==> TextDelay <= clock - start) &&
                (faded <==> FadeDelay <= clock - start)
    {
      textVisible := phase != Logo;
      faded := phase == Fadeout;
    }
  }
}
