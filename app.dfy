/** The top-level session (App.tsx): the single AppState value, the power
    button, the completion handler of the boot animation with its one-shot
    disk-check timer, and the choice of which child component is mounted. */
module Session {
  import opened Wrappers
  import opened AppStates
  import Startup
  import Menu

  /** Length of the black "no disk" pause. */
  const DiskCheckDelay: int := 2500

  /** Time from power-on to the menu: boot animation, then the pause. */
  const MenuDelay: int := Startup.CompleteDelay + DiskCheckDelay

  /** The screen `elapsed` ms after power-on. Power-on is the only input that
      changes the session state, so after it the state is a function of time. */
  function ScreenAt(elapsed: int): AppState {
    if elapsed < Startup.CompleteDelay then StartupLogo
    else if elapsed < MenuDelay then BlackScreen
    else BiosMenu
  }

  /** The session state at time `now`, given when (if ever) power was switched on. */
  function SessionState(poweredOnAt: Option<int>, now: int): AppState {
    match poweredOnAt
    case None => PowerOff
    case Some(t0) => ScreenAt(now - t0)
  }

  /** The states the session can be in; the two menu targets are not among them. */
  predicate Reachable(s: AppState) {
    s == PowerOff || s == StartupLogo || s == BlackScreen || s == BiosMenu
  }

  /** Position of a reachable state in the order the session visits them. */
  function Stage(s: AppState): nat {
    match s
    case PowerOff => 0
    case StartupLogo => 1
    case BlackScreen => 2
    case _ => 3
  }

  /** What the render mounts for a state. */
  datatype View = View(
    powerButton: bool,
    startupSequence: bool,
    blackScreen: bool,
    biosMenu: bool,
    controllerOverlay: bool)

  /** The render's conditions, one per child. */
  function ViewOf(s: AppState): View {
    View(
      s == PowerOff,
      s == StartupLogo,
      s == BlackScreen,
      s == BiosMenu || s == MemoryCard || s == CdPlayer,
      s != PowerOff)
  }

  /** Every state mounts exactly one screen, and the overlay on every screen
      but the power button. */
  lemma ExactlyOneScreen(s: AppState)
    ensures var v := ViewOf(s);
      (if v.powerButton then 1 else 0) + (if v.startupSequence then 1 else 0) +
      (if v.blackScreen then 1 else 0) + (if v.biosMenu then 1 else 0) == 1
    ensures ViewOf(s).controllerOverlay <==> !ViewOf(s).powerButton
  {
  }

  /** The session never reaches the two menu targets and never goes back: it
      moves forward through power-off, logo, black screen and menu, and nothing
      leaves the menu. */
  lemma SessionMovesForward(poweredOnAt: Option<int>, t1: int, t2: int)
    requires t1 <= t2
    ensures Reachable(SessionState(poweredOnAt, t1))
    ensures Stage(SessionState(poweredOnAt, t1)) <= Stage(SessionState(poweredOnAt, t2))
    ensures SessionState(poweredOnAt, t1) == BiosMenu ==> SessionState(poweredOnAt, t2) == BiosMenu
  {
  }

  /** Power-on at 0 with no further input: logo and sound at 0, text at 1000,
      fade at 6000, black screen at 7500, menu at 10000. */
  lemma PowerOnTimeline()
    ensures SessionState(Some(0), 0) == StartupLogo
    ensures Startup.PhaseFrom(Startup.Logo, 999) == Startup.Logo
    ensures Startup.PhaseFrom(Startup.Logo, 1000) == Startup.Text
    ensures Startup.PhaseFrom(Startup.Logo, 5999) == Startup.Text
    ensures Startup.PhaseFrom(Startup.Logo, 6000) == Startup.Fadeout
    ensures SessionState(Some(0), 7499) == StartupLogo
    ensures SessionState(Some(0), 7500) == BlackScreen
    ensures SessionState(Some(0), 9999) == BlackScreen
    ensures SessionState(Some(0), 10000) == BiosMenu
  {
  }

  /** The App component with the children it currently has mounted. */
  class App {
    var appState: AppState
    var clock: int                      // latest time delivered to the app
    var diskCheckDeadline: Option<int>  // the pending disk-check timer, if any
    var startup: Startup.StartupSequence?
    var menu: Menu.BiosMenu?
    ghost var poweredOnAt: Option<int>

    ghost predicate Valid()
      reads this, startup, menu
    {
      (poweredOnAt.Some? ==> poweredOnAt.value <= clock) &&
      appState == SessionState(poweredOnAt, clock) &&
      (startup != null <==> ViewOf(appState).startupSequence) &&
      (menu != null <==> ViewOf(appState).biosMenu) &&
      (diskCheckDeadline.Some? <==> appState == BlackScreen) &&
      (diskCheckDeadline.Some? ==>
        poweredOnAt.Some? && diskCheckDeadline.value == poweredOnAt.value + MenuDelay) &&
      (startup != null ==>
        startup.Valid() && startup.live && startup.phaseAtStart == Startup.Logo &&
        startup.clock == clock && poweredOnAt == Some(startup.start)) &&
      (menu != null ==> menu.Valid())
    }

    /** The app starts on the power button screen. */
    constructor (now: int)
      ensures Valid() && appState == PowerOff && clock == now
      ensures startup == null && menu == null && diskCheckDeadline == None
    {
      appState := PowerOff;
      clock := now;
      diskCheckDeadline := None;
      startup, menu := null, null;
      poweredOnAt := None;
    }

    /** The power button, which exists only on the power-off screen: the boot
        animation is mounted and starts now. */
    method HandlePowerOn(now: int)
      requires Valid() && appState == PowerOff && clock <= now
      modifies this
      ensures Valid() && appState == StartupLogo && clock == now
      ensures poweredOnAt == Some(now) && menu == null
      ensures startup != null && fresh(startup)
      ensures startup.phase == Startup.Logo && startup.events == [Startup.StartupSound]
      ensures startup.pending == Startup.AllTimers
    {
      appState := StartupLogo;
      clock := now;
      poweredOnAt := Some(now);
      startup := new Startup.StartupSequence(now);
    }

    /** The boot animation's completion callback, which only its completion timer
        calls, at that timer's deadline `at`: the black screen at once and a
        disk-check timer for `at` + 2500 ms that is never cleared. Leaving the logo
        state unmounts the animation, whose cleanup runs. */
    method HandleStartupComplete(at: int)
      requires startup != null && startup.Valid()
      requires startup.live && Startup.CompleteTimer !in startup.pending
      requires at == startup.start + Startup.CompleteDelay
      modifies this, startup
      ensures appState == BlackScreen && diskCheckDeadline == Some(at + DiskCheckDelay)
      ensures startup == null && !old(startup).live && old(startup).pending == {}
      ensures old(startup).phase == old(startup.phase) && old(startup).events == old(startup.events)
      ensures old(startup).clock == old(startup.clock) && old(startup).start == old(startup.start)
      ensures clock == old(clock) && menu == old(menu) && poweredOnAt == old(poweredOnAt)
    {
      appState := BlackScreen;
      diskCheckDeadline := Some(at + DiskCheckDelay);
      startup.Cleanup();
      startup := null;
    }

    /** The disk-check timer fires at time `now`, which it can only do once the
        completion handler has registered it and its deadline has come: the menu
        state, unconditionally. The menu is mounted unless it already is; a mounted
        boot animation would be unmounted. */
    method DiskCheckElapsed(now: int)
      requires diskCheckDeadline.Some? && diskCheckDeadline.value <= now
      requires startup != null ==> startup.Valid()
      requires menu != null ==> menu.Valid()
      modifies this, startup
      ensures appState == BiosMenu && diskCheckDeadline == None && startup == null
      ensures old(startup) != null ==> !old(startup).live && old(startup).pending == {}
      ensures menu != null && menu.Valid()
      ensures old(menu) == null ==> fresh(menu) && menu.selectedIdx == 0 && menu.events == []
      ensures old(menu) != null ==> menu == old(menu)
      ensures clock == old(clock) && poweredOnAt == old(poweredOnAt)
    {
      appState := BiosMenu;
      diskCheckDeadline := None;
      if startup != null {
        startup.Cleanup();
        startup := null;
      }
      if menu == null {
        menu := new Menu.BiosMenu();
      }
    }

    /** Time advances to `now`: the boot animation's timers fire, then, if its
        completion came, the disk-check timer it scheduled fires once due. */
    method Tick(now: int)
      requires Valid() && clock <= now
      modifies this, startup
      ensures Valid() && clock == now && poweredOnAt == old(poweredOnAt)
      ensures appState == SessionState(poweredOnAt, now)
      ensures startup != null <==> appState == StartupLogo
      ensures old(menu) != null ==> menu == old(menu)
      ensures menu != null && old(menu) == null ==>
                fresh(menu) && menu.selectedIdx == 0 && menu.events == []
      ensures startup != null ==> startup == old(startup) && startup.start == old(startup.start)
      ensures startup != null ==>
                startup.phase == Startup.PhaseFrom(Startup.Logo, now - startup.start) &&
                startup.events == old(startup.events)
      ensures old(startup) != null && startup == null ==>
                !old(startup).live && old(startup).pending == {} &&
                old(startup).events == old(startup.events) + [Startup.Completed]
    {
      if startup != null {
        var completed := startup.Tick(now);
        if completed {
          HandleStartupComplete(startup.start + Startup.CompleteDelay);
        }
      }
      if diskCheckDeadline.Some? && diskCheckDeadline.value <= now {
        DiskCheckElapsed(now);
      }
      clock := now;
    }

    /** A key press on the window: only the mounted menu listens. The session
        state never changes, because the menu does not call its state callback. */
    method KeyDown(key: string)
      requires Valid()
      modifies menu
      ensures Valid() && appState == old(appState)
      ensures menu != null ==>
                menu.selectedIdx == Menu.NextIndex(old(menu.selectedIdx), key) &&
                menu.events == old(menu.events) + Menu.KeyEffects(old(menu.selectedIdx), key)
    {
      if menu != null {
        menu.KeyDown(key);
      }
    }

    /** A click on menu entry `i`, which is on screen only while the menu is. */
    method ClickMenuItem(i: int)
      requires Valid() && ViewOf(appState).biosMenu && 0 <= i < |Menu.Items|
      modifies menu
      ensures Valid() && appState == old(appState) && menu != null
      ensures menu.selectedIdx == i
      ensures menu.events == old(menu.events) + Menu.SelectEffects(old(menu.selectedIdx))
    {
      menu.Click(i);
    }

    /** The render: what is mounted is what the state asks for, and the mounted
        children are exactly the component objects the app holds. */
    method Render() returns (v: View)
      requires Valid()
      ensures v == ViewOf(appState) && Reachable(appState)
      ensures v.startupSequence <==> startup != null
      ensures v.biosMenu <==> menu != null
      ensures v.blackScreen <==> diskCheckDeadline.Some?
    {
      v := ViewOf(appState);
    }
  }
}
