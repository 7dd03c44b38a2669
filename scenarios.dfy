/** Clients that drive the components through the boot and menu scenarios
    using only their contracts. */
module Scenarios {
  import opened Wrappers
  import opened AppStates
  import Startup
  import Menu
  import Session

  /** Power-on at 0: the sound at once, the text at 1000 and the fade at 6000. */
  method BootAnimation() {
    var app := new Session.App(0);
    app.HandlePowerOn(0);
    var s := app.startup;
    assert s.events == [Startup.StartupSound];

    app.Tick(999);
    assert app.startup == s && s.phase == Startup.Logo;
    app.Tick(1000);
    assert s.phase == Startup.Text;
    app.Tick(6000);
    assert s.phase == Startup.Fadeout && app.appState == StartupLogo;
  }

  /** At 7500 the animation completes once and is unmounted with no timer left. */
  method BootCompletes() {
    var app := new Session.App(0);
    app.HandlePowerOn(0);
    var s := app.startup;
    app.Tick(6000);
    assert app.startup == s && app.appState == StartupLogo;
    app.Tick(7500);
    assert app.appState == BlackScreen && app.startup == null && app.menu == null;
    assert s.events == [Startup.StartupSound, Startup.Completed] && s.pending == {};
  }

  /** After the black screen at 7500 the menu comes at 10000, on its first entry. */
  method PauseThenMenu() {
    var app := new Session.App(0);
    app.HandlePowerOn(0);
    app.Tick(7500);
    assert app.appState == BlackScreen;
    app.Tick(9999);
    assert app.appState == BlackScreen;
    app.Tick(10000);
    assert app.appState == BiosMenu;
    assert app.menu.selectedIdx == 0 && app.menu.events == [];
  }

  /** In the menu: right, confirm, a click on the memory card, and a key the
      menu ignores; none of them changes the session state. */
  method MenuInput() {
    var app := new Session.App(0);
    app.HandlePowerOn(0);
    app.Tick(10000);
    var m := app.menu;
    assert app.appState == BiosMenu && m.selectedIdx == 0 && m.events == [];

    app.KeyDown("ArrowRight");
    assert m.selectedIdx == 1 && m.events == [Menu.MoveSound];
    app.KeyDown("Enter");
    assert m.selectedIdx == 1;
    assert m.events == [Menu.MoveSound, Menu.SelectSound, Menu.Ack("CD Player")];
    app.ClickMenuItem(0);
    assert m.selectedIdx == 0;
    assert m.events[3..] == [Menu.SelectSound, Menu.Ack("CD Player")];
    app.KeyDown("ArrowUp");
    assert m.selectedIdx == 0 && |m.events| == 5;
    app.Tick(50000);
    assert app.appState == BiosMenu && app.menu == m;
  }

  /** The menu's window listener receiving `keys` one after another: the
      selection and the events are those of the key policy folded over the
      whole sequence. */
  method KeyDowns(m: Menu.BiosMenu, keys: seq<string>)
    requires m.Valid()
    modifies m
    ensures m.Valid()
    ensures m.selectedIdx == Menu.RunKeys(old(m.selectedIdx), keys)
    ensures m.events == old(m.events) + Menu.RunEffects(old(m.selectedIdx), keys)
  {
    var i := 0;
    while i < |keys|
      invariant 0 <= i <= |keys| && m.Valid()
      invariant Menu.RunKeys(old(m.selectedIdx), keys) == Menu.RunKeys(m.selectedIdx, keys[i..])
      invariant old(m.events) + Menu.RunEffects(old(m.selectedIdx), keys) ==
                m.events + Menu.RunEffects(m.selectedIdx, keys[i..])
    {
      assert keys[i..][0] == keys[i] && keys[i..][1..] == keys[i + 1..];
      m.KeyDown(keys[i]);
      i := i + 1;
    }
  }

  /** The fold lemmas, read on the component: after any keys whose last move is
      ArrowLeft, followed by keys the menu ignores, the first entry is selected,
      and the events hold one sound per move or confirm key. */
  method KeySequenceOnMenu(keys: seq<string>, tail: seq<string>)
    requires |keys| > 0 && keys[|keys| - 1] == "ArrowLeft"
    requires forall i :: 0 <= i < |tail| ==> Menu.KeyAction(tail[i]) == Menu.Ignore
  {
    var m := new Menu.BiosMenu();
    KeyDowns(m, keys);
    Menu.LastMoveDecides(0, keys, |keys| - 1);
    Menu.SoundsMatchKeys(0, keys);
    assert m.selectedIdx == 0;
    assert multiset(m.events)[Menu.MoveSound] == Menu.MoveKeys(keys);
    assert |m.events| == Menu.MoveKeys(keys) + 2 * Menu.ConfirmKeys(keys);
    var before := m.events;
    KeyDowns(m, tail);
    Menu.IgnoredKeysAreInert(0, tail);
    assert m.selectedIdx == 0 && m.events == before;
  }

  /** One late tick delivers the whole boot: completion at 7500 schedules the
      pause from 7500, so the menu is already up at 12000. */
  method OneLateTick() {
    var app := new Session.App(0);
    app.HandlePowerOn(0);
    var s := app.startup;
    app.Tick(12000);
    assert app.appState == BiosMenu && app.startup == null && app.menu != null;
    assert s.events == [Startup.StartupSound, Startup.Completed];
  }

  /** A boot animation dismissed early never fires again; a re-run restarts
      every timer from its own start. */
  method CancelAndRerun() {
    var s := new Startup.StartupSequence(0);
    var done := s.Tick(500);
    s.Cleanup();
    done := s.Tick(9000);
    assert !done && s.phase == Startup.Logo && s.events == [Startup.StartupSound];

    var r := new Startup.StartupSequence(0);
    done := r.Tick(3000);
    assert r.phase == Startup.Text;
    r.Rerun();
    done := r.Tick(7500);
    assert !done && r.phase == Startup.Text;
    done := r.Tick(9000);
    assert !done && r.phase == Startup.Fadeout;
    done := r.Tick(10500);
    assert done;
    assert r.events == [Startup.StartupSound, Startup.StartupSound, Startup.Completed];
  }
}
