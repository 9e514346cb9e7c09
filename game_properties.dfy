/** Properties of the demo's state over whole sequences of events. */
module GameProperties {
  import opened Wrappers
  import opened Keyboard
  import opened GameModel
  import Hud

  /** Every event keeps the invariant. */
  lemma StepInv(s: State, e: Event)
    requires Inv(s)
    ensures Inv(Step(s, e))
  {
  }

  lemma {:induction false} RunInv(s: State, es: seq<Event>)
    requires Inv(s)
    ensures Inv(Run(s, es))
    decreases |es|
  {
    if es != [] {
      StepInv(s, es[0]);
      RunInv(Step(s, es[0]), es[1..]);
    }
  }

  /**
   * Whatever the events, ammo stays in [0, 30], the read-out shows the
   * counts, the field of view is 50 exactly while aiming and 75 otherwise,
   * the crosshair is hidden exactly while aiming, and a mantle has exactly
   * one reset pending while it lasts and none otherwise.
   */
  lemma Reachable(es: seq<Event>)
    ensures var t := Run(Initial(), es);
      && 0 <= t.ammo <= 30
      && t.reserveAmmo == 90 && t.canShoot
      && t.hud == Hud.HudText(t.ammo, t.reserveAmmo)
      && (t.fov == 50 || t.fov == 75)
      && (t.fov == 50 <==> t.ads)
      && (t.crosshairHidden <==> t.ads)
      && t.pendingResets == (if t.isMantling then 1 else 0)
  {
    RunInv(Initial(), es);
  }

  lemma RunSnoc(s: State, es: seq<Event>, e: Event)
    ensures Run(s, es + [e]) == Step(Run(s, es), e)
    decreases |es|
  {
    if es != [] {
      assert (es + [e])[1..] == es[1..] + [e];
      RunSnoc(Step(s, es[0]), es[1..], e);
    }
  }

  /** One event's effect on the ammo fields. */
  lemma StepAmmo(s: State, e: Event)
    ensures Step(s, e).reserveAmmo == s.reserveAmmo
    ensures Step(s, e).canShoot == s.canShoot
    ensures Step(s, e).ammo ==
      if e == MouseDown(PrimaryButton) && s.canShoot && s.ammo > 0 then s.ammo - 1 else s.ammo
  {
    match e
    case MouseDown(button) =>
      assert Step(s, e) == AimDown(Shoot(s, button), button);
    case _ =>
  }

  /** One event's effect on aiming. */
  lemma StepAds(s: State, e: Event)
    ensures Step(s, e).ads ==
      if e == MouseDown(SecondaryButton) then true
      else if e == MouseUp(SecondaryButton) then false
      else s.ads
  {
    match e
    case MouseDown(button) =>
      assert Step(s, e) == AimDown(Shoot(s, button), button);
    case MouseUp(button) =>
    case _ =>
  }

  /** One event other than the timer, during a mantle. */
  lemma StepWhileMantling(s: State, e: Event)
    requires s.isMantling && e != MantleTimerFired
    ensures Step(s, e).isMantling
    ensures Step(s, e).pendingResets == s.pendingResets
    ensures Step(s, e).velocity.y == s.velocity.y
  {
  }

  /** No event changes `reserveAmmo` or `canShoot`, and ammo never grows. */
  lemma {:induction false} RunKeepsAmmoSettings(s: State, es: seq<Event>)
    ensures Run(s, es).reserveAmmo == s.reserveAmmo
    ensures Run(s, es).canShoot == s.canShoot
    ensures Run(s, es).ammo <= s.ammo
    decreases |es|
  {
    if es != [] {
      StepAmmo(s, es[0]);
      RunKeepsAmmoSettings(Step(s, es[0]), es[1..]);
    }
  }

  /** The number of primary-button presses among `es`. */
  function PrimaryPresses(es: seq<Event>): nat {
    if es == [] then 0
    else (if es[0] == MouseDown(PrimaryButton) then 1 else 0) + PrimaryPresses(es[1..])
  }

  function Max(a: int, b: int): int {
    if a < b then b else a
  }

  /**
   * While shooting is allowed, after any events the ammo is what it was less
   * the primary presses, floored at zero.
   */
  lemma {:induction false} RunAmmo(s: State, es: seq<Event>)
    requires s.canShoot && s.ammo >= 0
    ensures Run(s, es).ammo == Max(0, s.ammo - PrimaryPresses(es))
    decreases |es|
  {
    if es != [] {
      var t := Step(s, es[0]);
      StepAmmo(s, es[0]);
      RunAmmo(t, es[1..]);
    }
  }

  /** `n` primary presses from the start leave max(0, 30 - n) rounds. */
  lemma AmmoAfterPresses(n: nat)
    ensures Run(Initial(), seq(n, _ => MouseDown(PrimaryButton))).ammo == Max(0, 30 - n)
  {
    var es := seq(n, _ => MouseDown(PrimaryButton));
    CountPresses(n);
    RunAmmo(Initial(), es);
  }

  lemma {:induction false} CountPresses(n: nat)
    ensures PrimaryPresses(seq(n, _ => MouseDown(PrimaryButton))) == n
  {
    if n > 0 {
      var es := seq(n, _ => MouseDown(PrimaryButton));
      assert es[1..] == seq(n - 1, _ => MouseDown(PrimaryButton));
      CountPresses(n - 1);
    }
  }

  /** Pressing with an empty magazine changes nothing, the read-out included. */
  lemma EmptyMagazine(s: State, button: int)
    requires s.ammo == 0
    ensures Step(s, MouseDown(button)) == AimDown(s, button)
    ensures Step(s, MouseDown(button)).hudRefreshes == s.hudRefreshes
  {
  }

  /**
   * Aiming follows the last secondary-button event: pressed means aiming;
   * with none, whatever held before.
   */
  function LastAim(es: seq<Event>, before: bool): bool {
    if es == [] then before
    else if es[|es| - 1] == MouseDown(SecondaryButton) then true
    else if es[|es| - 1] == MouseUp(SecondaryButton) then false
    else LastAim(es[..|es| - 1], before)
  }

  lemma {:induction false} RunAds(s: State, es: seq<Event>)
    ensures Run(s, es).ads == LastAim(es, s.ads)
    decreases |es|
  {
    if es != [] {
      var init, last := es[..|es| - 1], es[|es| - 1];
      assert es == init + [last];
      RunSnoc(s, init, last);
      StepAds(Run(s, init), last);
      RunAds(s, init);
    }
  }

  /** A press and release of the secondary button restore the hip view. */
  lemma AimPressRelease(s: State)
    ensures Step(Step(s, MouseDown(SecondaryButton)), MouseUp(SecondaryButton))
      == s.(ads := false, fov := HipFov, crosshairHidden := false)
  {
  }

  /** Events for other buttons leave aiming, field of view and crosshair alone. */
  lemma OtherButtonsKeepAim(s: State, button: int)
    requires button != SecondaryButton
    ensures Step(s, MouseDown(button)).ads == s.ads
    ensures Step(s, MouseDown(button)).fov == s.fov
    ensures Step(s, MouseDown(button)).crosshairHidden == s.crosshairHidden
    ensures Step(s, MouseUp(button)) == s
  {
  }

  /**
   * While a mantle lasts and its timer has not fired, no event starts
   * another one: the state stays Mantling with one reset pending and the
   * vertical boost is not applied again.
   */
  lemma {:induction false} MantleNotReentered(s: State, es: seq<Event>)
    requires s.isMantling && s.pendingResets == 1
    requires forall k :: 0 <= k < |es| ==> es[k] != MantleTimerFired
    ensures Run(s, es).isMantling && Run(s, es).pendingResets == 1
    ensures Run(s, es).velocity.y == s.velocity.y
    decreases |es|
  {
    if es != [] {
      StepWhileMantling(s, es[0]);
      MantleNotReentered(Step(s, es[0]), es[1..]);
    }
  }

  /** The timer ends a mantle once; a second firing could change nothing. */
  lemma TimerFiresOnce(s: State)
    requires Inv(s) && s.isMantling
    ensures Step(s, MantleTimerFired) == s.(isMantling := false, pendingResets := 0)
    ensures Step(Step(s, MantleTimerFired), MantleTimerFired) == Step(s, MantleTimerFired)
  {
  }

  /** A frame while idle with a hit closer than 1.5 starts a mantle with an upward boost. */
  lemma MantleOnCloseHit(s: State, d: real, dx: real, dz: real)
    requires !s.isMantling && d < MantleReach
    ensures Step(s, Frame(Some(d), dx, dz)).isMantling
    ensures Step(s, Frame(Some(d), dx, dz)).pendingResets == s.pendingResets + 1
    ensures Step(s, Frame(Some(d), dx, dz)).velocity.y == MantleBoost
  {
  }

  /**
   * A frame while idle with no hit, or with the nearest hit at 1.5 or
   * farther, leaves the mantle state and the vertical velocity alone.
   */
  lemma NoMantleOnFarHit(s: State, hit: Option<real>, dx: real, dz: real)
    requires !s.isMantling && (hit.None? || hit.value >= MantleReach)
    ensures !Step(s, Frame(hit, dx, dz)).isMantling
    ensures Step(s, Frame(hit, dx, dz)).pendingResets == s.pendingResets
    ensures Step(s, Frame(hit, dx, dz)).velocity.y == s.velocity.y
  {
  }
}
