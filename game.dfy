/**
 * The script's module-level variables as the fields of one object, and its
 * listeners and per-frame functions as methods that update them in place.
 * Each listener is proved to follow the matching transition of `GameModel`
 * and to keep that module's invariant.
 */
module FpsGame {
  import opened Wrappers
  import opened Keyboard
  import opened GameModel
  import Hud

  class Game {
    var keys: KeyMap
    var velocity: Vec3
    var dirX: int
    var dirZ: int
    var isMantling: bool
    var pendingResets: nat
    var ammo: int
    var reserveAmmo: int
    var canShoot: bool
    var ads: bool
    var fov: int
    var crosshairHidden: bool
    var instructionsHidden: bool
    var hud: string
    var hudRefreshes: nat

    /** The fields as one value of the model. */
    function Snapshot(): State
      reads this
    {
      State(keys, velocity, dirX, dirZ, isMantling, pendingResets, ammo, reserveAmmo,
            canShoot, ads, fov, crosshairHidden, instructionsHidden, hud, hudRefreshes)
    }

    ghost predicate Valid()
      reads this
    {
      Inv(Snapshot())
    }

    /** Loading the script: its variable declarations, then `updateHUD()`. */
    constructor ()
      ensures Snapshot() == Initial()
      ensures Valid()
    {
      keys := InitialKeys;
      velocity := Vec3(0.0, 0.0, 0.0);
      dirX, dirZ := 0, 0;
      isMantling := false;
      pendingResets := 0;
      ammo := MagazineSize;
      reserveAmmo := InitialReserve;
      canShoot := true;
      ads := false;
      fov := HipFov;
      crosshairHidden := false;
      instructionsHidden := false;
      hud := "";
      hudRefreshes := 0;
      new;
      UpdateHud();
    }

    method UpdateHud()
      modifies this
      ensures hud == Hud.HudText(ammo, reserveAmmo)
      ensures Snapshot() == GameModel.UpdateHud(old(Snapshot()))
    {
      hud := Hud.HudText(ammo, reserveAmmo);
      hudRefreshes := hudRefreshes + 1;
    }

    method KeyDown(key: string)
      requires Valid()
      modifies this
      ensures Valid()
      ensures keys == old(keys)[Lower(key) := true]
      ensures Snapshot() == Step(old(Snapshot()), Event.KeyDown(key))
    {
      keys := keys[Lower(key) := true];
    }

    method KeyUp(key: string)
      requires Valid()
      modifies this
      ensures Valid()
      ensures keys == old(keys)[Lower(key) := false]
      ensures Snapshot() == Step(old(Snapshot()), Event.KeyUp(key))
    {
      keys := keys[Lower(key) := false];
    }

    /** The shooting `mousedown` listener. */
    method Shoot(button: int)
      requires Valid()
      modifies this
      ensures Valid()
      ensures ammo == if button == PrimaryButton && old(canShoot) && old(ammo) > 0
                      then old(ammo) - 1 else old(ammo)
      ensures Snapshot() == GameModel.Shoot(old(Snapshot()), button)
    {
      if button == PrimaryButton && canShoot && ammo > 0 {
        ammo := ammo - 1;
        UpdateHud();
      }
    }

    /** The aiming `mousedown` listener. */
    method AimDown(button: int)
      requires Valid()
      modifies this
      ensures Valid()
      ensures button == SecondaryButton ==> ads && fov == AdsFov && crosshairHidden
      ensures Snapshot() == GameModel.AimDown(old(Snapshot()), button)
    {
      if button == SecondaryButton {
        ads := true;
        crosshairHidden := true;
        fov := AdsFov;
      }
    }

    /** A `mousedown` event reaches both listeners. */
    method MouseDown(button: int)
      requires Valid()
      modifies this
      ensures Valid()
      ensures Snapshot() == Step(old(Snapshot()), Event.MouseDown(button))
    {
      Shoot(button);
      AimDown(button);
    }

    /** The `mouseup` listener. */
    method MouseUp(button: int)
      requires Valid()
      modifies this
      ensures Valid()
      ensures button == SecondaryButton ==> !ads && fov == HipFov && !crosshairHidden
      ensures Snapshot() == Step(old(Snapshot()), Event.MouseUp(button))
    {
      if button == SecondaryButton {
        ads := false;
        crosshairHidden := false;
        fov := HipFov;
      }
    }

    /** The movement direction before normalising, built as `animate` builds it. */
    method Direction() returns (x: int, z: int)
      ensures x == DirX(keys) && z == DirZ(keys)
      ensures -1 <= x <= 1 && -1 <= z <= 1
    {
      x, z := 0, 0;
      if Held(keys, "w") { z := z - 1; }
      if Held(keys, "s") { z := z + 1; }
      if Held(keys, "a") { x := x - 1; }
      if Held(keys, "d") { x := x + 1; }
    }

    method Slide()
      requires Valid()
      modifies this
      ensures Valid()
      ensures Snapshot() == GameModel.Slide(old(Snapshot()))
    {
      if Held(keys, "shift") && Held(keys, "c") {
        velocity := velocity.(x := velocity.x * SlideFactor, z := velocity.z * SlideFactor);
      }
    }

    /** `mantle`, given the raycast's nearest hit distance, if any. */
    method Mantle(hit: Option<real>)
      requires Valid()
      modifies this
      ensures Valid()
      ensures Snapshot() == GameModel.Mantle(old(Snapshot()), hit)
    {
      if isMantling {
        return;
      }
      if hit.Some? && hit.value < MantleReach {
        isMantling := true;
        velocity := velocity.(y := MantleBoost);
        pendingResets := pendingResets + 1;
      }
    }

    /**
     * One frame. The host supplies the raycast result and the horizontal
     * velocity after normalising, damping and accelerating; the results are
     * the arguments of `moveRight` and `moveForward`.
     */
    method Animate(hit: Option<real>, dampedX: real, dampedZ: real) returns (right: real, forward: real)
      requires Valid()
      modifies this
      ensures Valid()
      ensures dirX == DirX(old(keys)) && dirZ == DirZ(old(keys))
      ensures right == -velocity.x && forward == -velocity.z
      ensures Snapshot() == Step(old(Snapshot()), Frame(hit, dampedX, dampedZ))
    {
      dirX, dirZ := Direction();
      velocity := velocity.(x := dampedX, z := dampedZ);
      Slide();
      Mantle(hit);
      right, forward := -velocity.x, -velocity.z;
    }

    /** The callback scheduled by a mantle, when it fires. */
    method MantleTimerFired()
      requires Valid()
      requires pendingResets > 0
      modifies this
      ensures Valid()
      ensures !isMantling
      ensures Snapshot() == Step(old(Snapshot()), Event.MantleTimerFired)
    {
      isMantling := false;
      pendingResets := pendingResets - 1;
    }

    method PointerLocked()
      requires Valid()
      modifies this
      ensures Valid()
      ensures Snapshot() == Step(old(Snapshot()), Event.PointerLocked)
    {
      instructionsHidden := true;
    }

    method PointerUnlocked()
      requires Valid()
      modifies this
      ensures Valid()
      ensures Snapshot() == Step(old(Snapshot()), Event.PointerUnlocked)
    {
      instructionsHidden := false;
    }
  }
}
