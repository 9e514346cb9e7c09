# fpsgame: the discrete state of a first-person movement demo

The demo is one browser script, `fpsgamescript.js`, on top of a 3D rendering
library. Around the library calls it keeps a small amount of game state in
module-level variables:

- a key map from lower-cased key names to booleans;
- an ammo count with a reserve count and a `canShoot` flag;
- an aim-down-sights flag that switches the camera's field of view and hides the crosshair;
- a mantle flag that a raycast sets and a timer clears;
- a velocity that the frame loop damps, accelerates, slides and boosts.

Its event listeners update this state in place.

The model has two layers:

- `GameModel` is a specification. It gives all of that state as one value `State` and
  gives each listener and frame step as a transition `Step(State, Event)`. `Run` replays
  a sequence of events.
- `FpsGame.Game` is the imperative model. It is a class whose fields are the script's
  variables, and its methods are the listeners. Each method that changes state is proved
  to change the fields as the matching transition says. All of them except `UpdateHud`
  also keep the invariant `GameModel.Inv`. `UpdateHud` is called from the constructor and
  from `Shoot`. At neither point does the invariant hold: before the first write, and
  between the decrement and the end of the listener. `Direction` only reads the key map.

`GameProperties` proves what holds over arbitrary event sequences:

- ammo stays in [0, 30] and equals max(0, 30 - presses of the primary button);
- no event changes `reserveAmmo` or `canShoot`;
- the HUD text always shows the current counts;
- the field of view is 50 exactly while aiming and 75 otherwise, and the crosshair is
  hidden exactly while aiming;
- aiming follows the last secondary-button event;
- a mantle cannot be re-entered, and its timer ends it once.

`Decimal` and `Hud` model the read-out text `Ammo: <ammo> / <reserve>`. The proof that
it parses back to the two counts shows that the read-out never confuses two pairs of counts.
`Keyboard` models the key map, lower-casing, and the reads of the map made by the frame
loop and the slide.

Inputs from the host:

- The raycast is a foreign geometric query. Each frame takes its nearest-hit distance
  as an `Option<real>` argument.
- The `setTimeout` that ends a mantle becomes an explicit `MantleTimerFired` event. The
  count `pendingResets` records how many such callbacks are scheduled. The invariant
  keeps it at one while mantling and at zero otherwise.
- Pointer lock appears only as the `PointerLocked` and `PointerUnlocked` events. They
  show or hide the instructions overlay (`instructionsHidden`).
- The script writes the ammo text and the `hidden` classes into the page. The model
  writes them into the fields `hud`, `crosshairHidden` and `instructionsHidden`. The
  field `hudRefreshes` counts the writes of the ammo text, so "the HUD is not refreshed"
  can be stated.
- The page is assumed to hold the `ammo`, `crosshair` and `instructions` elements. Without
  them a listener would throw partway through. For example, `ammo--` (line 78) would
  happen and then `updateHUD` would fail (line 72), or `ads = true` (line 87) would happen
  and line 88 would fail before the field of view changes. The model does not capture
  such partial updates.
- The crosshair and the instructions overlay start without the `hidden` class. Those
  initial values come from the page's markup, not from the script. The proved fact
  "crosshair hidden iff aiming" rests on that starting value.

Two details of the code's order:

- Holding shift and c does not compound the 1.5 scaling across frames. Each frame first
  damps and accelerates the velocity (lines 135-138), so the model's frame replaces the
  horizontal velocity with the host's damped value and then slides it once.
- Loading the script runs `animate()` (line 148) before `updateHUD()` (line 149). The
  two touch disjoint state. The constructor performs the declarations and `updateHUD`,
  and the first `animate` is the first `Frame` event.

## Model

| member | source | states |
|---|---|---|
| Decimal.NatText | fpsgamescript.js:72 | the rendering of a count is a non-empty string of decimal digits without a leading zero |
| Decimal.IntText | fpsgamescript.js:72 | an integer renders as digits with an optional leading minus sign, so it contains no space |
| Decimal.ParseIntText | fpsgamescript.js:72 | reading a rendered integer back gives that integer |
| Decimal.IntTextInjective | fpsgamescript.js:72 | two integers render alike exactly when they are equal |
| Hud.HudText | fpsgamescript.js:72 | the template literal "Ammo: ${ammo} / ${reserveAmmo}"; no contract of its own, its meaning is stated by Hud.ParseHudText and Hud.HudTextInjective |
| Hud.ParseHudText | fpsgamescript.js:71-73 | the read-out "Ammo: a / r" parses back to exactly the pair (a, r) |
| Hud.HudTextInjective | fpsgamescript.js:71-73 | two read-outs are equal exactly when they show the same ammo and reserve |
| Keyboard.LowerChar | fpsgamescript.js:63 | upper-case ASCII letters move to lower case, every other character is kept, no upper-case letter remains |
| Keyboard.Lower | fpsgamescript.js:63 | lower-casing keeps the length and lowers each character |
| Keyboard.LowerIdempotent | fpsgamescript.js:63 | lower-casing an already lower-cased key name changes nothing |
| Keyboard.Held | fpsgamescript.js:129-132 | the read `keys.k`, false for a missing entry because undefined is falsy; no contract of its own, used by DirX, DirZ and Sliding |
| Keyboard.Sliding | fpsgamescript.js:105 | the slide gate, shift and c both held; no contract of its own, its effect is stated by GameModel.Slide and Keyboard.UnreadKeyIgnored |
| Keyboard.SetKey | fpsgamescript.js:62-67 | a key event sets the entry for the lower-cased name to pressed or released; it adds at most that name, and every other entry keeps its value |
| Keyboard.DirX | fpsgamescript.js:131-132 | x = [d] - [a] is in {-1, 0, 1}; it is 0 exactly when a and d are both held or both released |
| Keyboard.DirZ | fpsgamescript.js:129-130 | z = [s] - [w] is in {-1, 0, 1}; it is 0 exactly when w and s are both held or both released |
| Keyboard.UnreadKeyIgnored | fpsgamescript.js:51 | an event for a key other than w, a, s, d, shift or c changes no entry that is read, no direction component and not the slide gate |
| GameModel.Initial | fpsgamescript.js:49-60 | the loaded state (with fov 75 from line 3 and the HUD written once by line 149) has 30 rounds, one HUD write, no aiming, no mantle, and satisfies the invariant |
| GameModel.UpdateHud | fpsgamescript.js:71-73 | the HUD text becomes "Ammo: ammo / reserve", the refresh count goes up by one, and nothing else changes |
| GameModel.Shoot | fpsgamescript.js:76-82 | a primary press with canShoot and ammo > 0 takes exactly one round and refreshes the HUD; any other press changes nothing at all |
| GameModel.AimDown | fpsgamescript.js:85-92 | a secondary press sets ads, fov 50 and a hidden crosshair and nothing else; other buttons change nothing |
| GameModel.AimUp | fpsgamescript.js:94-101 | a secondary release clears ads, sets fov 75 and shows the crosshair, and nothing else; other buttons change nothing |
| GameModel.Slide | fpsgamescript.js:104-109 | the velocity changes only while shift and c are both held, and then only its horizontal components, each times 1.5 |
| GameModel.Mantle | fpsgamescript.js:112-121 | it starts a mantle exactly when idle with a nearest hit closer than 1.5: it sets isMantling and vertical velocity 5 and schedules one reset; otherwise nothing changes |
| GameModel.MantleStarts | fpsgamescript.js:113-116 | the mantle trigger, not mantling and a nearest hit closer than 1.5; no contract of its own, its effect is stated by GameModel.Mantle |
| GameModel.ResetMantle | fpsgamescript.js:119 | a scheduled timer clears isMantling, retires that timer, and changes nothing else |
| GameModel.AnimateFrame | fpsgamescript.js:128-141 | a frame stores the direction [d] - [a], [s] - [w] of the held keys, takes the host's damped horizontal velocity and scales it by 1.5 exactly when sliding, starts a mantle exactly when MantleStarts (boost 5, one more reset pending), and changes nothing else |
| GameModel.Step | fpsgamescript.js:62-121 | dispatches each event to its listener; each kind of event touches only its own part of the state (keys, ammo and HUD, aiming, velocity and direction, mantle, overlay), and none changes reserveAmmo or canShoot |
| GameProperties.StepInv | fpsgamescript.js:62-121 | every event keeps the invariant: ammo in [0, 30], reserve 90 and canShoot fixed, HUD equal to the counts, fov 50 iff ads and otherwise 75, crosshair hidden iff ads, one reset pending iff mantling |
| GameProperties.RunInv | fpsgamescript.js:62-146 | every sequence of events keeps the invariant |
| GameProperties.Reachable | fpsgamescript.js:57-60 | after any events from the start: ammo in [0, 30], HUD text "Ammo: ammo / reserve", fov in {50, 75}, fov = 50 iff ads, crosshair hidden iff ads, exactly one reset pending while mantling |
| GameProperties.StepAmmo | fpsgamescript.js:76-79 | one event takes a round exactly when it is an eligible primary press, and never changes reserveAmmo or canShoot |
| GameProperties.StepAds | fpsgamescript.js:85-101 | one event sets ads on a secondary press, clears it on a secondary release, and otherwise keeps it |
| GameProperties.StepWhileMantling | fpsgamescript.js:112-121 | during a mantle, no event other than the timer ends it, schedules another reset or touches the vertical velocity |
| GameProperties.RunKeepsAmmoSettings | fpsgamescript.js:57-59 | no event sequence changes reserveAmmo or canShoot, and ammo never grows |
| GameProperties.RunAmmo | fpsgamescript.js:76-79 | with canShoot, after any events the ammo is max(0, ammo - number of primary presses) |
| GameProperties.AmmoAfterPresses | fpsgamescript.js:57-78 | n primary presses from the start leave max(0, 30 - n) rounds |
| GameProperties.EmptyMagazine | fpsgamescript.js:77 | with ammo 0 a mouse press does nothing beyond aiming and does not refresh the HUD |
| GameProperties.RunAds | fpsgamescript.js:85-101 | after any events, ads is given by the last secondary-button event; with none, it keeps its old value |
| GameProperties.AimPressRelease | fpsgamescript.js:85-101 | from any state, a secondary press followed by a release leaves ads off, fov 75, the crosshair shown, and everything else as before |
| GameProperties.OtherButtonsKeepAim | fpsgamescript.js:86-95 | events for buttons other than 2 leave ads, fov and the crosshair unchanged |
| GameProperties.MantleNotReentered | fpsgamescript.js:113-119 | while a mantle lasts and its timer has not fired, no events start another one or apply the boost again |
| GameProperties.TimerFiresOnce | fpsgamescript.js:119 | the timer returns a mantle to idle exactly once; a second firing would change nothing |
| GameProperties.MantleOnCloseHit | fpsgamescript.js:116-118 | a frame while idle with a hit at any distance below 1.5 starts a mantle with vertical velocity 5 and one more reset pending |
| GameProperties.NoMantleOnFarHit | fpsgamescript.js:116 | a frame while idle with no hit, or a hit at 1.5 or farther, leaves the mantle idle, schedules no reset and keeps the vertical velocity |
| FpsGame.Game.constructor | fpsgamescript.js:49-60 | the fields start as the script declares them; the HUD is then written once; the invariant holds |
| FpsGame.Game.UpdateHud | fpsgamescript.js:71-73 | writes "Ammo: ammo / reserve" into the HUD field and counts the write |
| FpsGame.Game.KeyDown | fpsgamescript.js:62-64 | sets the entry for the lower-cased key to true, as the model's KeyDown transition, keeping the invariant |
| FpsGame.Game.KeyUp | fpsgamescript.js:65-67 | sets the entry for the lower-cased key to false, as the model's KeyUp transition, keeping the invariant |
| FpsGame.Game.Shoot | fpsgamescript.js:76-82 | decrements ammo exactly on an eligible primary press, as the model's Shoot, keeping the invariant |
| FpsGame.Game.AimDown | fpsgamescript.js:85-92 | on button 2 sets ads, fov 50 and the hidden crosshair, as the model's AimDown, keeping the invariant |
| FpsGame.Game.MouseDown | fpsgamescript.js:76-92 | runs both mousedown listeners, follows the model's MouseDown transition and keeps the invariant |
| FpsGame.Game.MouseUp | fpsgamescript.js:94-101 | on button 2 clears ads, sets fov 75 and shows the crosshair, follows the model and keeps the invariant |
| FpsGame.Game.Direction | fpsgamescript.js:128-132 | the step-by-step direction equals the closed forms [d] - [a] and [s] - [w], each in {-1, 0, 1} |
| FpsGame.Game.Slide | fpsgamescript.js:104-109 | changes the velocity as the model's Slide, keeping the invariant |
| FpsGame.Game.Mantle | fpsgamescript.js:112-121 | changes mantle state and vertical velocity as the model's Mantle, keeping the invariant |
| FpsGame.Game.Animate | fpsgamescript.js:124-146 | stores the direction of the held keys, takes the damped velocity, slides, mantles, returns the negated horizontal velocity for moveRight/moveForward, and keeps the invariant |
| FpsGame.Game.MantleTimerFired | fpsgamescript.js:119 | clears isMantling, as the model's ResetMantle, keeping the invariant |
| FpsGame.Game.PointerLocked | fpsgamescript.js:18-20 | hides the instructions overlay and nothing else |
| FpsGame.Game.PointerUnlocked | fpsgamescript.js:21-23 | shows the instructions overlay and nothing else |

## Left out

- Scene, camera, renderer, light, floor and obstacle construction (lines 1-11, 25-46) are calls into the rendering library. Of the camera, only its field of view is modelled. Calling `updateProjectionMatrix` is not modelled.
- The raycast (lines 114-115) is a geometric query in the library. Its nearest-hit distance is an argument of each frame.
- `setTimeout` and `requestAnimationFrame` (lines 119, 125): there is no wall clock. The reset is an explicit event, and a frame is one method call. The model does not capture that the reset comes about 300 ms after the mantle starts.
- FpsGame.Game.Animate: floating-point work is left out. The host supplies the horizontal velocity after normalising, damping and accelerating (lines 134-138) as arguments. `direction` is kept as its integer components before normalising, because `normalize` needs a square root of doubles.
- GameModel.Slide: it multiplies by 1.5 exactly in real arithmetic. The script multiplies doubles, which rounds.
- `moveRight`, `moveForward` and `render` (lines 142-145) are library calls. `Animate` returns the two values it would pass to them.
- Clicking the instructions overlay to request pointer lock (lines 15-17) is left out. Only the lock and unlock notifications are modelled.
- Decimal.IntText: renders every integer in plain digits. JavaScript switches to exponent notation from 10^21 on; the counts here stay within [0, 90].
- Keyboard.LowerChar: `toLowerCase` is modelled for ASCII letters only. Other Unicode case mappings are not represented.
- Keyboard.Lower: lower-cases ASCII letters one character at a time, so it keeps the length. JavaScript's `toLowerCase` can lengthen a string ("İ" becomes two code units) and depends on context (a final sigma).
- The browser's choice of key names is not modelled. For example, the space bar reports " ", so the declared `space` entry is never set. That entry is never read either.
- The order in which the browser runs the two `mousedown` listeners is not modelled. They touch disjoint state.
