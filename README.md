# PetSim pet state machine in Dafny

PetSim is a small Tk game: a virtual pet walks around a canvas, gets more
hungry and more bored as time passes, and the player feeds it or plays with
it. This project models the pet's state machine from `src/script.py`:

- the pet object (`class Animal`): its creation, one frame of `update`
  (stat decay, the action timer, wandering), the two actions `feed` and
  `play`, and the bookkeeping of their visuals (`vis_bowl`, `vis_toys`,
  `after_play`, `after_eating`);
- the two display rules: the colour band of a status bar
  (`StatusBar.update`) and the status message (`Simulator.update_bars`).

Layout:

- `basics.dfy` (module `Basics`): `Option`, minimum and maximum.
- `tables.dfy` (module `Tables`): the meal and play tables, bowl sizes and
  toy counts, and the lookup `d.get(k, d[k])` that the program uses on each
  of them.
- `pet_state.dfy` (module `PetState`): the pet's fields as a value
  (`Snapshot`), the invariant `Valid`, and every operation as a function:
  `Decay`, `ActionTimer` and `Motion` make up one frame (`Tick`); then
  `Feed`, `Play`, the visual bookkeeping, and `Run` for many frames.
- `pet_lemmas.dfy` (module `PetLemmas`): properties over many frames and
  across actions.
- `animal.dfy` (module `Animals`): `class Animal`, whose methods update the
  fields in place. Each method is proved to leave the fields exactly as the
  matching `PetState` function says, so every `PetState` and `PetLemmas`
  property holds of the object.
- `display.dfy` (module `Display`): the bar style and the status message.

Modelling choices:

- Milliseconds, positions and happiness are `real`, so arithmetic is exact.
  Hunger and boredom are `int`.
- The elapsed time of a frame is a parameter, not a clock read. So are the
  canvas size, the target `random.randint` would draw, and the heading and
  step the trigonometry would produce. All of these are grouped in
  `TickInput`.
- The distance to the target is compared through its square:
  `distance < 5` is `d2 < 25`, and `distance > 5` is `d2 > 25`.
- An unknown meal or play kind raises a KeyError in the program before any
  field changes. The model returns `None` (or `ok == false`) and leaves the
  state as it was.
- On the canvas, only the effect on the fields is kept: whether a bowl (and
  its size) and the food are drawn, and the list of toys with their shapes
  and colours.
- One-frame `update` is split into three stage methods (`DecayStats`,
  `CountDownAction`, `Wander`). Each stage delegates its assignments to a
  method specified field by field (`DecayFields`, `CountDownFields`,
  `WanderFields`). `Feed` and `Play` likewise use `StartMeal` and
  `StartPlay`. The statements are those of the source, in its order.

Behaviour of the code worth knowing, all of it kept by the model:

- The action timer is only decremented (script.py:107), so it can end
  below zero when an action finishes. `PetState.ActionTimer` keeps that
  value.
- When the timer runs out, both `eating` and `playing` are cleared
  (script.py:109-110), whichever action was running.
- `play` does not clear `eating`, and `feed` does not clear `playing`, so
  both flags can be true together (`PetLemmas.PlayWhileEating`).
- Hunger does not rise by total time / 3000. A crossing resets the
  accumulator to 0 and drops the remainder (script.py:96-98). At 50 ms per
  frame hunger rises once every 61 frames (3050 ms), and boredom once every
  101 frames (`PetLemmas.StatsAtCadence`). A single 10000 ms frame adds
  exactly one (`PetLemmas.LongStallAddsOne`).
- Derived happiness is floored at 0 only (script.py:104). It never exceeds
  100 because hunger and boredom are never negative.
- Initial happiness is 70 (script.py:26), not the value 50 derived from
  hunger and boredom 50/50. The next frame overwrites it.

## Model

| member | source | states |
|---|---|---|
| Tables.GetWithEagerDefault | src/script.py:169 | `d.get(k, d[k])` succeeds exactly when `k` is a key, and then yields `d[k]`; an absent key is an error, never the fallback |
| Tables.FoodLookup | src/script.py:163-169 | exactly "Przekąska", "Obiad" and "Królewska uczta" are found, with effects 15/5/1500, 30/10/2000 and 50/20/3000; each found meal has a bowl size and a duration in (0, 3000] |
| Tables.PlayLookup | src/script.py:185-191 | exactly "Na odwal", "Z życiem" and "Do upadku" are found, with effects 15/8/2000, 25/15/3000 and 40/25/5000; each found kind has a toy count and a duration in (0, 5000] |
| Tables.BowlSize | src/script.py:203-204 | a bowl size exists exactly for the three meals and lies between 15 and 25 |
| Tables.ToyCount | src/script.py:225-226 | a toy count exists exactly for the three play kinds: 1, 2 and 3 |
| PetState.ToySet | src/script.py:227-256 | the loop of `vis_toys` yields exactly `n` toys, the i-th with shape and colour number `i % 3` |
| PetState.Initial | src/script.py:11-43 | a new pet is valid, at its creation point with that point as target, hunger and boredom 50, happiness 70, idle, with no bowl and no toys |
| PetState.ClockStep | src/script.py:92-102 | one frame raises a stat by at most one (never above 100), only when the accumulator plus `dt` is strictly above the period; the accumulator is then 0; otherwise it grows by `dt` |
| PetState.DerivedHappiness | src/script.py:104 | derived happiness is never negative and at most 100 for non-negative stats |
| PetState.Decay | src/script.py:92-104 | the decay stage changes only the two stats, their accumulators, the move timer and happiness |
| PetState.AfterPlay | src/script.py:258-262 | every toy is removed and nothing else changes |
| PetState.AfterEating | src/script.py:264-272 | bowl, food and toys are removed and nothing else changes |
| PetState.VisBowl | src/script.py:201-219 | the bowl drawn is the size listed for the meal in `foodUsed`, the food is drawn, any earlier bowl is replaced |
| PetState.VisToys | src/script.py:221-256 | earlier toys are gone and 1 to 3 toys are drawn, as many as listed for the play kind in `playtime` |
| PetState.ActionTimer | src/script.py:106-111 | the timer stage changes only the action timer, the two flags, bowl, food and toys |
| PetState.ClampX | src/script.py:130 | the clamped x is at least 50, at most width − 50 on a canvas at least 100 wide, and unchanged when already inside |
| PetState.ClampY | src/script.py:131 | the clamped y is at least 80, at most height − 50 on a canvas at least 130 high, and unchanged when already inside |
| PetState.Motion | src/script.py:113-136 | the motion stage changes only position, target, heading, move timer and the moving flag |
| PetState.Tick | src/script.py:83-136 | one frame keeps the invariant; each stat accumulator takes one `ClockStep`; happiness equals the derived value of the new stats; a running action's timer drops by exactly `dt` and at zero or below both flags and all visuals are cleared, otherwise they are kept; while a flag is up nothing moves but the move timer grows; an idle pet retargets on arrival or after 2000 ms (move timer 0) and steps, clamped, exactly when farther than 5; kind, meal and play kind survive |
| PetState.Feed | src/script.py:157-177 | succeeds exactly for the three meals; hunger drops by the meal's amount (not below 0), happiness rises (not above 100), eating is set, the timer is the meal's duration, the meal is recorded and its bowl drawn; everything else, the play flag and the toys included, is unchanged; the invariant is kept |
| PetState.Play | src/script.py:179-199 | succeeds exactly for the three kinds; boredom drops (not below 0), happiness rises (not above 100), playing is set, the timer is the play's duration, the kind is recorded and its toys drawn; everything else, the eating flag and the bowl included, is unchanged; the invariant is kept |
| PetState.Run | src/script.py:83-136 | any number of frames keeps the invariant, the kind, the meal and the play kind |
| PetLemmas.DerivedHappinessBands | src/script.py:104 | derived happiness is above 80 exactly when hunger plus boredom is below 40, and 0 exactly when the sum is at least 200 |
| PetLemmas.StatRunAtCadence | src/script.py:92-102 | when a period is crossed on every k-th frame of 50 ms, a stat `j` frames into its cycle rises by `(j + n) / k` over `n` frames (capped at 100), and its accumulator ends at `((j + n) % k) · 50` |
| PetLemmas.RunHunger | src/script.py:92-98 | hunger over many frames is its accumulator stepped frame by frame, unaffected by actions and motion |
| PetLemmas.RunBoredom | src/script.py:93-102 | boredom over many frames is its accumulator stepped frame by frame, unaffected by actions and motion |
| PetLemmas.StatsAtCadence | src/script.py:92-102 | at 50 ms per frame from empty accumulators, hunger rises by `n / 61` and boredom by `n / 101` over `n` frames (capped) |
| PetLemmas.TwoSecondsAfterCreation | src/script.py:92-98 | forty 50 ms frames after creation leave hunger and boredom at 50 and the hunger accumulator at 2000 |
| PetLemmas.LongStallAddsOne | src/script.py:92-102 | one 10000 ms frame raises hunger and boredom by exactly one and resets both accumulators |
| PetLemmas.IdleStaysIdle | src/script.py:106-111 | with no action running none starts: flags stay down, no visuals appear, the timer is untouched |
| PetLemmas.ActionRunsOn | src/script.py:106-111 | while less time has passed than the timer, the action and its visuals go on and the timer has dropped by exactly the time passed |
| PetLemmas.ActionEnds | src/script.py:106-111 | once the frames total at least the timer, both flags are down and bowl, food and toys are gone |
| PetLemmas.DinnerThenWait | src/script.py:163-175 | "Obiad" lowers hunger by 30 (not below 0), raises happiness by 10 (not above 100), eats for 2000 ms; frames totalling 2000 ms or more end the meal and clear its visuals |
| PetLemmas.PlayWhileEating | src/script.py:193-197 | playing during a meal keeps the eating flag and the bowl, and the play's duration replaces the meal's remaining time |
| PetLemmas.StaysInBounds | src/script.py:113-136 | on a canvas of at least 100 × 130, a pet inside the clamp bounds with its target in the drawing range stays inside, target in range, for any number of frames |
| PetLemmas.CreatedPetStaysInBounds | src/script.py:506-508 | the pet created at (400, 200) stays within bounds on a canvas assumed to be 800 × 400 |
| Animals.Animal.constructor | src/script.py:11-43 | the new object's fields are `PetState.Initial` and satisfy the invariant |
| Animals.Animal.Update | src/script.py:83-136 | the fields after the call are `PetState.Tick` of the fields before; the invariant is kept |
| Animals.Animal.DecayStats | src/script.py:92-104 | the fields after the call are `PetState.Decay` of the fields before |
| Animals.Animal.DecayFields | src/script.py:92-104 | the assignments of the decay stage give each of the six fields it may change its `PetState.Decay` value |
| Animals.Animal.CountDownAction | src/script.py:106-111 | the fields after the call are `PetState.ActionTimer` of the fields before |
| Animals.Animal.CountDownFields | src/script.py:106-111 | the assignments of the timer stage give each of the six fields it may change its `PetState.ActionTimer` value |
| Animals.Animal.Wander | src/script.py:113-136 | the fields after the call are `PetState.Motion` of the fields before |
| Animals.Animal.WanderFields | src/script.py:113-136 | the assignments of the motion stage give each of the seven fields it may change its `PetState.Motion` value |
| Animals.Animal.Move | src/script.py:138-155 | only the position changes, to the given point |
| Animals.Animal.Feed | src/script.py:157-177 | `ok` exactly when `PetState.Feed` succeeds; then the fields are its result, otherwise unchanged; the invariant is kept |
| Animals.Animal.StartMeal | src/script.py:171-175 | hunger drops by the meal's amount (not below 0), happiness rises (not above 100), eating is set, the timer is the duration, the meal is recorded; no other field changes |
| Animals.Animal.Play | src/script.py:179-199 | `ok` exactly when `PetState.Play` succeeds; then the fields are its result, otherwise unchanged; the invariant is kept |
| Animals.Animal.StartPlay | src/script.py:193-197 | boredom drops by the play's amount (not below 0), happiness rises (not above 100), playing is set, the timer is the duration, the kind is recorded; no other field changes |
| Animals.Animal.VisBowl | src/script.py:201-219 | the fields after the call are `PetState.VisBowl` of the fields before |
| Animals.Animal.VisToys | src/script.py:221-256 | the fields after the call are `PetState.VisToys` of the fields before; the loop appends toy `i` in round `i` |
| Animals.Animal.AfterPlay | src/script.py:258-262 | the toy list is empty and no other field changes |
| Animals.Animal.AfterEating | src/script.py:264-272 | bowl, food and toys are gone and no other field changes |
| Display.StyleName | src/script.py:433-435 | the three bands have the three distinct style names |
| Display.BarBand | src/script.py:299-304 | on "Głód" and "Nuda" red exactly above 80 and green exactly at 30 or below; on other bars green exactly above 80 and red exactly at 30 or below; yellow exactly in (30, 80] |
| Display.BarStyle | src/script.py:299-306 | the style set on the bar: on "Głód" and "Nuda" red exactly above 80 and green exactly at 30 or below; on other bars green exactly above 80 and red exactly at 30 or below; yellow exactly in (30, 80] |
| Display.BandsMirror | src/script.py:299-304 | a non-stress bar shows the mirror band, red and green swapped, of a stress bar with the same value |
| Display.BandsMonotone | src/script.py:299-304 | a higher value never shows a less alarming band on a stress bar, nor a more alarming one on another bar |
| Display.StatusLine | src/script.py:559-566 | red "very hungry" exactly when hunger is above 80; else blue "very bored" exactly when boredom is above 80; else green "happy" exactly when happiness is above 80; else black "fine"; each message starts with the pet's kind |
| Display.StatusAfterTick | src/script.py:559-566 | after a frame the happy message shows exactly when hunger plus boredom is below 40, and the neutral one exactly when neither stat is above 80 and their sum is at least 40 |

## Left out

- The Tk user interface: widget construction, `SelectPet`, `SelectAct`,
  `Simulator.ui` and the background drawing. These have no logic the pet
  depends on.
- `load_img` and `visualize`: image files and drawing. The model keeps a
  pet without its image.
- The canvas coordinates of the bowl, the food, the toys and the shadow.
  Canvas item identities become the size of the bowl drawn, whether the food
  is drawn, and the list of toys.
- Animals.Animal.Move: the shadow and image that `move` shifts on the canvas
  are not modelled; only the position fields are.
- The wall-clock `time.time()` and the computation of `dt`. `dt` is a
  non-negative parameter of each frame.
- `math.sqrt`, `math.atan2`, `math.cos`, `math.sin` and `random.randint`.
  Their results (heading, step, drawn target) are parameters, and the drawn
  target is assumed to lie in the ranges `randint` is given.
- PetState.Motion: compares the squared distance with 25 instead of
  `sqrt(...)` with 5. The two agree for exact arithmetic, but the model does
  not reproduce the program's floating-point rounding near the boundary.
- Floating-point arithmetic in general: timers, happiness and positions are
  exact reals.
- The label text `f"{label}: {int(value)}"` and the progress value that
  `StatusBar.update` sets. The model covers only the style choice.
- The game loop `root.after(50, game_loop)` and `mainloop`. Repeated frames
  are modelled by `PetState.Run` over a sequence of frame inputs.
