/** The state of one pet (the fields of `Animal` in script.py) as a value,
    and the operations on it as functions: one frame of `Animal.update`,
    `feed`, `play`, and the action visuals of `vis_bowl`, `vis_toys`,
    `after_play` and `after_eating`. The class in animal.dfy is proved to
    change its fields exactly as these functions say. */
module PetState {
  import opened Basics
  import opened Tables

  /** Stats live in [0, StatMax]. */
  const StatMax: int := 100
  /** Milliseconds the hunger timer must strictly exceed before hunger rises. */
  const HungerPeriod: real := 3000.0
  /** Milliseconds the boredom timer must strictly exceed before boredom rises. */
  const BoredomPeriod: real := 5000.0
  /** Milliseconds after which the pet picks a new target even if it has not arrived. */
  const RetargetAfter: real := 2000.0
  /** Square of the arrival radius 5: `distance < 5` is `distance^2 < 25`. */
  const ArrivalRadiusSquared: real := 25.0
  /** The longest action, "Do upadku". */
  const LongestAction: real := 5000.0

  datatype Shape = Oval | Rectangle | Triangle
  datatype ToyColour = Red | Blue | Green

  /** A toy drawn next to the pet; its canvas coordinates are not modelled. */
  datatype Toy = Toy(shape: Shape, colour: ToyColour)

  /** The i-th toy of `vis_toys`: shapes and colours cycle with period 3. */
  function ToyAt(i: nat): Toy {
    var shapes := [Oval, Rectangle, Triangle];
    var colours := [Red, Blue, Green];
    Toy(shapes[i % 3], colours[i % 3])
  }

  /** The toys `vis_toys` appends, one per loop round, for `n` toys. */
  function ToySet(n: nat): (r: seq<Toy>)
    ensures |r| == n
    ensures forall i :: 0 <= i < n ==> r[i] == ToyAt(i)
  {
    if n == 0 then [] else ToySet(n - 1) + [ToyAt(n - 1)]
  }

  /** The fields of an `Animal` that the core reads or writes. `bowl` is the
      size of the bowl on the canvas (None when none is drawn) and `food`
      whether the food oval is drawn; canvas item identities are abstracted. */
  datatype Snapshot = Snapshot(
    kind: string,
    x: real, y: real,
    targetX: real, targetY: real,
    direction: real,
    moveTimer: real,
    hunger: int, boredom: int, happiness: real,
    hungerT: real, boredomT: real,
    moving: bool, eating: bool, playing: bool,
    actionT: real,
    bowl: Option<nat>, food: bool,
    toys: seq<Toy>,
    foodUsed: Option<string>, playtime: Option<string>)

  /** What one frame of the game loop supplies: the elapsed milliseconds, the
      canvas size, the target `random.randint` would draw, and the heading
      (`atan2`) and unclamped step (`cos`/`sin` times speed) the trigonometry
      would produce. */
  datatype TickInput = TickInput(
    dt: real, width: int, height: int,
    targetX: int, targetY: int,
    heading: real, stepX: real, stepY: real)

  /** Elapsed time does not run backwards, and the drawn target lies in the
      ranges `randint` is called with. */
  predicate ValidInput(inp: TickInput) {
    && inp.dt >= 0.0
    && 50 <= inp.targetX <= MaxInt(100, inp.width - 50)
    && 100 <= inp.targetY <= MaxInt(150, inp.height - 50)
  }

  /** The actions' state: an action is running exactly while its timer is
      positive; the bowl is drawn exactly while eating and matches the meal;
      the toys are drawn exactly while playing and match the play kind. */
  predicate Valid(s: Snapshot) {
    && 0 <= s.hunger <= StatMax && 0 <= s.boredom <= StatMax
    && 0.0 <= s.happiness <= StatMax as real
    && 0.0 <= s.hungerT <= HungerPeriod && 0.0 <= s.boredomT <= BoredomPeriod
    && s.moveTimer >= 0.0
    && s.actionT <= LongestAction
    && ((s.eating || s.playing) <==> s.actionT > 0.0)
    && (s.eating <==> s.bowl.Some?)
    && (s.food <==> s.bowl.Some?)
    && (s.eating ==> s.foodUsed.Some? && s.foodUsed.value in BowlSizes
                     && s.bowl.value == BowlSizes[s.foodUsed.value])
    && (s.playing <==> s.toys != [])
    && (s.playing ==> s.playtime.Some? && s.playtime.value in ToyCounts
                      && s.toys == ToySet(ToyCounts[s.playtime.value]))
  }

  /** A freshly created pet (`Animal.__init__`). */
  function Initial(kind: string, x: real, y: real): (s: Snapshot)
    ensures Valid(s)
    ensures s.hunger == 50 && s.boredom == 50 && s.happiness == 70.0
    ensures !s.eating && !s.playing && !s.moving && s.toys == [] && s.bowl.None?
    ensures s.targetX == s.x == x && s.targetY == s.y == y
  {
    Snapshot(kind, x, y, x, y, 0.0, 0.0, 50, 50, 70.0, 0.0, 0.0,
             false, false, false, 0.0, None, false, [], None, None)
  }

  // ---------------------------------------------------------------------
  // Stat decay and derivation (first half of `Animal.update`)

  /** A stat together with its accumulator. */
  datatype Clock = Clock(stat: int, timer: real)

  /** One frame of a stat accumulator: add `dt`; on strictly exceeding
      `period`, raise the stat by one (capped) and reset the timer to zero. */
  function ClockStep(c: Clock, dt: real, period: real): (r: Clock)
    ensures c.stat <= StatMax ==> c.stat <= r.stat <= MinInt(StatMax, c.stat + 1)
    ensures r.stat != c.stat ==> c.timer + dt > period
    ensures c.timer + dt > period ==>
              r.timer == 0.0 && (c.stat < StatMax ==> r.stat == c.stat + 1)
    ensures c.timer + dt <= period ==> r == Clock(c.stat, c.timer + dt)
  {
    var t := c.timer + dt;
    if t > period then Clock(MinInt(StatMax, c.stat + 1), 0.0) else Clock(c.stat, t)
  }

  /** `max(0, 100 - hunger*0.5 - boredom*0.5)`. */
  function DerivedHappiness(hunger: int, boredom: int): (r: real)
    ensures r >= 0.0
    ensures 0 <= hunger && 0 <= boredom ==> r <= StatMax as real
  {
    MaxReal(0.0, 100.0 - hunger as real * 0.5 - boredom as real * 0.5)
  }

  /** Timers advance, hunger and boredom decay, happiness is recomputed. */
  function Decay(s: Snapshot, dt: real): (r: Snapshot)
    // only the two clocks, the motion timer and happiness change
    ensures r == s.(hunger := r.hunger, hungerT := r.hungerT, boredom := r.boredom,
                    boredomT := r.boredomT, moveTimer := r.moveTimer, happiness := r.happiness)
  {
    var h := ClockStep(Clock(s.hunger, s.hungerT), dt, HungerPeriod);
    var b := ClockStep(Clock(s.boredom, s.boredomT), dt, BoredomPeriod);
    s.(hunger := h.stat, hungerT := h.timer,
       boredom := b.stat, boredomT := b.timer,
       moveTimer := s.moveTimer + dt,
       happiness := DerivedHappiness(h.stat, b.stat))
  }

  // ---------------------------------------------------------------------
  // Action visuals

  /** `after_play`: every toy is removed. */
  function AfterPlay(s: Snapshot): (r: Snapshot)
    ensures r.toys == [] && r == s.(toys := [])
  {
    s.(toys := [])
  }

  /** `after_eating`: bowl, food and toys are removed. */
  function AfterEating(s: Snapshot): (r: Snapshot)
    ensures r.bowl.None? && !r.food && r.toys == []
    ensures r == s.(bowl := None, food := false, toys := [])
  {
    AfterPlay(s.(bowl := None, food := false))
  }

  /** `vis_bowl`: the bowl for the meal in `foodUsed` replaces any earlier one. */
  function VisBowl(s: Snapshot): (r: Snapshot)
    requires s.foodUsed.Some? && s.foodUsed.value in FoodTable
    ensures r == s.(bowl := Some(BowlSizes[s.foodUsed.value]), food := true)
  {
    match BowlSize(s.foodUsed.value)
    case Some(size) => s.(bowl := Some(size), food := true)
  }

  /** `vis_toys`: earlier toys are removed, then 1, 2 or 3 toys are laid out. */
  function VisToys(s: Snapshot): (r: Snapshot)
    requires s.playtime.Some? && s.playtime.value in PlayTable
    ensures 1 <= |r.toys| <= 3
    ensures r == s.(toys := ToySet(ToyCounts[s.playtime.value]))
  {
    match ToyCount(s.playtime.value)
    case Some(count) => AfterPlay(s).(toys := ToySet(count))
  }

  // ---------------------------------------------------------------------
  // Action timer (middle of `Animal.update`)

  /** A running action's timer counts down by `dt`; when it reaches zero or
      below both flags drop and the visuals are cleared. The timer itself is
      left where it lands, possibly below zero. */
  function ActionTimer(s: Snapshot, dt: real): (r: Snapshot)
    // only the action timer, the two flags and the visuals change
    ensures r == s.(actionT := r.actionT, eating := r.eating, playing := r.playing,
                    bowl := r.bowl, food := r.food, toys := r.toys)
  {
    if s.actionT > 0.0 then
      var t := s.actionT - dt;
      if t <= 0.0 then AfterEating(s.(actionT := t, eating := false, playing := false))
      else s.(actionT := t)
    else s
  }

  // ---------------------------------------------------------------------
  // Motion (end of `Animal.update`)

  /** The square of `math.sqrt((target_x - x) ** 2 + (target_y - y) ** 2)`. */
  function SquaredDistance(x: real, y: real, targetX: real, targetY: real): real {
    (targetX - x) * (targetX - x) + (targetY - y) * (targetY - y)
  }

  /** `max(50, min(canvas_width - 50, x))`. */
  function ClampX(v: real, width: int): (r: real)
    ensures r >= 50.0
    ensures width >= 100 ==> r <= (width - 50) as real
    ensures 50.0 <= v <= (width - 50) as real ==> r == v
  {
    MaxReal(50.0, MinReal((width - 50) as real, v))
  }

  /** `max(80, min(canvas_height - 50, y))`. */
  function ClampY(v: real, height: int): (r: real)
    ensures r >= 80.0
    ensures height >= 130 ==> r <= (height - 50) as real
    ensures 80.0 <= v <= (height - 50) as real ==> r == v
  {
    MaxReal(80.0, MinReal((height - 50) as real, v))
  }

  /** Only an idle pet moves. A new target is drawn when the pet has arrived
      or has chased the same target too long; it then steps (using the squared
      distance to the OLD target to decide) and its position is clamped. */
  function Motion(s: Snapshot, inp: TickInput): (r: Snapshot)
    // only the position, the target, the heading and the motion timer change
    ensures r == s.(targetX := r.targetX, targetY := r.targetY, moveTimer := r.moveTimer,
                    direction := r.direction, x := r.x, y := r.y, moving := r.moving)
  {
    if !s.eating && !s.playing then
      var d2 := SquaredDistance(s.x, s.y, s.targetX, s.targetY);
      var s1 := if d2 < ArrivalRadiusSquared || s.moveTimer > RetargetAfter
                then s.(targetX := inp.targetX as real, targetY := inp.targetY as real, moveTimer := 0.0)
                else s;
      if d2 > ArrivalRadiusSquared then
        s1.(direction := inp.heading,
            x := ClampX(s.x + inp.stepX, inp.width),
            y := ClampY(s.y + inp.stepY, inp.height),
            moving := true)
      else s1.(moving := false)
    else s
  }

  // ---------------------------------------------------------------------
  // One frame

  /** `Animal.update` with the elapsed time and the environment in `inp`. */
  function Tick(s: Snapshot, inp: TickInput): (r: Snapshot)
    requires ValidInput(inp)
    ensures Valid(s) ==> Valid(r)
    // stat decay: one step of each accumulator, at most +1 per frame
    ensures Clock(r.hunger, r.hungerT) == ClockStep(Clock(s.hunger, s.hungerT), inp.dt, HungerPeriod)
    ensures Clock(r.boredom, r.boredomT) == ClockStep(Clock(s.boredom, s.boredomT), inp.dt, BoredomPeriod)
    // happiness is derived from the decayed stats, whatever it was before
    ensures r.happiness == DerivedHappiness(r.hunger, r.boredom)
    // action timer
    ensures s.actionT > 0.0 ==> r.actionT == s.actionT - inp.dt
    ensures s.actionT <= 0.0 ==> r.actionT == s.actionT
    ensures s.actionT > 0.0 && s.actionT - inp.dt <= 0.0 ==>
              !r.eating && !r.playing && r.bowl.None? && !r.food && r.toys == []
    ensures !(s.actionT > 0.0 && s.actionT - inp.dt <= 0.0) ==>
              r.eating == s.eating && r.playing == s.playing
              && r.bowl == s.bowl && r.food == s.food && r.toys == s.toys
    // motion is gated by the flags after the timer step
    ensures r.eating || r.playing ==>
              r.x == s.x && r.y == s.y && r.targetX == s.targetX && r.targetY == s.targetY
              && r.direction == s.direction && r.moving == s.moving
              && r.moveTimer == s.moveTimer + inp.dt
    ensures !r.eating && !r.playing ==>
              var d2 := SquaredDistance(s.x, s.y, s.targetX, s.targetY);
              var retarget := d2 < ArrivalRadiusSquared || s.moveTimer + inp.dt > RetargetAfter;
              && (retarget ==> r.targetX == inp.targetX as real && r.targetY == inp.targetY as real
                               && r.moveTimer == 0.0)
              && (!retarget ==> r.targetX == s.targetX && r.targetY == s.targetY
                                && r.moveTimer == s.moveTimer + inp.dt)
              && (r.moving <==> d2 > ArrivalRadiusSquared)
              && (d2 > ArrivalRadiusSquared ==>
                    r.direction == inp.heading
                    && r.x == ClampX(s.x + inp.stepX, inp.width)
                    && r.y == ClampY(s.y + inp.stepY, inp.height))
              && (d2 <= ArrivalRadiusSquared ==>
                    r.x == s.x && r.y == s.y && r.direction == s.direction)
    // the chosen kinds survive the end of an action
    ensures r.kind == s.kind && r.foodUsed == s.foodUsed && r.playtime == s.playtime
  {
    Motion(ActionTimer(Decay(s, inp.dt), inp.dt), inp)
  }

  // ---------------------------------------------------------------------
  // Actions

  /** `Animal.feed(meal)`: None when the meal is not one of the three (the
      lookup raises before anything changes). */
  function Feed(s: Snapshot, meal: string): (r: Option<Snapshot>)
    ensures r.Some? <==> meal == Snack || meal == Dinner || meal == Feast
    ensures Valid(s) && r.Some? ==> Valid(r.value)
    ensures r.Some? ==>
              var info := FoodTable[meal];
              var t := r.value;
              && t.hunger == MaxInt(0, s.hunger - info.hunger)
              && t.happiness == MinReal(StatMax as real, s.happiness + info.happiness as real)
              && t.eating && t.actionT == info.duration as real && t.foodUsed == Some(meal)
              && t.bowl == Some(BowlSizes[meal]) && t.food
              // everything else is left alone, the play flag and the toys included
              && t == s.(hunger := t.hunger, happiness := t.happiness, eating := true,
                         actionT := t.actionT, foodUsed := t.foodUsed, bowl := t.bowl, food := true)
  {
    match FoodLookup(meal)
    case None => None
    case Some(info) =>
      Some(VisBowl(s.(hunger := MaxInt(0, s.hunger - info.hunger),
                      happiness := MinReal(StatMax as real, s.happiness + info.happiness as real),
                      eating := true,
                      actionT := info.duration as real,
                      foodUsed := Some(meal))))
  }

  /** `Animal.play(kind)`: None when the kind is not one of the three. */
  function Play(s: Snapshot, kind: string): (r: Option<Snapshot>)
    ensures r.Some? <==> kind == Lazy || kind == Lively || kind == Exhausting
    ensures Valid(s) && r.Some? ==> Valid(r.value)
    ensures r.Some? ==>
              var info := PlayTable[kind];
              var t := r.value;
              && t.boredom == MaxInt(0, s.boredom - info.boredom)
              && t.happiness == MinReal(StatMax as real, s.happiness + info.happiness as real)
              && t.playing && t.actionT == info.duration as real && t.playtime == Some(kind)
              && t.toys == ToySet(ToyCounts[kind])
              // everything else is left alone, the eating flag and the bowl included
              && t == s.(boredom := t.boredom, happiness := t.happiness, playing := true,
                         actionT := t.actionT, playtime := t.playtime, toys := t.toys)
  {
    match PlayLookup(kind)
    case None => None
    case Some(info) =>
      Some(VisToys(s.(boredom := MaxInt(0, s.boredom - info.boredom),
                      happiness := MinReal(StatMax as real, s.happiness + info.happiness as real),
                      playing := true,
                      actionT := info.duration as real,
                      playtime := Some(kind))))
  }

  // ---------------------------------------------------------------------
  // Several frames

  predicate ValidInputs(inputs: seq<TickInput>) {
    forall i :: 0 <= i < |inputs| ==> ValidInput(inputs[i])
  }

  /** The frames `inputs` run one after another with no action requested. */
  function Run(s: Snapshot, inputs: seq<TickInput>): (r: Snapshot)
    requires ValidInputs(inputs)
    ensures Valid(s) ==> Valid(r)
    ensures r.kind == s.kind && r.foodUsed == s.foodUsed && r.playtime == s.playtime
    decreases |inputs|
  {
    if inputs == [] then s else Run(Tick(s, inputs[0]), inputs[1..])
  }

  /** Total milliseconds covered by `inputs`. */
  function Elapsed(inputs: seq<TickInput>): real
    decreases |inputs|
  {
    if inputs == [] then 0.0 else inputs[0].dt + Elapsed(inputs[1..])
  }
}
