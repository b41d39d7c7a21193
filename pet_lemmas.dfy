/** Properties of the pet over many frames and across actions, proved about
    the functions of module PetState. */
module PetLemmas {
  import opened Basics
  import opened Tables
  import opened PetState

  /** The nominal frame length of the game loop (`root.after(50, ...)`). */
  const FrameMillis: real := 50.0

  // ---------------------------------------------------------------------
  // Arithmetic helpers

  lemma MulAtLeast(d: int, k: int)
    requires d >= 1 && k >= 1
    ensures d * k >= k
  {
    var e := d - 1;
    assert d * k == e * k + k;
  }

  lemma DivModUnique(a: int, k: int, q: int, r: int)
    requires k >= 1 && a == q * k + r && 0 <= r < k
    ensures a / k == q && a % k == r
  {
    var q0, r0 := a / k, a % k;
    assert a == q0 * k + r0;
    var d := q - q0;
    assert d * k == r0 - r by { assert q * k - q0 * k == (q - q0) * k; }
    if d >= 1 { MulAtLeast(d, k); }
    else if d <= -1 { MulAtLeast(-d, k); }
  }

  lemma AddDivisor(n: nat, k: nat)
    requires k >= 1
    ensures (n + k) / k == n / k + 1 && (n + k) % k == n % k
  {
    DivModUnique(n + k, k, n / k + 1, n % k);
  }

  // ---------------------------------------------------------------------
  // Happiness

  /** Derived happiness is above 80 exactly when hunger and boredom together
      are below 40, and it is floored at 0 exactly from a sum of 200 on. */
  lemma DerivedHappinessBands(hunger: int, boredom: int)
    ensures DerivedHappiness(hunger, boredom) > 80.0 <==> hunger + boredom < 40
    ensures DerivedHappiness(hunger, boredom) == 0.0 <==> hunger + boredom >= 200
  {
  }

  // ---------------------------------------------------------------------
  // Stat decay over many frames

  /** One stat accumulator run over the frames `inputs`. */
  function StatRun(c: Clock, inputs: seq<TickInput>, period: real): Clock
    decreases |inputs|
  {
    if inputs == [] then c else StatRun(ClockStep(c, inputs[0].dt, period), inputs[1..], period)
  }

  predicate AtCadence(inputs: seq<TickInput>) {
    forall i :: 0 <= i < |inputs| ==> inputs[i].dt == FrameMillis
  }

  /** At a steady 50 ms per frame, a stat whose period is crossed on the k-th
      frame rises once every k frames: the remainder of a crossing is lost, so
      this is NOT `total time / period`. Starting `j` frames into a cycle: */
  lemma {:induction false} StatRunAtCadence(c: Clock, inputs: seq<TickInput>, period: real, k: nat, j: nat)
    requires k >= 1 && ((k - 1) * 50) as real <= period < (k * 50) as real
    requires AtCadence(inputs)
    requires 0 <= c.stat <= StatMax && j < k && c.timer == (j * 50) as real
    ensures StatRun(c, inputs, period)
            == Clock(MinInt(StatMax, c.stat + (j + |inputs|) / k), (((j + |inputs|) % k) * 50) as real)
    decreases |inputs|
  {
    if inputs != [] {
      var rest := inputs[1..];
      assert AtCadence(rest);
      assert inputs[0].dt == FrameMillis;
      var c1 := ClockStep(c, FrameMillis, period);
      assert StatRun(c, inputs, period) == StatRun(c1, rest, period);
      assert c.timer + FrameMillis == ((j + 1) * 50) as real;
      if j + 1 == k {
        assert j + |inputs| == |rest| + k;
        assert c1 == Clock(MinInt(StatMax, c.stat + 1), 0.0);
        StatRunAtCadence(c1, rest, period, k, 0);
        FireArith(c.stat, |rest|, k);
      } else {
        assert (j + 1) * 50 <= (k - 1) * 50;
        assert c1 == Clock(c.stat, ((j + 1) * 50) as real);
        assert j + |inputs| == (j + 1) + |rest|;
        StatRunAtCadence(c1, rest, period, k, j + 1);
      }
    } else {
      DivModUnique(j, k, 0, j);
    }
  }

  /** The arithmetic of a frame on which the accumulator fires. */
  lemma FireArith(stat: int, n: nat, k: nat)
    requires k >= 1 && stat <= StatMax
    ensures MinInt(StatMax, MinInt(StatMax, stat + 1) + n / k) == MinInt(StatMax, stat + (n + k) / k)
    ensures n % k == (n + k) % k
  {
    AddDivisor(n, k);
  }

  /** Hunger over many frames is its accumulator run over those frames. */
  lemma {:induction false} RunHunger(s: Snapshot, inputs: seq<TickInput>)
    requires ValidInputs(inputs)
    ensures Clock(Run(s, inputs).hunger, Run(s, inputs).hungerT)
            == StatRun(Clock(s.hunger, s.hungerT), inputs, HungerPeriod)
    decreases |inputs|
  {
    if inputs != [] {
      RunHunger(Tick(s, inputs[0]), inputs[1..]);
    }
  }

  /** Boredom over many frames is its accumulator run over those frames. */
  lemma {:induction false} RunBoredom(s: Snapshot, inputs: seq<TickInput>)
    requires ValidInputs(inputs)
    ensures Clock(Run(s, inputs).boredom, Run(s, inputs).boredomT)
            == StatRun(Clock(s.boredom, s.boredomT), inputs, BoredomPeriod)
    decreases |inputs|
  {
    if inputs != [] {
      RunBoredom(Tick(s, inputs[0]), inputs[1..]);
    }
  }

  /** At 50 ms per frame from fresh accumulators, hunger rises once every 61
      frames (3050 ms) and boredom once every 101 frames (5050 ms). */
  lemma StatsAtCadence(s: Snapshot, inputs: seq<TickInput>)
    requires Valid(s) && ValidInputs(inputs) && AtCadence(inputs)
    requires s.hungerT == 0.0 && s.boredomT == 0.0
    ensures Run(s, inputs).hunger == MinInt(StatMax, s.hunger + |inputs| / 61)
    ensures Run(s, inputs).boredom == MinInt(StatMax, s.boredom + |inputs| / 101)
  {
    RunHunger(s, inputs);
    StatRunAtCadence(Clock(s.hunger, s.hungerT), inputs, HungerPeriod, 61, 0);
    RunBoredom(s, inputs);
    StatRunAtCadence(Clock(s.boredom, s.boredomT), inputs, BoredomPeriod, 101, 0);
  }

  /** Two seconds of 50 ms frames after creation leave hunger and boredom at 50. */
  lemma TwoSecondsAfterCreation(kind: string, x: real, y: real, inputs: seq<TickInput>)
    requires ValidInputs(inputs) && AtCadence(inputs) && |inputs| == 40
    ensures Run(Initial(kind, x, y), inputs).hunger == 50
    ensures Run(Initial(kind, x, y), inputs).boredom == 50
    ensures Run(Initial(kind, x, y), inputs).hungerT == 2000.0
  {
    var s := Initial(kind, x, y);
    StatsAtCadence(s, inputs);
    RunHunger(s, inputs);
    StatRunAtCadence(Clock(s.hunger, s.hungerT), inputs, HungerPeriod, 61, 0);
  }

  /** A stalled frame of 10 s raises hunger and boredom by one only, and
      resets both accumulators. */
  lemma LongStallAddsOne(s: Snapshot, inp: TickInput)
    requires Valid(s) && ValidInput(inp) && inp.dt == 10000.0
    requires s.hunger < StatMax && s.boredom < StatMax
    ensures Tick(s, inp).hunger == s.hunger + 1 && Tick(s, inp).hungerT == 0.0
    ensures Tick(s, inp).boredom == s.boredom + 1 && Tick(s, inp).boredomT == 0.0
  {
  }

  // ---------------------------------------------------------------------
  // The action timer over many frames

  lemma {:induction false} ElapsedNonNegative(inputs: seq<TickInput>)
    requires ValidInputs(inputs)
    ensures Elapsed(inputs) >= 0.0
    decreases |inputs|
  {
    if inputs != [] { ElapsedNonNegative(inputs[1..]); }
  }

  /** Without an action nothing starts one: an idle pet stays idle with no
      visuals, and its timer is left as it is. */
  lemma {:induction false} IdleStaysIdle(s: Snapshot, inputs: seq<TickInput>)
    requires Valid(s) && ValidInputs(inputs) && !s.eating && !s.playing
    ensures var r := Run(s, inputs);
            !r.eating && !r.playing && r.bowl.None? && !r.food && r.toys == []
            && r.actionT == s.actionT
    decreases |inputs|
  {
    if inputs != [] {
      IdleStaysIdle(Tick(s, inputs[0]), inputs[1..]);
    }
  }

  /** While less time has passed than the action's timer, the action (flags
      and visuals) goes on and the timer has dropped by exactly that time. */
  lemma {:induction false} ActionRunsOn(s: Snapshot, inputs: seq<TickInput>)
    requires Valid(s) && ValidInputs(inputs) && Elapsed(inputs) < s.actionT
    ensures var r := Run(s, inputs);
            r.actionT == s.actionT - Elapsed(inputs)
            && r.eating == s.eating && r.playing == s.playing
            && r.bowl == s.bowl && r.food == s.food && r.toys == s.toys
    decreases |inputs|
  {
    if inputs != [] {
      ElapsedNonNegative(inputs[1..]);
      ActionRunsOn(Tick(s, inputs[0]), inputs[1..]);
    }
  }

  /** Once frames totalling at least the action's timer have passed, both
      flags are down and bowl, food and toys are gone. */
  lemma {:induction false} ActionEnds(s: Snapshot, inputs: seq<TickInput>)
    requires Valid(s) && ValidInputs(inputs) && Elapsed(inputs) >= s.actionT
    ensures var r := Run(s, inputs);
            !r.eating && !r.playing && r.bowl.None? && !r.food && r.toys == []
    decreases |inputs|
  {
    if s.actionT <= 0.0 {
      IdleStaysIdle(s, inputs);
    } else {
      assert inputs != [];
      var t := Tick(s, inputs[0]);
      if s.actionT - inputs[0].dt <= 0.0 {
        IdleStaysIdle(t, inputs[1..]);
      } else {
        ActionEnds(t, inputs[1..]);
      }
    }
  }

  /** Feeding "Obiad": hunger down by 30 (not below 0), happiness up by 10
      (not above 100), eating for 2000 ms; frames totalling 2000 ms or more
      end the meal and clear its visuals. */
  lemma DinnerThenWait(s: Snapshot, inputs: seq<TickInput>)
    requires Valid(s) && ValidInputs(inputs) && Elapsed(inputs) >= 2000.0
    ensures Feed(s, Dinner).Some?
    ensures var t := Feed(s, Dinner).value;
            && t.hunger == MaxInt(0, s.hunger - 30)
            && t.happiness == MinReal(100.0, s.happiness + 10.0)
            && t.eating && t.actionT == 2000.0
            && var r := Run(t, inputs);
               !r.eating && !r.playing && r.bowl.None? && !r.food && r.toys == []
  {
    ActionEnds(Feed(s, Dinner).value, inputs);
  }

  /** Playing while eating does not stop the meal: both flags are up, the
      bowl stays, and the play's duration replaces the meal's remaining time,
      so the meal now ends only when the play does. */
  lemma PlayWhileEating(s: Snapshot, meal: string, kind: string)
    requires Valid(s) && Feed(s, meal).Some? && Play(Feed(s, meal).value, kind).Some?
    ensures var t := Feed(s, meal).value;
            var u := Play(t, kind).value;
            u.eating && u.playing && u.bowl == t.bowl
            && u.actionT == PlayTable[kind].duration as real
  {
  }

  // ---------------------------------------------------------------------
  // Motion over many frames

  predicate OnCanvas(inputs: seq<TickInput>, width: int, height: int) {
    forall i :: 0 <= i < |inputs| ==> inputs[i].width == width && inputs[i].height == height
  }

  predicate InBounds(s: Snapshot, width: int, height: int) {
    50.0 <= s.x <= (width - 50) as real && 80.0 <= s.y <= (height - 50) as real
  }

  predicate TargetInRange(s: Snapshot, width: int, height: int) {
    50.0 <= s.targetX <= MaxInt(100, width - 50) as real
    && 100.0 <= s.targetY <= MaxInt(150, height - 50) as real
  }

  /** On a canvas of at least 100 x 130, a pet that starts within the clamp
      bounds never leaves them, and its target stays in the range targets are
      drawn from. */
  lemma {:induction false} StaysInBounds(s: Snapshot, inputs: seq<TickInput>, width: int, height: int)
    requires ValidInputs(inputs) && OnCanvas(inputs, width, height)
    requires width >= 100 && height >= 130
    requires InBounds(s, width, height) && TargetInRange(s, width, height)
    ensures InBounds(Run(s, inputs), width, height)
    ensures TargetInRange(Run(s, inputs), width, height)
    decreases |inputs|
  {
    if inputs != [] {
      assert OnCanvas(inputs[1..], width, height);
      StaysInBounds(Tick(s, inputs[0]), inputs[1..], width, height);
    }
  }

  /** The pet the simulator creates at (400, 200) stays within bounds on a
      canvas assumed to be 800 x 400 (the program places the pet at the
      centre of that size; the real canvas is sized by Tk). */
  lemma CreatedPetStaysInBounds(kind: string, inputs: seq<TickInput>)
    requires ValidInputs(inputs) && OnCanvas(inputs, 800, 400)
    ensures InBounds(Run(Initial(kind, 400.0, 200.0), inputs), 800, 400)
  {
    StaysInBounds(Initial(kind, 400.0, 200.0), inputs, 800, 400);
  }
}
