/** The pet object of script.py (`class Animal`): its fields are updated in
    place, frame by frame and action by action. Every method is proved to
    leave the fields exactly as the matching function of module PetState
    says, so the properties proved there (module PetLemmas) hold of the
    object. The canvas is abstract: drawing calls leave only their effect on
    the fields (bowl and food present or not, the list of toys). */
module Animals {
  import opened Basics
  import opened Tables
  import PetState

  class Animal {
    var kind: string
    var x: real
    var y: real
    var targetX: real
    var targetY: real
    var direction: real
    var moveTimer: real
    var hunger: int
    var boredom: int
    var happiness: real
    var hungerT: real
    var boredomT: real
    var moving: bool
    var eating: bool
    var playing: bool
    var actionT: real
    var bowl: Option<nat>
    var food: bool
    var toys: seq<PetState.Toy>
    var foodUsed: Option<string>
    var playtime: Option<string>

    /** The fields as one value. */
    function State(): PetState.Snapshot
      reads this
    {
      PetState.Snapshot(kind, x, y, targetX, targetY, direction, moveTimer,
                        hunger, boredom, happiness, hungerT, boredomT,
                        moving, eating, playing, actionT, bowl, food, toys,
                        foodUsed, playtime)
    }

    predicate Valid()
      reads this
    {
      PetState.Valid(State())
    }

    /** `Animal.__init__`: the pet starts where it is created, idle, with
        hunger and boredom at 50 and happiness at 70. */
    constructor (animalType: string, x0: real, y0: real)
      ensures State() == PetState.Initial(animalType, x0, y0)
      ensures Valid()
    {
      kind := animalType;
      x, y := x0, y0;
      targetX, targetY := x0, y0;
      direction := 0.0;
      moveTimer := 0.0;
      hunger, boredom, happiness := 50, 50, 70.0;
      hungerT, boredomT := 0.0, 0.0;
      moving, eating, playing := false, false, false;
      actionT := 0.0;
      bowl, food, toys := None, false, [];
      foodUsed, playtime := None, None;
    }

    /** `Animal.update` for one frame described by `inp`. Its three stages
        (stat decay, action timer, motion) are the three methods below; each
        of them changes only the fields it names. */
    method Update(inp: PetState.TickInput)
      requires Valid() && PetState.ValidInput(inp)
      modifies this
      ensures State() == PetState.Tick(old(State()), inp)
      ensures Valid()
    {
      DecayStats(inp.dt);
      CountDownAction(inp.dt);
      Wander(inp);
    }

    /** The timers advance by `dt`; hunger and boredom rise by one when their
        timer strictly exceeds its period; happiness is recomputed. */
    method DecayStats(dt: real)
      modifies this
      ensures State() == PetState.Decay(old(State()), dt)
    {
      DecayFields(dt);
    }

    /** The statements of `DecayStats`, specified field by field. */
    method DecayFields(dt: real)
      modifies this`hungerT, this`boredomT, this`moveTimer, this`hunger, this`boredom, this`happiness
      ensures var t := PetState.Decay(old(State()), dt);
              && hunger == t.hunger && hungerT == t.hungerT
              && boredom == t.boredom && boredomT == t.boredomT
              && moveTimer == t.moveTimer && happiness == t.happiness
    {
      hungerT := hungerT + dt;
      boredomT := boredomT + dt;
      moveTimer := moveTimer + dt;

      if hungerT > PetState.HungerPeriod {
        hunger := MinInt(PetState.StatMax, hunger + 1);
        hungerT := 0.0;
      }
      if boredomT > PetState.BoredomPeriod {
        boredom := MinInt(PetState.StatMax, boredom + 1);
        boredomT := 0.0;
      }
      happiness := PetState.DerivedHappiness(hunger, boredom);
    }

    /** A running action's timer counts down; when it runs out both flags
        drop and the action's visuals are removed. */
    method CountDownAction(dt: real)
      modifies this
      ensures State() == PetState.ActionTimer(old(State()), dt)
    {
      CountDownFields(dt);
    }

    /** The statements of `CountDownAction`, specified field by field. */
    method CountDownFields(dt: real)
      modifies this`actionT, this`eating, this`playing, this`bowl, this`food, this`toys
      ensures var t := PetState.ActionTimer(old(State()), dt);
              && actionT == t.actionT && eating == t.eating && playing == t.playing
              && bowl == t.bowl && food == t.food && toys == t.toys
    {
      if actionT > 0.0 {
        actionT := actionT - dt;
        if actionT <= 0.0 {
          eating := false;
          playing := false;
          AfterEating();
        }
      }
    }

    /** An idle pet retargets when it has arrived or chased its target too
        long, and steps towards the target when it is not there yet. */
    method Wander(inp: PetState.TickInput)
      modifies this
      ensures State() == PetState.Motion(old(State()), inp)
    {
      WanderFields(inp);
    }

    /** The statements of `Wander`, specified field by field. */
    method WanderFields(inp: PetState.TickInput)
      modifies this`targetX, this`targetY, this`moveTimer, this`direction, this`x, this`y, this`moving
      ensures var t := PetState.Motion(old(State()), inp);
              && targetX == t.targetX && targetY == t.targetY && moveTimer == t.moveTimer
              && direction == t.direction && x == t.x && y == t.y && moving == t.moving
    {
      if !eating && !playing {
        var d2 := PetState.SquaredDistance(x, y, targetX, targetY);
        if d2 < PetState.ArrivalRadiusSquared || moveTimer > PetState.RetargetAfter {
          targetX := inp.targetX as real;
          targetY := inp.targetY as real;
          moveTimer := 0.0;
        }
        if d2 > PetState.ArrivalRadiusSquared {
          direction := inp.heading;
          var newX := PetState.ClampX(x + inp.stepX, inp.width);
          var newY := PetState.ClampY(y + inp.stepY, inp.height);
          Move(newX, newY);
          moving := true;
        } else {
          moving := false;
        }
      }
    }

    /** `Animal.move`: the pet (and its shadow, not modelled) go to the new position. */
    method Move(newX: real, newY: real)
      modifies this`x, this`y
      ensures x == newX && y == newY
    {
      x := newX;
      y := newY;
    }

    /** `Animal.feed`: `ok` is false, and nothing changes, when the meal is
        not one of the three (the program raises a KeyError there). */
    method Feed(meal: string) returns (ok: bool)
      requires Valid()
      modifies this
      ensures ok <==> PetState.Feed(old(State()), meal).Some?
      ensures ok ==> State() == PetState.Feed(old(State()), meal).value
      ensures !ok ==> State() == old(State())
      ensures Valid()
    {
      var found := FoodLookup(meal);
      if found.None? {
        return false;
      }
      var info := found.value;
      ghost var s0 := State();
      StartMeal(meal, info);
      assert State() == s0.(hunger := MaxInt(0, s0.hunger - info.hunger),
                            happiness := MinReal(PetState.StatMax as real, s0.happiness + info.happiness as real),
                            eating := true, actionT := info.duration as real, foodUsed := Some(meal));
      VisBowl();
      ok := true;
    }

    /** The field updates `Animal.feed` makes before drawing the bowl. */
    method StartMeal(meal: string, info: FoodInfo)
      modifies this`hunger, this`happiness, this`eating, this`actionT, this`foodUsed
      ensures hunger == MaxInt(0, old(hunger) - info.hunger)
      ensures happiness == MinReal(PetState.StatMax as real, old(happiness) + info.happiness as real)
      ensures eating && actionT == info.duration as real && foodUsed == Some(meal)
    {
      hunger := MaxInt(0, hunger - info.hunger);
      happiness := MinReal(PetState.StatMax as real, happiness + info.happiness as real);
      eating := true;
      actionT := info.duration as real;
      foodUsed := Some(meal);
    }

    /** `Animal.play`: `ok` is false, and nothing changes, when the kind of
        play is not one of the three. */
    method Play(kind': string) returns (ok: bool)
      requires Valid()
      modifies this
      ensures ok <==> PetState.Play(old(State()), kind').Some?
      ensures ok ==> State() == PetState.Play(old(State()), kind').value
      ensures !ok ==> State() == old(State())
      ensures Valid()
    {
      var found := PlayLookup(kind');
      if found.None? {
        return false;
      }
      var info := found.value;
      ghost var s0 := State();
      StartPlay(kind', info);
      assert State() == s0.(boredom := MaxInt(0, s0.boredom - info.boredom),
                            happiness := MinReal(PetState.StatMax as real, s0.happiness + info.happiness as real),
                            playing := true, actionT := info.duration as real, playtime := Some(kind'));
      VisToys();
      ok := true;
    }

    /** The field updates `Animal.play` makes before laying out the toys. */
    method StartPlay(kind': string, info: PlayInfo)
      modifies this`boredom, this`happiness, this`playing, this`actionT, this`playtime
      ensures boredom == MaxInt(0, old(boredom) - info.boredom)
      ensures happiness == MinReal(PetState.StatMax as real, old(happiness) + info.happiness as real)
      ensures playing && actionT == info.duration as real && playtime == Some(kind')
    {
      boredom := MaxInt(0, boredom - info.boredom);
      happiness := MinReal(PetState.StatMax as real, happiness + info.happiness as real);
      playing := true;
      actionT := info.duration as real;
      playtime := Some(kind');
    }

    /** `Animal.vis_bowl`: the bowl for `foodUsed` replaces any earlier bowl. */
    method VisBowl()
      requires foodUsed.Some? && foodUsed.value in FoodTable
      modifies this
      ensures State() == PetState.VisBowl(old(State()))
    {
      var size := BowlSize(foodUsed.value).value;
      bowl := Some(size);
      food := true;
    }

    /** `Animal.vis_toys`: the earlier toys are removed, then one toy per
        round is appended, as many as the play kind in `playtime` calls for. */
    method VisToys()
      requires playtime.Some? && playtime.value in PlayTable
      modifies this
      ensures State() == PetState.VisToys(old(State()))
    {
      AfterPlay();
      var count := ToyCount(playtime.value).value;
      for i := 0 to count
        invariant toys == PetState.ToySet(i)
        invariant State() == old(State()).(toys := toys)
      {
        toys := toys + [PetState.ToyAt(i)];
      }
    }

    /** `Animal.after_play`: every toy is removed. */
    method AfterPlay()
      modifies this`toys
      ensures toys == []
    {
      toys := [];
    }

    /** `Animal.after_eating`: bowl, food and toys are removed. */
    method AfterEating()
      modifies this`bowl, this`food, this`toys
      ensures bowl.None? && !food && toys == []
    {
      if bowl.Some? {
        bowl := None;
      }
      if food {
        food := false;
      }
      AfterPlay();
    }
  }
}
