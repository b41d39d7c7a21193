/** The fixed lookup tables of the pet: what each meal and each kind of play
    does (script.py, `Animal.feed`, `Animal.play`), the bowl drawn for a meal
    (`vis_bowl`) and the number of toys laid out for a play (`vis_toys`). */
module Tables {
  import opened Basics

  /** Effect of one meal: hunger removed, happiness added, milliseconds spent eating. */
  datatype FoodInfo = FoodInfo(hunger: nat, happiness: nat, duration: nat)

  /** Effect of one play session: boredom removed, happiness added, milliseconds spent playing. */
  datatype PlayInfo = PlayInfo(boredom: nat, happiness: nat, duration: nat)

  const Snack: string := "Przekąska"
  const Dinner: string := "Obiad"
  const Feast: string := "Królewska uczta"

  const Lazy: string := "Na odwal"
  const Lively: string := "Z życiem"
  const Exhausting: string := "Do upadku"

  /** `karma` in `Animal.feed`. */
  const FoodTable: map<string, FoodInfo> :=
    map[Snack := FoodInfo(15, 5, 1500),
        Dinner := FoodInfo(30, 10, 2000),
        Feast := FoodInfo(50, 20, 3000)]

  /** `zabawa` in `Animal.play`. */
  const PlayTable: map<string, PlayInfo> :=
    map[Lazy := PlayInfo(15, 8, 2000),
        Lively := PlayInfo(25, 15, 3000),
        Exhausting := PlayInfo(40, 25, 5000)]

  /** `bowl_sizes` in `Animal.vis_bowl`: half the width of the bowl drawn. */
  const BowlSizes: map<string, nat> := map[Snack := 15, Dinner := 20, Feast := 25]

  /** `toy_counts` in `Animal.vis_toys`. */
  const ToyCounts: map<string, nat> := map[Lazy := 1, Lively := 2, Exhausting := 3]

  /** Python's `d.get(k, d[k])`. The default argument `d[k]` is evaluated
      before `get` runs, so an absent key raises a KeyError (None here) and
      the fallback is never what is returned: `default` is present only when
      the key is, so the `Some(fallback)` branch below is never reached. */
  function GetWithEagerDefault<V>(d: map<string, V>, k: string): (r: Option<V>)
    ensures r.Some? <==> k in d
    ensures r.Some? ==> r.value == d[k]
  {
    var default := if k in d then Some(d[k]) else None;
    match default
    case None => None
    case Some(fallback) => if k in d then Some(d[k]) else Some(fallback)
  }

  /** The meal table lookup of `Animal.feed`: exactly the three meals
      succeed, with their listed effects. */
  function FoodLookup(meal: string): (r: Option<FoodInfo>)
    ensures r.Some? <==> meal == Snack || meal == Dinner || meal == Feast
    ensures meal == Snack ==> r == Some(FoodInfo(15, 5, 1500))
    ensures meal == Dinner ==> r == Some(FoodInfo(30, 10, 2000))
    ensures meal == Feast ==> r == Some(FoodInfo(50, 20, 3000))
    ensures r.Some? ==> meal in BowlSizes && 0 < r.value.duration <= 3000
  {
    GetWithEagerDefault(FoodTable, meal)
  }

  /** The play table lookup of `Animal.play`: exactly the three kinds of
      play succeed, with their listed effects. */
  function PlayLookup(kind: string): (r: Option<PlayInfo>)
    ensures r.Some? <==> kind == Lazy || kind == Lively || kind == Exhausting
    ensures kind == Lazy ==> r == Some(PlayInfo(15, 8, 2000))
    ensures kind == Lively ==> r == Some(PlayInfo(25, 15, 3000))
    ensures kind == Exhausting ==> r == Some(PlayInfo(40, 25, 5000))
    ensures r.Some? ==> kind in ToyCounts && 0 < r.value.duration <= 5000
  {
    GetWithEagerDefault(PlayTable, kind)
  }

  /** The bowl size lookup of `vis_bowl`, defined for the three meals. */
  function BowlSize(meal: string): (r: Option<nat>)
    ensures r.Some? <==> meal in FoodTable
    ensures r.Some? ==> 15 <= r.value <= 25
  {
    GetWithEagerDefault(BowlSizes, meal)
  }

  /** The toy count lookup of `vis_toys`: 1, 2 and 3 toys for the three kinds of play. */
  function ToyCount(kind: string): (r: Option<nat>)
    ensures r.Some? <==> kind in PlayTable
    ensures kind == Lazy ==> r == Some(1)
    ensures kind == Lively ==> r == Some(2)
    ensures kind == Exhausting ==> r == Some(3)
  {
    GetWithEagerDefault(ToyCounts, kind)
  }
}
