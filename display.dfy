/** The two display rules of script.py: the colour band of a status bar
    (`StatusBar.update`) and the status message under the canvas
    (`Simulator.update_bars`). Both are pure choices on the current values. */
module Display {
  import PetState
  import PetLemmas

  /** The three progress bar styles configured in `Simulator.__init__`. */
  datatype Band = Red | Yellow | Green

  /** The ttk style name of a band. */
  function StyleName(b: Band): (r: string)
    ensures b == Red <==> r == "red.Horizontal.TProgressbar"
    ensures b == Yellow <==> r == "yellow.Horizontal.TProgressbar"
    ensures b == Green <==> r == "green.Horizontal.TProgressbar"
  {
    match b
    case Red => "red.Horizontal.TProgressbar"
    case Yellow => "yellow.Horizontal.TProgressbar"
    case Green => "green.Horizontal.TProgressbar"
  }

  const HungerLabel: string := "Głód"
  const BoredomLabel: string := "Nuda"
  const HappinessLabel: string := "Samopoczucie"

  /** Bars whose value is bad when high: hunger and boredom. */
  predicate IsStressLabel(bar: string) {
    bar in [HungerLabel, BoredomLabel]
  }

  /** The band `StatusBar.update` picks for `value`. Above 80 and up to 30
      are the outer bands (80 and 30 themselves fall into the lower one);
      a stress bar is red when high and green when low, any other bar the
      other way round. */
  function BarBand(bar: string, value: real): (b: Band)
    ensures IsStressLabel(bar) ==> (b == Red <==> value > 80.0)
    ensures IsStressLabel(bar) ==> (b == Green <==> value <= 30.0)
    ensures !IsStressLabel(bar) ==> (b == Green <==> value > 80.0)
    ensures !IsStressLabel(bar) ==> (b == Red <==> value <= 30.0)
    ensures b == Yellow <==> 30.0 < value <= 80.0
  {
    if value > 80.0 then (if IsStressLabel(bar) then Red else Green)
    else if value > 30.0 then Yellow
    else (if IsStressLabel(bar) then Green else Red)
  }

  /** The style given to the bar. */
  function BarStyle(bar: string, value: real): (r: string)
    ensures IsStressLabel(bar) ==> (r == "red.Horizontal.TProgressbar" <==> value > 80.0)
    ensures !IsStressLabel(bar) ==> (r == "green.Horizontal.TProgressbar" <==> value > 80.0)
    ensures IsStressLabel(bar) ==> (r == "green.Horizontal.TProgressbar" <==> value <= 30.0)
    ensures !IsStressLabel(bar) ==> (r == "red.Horizontal.TProgressbar" <==> value <= 30.0)
    ensures r == "yellow.Horizontal.TProgressbar" <==> 30.0 < value <= 80.0
  {
    StyleName(BarBand(bar, value))
  }

  /** Red and green swapped. */
  function Mirror(b: Band): Band {
    match b
    case Red => Green
    case Yellow => Yellow
    case Green => Red
  }

  /** How alarming a band is on a stress bar. */
  function Alarm(b: Band): nat {
    match b
    case Green => 0
    case Yellow => 1
    case Red => 2
  }

  /** The happiness bar is the mirror image of the hunger and boredom bars. */
  lemma BandsMirror(stress: string, other: string, value: real)
    requires IsStressLabel(stress) && !IsStressLabel(other)
    ensures BarBand(other, value) == Mirror(BarBand(stress, value))
    ensures BarBand(stress, value) == Mirror(BarBand(other, value))
  {
  }

  /** On a stress bar a higher value never shows a less alarming band; on
      any other bar it never shows a more alarming one. */
  lemma BandsMonotone(bar: string, v: real, w: real)
    requires v <= w
    ensures IsStressLabel(bar) ==> Alarm(BarBand(bar, v)) <= Alarm(BarBand(bar, w))
    ensures !IsStressLabel(bar) ==> Alarm(BarBand(bar, v)) >= Alarm(BarBand(bar, w))
  {
  }

  // ---------------------------------------------------------------------
  // Status message

  /** Foreground colours of the status label. */
  datatype Foreground = FgRed | FgBlue | FgGreen | FgBlack

  datatype Status = Status(text: string, colour: Foreground)

  const VeryHungry: string := " jest bardzo głodny"
  const VeryBored: string := " jest bardzo znudzony"
  const Happy: string := " jest szczęsliwy"
  const Fine: string := " jest z nim git"

  /** The message `update_bars` shows: hunger above 80 first, then boredom
      above 80, then happiness above 80, otherwise the neutral message;
      each one names the pet's kind. */
  function StatusLine(kind: string, hunger: int, boredom: int, happiness: real): (r: Status)
    ensures r.colour == FgRed <==> hunger > 80
    ensures r.colour == FgBlue <==> hunger <= 80 && boredom > 80
    ensures r.colour == FgGreen <==> hunger <= 80 && boredom <= 80 && happiness > 80.0
    ensures r.colour == FgBlack <==> hunger <= 80 && boredom <= 80 && happiness <= 80.0
    ensures r.text == kind + (match r.colour
                              case FgRed => VeryHungry
                              case FgBlue => VeryBored
                              case FgGreen => Happy
                              case FgBlack => Fine)
  {
    if hunger > 80 then Status(kind + VeryHungry, FgRed)
    else if boredom > 80 then Status(kind + VeryBored, FgBlue)
    else if happiness > 80.0 then Status(kind + Happy, FgGreen)
    else Status(kind + Fine, FgBlack)
  }

  /** The message for the pet as it is. */
  function PetStatus(s: PetState.Snapshot): Status {
    StatusLine(s.kind, s.hunger, s.boredom, s.happiness)
  }

  /** After a frame, happiness is derived from hunger and boredom, so the
      happy message shows exactly when hunger and boredom together are below
      40, and the neutral one exactly when neither is above 80 and together
      they are at least 40. A boost from a meal or a play session therefore
      shows at most until the next frame. */
  lemma StatusAfterTick(s: PetState.Snapshot, inp: PetState.TickInput)
    requires PetState.Valid(s) && PetState.ValidInput(inp)
    ensures var r := PetState.Tick(s, inp);
            && (PetStatus(r).colour == FgGreen <==> r.hunger + r.boredom < 40)
            && (PetStatus(r).colour == FgBlack <==>
                  r.hunger <= 80 && r.boredom <= 80 && r.hunger + r.boredom >= 40)
  {
    var r := PetState.Tick(s, inp);
    PetLemmas.DerivedHappinessBands(r.hunger, r.boredom);
  }
}
