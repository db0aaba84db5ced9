/** The Scenario Studio's what-if calculator (src/pages/ScenarioStudio.tsx).

    Two accumulators, cost (from 8500) and CO2 intensity (from 380), pass
    through a fixed pipeline of multiplicative adjustments: price, load, PV,
    battery, GPU shifting, cooling and finally the CO2 cap. Along the way the
    pipeline collects an ordered list of annotations and fixes the battery
    throughput. Each step is its own function so that the pipeline reads in
    the source's order; the closed-form `ReferenceCost` and `ReferenceCo2`
    are the independent definitions the pipeline is proved against.
 */
module Scenario {
  import opened JsCore

  // ---------------------------------------------------------------------
  // Inputs: each dimension has exactly the options the form offers.
  // ---------------------------------------------------------------------

  datatype PriceProfile = BaseCase | HighPeakPrices | LowOffPeakPrices
  datatype LoadProfile = Normal | HighAiTrainingLoad | WeekendProfile
  datatype PvAvailability = Sunny | Cloudy | LowInsolation
  datatype BatteryCycling = Low | Medium | High
  datatype CoolingFlexibility = Conservative | Balanced | Aggressive

  datatype Inputs = Inputs(
    name: string,
    priceProfile: PriceProfile,
    loadProfile: LoadProfile,
    pvAvailability: PvAvailability,
    batteryCycling: BatteryCycling,
    coolingFlexibility: CoolingFlexibility,
    allowGpuShifting: bool,
    limitCO2: bool)

  /** The form's initial state. */
  const DefaultInputs: Inputs :=
    Inputs("Base Scenario", BaseCase, Normal, Sunny, Medium, Balanced, false, false)

  const BaselineCost: real := 8500.0
  const BaselineCo2: real := 380.0
  const Co2Cap: real := 320.0

  // ---------------------------------------------------------------------
  // Annotations (the `keyChanges` strings)
  // ---------------------------------------------------------------------

  datatype Note =
    | HighPeakPricesNote | LowOffPeakPricesNote
    | AiTrainingLoadNote | WeekendLoadNote
    | SunnyPvNote | CloudyPvNote | LowInsolationPvNote
    | HighBatteryNote | LowBatteryNote | ModerateBatteryNote
    | GpuShiftNote
    | AggressiveCoolingNote | ConservativeCoolingNote | BalancedCoolingNote
    | Co2LimitNote
    | NoChangesNote

  /** The text the page shows for each annotation. */
  function NoteText(n: Note): string {
    match n
    case HighPeakPricesNote => "Increased cost due to high peak prices (+25%)"
    case LowOffPeakPricesNote => "Reduced cost with favorable off-peak rates (-15%)"
    case AiTrainingLoadNote => "Higher energy consumption from AI training workloads"
    case WeekendLoadNote => "Reduced load during weekend operations"
    case SunnyPvNote => "Maximized solar generation reducing grid dependence"
    case CloudyPvNote => "Reduced solar output increasing grid imports"
    case LowInsolationPvNote => "Minimal solar generation, heavy grid reliance"
    case HighBatteryNote => "Aggressive battery cycling for peak shaving (2,400 kWh)"
    case LowBatteryNote => "Conservative battery usage (600 kWh)"
    case ModerateBatteryNote => "Moderate battery cycling for cost optimization"
    case GpuShiftNote => "Shifted 20% of GPU load to off-peak hours"
    case AggressiveCoolingNote => "Cooling load aggressively flexed during peak hours to reduce cost"
    case ConservativeCoolingNote => "Minimal cooling flexibility used to ensure comfort"
    case BalancedCoolingNote => "Balanced cooling flexibility providing moderate DR capacity"
    case Co2LimitNote => "Applied CO₂ constraint (max 320 gCO₂/kWh)"
    case NoChangesNote => "No changes from baseline scenario"
  }

  /** The pipeline stage that emits a note: price 0, load 1, PV 2, battery 3,
      GPU 4, cooling 5, CO2 cap 6; the fallback sentinel comes last. */
  function Stage(n: Note): nat {
    match n
    case HighPeakPricesNote | LowOffPeakPricesNote => 0
    case AiTrainingLoadNote | WeekendLoadNote => 1
    case SunnyPvNote | CloudyPvNote | LowInsolationPvNote => 2
    case HighBatteryNote | LowBatteryNote | ModerateBatteryNote => 3
    case GpuShiftNote => 4
    case AggressiveCoolingNote | ConservativeCoolingNote | BalancedCoolingNote => 5
    case Co2LimitNote => 6
    case NoChangesNote => 7
  }

  /** Which selection each note reports: the reference for `keyChanges`. */
  predicate Reports(n: Note, i: Inputs) {
    match n
    case HighPeakPricesNote => i.priceProfile == HighPeakPrices
    case LowOffPeakPricesNote => i.priceProfile == LowOffPeakPrices
    case AiTrainingLoadNote => i.loadProfile == HighAiTrainingLoad
    case WeekendLoadNote => i.loadProfile == WeekendProfile
    case SunnyPvNote => i.pvAvailability == Sunny
    case CloudyPvNote => i.pvAvailability == Cloudy
    case LowInsolationPvNote => i.pvAvailability == LowInsolation
    case HighBatteryNote => i.batteryCycling == High
    case LowBatteryNote => i.batteryCycling == Low
    case ModerateBatteryNote => i.batteryCycling == Medium
    case GpuShiftNote => i.allowGpuShifting
    case AggressiveCoolingNote => i.coolingFlexibility == Aggressive
    case ConservativeCoolingNote => i.coolingFlexibility == Conservative
    case BalancedCoolingNote => i.coolingFlexibility == Balanced
    case Co2LimitNote => i.limitCO2
    case NoChangesNote => false
  }

  /** Notes listed in strictly increasing stage order: the fixed pipeline
      order, with at most one note per stage. */
  ghost predicate InStageOrder(notes: seq<Note>) {
    forall j, k :: 0 <= j < k < |notes| ==> Stage(notes[j]) < Stage(notes[k])
  }

  // ---------------------------------------------------------------------
  // One adjustment per `if` block of the calculation
  // ---------------------------------------------------------------------

  /** What one block of the calculation does: the factors it multiplies the
      cost and the CO2 intensity by (1 when it leaves one alone) and the
      annotations it appends. */
  datatype Adjustment = Adjustment(costFactor: real, co2Factor: real, notes: seq<Note>)

  /** No adjustment at all: the block's condition did not match. */
  const Unchanged: Adjustment := Adjustment(1.0, 1.0, [])

  /** The price block touches only the cost: it raises it for high peak
      prices, lowers it for off-peak rates, and annotates exactly then. */
  function PriceAdjustment(p: PriceProfile): (r: Adjustment)
    ensures r.co2Factor == 1.0
    ensures r.costFactor > 1.0 <==> p == HighPeakPrices
    ensures r.costFactor < 1.0 <==> p == LowOffPeakPrices
    ensures r.notes == [] <==> r == Unchanged
  {
    match p
    case BaseCase => Unchanged
    case HighPeakPrices => Adjustment(1.25, 1.0, [HighPeakPricesNote])
    case LowOffPeakPrices => Adjustment(0.85, 1.0, [LowOffPeakPricesNote])
  }

  /** The load block moves cost and CO2 the same way: up for AI training,
      down at weekends, and annotates exactly when it moves them. */
  function LoadAdjustment(l: LoadProfile): (r: Adjustment)
    ensures r.costFactor > 1.0 <==> r.co2Factor > 1.0
    ensures r.costFactor < 1.0 <==> r.co2Factor < 1.0
    ensures r.costFactor > 1.0 <==> l == HighAiTrainingLoad
    ensures r.notes == [] <==> r == Unchanged
  {
    match l
    case Normal => Unchanged
    case HighAiTrainingLoad => Adjustment(1.15, 1.12, [AiTrainingLoadNote])
    case WeekendProfile => Adjustment(0.7, 0.75, [WeekendLoadNote])
  }

  /** PV has no neutral option: every selection scales both figures the same
      way, down only when sunny, and annotates. */
  function PvAdjustment(pv: PvAvailability): (r: Adjustment)
    ensures |r.notes| == 1
    ensures r.costFactor != 1.0 && r.co2Factor != 1.0
    ensures r.costFactor < 1.0 <==> r.co2Factor < 1.0
    ensures r.costFactor < 1.0 <==> pv == Sunny
  {
    match pv
    case Sunny => Adjustment(0.88, 0.82, [SunnyPvNote])
    case Cloudy => Adjustment(1.08, 1.15, [CloudyPvNote])
    case LowInsolation => Adjustment(1.18, 1.25, [LowInsolationPvNote])
  }

  /** The battery block touches only the cost, lowering it for high cycling
      and raising it for low; its catch-all branch (Medium) keeps the cost
      but still annotates. The throughput it sets is `ThroughputFor`. */
  function BatteryAdjustment(b: BatteryCycling): (r: Adjustment)
    ensures r.co2Factor == 1.0 && |r.notes| == 1
    ensures r.costFactor < 1.0 <==> b == High
    ensures r.costFactor > 1.0 <==> b == Low
  {
    match b
    case High => Adjustment(0.92, 1.0, [HighBatteryNote])
    case Low => Adjustment(1.05, 1.0, [LowBatteryNote])
    case Medium => Adjustment(1.0, 1.0, [ModerateBatteryNote])
  }

  /** Shifting GPU load lowers both figures and annotates; not shifting
      changes nothing. */
  function GpuAdjustment(allow: bool): (r: Adjustment)
    ensures allow ==> r.costFactor < 1.0 && r.co2Factor < 1.0 && |r.notes| == 1
    ensures !allow ==> r == Unchanged
  {
    if allow then Adjustment(0.87, 0.91, [GpuShiftNote]) else Unchanged
  }

  /** The cooling block touches only the cost and never raises it; its
      catch-all branch (Balanced) keeps the cost but still annotates. */
  function CoolingAdjustment(c: CoolingFlexibility): (r: Adjustment)
    ensures r.co2Factor == 1.0 && |r.notes| == 1
    ensures r.costFactor <= 1.0
    ensures r.costFactor == 1.0 <==> c == Balanced
  {
    match c
    case Aggressive => Adjustment(0.94, 1.0, [AggressiveCoolingNote])
    case Conservative => Adjustment(0.99, 1.0, [ConservativeCoolingNote])
    case Balanced => Adjustment(1.0, 1.0, [BalancedCoolingNote])
  }

  /** The CO2 block's 8% cost penalty and note; its cap on the CO2 figure is
      applied by `Pipeline`, after every CO2 factor, so its own CO2 factor
      is 1. Without the limit it changes nothing. */
  function Co2LimitAdjustment(limit: bool): (r: Adjustment)
    ensures r.co2Factor == 1.0
    ensures limit ==> r.costFactor > 1.0 && |r.notes| == 1
    ensures !limit ==> r == Unchanged
  {
    if limit then Adjustment(1.08, 1.0, [Co2LimitNote]) else Unchanged
  }

  /** The seven blocks in the source's order; block `k` emits stage-`k` notes. */
  function Adjustments(i: Inputs): (r: seq<Adjustment>)
    ensures |r| == 7
  {
    [ PriceAdjustment(i.priceProfile),
      LoadAdjustment(i.loadProfile),
      PvAdjustment(i.pvAvailability),
      BatteryAdjustment(i.batteryCycling),
      GpuAdjustment(i.allowGpuShifting),
      CoolingAdjustment(i.coolingFlexibility),
      Co2LimitAdjustment(i.limitCO2) ]
  }

  /** Battery throughput (kWh) for each cycling level: between 600 and 2400,
      and the starting 1200 exactly for the catch-all Medium branch. */
  function ThroughputFor(b: BatteryCycling): (r: int)
    ensures 600 <= r <= 2400
    ensures r == Start.throughput <==> b == Medium
  {
    match b
    case High => 2400
    case Low => 600
    case Medium => 1200
  }

  // ---------------------------------------------------------------------
  // The running calculation
  // ---------------------------------------------------------------------

  /** The calculation's mutable locals: cost, CO2 intensity, throughput and
      the list of changes. */
  datatype Accumulator = Accumulator(cost: real, co2: real, throughput: int, notes: seq<Note>)

  const Start: Accumulator := Accumulator(BaselineCost, BaselineCo2, 1200, [])

  /** One block: scale both figures and append the block's notes. */
  function Apply(a: Accumulator, adj: Adjustment): Accumulator {
    a.(cost := a.cost * adj.costFactor, co2 := a.co2 * adj.co2Factor, notes := a.notes + adj.notes)
  }

  /** The blocks, one after another. */
  function Run(a: Accumulator, s: seq<Adjustment>): Accumulator
    decreases |s|
  {
    if |s| == 0 then a else Run(Apply(a, s[0]), s[1..])
  }

  /** The whole calculation: the seven blocks, then the CO2 cap (the last
      thing to touch the CO2 figure) and the throughput the battery block
      chose (nothing else reads or writes it). With the limit on, the CO2
      figure never exceeds the cap. */
  function Pipeline(i: Inputs): (r: Accumulator)
    ensures i.limitCO2 ==> r.co2 <= Co2Cap
  {
    var a := Run(Start, Adjustments(i));
    a.(co2 := if i.limitCO2 then Min(a.co2, Co2Cap) else a.co2,
       throughput := ThroughputFor(i.batteryCycling))
  }

  // ---------------------------------------------------------------------
  // Reference definitions
  // ---------------------------------------------------------------------

  /** The product of the blocks' cost factors. */
  function CostProduct(s: seq<Adjustment>): real
    decreases |s|
  {
    if |s| == 0 then 1.0 else s[0].costFactor * CostProduct(s[1..])
  }

  /** The product of the blocks' CO2 factors. */
  function Co2Product(s: seq<Adjustment>): real
    decreases |s|
  {
    if |s| == 0 then 1.0 else s[0].co2Factor * Co2Product(s[1..])
  }

  /** Final cost: the baseline times the product of the selected factors. */
  function ReferenceCost(i: Inputs): (r: real)
    ensures r >= 3000.0
  {
    CostFactorsBounded(i);
    BaselineCost * CostProduct(Adjustments(i))
  }

  /** CO2 intensity before the cap. */
  function UncappedCo2(i: Inputs): real {
    BaselineCo2 * Co2Product(Adjustments(i))
  }

  /** Final CO2 intensity: the cap applies to the fully adjusted value. */
  function ReferenceCo2(i: Inputs): real {
    if i.limitCO2 then Min(UncappedCo2(i), Co2Cap) else UncappedCo2(i)
  }

  // ---------------------------------------------------------------------
  // Results
  // ---------------------------------------------------------------------

  datatype Results = Results(
    dailyCost: int,
    costVsBaseline: real,
    avgCO2: int,
    batteryThroughput: int,
    keyChanges: seq<Note>)

  /** Percentage change of a cost against the fixed 8500 baseline: applying
      the percentage to the baseline gives back the cost. */
  function PercentVsBaseline(cost: real): (r: real)
    ensures BaselineCost + BaselineCost * r / 100.0 == cost
  {
    (cost - BaselineCost) / BaselineCost * 100.0
  }

  /** `calculateScenario`. The annotations are `Note`s; `NoteText` gives the
      strings the page lists. */
  function Calculate(i: Inputs): (r: Results)
    ensures r.dailyCost == Round(ReferenceCost(i))
    ensures r.dailyCost >= 3000
    ensures r.costVsBaseline == RoundToTenth(PercentVsBaseline(ReferenceCost(i)))
    ensures r.avgCO2 == Round(ReferenceCo2(i))
    ensures i.limitCO2 ==> r.avgCO2 <= 320
    ensures r.batteryThroughput == ThroughputFor(i.batteryCycling)
    ensures forall n :: n in r.keyChanges <==> Reports(n, i)
    ensures InStageOrder(r.keyChanges)
    ensures 3 <= |r.keyChanges| <= 7
    ensures NoChangesNote !in r.keyChanges
  {
    var a := Pipeline(i);
    PipelineMatchesReference(i);
    CapBoundsRounded(i);
    Results(
      Round(a.cost),
      RoundToTenth(PercentVsBaseline(a.cost)),
      Round(a.co2),
      a.throughput,
      if |a.notes| > 0 then a.notes else [NoChangesNote])
  }

  // ---------------------------------------------------------------------
  // The running calculation meets the reference
  // ---------------------------------------------------------------------

  /** Running blocks multiplies the cost by the product of their factors. */
  lemma {:induction false} RunCost(a: Accumulator, s: seq<Adjustment>)
    ensures Run(a, s).cost == a.cost * CostProduct(s)
    decreases |s|
  {
    if |s| > 0 {
      RunCost(Apply(a, s[0]), s[1..]);
      assert a.cost * s[0].costFactor * CostProduct(s[1..]) == a.cost * (s[0].costFactor * CostProduct(s[1..]));
    }
  }

  /** Running blocks multiplies the CO2 figure by the product of their factors. */
  lemma {:induction false} RunCo2(a: Accumulator, s: seq<Adjustment>)
    ensures Run(a, s).co2 == a.co2 * Co2Product(s)
    decreases |s|
  {
    if |s| > 0 {
      RunCo2(Apply(a, s[0]), s[1..]);
      assert a.co2 * s[0].co2Factor * Co2Product(s[1..]) == a.co2 * (s[0].co2Factor * Co2Product(s[1..]));
    }
  }

  /** A product of non-negative factors is at least the product of their
      lower bounds. */
  lemma ProductAtLeast(x: real, y: real, f: real, l: real)
    requires x >= y >= 0.0 && f >= l >= 0.0
    ensures x * f >= y * l
  {
    assert x * f - y * f == (x - y) * f;
    assert y * f - y * l == y * (f - l);
  }

  /** The product over two runs of blocks is the product of their products. */
  lemma {:induction false} CostProductConcat(s: seq<Adjustment>, t: seq<Adjustment>)
    ensures CostProduct(s + t) == CostProduct(s) * CostProduct(t)
    decreases |s|
  {
    if |s| == 0 {
      assert s + t == t;
    } else {
      assert (s + t)[0] == s[0];
      assert (s + t)[1..] == s[1..] + t;
      CostProductConcat(s[1..], t);
      MulAssociates(s[0].costFactor, CostProduct(s[1..]), CostProduct(t));
    }
  }

  /** The cost product does not depend on the order of the blocks: any
      rearrangement of them gives the same product. */
  lemma {:induction false} CostProductOrderFree(s: seq<Adjustment>, t: seq<Adjustment>)
    requires multiset(s) == multiset(t)
    ensures CostProduct(s) == CostProduct(t)
    decreases |s|
  {
    if |s| == 0 {
      assert |t| == |multiset(t)| == 0;
    } else {
      assert s[0] in multiset(t);
      var k :| 0 <= k < |t| && t[k] == s[0];
      RemoveMatching(s, t, k);
      CostProductOrderFree(s[1..], t[..k] + t[k + 1..]);
      CostProductWithout(t, k);
    }
  }

  /** Taking the first element of `s` and a matching element of `t` out of
      two rearrangements leaves two rearrangements. */
  lemma RemoveMatching<T>(s: seq<T>, t: seq<T>, k: nat)
    requires |s| > 0 && k < |t| && t[k] == s[0]
    requires multiset(s) == multiset(t)
    ensures multiset(s[1..]) == multiset(t[..k] + t[k + 1..])
  {
    assert t == t[..k] + [t[k]] + t[k + 1..];
    assert s == [s[0]] + s[1..];
    calc {
      multiset(s[1..]);
      multiset(s) - multiset{s[0]};
      multiset(t) - multiset{s[0]};
      multiset(t[..k]) + multiset(t[k + 1..]);
      multiset(t[..k] + t[k + 1..]);
    }
  }

  /** The product is one block's factor times the product of the others. */
  lemma {:induction false} CostProductWithout(t: seq<Adjustment>, k: nat)
    requires k < |t|
    ensures CostProduct(t) == t[k].costFactor * CostProduct(t[..k] + t[k + 1..])
    decreases k
  {
    var others := t[..k] + t[k + 1..];
    if k == 0 {
      assert others == t[1..];
    } else {
      var tail := t[1..];
      assert others[0] == t[0];
      assert others[1..] == tail[..k - 1] + tail[k..];
      CostProductWithout(tail, k - 1);
      Regroup(t[0].costFactor, t[k].costFactor, CostProduct(others[1..]));
    }
  }

  lemma Regroup(b: real, c: real, q: real)
    ensures b * (c * q) == c * (b * q)
  {
  }

  lemma MulAssociates(a: real, b: real, c: real)
    ensures a * (b * c) == (a * b) * c
  {
  }

  /** Final cost is the baseline times the selected factors taken in any
      order. */
  lemma ReferenceCostOrderFree(i: Inputs)
    ensures forall s :: multiset(s) == multiset(Adjustments(i)) ==>
      BaselineCost * CostProduct(s) == ReferenceCost(i)
  {
    forall s | multiset(s) == multiset(Adjustments(i))
      ensures BaselineCost * CostProduct(s) == ReferenceCost(i)
    {
      CostProductOrderFree(s, Adjustments(i));
    }
  }

  /** Factor-wise lower bounds give a lower bound on the product. */
  lemma {:induction false} CostProductAtLeast(s: seq<Adjustment>, lo: seq<real>)
    requires |lo| == |s|
    requires forall k :: 0 <= k < |s| ==> 0.0 <= lo[k] <= s[k].costFactor
    ensures CostProduct(s) >= LowerProduct(lo) >= 0.0
    decreases |s|
  {
    if |s| > 0 {
      CostProductAtLeast(s[1..], lo[1..]);
      ProductAtLeast(s[0].costFactor, lo[0], CostProduct(s[1..]), LowerProduct(lo[1..]));
    }
  }

  /** The product of a list of bounds. */
  function LowerProduct(lo: seq<real>): real
    decreases |lo|
  {
    if |lo| == 0 then 1.0 else lo[0] * LowerProduct(lo[1..])
  }

  /** The smallest cost factor each block can apply. */
  const SmallestCostFactors: seq<real> := [0.85, 0.7, 0.88, 0.92, 0.87, 0.94, 1.0]

  /** Each selected factor is at least the smallest its block offers. */
  lemma SmallestCostFactorsBelow(i: Inputs)
    ensures forall k :: 0 <= k < 7 ==> 0.0 <= SmallestCostFactors[k] <= Adjustments(i)[k].costFactor
  {
    var s := Adjustments(i);
    forall k | 0 <= k < 7
      ensures 0.0 <= SmallestCostFactors[k] <= s[k].costFactor
    {
      if k == 0 { assert s[k] == PriceAdjustment(i.priceProfile); }
      else if k == 1 { assert s[k] == LoadAdjustment(i.loadProfile); }
      else if k == 2 { assert s[k] == PvAdjustment(i.pvAvailability); }
      else if k == 3 { assert s[k] == BatteryAdjustment(i.batteryCycling); }
      else if k == 4 { assert s[k] == GpuAdjustment(i.allowGpuShifting); }
      else if k == 5 { assert s[k] == CoolingAdjustment(i.coolingFlexibility); }
      else { assert s[k] == Co2LimitAdjustment(i.limitCO2); }
    }
  }

  /** Every factor is at least its smallest option, so the cost never drops
      below 8500 * 0.85 * 0.7 * 0.88 * 0.92 * 0.87 * 0.94 (about 3348). */
  lemma CostFactorsBounded(i: Inputs)
    ensures BaselineCost * CostProduct(Adjustments(i)) >= 3000.0
  {
    SmallestCostFactorsBelow(i);
    CostProductAtLeast(Adjustments(i), SmallestCostFactors);
    assert LowerProduct(SmallestCostFactors) == 0.85 * 0.7 * 0.88 * 0.92 * 0.87 * 0.94 * 1.0;
  }

  /** Notes so far: in stage order, all from stages before `k`, and exactly
      the reported selections of those stages. */
  ghost predicate NotesUpTo(notes: seq<Note>, i: Inputs, k: nat) {
    && InStageOrder(notes)
    && (forall j :: 0 <= j < |notes| ==> Stage(notes[j]) < k)
    && (forall n :: n in notes <==> Reports(n, i) && Stage(n) < k)
  }

  /** What one block appends: at most one note, exactly the block's reported
      selection. */
  ghost predicate StageNotes(part: seq<Note>, i: Inputs, k: nat) {
    && |part| <= 1
    && (forall n :: n in part <==> Reports(n, i) && Stage(n) == k)
  }

  /** Appending stage `k`'s notes keeps the notes ordered and complete. */
  lemma AppendStage(notes: seq<Note>, part: seq<Note>, i: Inputs, k: nat)
    requires NotesUpTo(notes, i, k)
    requires StageNotes(part, i, k)
    ensures NotesUpTo(notes + part, i, k + 1)
  {
    var all := notes + part;
    forall j, m | 0 <= j < m < |all|
      ensures Stage(all[j]) < Stage(all[m])
    {
      if m >= |notes| {
        assert all[m] == part[m - |notes|];
        assert all[m] in part;
        assert all[j] == notes[j];
      } else {
        assert all[j] == notes[j] && all[m] == notes[m];
      }
    }
    forall j | 0 <= j < |all|
      ensures Stage(all[j]) < k + 1
    {
      if j >= |notes| {
        assert all[j] == part[j - |notes|];
        assert all[j] in part;
      } else {
        assert all[j] == notes[j];
      }
    }
  }

  /** Running blocks `k`, `k + 1`, ... that each append their stage's
      reported selection yields the reported selections of all stages so
      far, in stage order. */
  lemma {:induction false} RunNotes(a: Accumulator, s: seq<Adjustment>, i: Inputs, k: nat)
    requires NotesUpTo(a.notes, i, k)
    requires forall j :: 0 <= j < |s| ==> StageNotes(s[j].notes, i, k + j)
    ensures NotesUpTo(Run(a, s).notes, i, k + |s|)
    decreases |s|
  {
    if |s| > 0 {
      assert StageNotes(s[0].notes, i, k + 0);
      AppendStage(a.notes, s[0].notes, i, k);
      forall j | 0 <= j < |s[1..]|
        ensures StageNotes(s[1..][j].notes, i, k + 1 + j)
      {
        assert s[1..][j] == s[j + 1];
      }
      RunNotes(Apply(a, s[0]), s[1..], i, k + 1);
    }
  }

  lemma PriceNotesReported(i: Inputs)
    ensures StageNotes(PriceAdjustment(i.priceProfile).notes, i, 0)
  {
  }

  lemma LoadNotesReported(i: Inputs)
    ensures StageNotes(LoadAdjustment(i.loadProfile).notes, i, 1)
  {
  }

  lemma PvNotesReported(i: Inputs)
    ensures StageNotes(PvAdjustment(i.pvAvailability).notes, i, 2)
  {
  }

  lemma BatteryNotesReported(i: Inputs)
    ensures StageNotes(BatteryAdjustment(i.batteryCycling).notes, i, 3)
  {
  }

  lemma GpuNotesReported(i: Inputs)
    ensures StageNotes(GpuAdjustment(i.allowGpuShifting).notes, i, 4)
  {
  }

  lemma CoolingNotesReported(i: Inputs)
    ensures StageNotes(CoolingAdjustment(i.coolingFlexibility).notes, i, 5)
  {
  }

  lemma Co2LimitNotesReported(i: Inputs)
    ensures StageNotes(Co2LimitAdjustment(i.limitCO2).notes, i, 6)
  {
  }

  /** Block `k` appends exactly the stage-`k` reported selection. */
  lemma AdjustmentsReportTheirStage(i: Inputs)
    ensures forall j :: 0 <= j < |Adjustments(i)| ==> StageNotes(Adjustments(i)[j].notes, i, j)
  {
    var s := Adjustments(i);
    PriceNotesReported(i);
    LoadNotesReported(i);
    PvNotesReported(i);
    BatteryNotesReported(i);
    GpuNotesReported(i);
    CoolingNotesReported(i);
    Co2LimitNotesReported(i);
    forall j | 0 <= j < |s|
      ensures StageNotes(s[j].notes, i, j)
    {
      if j == 0 { assert s[j] == PriceAdjustment(i.priceProfile); }
      else if j == 1 { assert s[j] == LoadAdjustment(i.loadProfile); }
      else if j == 2 { assert s[j] == PvAdjustment(i.pvAvailability); }
      else if j == 3 { assert s[j] == BatteryAdjustment(i.batteryCycling); }
      else if j == 4 { assert s[j] == GpuAdjustment(i.allowGpuShifting); }
      else if j == 5 { assert s[j] == CoolingAdjustment(i.coolingFlexibility); }
      else { assert s[j] == Co2LimitAdjustment(i.limitCO2); }
    }
  }

  /** Only real stages report anything: the sentinel is never reported. */
  lemma ReportedStagesBelowSeven(i: Inputs)
    ensures forall n :: Reports(n, i) ==> Stage(n) < 7
  {
  }

  /** In stage order, the note at position `j` comes from stage `j` or later. */
  lemma {:induction false} StageAtLeastPosition(notes: seq<Note>, j: nat)
    requires InStageOrder(notes)
    requires j < |notes|
    ensures Stage(notes[j]) >= j
  {
    if j > 0 {
      StageAtLeastPosition(notes, j - 1);
      assert Stage(notes[j - 1]) < Stage(notes[j]);
    }
  }

  /** The note the PV selection always emits. */
  function PvNote(pv: PvAvailability): Note {
    match pv
    case Sunny => SunnyPvNote
    case Cloudy => CloudyPvNote
    case LowInsolation => LowInsolationPvNote
  }

  /** The note the battery selection always emits. */
  function BatteryNote(b: BatteryCycling): Note {
    match b
    case High => HighBatteryNote
    case Low => LowBatteryNote
    case Medium => ModerateBatteryNote
  }

  /** The note the cooling selection always emits. */
  function CoolingNote(c: CoolingFlexibility): Note {
    match c
    case Aggressive => AggressiveCoolingNote
    case Conservative => ConservativeCoolingNote
    case Balanced => BalancedCoolingNote
  }

  /** The PV, battery and cooling blocks have no silent branch. */
  lemma AlwaysReported(i: Inputs)
    ensures Reports(PvNote(i.pvAvailability), i) && Stage(PvNote(i.pvAvailability)) == 2
    ensures Reports(BatteryNote(i.batteryCycling), i) && Stage(BatteryNote(i.batteryCycling)) == 3
    ensures Reports(CoolingNote(i.coolingFlexibility), i) && Stage(CoolingNote(i.coolingFlexibility)) == 5
  {
  }

  /** A reported note of a real stage sits at some position of the notes. */
  lemma PositionOf(notes: seq<Note>, i: Inputs, n: Note) returns (j: nat)
    requires NotesUpTo(notes, i, 7)
    requires Reports(n, i) && Stage(n) < 7
    ensures j < |notes| && notes[j] == n
  {
    assert n in notes;
    j :| 0 <= j < |notes| && notes[j] == n;
  }

  /** The PV, battery and cooling selections are always reported, and no
      stage reports more than one note, so there are between 3 and 7. */
  lemma ReportedCount(notes: seq<Note>, i: Inputs)
    requires NotesUpTo(notes, i, 7)
    ensures 3 <= |notes| <= 7
  {
    if |notes| > 0 {
      StageAtLeastPosition(notes, |notes| - 1);
    }
    AlwaysReported(i);
    var p := PositionOf(notes, i, PvNote(i.pvAvailability));
    var b := PositionOf(notes, i, BatteryNote(i.batteryCycling));
    var c := PositionOf(notes, i, CoolingNote(i.coolingFlexibility));
    assert p != b && b != c && p != c;
  }

  /** The running calculation's cost is the reference cost. */
  lemma PipelineCost(i: Inputs)
    ensures Pipeline(i).cost == ReferenceCost(i)
  {
    RunCost(Start, Adjustments(i));
  }

  /** The running calculation's CO2 figure is the reference, with the cap
      applied after the load, PV and GPU adjustments. */
  lemma PipelineCo2(i: Inputs)
    ensures Pipeline(i).co2 == ReferenceCo2(i)
  {
    RunCo2(Start, Adjustments(i));
  }

  /** The blocks append exactly the reported selections, in stage order. */
  lemma PipelineNotes(i: Inputs)
    ensures forall n :: n in Pipeline(i).notes <==> Reports(n, i)
    ensures InStageOrder(Pipeline(i).notes)
    ensures 3 <= |Pipeline(i).notes| <= 7
  {
    AdjustmentsReportTheirStage(i);
    assert NotesUpTo(Start.notes, i, 0);
    RunNotes(Start, Adjustments(i), i, 0);
    ReportedStagesBelowSeven(i);
    ReportedCount(Pipeline(i).notes, i);
  }

  /** The running calculation agrees with the closed-form reference: same
      cost, same CO2, throughput from the battery level alone, and notes
      that are exactly the reported selections in stage order. */
  lemma PipelineMatchesReference(i: Inputs)
    ensures Pipeline(i).cost == ReferenceCost(i)
    ensures Pipeline(i).co2 == ReferenceCo2(i)
    ensures Pipeline(i).throughput == ThroughputFor(i.batteryCycling)
    ensures forall n :: n in Pipeline(i).notes <==> Reports(n, i)
    ensures InStageOrder(Pipeline(i).notes)
    ensures 3 <= |Pipeline(i).notes| <= 7
  {
    PipelineCost(i);
    PipelineCo2(i);
    PipelineNotes(i);
  }

  /** With the cap on, the rounded CO2 figure is at most 320. */
  lemma CapBoundsRounded(i: Inputs)
    ensures i.limitCO2 ==> Round(ReferenceCo2(i)) <= 320
  {
    if i.limitCO2 {
      RoundMonotone(ReferenceCo2(i), Co2Cap);
      RoundOfInteger(320);
    }
  }

  // ---------------------------------------------------------------------
  // Properties of the calculation
  // ---------------------------------------------------------------------

  /** The battery throughput depends on the cycling level and nothing else. */
  lemma ThroughputDependsOnlyOnBattery(i: Inputs, j: Inputs)
    requires i.batteryCycling == j.batteryCycling
    ensures Calculate(i).batteryThroughput == Calculate(j).batteryThroughput
  {
  }

  /** Equal CO2 factors give equal CO2 products. */
  lemma {:induction false} SameCo2Factors(s: seq<Adjustment>, t: seq<Adjustment>)
    requires |s| == |t|
    requires forall k :: 0 <= k < |s| ==> s[k].co2Factor == t[k].co2Factor
    ensures Co2Product(s) == Co2Product(t)
    decreases |s|
  {
    if |s| > 0 {
      SameCo2Factors(s[1..], t[1..]);
    }
  }

  /** The price, battery and cooling blocks have CO2 factor 1 on every
      branch. */
  lemma Co2FactorsIgnorePriceBatteryCooling(i: Inputs, j: Inputs)
    requires i.loadProfile == j.loadProfile && i.pvAvailability == j.pvAvailability
    requires i.allowGpuShifting == j.allowGpuShifting
    ensures forall k :: 0 <= k < 7 ==> Adjustments(j)[k].co2Factor == Adjustments(i)[k].co2Factor
  {
    var s, t := Adjustments(j), Adjustments(i);
    forall k | 0 <= k < 7
      ensures s[k].co2Factor == t[k].co2Factor
    {
      if k == 0 { assert s[k].co2Factor == 1.0 == t[k].co2Factor; }
      else if k == 3 { assert s[k].co2Factor == 1.0 == t[k].co2Factor; }
      else if k == 5 { assert s[k].co2Factor == 1.0 == t[k].co2Factor; }
      else if k == 6 { assert s[k].co2Factor == 1.0 == t[k].co2Factor; }
    }
  }

  /** The price profile, battery cycling and cooling flexibility never move
      the CO2 figure. */
  lemma Co2IgnoresPriceBatteryCooling(i: Inputs, p: PriceProfile, b: BatteryCycling, c: CoolingFlexibility)
    ensures ReferenceCo2(i.(priceProfile := p, batteryCycling := b, coolingFlexibility := c)) == ReferenceCo2(i)
    ensures Calculate(i.(priceProfile := p, batteryCycling := b, coolingFlexibility := c)).avgCO2
         == Calculate(i).avgCO2
  {
    var j := i.(priceProfile := p, batteryCycling := b, coolingFlexibility := c);
    Co2FactorsIgnorePriceBatteryCooling(i, j);
    SameCo2Factors(Adjustments(j), Adjustments(i));
  }

  /** The percentage against the baseline has the sign of the final cost's
      difference from 8500 (rounding to a tenth can only bring it to zero). */
  lemma CostVsBaselineSign(cost: real)
    ensures cost < BaselineCost ==> RoundToTenth(PercentVsBaseline(cost)) <= 0.0
    ensures cost > BaselineCost ==> RoundToTenth(PercentVsBaseline(cost)) >= 0.0
    ensures cost == BaselineCost ==> RoundToTenth(PercentVsBaseline(cost)) == 0.0
  {
    var x := PercentVsBaseline(cost);
    if cost < BaselineCost {
      RoundMonotone(x * 10.0, 0.0);
    } else if cost > BaselineCost {
      RoundMonotone(0.0, x * 10.0);
    }
  }

  /** The default form: only the sunny-PV, moderate-battery and
      balanced-cooling annotations, cost 7480 (-12% vs baseline), CO2 312. */
  lemma DefaultScenario()
    ensures Calculate(DefaultInputs)
         == Results(7480, -12.0, 312, 1200, [SunnyPvNote, ModerateBatteryNote, BalancedCoolingNote])
  {
    DefaultPipeline();
    assert Round(7480.0) == 7480;
    assert PercentVsBaseline(7480.0) == -12.0;
    assert RoundToTenth(-12.0) == -12.0;
    assert Round(311.6) == 312;
  }

  /** Running a block list of length seven, spelt out. */
  lemma RunSeven(a: Accumulator, s: seq<Adjustment>)
    requires |s| == 7
    ensures Run(a, s)
         == Apply(Apply(Apply(Apply(Apply(Apply(Apply(a, s[0]), s[1]), s[2]), s[3]), s[4]), s[5]), s[6])
  {
    var a1 := Apply(a, s[0]);
    var a2 := Apply(a1, s[1]);
    var a3 := Apply(a2, s[2]);
    var a4 := Apply(a3, s[3]);
    var a5 := Apply(a4, s[4]);
    var a6 := Apply(a5, s[5]);
    assert Run(a6, s[6..]) == Apply(a6, s[6]) by {
      assert s[6..][0] == s[6] && s[6..][1..] == [];
    }
    assert Run(a5, s[5..]) == Run(a6, s[6..]) by { assert s[5..][0] == s[5] && s[5..][1..] == s[6..]; }
    assert Run(a4, s[4..]) == Run(a5, s[5..]) by { assert s[4..][0] == s[4] && s[4..][1..] == s[5..]; }
    assert Run(a3, s[3..]) == Run(a4, s[4..]) by { assert s[3..][0] == s[3] && s[3..][1..] == s[4..]; }
    assert Run(a2, s[2..]) == Run(a3, s[3..]) by { assert s[2..][0] == s[2] && s[2..][1..] == s[3..]; }
    assert Run(a1, s[1..]) == Run(a2, s[2..]) by { assert s[1..][0] == s[1] && s[1..][1..] == s[2..]; }
  }

  /** The default form's blocks, run one by one. */
  lemma DefaultPipeline()
    ensures Pipeline(DefaultInputs)
         == Accumulator(7480.0, 311.6, 1200, [SunnyPvNote, ModerateBatteryNote, BalancedCoolingNote])
  {
    RunSeven(Start, Adjustments(DefaultInputs));
  }

  /** Turning on the CO2 limit in the default form keeps CO2 at 312 (already
      below the cap) but still adds the 8% penalty. */
  lemma DefaultScenarioWithCo2Limit()
    ensures Calculate(DefaultInputs.(limitCO2 := true)).dailyCost == 8078
    ensures Calculate(DefaultInputs.(limitCO2 := true)).avgCO2 == 312
  {
    assert ReferenceCost(DefaultInputs.(limitCO2 := true)) == 8078.4;
    assert ReferenceCo2(DefaultInputs.(limitCO2 := true)) == 311.6;
  }

  // ---------------------------------------------------------------------
  // Form edits (`handleInputChange`)
  // ---------------------------------------------------------------------

  datatype Edit =
    | SetName(name: string)
    | SetPriceProfile(price: PriceProfile)
    | SetLoadProfile(load: LoadProfile)
    | SetPvAvailability(pv: PvAvailability)
    | SetBatteryCycling(battery: BatteryCycling)
    | SetCoolingFlexibility(cooling: CoolingFlexibility)
    | SetAllowGpuShifting(allow: bool)
    | SetLimitCo2(limit: bool)

  /** `handleInputChange`: replaces the one named field. */
  function ApplyEdit(i: Inputs, e: Edit): (r: Inputs)
    ensures r.name == (if e.SetName? then e.name else i.name)
    ensures r.priceProfile == (if e.SetPriceProfile? then e.price else i.priceProfile)
    ensures r.loadProfile == (if e.SetLoadProfile? then e.load else i.loadProfile)
    ensures r.pvAvailability == (if e.SetPvAvailability? then e.pv else i.pvAvailability)
    ensures r.batteryCycling == (if e.SetBatteryCycling? then e.battery else i.batteryCycling)
    ensures r.coolingFlexibility == (if e.SetCoolingFlexibility? then e.cooling else i.coolingFlexibility)
    ensures r.allowGpuShifting == (if e.SetAllowGpuShifting? then e.allow else i.allowGpuShifting)
    ensures r.limitCO2 == (if e.SetLimitCo2? then e.limit else i.limitCO2)
  {
    match e
    case SetName(n) => i.(name := n)
    case SetPriceProfile(p) => i.(priceProfile := p)
    case SetLoadProfile(l) => i.(loadProfile := l)
    case SetPvAvailability(pv) => i.(pvAvailability := pv)
    case SetBatteryCycling(b) => i.(batteryCycling := b)
    case SetCoolingFlexibility(c) => i.(coolingFlexibility := c)
    case SetAllowGpuShifting(g) => i.(allowGpuShifting := g)
    case SetLimitCo2(l) => i.(limitCO2 := l)
  }

  /** Renaming a scenario never changes its results. */
  lemma NameDoesNotAffectResults(i: Inputs, n: string)
    ensures Calculate(ApplyEdit(i, SetName(n))) == Calculate(i)
  {
  }
}
