/** scales: the bin weight read from a rotary encoder with a push button.

    `getWeight` polls three pins until the button (SW) is pressed: every rising edge of
    CLK seen while DT is high adds one kilogram, clamped at MAX_BINWEIGHT. The levels the
    GPIO lines return are an input of the model: one `Sample` per pass of the loop. */
module Scales {
  import opened Text

  /** MAX_BINWEIGHT. */
  const MaxBinWeight: int := 500

  /** `typedef int Weight`. */
  type Weight = int

  /** A weight `getWeight` can return: the count starts at 0 and is clamped at
      MAX_BINWEIGHT. */
  type BinWeight = w: Weight | 0 <= w <= MaxBinWeight

  /** The last levels seen on SW and CLK. They live in static pin records, so they persist
      from one reading to the next; both start at 1 (released, on a notch). */
  datatype Pins = Pins(lastSw: int, lastClk: int)

  const InitialPins: Pins := Pins(1, 1)

  /** The levels read in one pass of the loop; DT is only looked at on a CLK rising edge. */
  datatype Sample = Sample(sw: int, clk: int, dt: int)

  /** The outcome of a reading: the weight, the levels left in the pin records, and the
      number of samples the loop consumed. */
  datatype Reading = Reading(weight: Weight, pins: Pins, used: nat)

  /** The SW level before sample i of a reading that started from pins p. */
  function PrevSw(p: Pins, samples: seq<Sample>, i: nat): int
    requires i < |samples|
  {
    if i == 0 then p.lastSw else samples[i - 1].sw
  }

  /** The CLK level before sample i of a reading that started from pins p. */
  function PrevClk(p: Pins, samples: seq<Sample>, i: nat): int
    requires i < |samples|
  {
    if i == 0 then p.lastClk else samples[i - 1].clk
  }

  /** Sample i is a falling edge of SW (last 1, new 0): the button press that validates. */
  predicate IsPress(p: Pins, samples: seq<Sample>, i: nat)
    requires i < |samples|
  {
    PrevSw(p, samples, i) != 0 && samples[i].sw == 0
  }

  /** Sample i is a rising edge of CLK (last 0, new 1) with DT at 1: one kilogram more. */
  predicate IsTick(p: Pins, samples: seq<Sample>, i: nat)
    requires i < |samples|
  {
    PrevClk(p, samples, i) == 0 && samples[i].clk != 0 && samples[i].dt == 1
  }

  /** The number of ticks among the first n samples. */
  function CountTicks(p: Pins, samples: seq<Sample>, n: nat): nat
    requires n <= |samples|
  {
    if n == 0 then 0
    else CountTicks(p, samples, n - 1) + (if IsTick(p, samples, n - 1) then 1 else 0)
  }

  function Min(a: int, b: int): int {
    if a <= b then a else b
  }

  /** `getWeight`: polls until the first falling edge of SW and returns the clamped tick
      count, the tick of the validating pass included. `None` when the samples run out
      before the button is pressed (the source keeps polling). */
  method GetWeight(p: Pins, samples: seq<Sample>) returns (r: Option<Reading>)
    ensures r.None? <==> forall j :: 0 <= j < |samples| ==> !IsPress(p, samples, j)
    ensures r.Some? ==> 0 < r.value.used <= |samples|
    ensures r.Some? ==> IsPress(p, samples, r.value.used - 1)
    ensures r.Some? ==> forall j :: 0 <= j < r.value.used - 1 ==> !IsPress(p, samples, j)
    ensures r.Some? ==> r.value.weight == Min(CountTicks(p, samples, r.value.used), MaxBinWeight)
    ensures r.Some? ==> 0 <= r.value.weight <= MaxBinWeight
    ensures r.Some? ==>
              r.value.pins == Pins(samples[r.value.used - 1].sw, samples[r.value.used - 1].clk)
  {
    var weight: Weight := 0;
    var validate := false;
    var pins := p;
    var i := 0;
    while !validate && i < |samples|
      invariant 0 <= i <= |samples|
      invariant pins == if i == 0 then p else Pins(samples[i - 1].sw, samples[i - 1].clk)
      invariant weight == Min(CountTicks(p, samples, i), MaxBinWeight)
      invariant validate <==> i > 0 && IsPress(p, samples, i - 1)
      invariant forall j :: 0 <= j < i - 1 ==> !IsPress(p, samples, j)
      decreases |samples| - i
    {
      var s := samples[i];
      if pins.lastSw != 0 && s.sw == 0 {
        validate := true;
      }
      if pins.lastClk == 0 && s.clk != 0 {
        if s.dt == 1 {
          weight := weight + 1;
          if weight > MaxBinWeight {
            weight := MaxBinWeight;
          }
        }
      }
      pins := Pins(s.sw, s.clk);
      i := i + 1;
    }
    if validate {
      r := Some(Reading(weight, pins, i));
    } else {
      r := None;
    }
  }

  /** Each pass adds 0 or 1 to the weight, so the weight never decreases during a reading. */
  lemma {:induction false} WeightSteps(p: Pins, samples: seq<Sample>, i: nat, j: nat)
    requires i <= j <= |samples|
    ensures Min(CountTicks(p, samples, i), MaxBinWeight) <= Min(CountTicks(p, samples, j), MaxBinWeight)
    ensures j == i + 1 ==> Min(CountTicks(p, samples, j), MaxBinWeight) <=
                           Min(CountTicks(p, samples, i), MaxBinWeight) + 1
    decreases j - i
  {
    if i < j {
      WeightSteps(p, samples, i, j - 1);
    }
  }

  /** A pass increments the count exactly when it is a CLK rising edge with DT at 1. */
  lemma TickOnlyOnRisingEdge(p: Pins, samples: seq<Sample>, i: nat)
    requires i < |samples|
    ensures CountTicks(p, samples, i + 1) == CountTicks(p, samples, i) + 1 <==>
            PrevClk(p, samples, i) == 0 && samples[i].clk != 0 && samples[i].dt == 1
  {
  }

  /** Two successive `Scales_askWeight` calls: each restarts the weight at 0, but the pin
      levels carry over. A validated reading leaves SW low in the pin record, so the next
      reading cannot be validated by its first sample: the button has to be released and
      pressed again. */
  method ConsecutiveReadings(p: Pins, first: seq<Sample>, second: seq<Sample>)
    returns (r1: Option<Reading>, r2: Option<Reading>)
    ensures r1.None? ==> r2.None?
    ensures r1.Some? ==> 0 < r1.value.used <= |first| && IsPress(p, first, r1.value.used - 1)
    ensures r1.Some? ==> r1.value.weight == Min(CountTicks(p, first, r1.value.used), MaxBinWeight)
    ensures r1.Some? ==> r1.value.pins.lastSw == 0
    ensures r1.Some? ==>
              (r2.None? <==> forall j :: 0 <= j < |second| ==> !IsPress(r1.value.pins, second, j))
    ensures r1.Some? && r2.Some? ==>
              0 < r2.value.used <= |second| && IsPress(r1.value.pins, second, r2.value.used - 1)
    ensures r1.Some? && r2.Some? ==>
              forall j :: 0 <= j < r2.value.used - 1 ==> !IsPress(r1.value.pins, second, j)
    ensures r1.Some? && r2.Some? ==>
              r2.value.weight == Min(CountTicks(r1.value.pins, second, r2.value.used), MaxBinWeight)
    ensures r1.Some? && r2.Some? ==> r2.value.used >= 2
  {
    r1 := GetWeight(p, first);
    if r1.Some? {
      r2 := GetWeight(r1.value.pins, second);
    } else {
      r2 := None;
    }
  }
}
