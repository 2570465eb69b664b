/**
 * Episode metrics (core/metrics.py): accumulated wait, idle and moving time, the number of
 * cars that passed, and a linear fuel and CO2 estimate derived from idle and moving time.
 */
module Metrics {

  /** Fuel used per second while idling, per second while moving, and CO2 per unit of fuel. */
  const IdleFactor: real := 1.0
  const MoveFactor: real := 0.5
  const CO2Factor: real := 2.3

  datatype Emissions = Emissions(fuel: real, co2: real)

  /** The linear emission model over idle and moving time. */
  function Estimate(idle: real, moving: real): (e: Emissions)
    ensures e.co2 == CO2Factor * e.fuel
    ensures idle >= 0.0 && moving >= 0.0 ==> e.fuel >= 0.0 && e.co2 >= 0.0
    ensures e.fuel == 0.0 <==> idle + moving / 2.0 == 0.0
  {
    var fuelUsed := IdleFactor * idle + MoveFactor * moving;
    Emissions(fuelUsed, fuelUsed * CO2Factor)
  }

  /** The worked example: 3 s idle and 2 s moving give 4.0 units of fuel and 9.2 of CO2. */
  lemma EstimateExample()
    ensures Estimate(3.0, 2.0) == Emissions(4.0, 9.2)
  {
  }

  /** The estimate is additive: splitting the recorded time splits the estimate. */
  lemma EstimateAdditive(idle1: real, moving1: real, idle2: real, moving2: real)
    ensures Estimate(idle1 + idle2, moving1 + moving2).fuel ==
            Estimate(idle1, moving1).fuel + Estimate(idle2, moving2).fuel
    ensures Estimate(idle1 + idle2, moving1 + moving2).co2 ==
            Estimate(idle1, moving1).co2 + Estimate(idle2, moving2).co2
  {
  }

  /** More idle or moving time never lowers the estimate; idling costs twice as much fuel as moving. */
  lemma EstimateMonotone(idle: real, moving: real, idle': real, moving': real)
    requires idle <= idle' && moving <= moving'
    ensures Estimate(idle, moving).fuel <= Estimate(idle', moving').fuel
    ensures Estimate(idle, moving).co2 <= Estimate(idle', moving').co2
    ensures Estimate(idle + 1.0, moving).fuel == Estimate(idle, moving + 2.0).fuel
  {
  }

  class MetricsTracker {
    var totalWaitTime: real
    var totalCarsPassed: nat
    var totalIdleTime: real
    var totalMovingTime: real

    /** Wait time and idle time are always recorded together, so they are always equal. */
    ghost predicate Valid()
      reads this
    {
      totalWaitTime == totalIdleTime
    }

    constructor ()
      ensures Valid()
      ensures totalWaitTime == 0.0 && totalCarsPassed == 0
      ensures totalIdleTime == 0.0 && totalMovingTime == 0.0
    {
      totalWaitTime := 0.0;
      totalCarsPassed := 0;
      totalIdleTime := 0.0;
      totalMovingTime := 0.0;
    }

    method Reset()
      modifies this
      ensures Valid()
      ensures totalWaitTime == 0.0 && totalCarsPassed == 0
      ensures totalIdleTime == 0.0 && totalMovingTime == 0.0
    {
      totalWaitTime := 0.0;
      totalCarsPassed := 0;
      totalIdleTime := 0.0;
      totalMovingTime := 0.0;
    }

    /** Records dt seconds of one car: as waiting and idle time if it was held, as moving time otherwise. */
    method UpdateCarState(waiting: bool, dt: real)
      requires Valid()
      modifies this
      ensures Valid()
      ensures totalCarsPassed == old(totalCarsPassed)
      ensures waiting ==> totalWaitTime == old(totalWaitTime) + dt && totalIdleTime == old(totalIdleTime) + dt
                          && totalMovingTime == old(totalMovingTime)
      ensures !waiting ==> totalMovingTime == old(totalMovingTime) + dt
                           && totalWaitTime == old(totalWaitTime) && totalIdleTime == old(totalIdleTime)
      ensures dt >= 0.0 ==> totalWaitTime >= old(totalWaitTime) && totalIdleTime >= old(totalIdleTime)
                            && totalMovingTime >= old(totalMovingTime)
      ensures EstimateEmissions().fuel ==
              old(EstimateEmissions()).fuel + (if waiting then IdleFactor else MoveFactor) * dt
    {
      if waiting {
        totalWaitTime := totalWaitTime + dt;
        totalIdleTime := totalIdleTime + dt;
      } else {
        totalMovingTime := totalMovingTime + dt;
      }
    }

    /** Counts one more car as having passed; nothing else changes. */
    method IncrementCarsPassed()
      modifies this
      ensures totalCarsPassed == old(totalCarsPassed) + 1
      ensures totalWaitTime == old(totalWaitTime) && totalIdleTime == old(totalIdleTime)
      ensures totalMovingTime == old(totalMovingTime)
    {
      totalCarsPassed := totalCarsPassed + 1;
    }

    /** The fuel and CO2 estimate of the time recorded so far; reads the accumulators only. */
    function EstimateEmissions(): (e: Emissions)
      reads this
      ensures e == Estimate(totalIdleTime, totalMovingTime)
    {
      Estimate(totalIdleTime, totalMovingTime)
    }
  }
}
