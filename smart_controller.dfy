/**
 * The rule-based signal controller (smart_controller.py): a starved direction (cars waiting
 * and red for at least the fairness bound) gets green, East checked before South; otherwise
 * the direction with strictly more waiting cars gets green; a tie keeps the previous choice.
 */
module Controller {
  import opened Traffic

  /** The fairness bound used when none is given. */
  const DefaultMaxRedTime: real := 20.0

  /** Eastbound cars are waiting and East has been red for at least the bound. */
  predicate EastStarved(st: Observation, maxRedTime: real) {
    st.eastWaiting > 0 && st.eastRedTime >= maxRedTime
  }

  /** Southbound cars are waiting and South has been red for at least the bound. */
  predicate SouthStarved(st: Observation, maxRedTime: real) {
    st.southWaiting > 0 && st.southRedTime >= maxRedTime
  }

  /**
   * The phase the controller chooses after `previous`. Phase 1 is chosen exactly when East
   * is starved, or South is not starved and East has more waiting cars (or as many, with
   * phase 1 already chosen); phase 0 likewise for South, with East's starvation taking priority.
   */
  function Decision(st: Observation, maxRedTime: real, previous: int): (p: int)
    ensures p == 1 <==>
              EastStarved(st, maxRedTime) ||
              (!SouthStarved(st, maxRedTime) &&
                 (st.eastWaiting > st.southWaiting || (st.eastWaiting == st.southWaiting && previous == 1)))
    ensures p == 0 <==>
              !EastStarved(st, maxRedTime) &&
              (SouthStarved(st, maxRedTime) ||
                 st.southWaiting > st.eastWaiting || (st.eastWaiting == st.southWaiting && previous == 0))
    ensures (previous == 0 || previous == 1) ==> (p == 0 || p == 1)
  {
    if EastStarved(st, maxRedTime) then 1
    else if SouthStarved(st, maxRedTime) then 0
    else if st.eastWaiting > st.southWaiting then 1
    else if st.southWaiting > st.eastWaiting then 0
    else previous
  }

  /** East starvation forces phase 1 whatever South's counts and red time and the previous phase. */
  lemma EastStarvationWins(st: Observation, maxRedTime: real, previous: int, southWaiting: nat, southRedTime: real)
    requires EastStarved(st, maxRedTime)
    ensures Decision(st.(southWaiting := southWaiting, southRedTime := southRedTime), maxRedTime, previous) == 1
  {
  }

  /** Without East starvation, South starvation forces phase 0 whatever the counts and previous phase. */
  lemma SouthStarvationWins(st: Observation, maxRedTime: real, previous: int)
    requires !EastStarved(st, maxRedTime) && SouthStarved(st, maxRedTime)
    ensures Decision(st, maxRedTime, previous) == 0
  {
  }

  /** Without starvation and with equal counts, the previous phase is kept as it was. */
  lemma TieKeepsPrevious(st: Observation, maxRedTime: real, previous: int)
    requires !EastStarved(st, maxRedTime) && !SouthStarved(st, maxRedTime)
    requires st.eastWaiting == st.southWaiting
    ensures Decision(st, maxRedTime, previous) == previous
  {
  }

  /** Deciding twice on the same observation gives the same phase: the controller never oscillates by itself. */
  lemma DecisionStable(st: Observation, maxRedTime: real, previous: int)
    ensures Decision(st, maxRedTime, Decision(st, maxRedTime, previous)) == Decision(st, maxRedTime, previous)
  {
  }

  class SmartController {
    const maxRedTime: real
    var currentPhase: int

    constructor (maxRedTime: real := DefaultMaxRedTime)
      ensures this.maxRedTime == maxRedTime && currentPhase == 0
    {
      this.maxRedTime := maxRedTime;
      currentPhase := 0;
    }

    method Reset()
      modifies this
      ensures currentPhase == 0
    {
      currentPhase := 0;
    }

    /** Chooses the next phase, remembers it, and returns it. */
    method Decide(st: Observation) returns (p: int)
      modifies this
      ensures p == currentPhase
      ensures p == Decision(st, maxRedTime, old(currentPhase))
    {
      var eastWait := st.eastWaiting;
      var southWait := st.southWaiting;
      if eastWait > 0 && st.eastRedTime >= maxRedTime {
        currentPhase := 1;
        return currentPhase;
      }
      if southWait > 0 && st.southRedTime >= maxRedTime {
        currentPhase := 0;
        return currentPhase;
      }
      if eastWait > southWait {
        currentPhase := 1;
      } else if southWait > eastWait {
        currentPhase := 0;
      }
      return currentPhase;
    }
  }
}
