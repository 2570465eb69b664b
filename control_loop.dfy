/**
 * One round of the interactive driver loop (main.py): observe the simulation, let the
 * rule-based controller choose a phase, and step the simulation with it. Frame timing,
 * events and rendering are not part of this model.
 */
module ControlLoop {
  import opened Config
  import opened Traffic
  import opened Controller

  /**
   * A starved direction gets green within this round as soon as the minimum green time has
   * elapsed, East before South; and the signal then shows exactly the controller's choice.
   */
  method ControlTick(env: TrafficEnv, controller: SmartController, dt: real, spawnEast: bool, spawnSouth: bool)
    requires env.Valid() && dt > 0.0
    requires controller.currentPhase == 0 || controller.currentPhase == 1
    modifies env, controller
    ensures env.Valid()
    ensures controller.currentPhase == 0 || controller.currentPhase == 1
    ensures old(env.phaseTimer) + dt >= PhaseMinDurationSec ==> env.phase == controller.currentPhase
    ensures old(env.phaseTimer) + dt >= PhaseMinDurationSec && EastStarved(old(env.GetState()), controller.maxRedTime) ==>
              env.phase == 1 && env.redTimeEast == 0.0
    ensures old(env.phaseTimer) + dt >= PhaseMinDurationSec && SouthStarved(old(env.GetState()), controller.maxRedTime)
              && !EastStarved(old(env.GetState()), controller.maxRedTime) ==>
              env.phase == 0 && env.redTimeSouth == 0.0
  {
    var state := env.GetState();
    var phase := controller.Decide(state);
    env.Step(phase, dt, spawnEast, spawnSouth);
  }
}
