/** Startup constants of the intersection simulation (core/config.py). */
module Config {
  const WindowWidth: int := 800
  const WindowHeight: int := 800

  /** Width of each of the two crossing roads, in pixels. */
  const RoadWidth: int := 80

  /** Every car's rectangle is CarWidth wide (x) and CarLength tall (y), whatever its direction. */
  const CarLength: int := 40
  const CarWidth: int := 20

  /** A phase change is honoured only once the current phase has lasted this long (seconds). */
  const PhaseMinDurationSec: real := 3.0
}
