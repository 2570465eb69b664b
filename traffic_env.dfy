/**
 * The single-intersection simulation (core/traffic_env.py): cars on an eastbound and a
 * southbound lane, a central conflict box, a two-phase signal with a minimum green time,
 * and the per-direction red-time counters exposed to a controller.
 *
 * Phase 0 gives green to southbound traffic, phase 1 to eastbound traffic.
 */
module Traffic {
  import opened Config

  // ---------------------------------------------------------------------------
  // Rectangles (the part of pygame.Rect the simulation uses)
  // ---------------------------------------------------------------------------

  /** An integer axis-aligned rectangle: left edge, top edge, width, height. */
  datatype Rect = Rect(left: int, top: int, width: int, height: int)

  /**
   * Rectangle collision for rectangles of positive size: the open interiors intersect,
   * so two rectangles that only share an edge do not collide.
   */
  predicate Collide(a: Rect, b: Rect) {
    a.left < b.left + b.width && b.left < a.left + a.width &&
    a.top < b.top + b.height && b.top < a.top + a.height
  }

  /** The rectangle translated by (dx, dy). */
  function Move(r: Rect, dx: int, dy: int): Rect {
    Rect(r.left + dx, r.top + dy, r.width, r.height)
  }

  // ---------------------------------------------------------------------------
  // Geometry of the intersection
  // ---------------------------------------------------------------------------

  const CX: int := WindowWidth / 2
  const CY: int := WindowHeight / 2
  const ConflictHalfSize: int := RoadWidth / 2

  /** The central box where the two roads cross. */
  const ConflictBox: Rect :=
    Rect(CX - ConflictHalfSize, CY - ConflictHalfSize,
         (CX + ConflictHalfSize) - (CX - ConflictHalfSize),
         (CY + ConflictHalfSize) - (CY - ConflictHalfSize))

  /** Cars are evicted once they are this far outside the window in either axis. */
  const EvictMargin: int := 200

  lemma ConflictBoxValue()
    ensures ConflictBox == Rect(360, 360, 80, 80)
  {
  }

  // ---------------------------------------------------------------------------
  // Cars
  // ---------------------------------------------------------------------------

  datatype Direction = East | South

  /** One car: position, per-step displacement, approach direction and whether it was held this step. */
  datatype Car = Car(x: int, y: int, vx: int, vy: int, direction: Direction, waiting: bool)

  /** A car's rectangle is CarWidth by CarLength in every direction. */
  function CarRect(c: Car): (r: Rect)
    ensures r.left == c.x && r.top == c.y
    ensures r.width == 20 && r.height == 40
  {
    Rect(c.x, c.y, CarWidth, CarLength)
  }

  /** The car currently overlaps the conflict box. */
  predicate InBox(c: Car) {
    Collide(CarRect(c), ConflictBox)
  }

  /** The car's rectangle, moved by its displacement, would overlap the conflict box. */
  predicate WouldEnter(c: Car) {
    Collide(Move(CarRect(c), c.vx, c.vy), ConflictBox)
  }

  /** The car after moving one step: displaced by (vx, vy) and not waiting. */
  function Advance(c: Car): Car {
    c.(x := c.x + c.vx, y := c.y + c.vy, waiting := false)
  }

  /** The car held in place for one step: marked waiting. */
  function Hold(c: Car): Car {
    c.(waiting := true)
  }

  lemma AdvanceRect(c: Car)
    ensures CarRect(Advance(c)) == Move(CarRect(c), c.vx, c.vy)
    ensures InBox(Advance(c)) <==> WouldEnter(c)
  {
  }

  /** Whether `direction` has the green light in `phase`. */
  predicate Green(direction: Direction, phase: int) {
    (direction == East && phase == 1) || (direction == South && phase == 0)
  }

  // ---------------------------------------------------------------------------
  // Spawning
  // ---------------------------------------------------------------------------

  /** The per-step displacement of every car, in pixels; always positive. */
  type Speed = s: int | s > 0 witness 1

  const EastLaneY: int := CY - RoadWidth / 4
  const SouthLaneX: int := CX - RoadWidth / 4

  /** A new eastbound car: it enters at the left edge of the eastbound lane. */
  function EastArrival(speed: int): Car {
    Car(-CarLength, EastLaneY, speed, 0, East, false)
  }

  /** A new southbound car: it enters at the top edge of the southbound lane. */
  function SouthArrival(speed: int): Car {
    Car(SouthLaneX, -CarLength, 0, speed, South, false)
  }

  /** The cars one spawn round appends: eastbound first, then southbound. */
  function Arrivals(spawnEast: bool, spawnSouth: bool, speed: int): seq<Car> {
    (if spawnEast then [EastArrival(speed)] else []) +
    (if spawnSouth then [SouthArrival(speed)] else [])
  }

  /** A car travels along its own lane, in its own direction, at the simulation's speed. */
  predicate InLane(c: Car, speed: int) {
    match c.direction
    case East => c.vx == speed && c.vy == 0 && c.y == EastLaneY
    case South => c.vx == 0 && c.vy == speed && c.x == SouthLaneX
  }

  lemma ArrivalsAreFresh(spawnEast: bool, spawnSouth: bool, speed: int)
    ensures |Arrivals(spawnEast, spawnSouth, speed)| == (if spawnEast then 1 else 0) + (if spawnSouth then 1 else 0)
    ensures forall c :: c in Arrivals(spawnEast, spawnSouth, speed) ==>
              !InBox(c) && !c.waiting && OnScreen(c) && InLane(c, speed)
  {
  }

  // ---------------------------------------------------------------------------
  // The conflict-box rule
  // ---------------------------------------------------------------------------

  /** Some car other than the one at index i overlaps the conflict box. */
  predicate OtherInBox(cars: seq<Car>, i: int) {
    exists j :: 0 <= j < |cars| && j != i && InBox(cars[j])
  }

  /**
   * The right-of-way rule: a car in the box may always move (so it can leave); when another
   * car is in the box, an outside car may approach but not enter; when the box is empty, only
   * the direction with the green light may enter it.
   */
  predicate MayMove(cars: seq<Car>, i: int, phase: int)
    requires 0 <= i < |cars|
  {
    var c := cars[i];
    if InBox(c) then true
    else if OtherInBox(cars, i) then !WouldEnter(c)
    else if WouldEnter(c) then Green(c.direction, phase)
    else true
  }

  /** A car that already overlaps the box is always released. */
  lemma InBoxAlwaysMoves(cars: seq<Car>, i: int, phase: int)
    requires 0 <= i < |cars| && InBox(cars[i])
    ensures MayMove(cars, i, phase)
  {
  }

  /** While another car occupies the box, an outside car moves iff that move does not enter it. */
  lemma OccupiedBoxIsNotEntered(cars: seq<Car>, i: int, phase: int)
    requires 0 <= i < |cars| && !InBox(cars[i]) && OtherInBox(cars, i)
    ensures MayMove(cars, i, phase) <==> !WouldEnter(cars[i])
    ensures MayMove(cars, i, phase) ==> !InBox(Advance(cars[i]))
  {
  }

  /** With the box empty, an outside car about to enter moves iff its direction is green. */
  lemma EmptyBoxEnteredOnGreen(cars: seq<Car>, i: int, phase: int)
    requires 0 <= i < |cars| && !InBox(cars[i]) && !OtherInBox(cars, i)
    ensures WouldEnter(cars[i]) ==>
              (MayMove(cars, i, phase) <==>
                 (cars[i].direction == East && phase == 1) || (cars[i].direction == South && phase == 0))
    ensures !WouldEnter(cars[i]) ==> MayMove(cars, i, phase)
  {
  }

  /** A car only ever moves into the box when the box is otherwise empty and its light is green. */
  lemma EntryNeedsEmptyBoxAndGreen(cars: seq<Car>, i: int, phase: int)
    requires 0 <= i < |cars| && !InBox(cars[i]) && MayMove(cars, i, phase)
    requires InBox(Advance(cars[i]))
    ensures !OtherInBox(cars, i) && Green(cars[i].direction, phase)
  {
  }

  /**
   * The query at core/traffic_env.py: first the car's own box test, then a scan over the
   * other cars that stops at the first one found inside the box, then the entry test.
   * The car is named by its index: the Python compares car objects by identity, and every
   * car in the list is a distinct object.
   */
  method CanMove(cars: seq<Car>, i: nat, phase: int) returns (ok: bool)
    requires i < |cars|
    ensures ok == MayMove(cars, i, phase)
  {
    var box := ConflictBox;
    var rect := CarRect(cars[i]);
    if Collide(rect, box) {
      return true;
    }
    var anyInConflict := false;
    var j := 0;
    while j < |cars|
      invariant 0 <= j <= |cars|
      invariant !anyInConflict
      invariant forall k :: 0 <= k < j && k != i ==> !InBox(cars[k])
    {
      if j != i && Collide(CarRect(cars[j]), box) {
        anyInConflict := true;
        break;
      }
      j := j + 1;
    }
    var nextRect := Move(rect, cars[i].vx, cars[i].vy);
    var willOverlap := Collide(nextRect, box);
    if anyInConflict {
      return !willOverlap;
    }
    if willOverlap {
      if cars[i].direction == East && phase == 1 {
        return true;
      }
      if cars[i].direction == South && phase == 0 {
        return true;
      }
      return false;
    }
    return true;
  }

  // ---------------------------------------------------------------------------
  // The move loop, as a specification
  // ---------------------------------------------------------------------------

  /** The list after the car at index k has been judged and moved or held. */
  function UpdateAt(cars: seq<Car>, k: int, phase: int): seq<Car>
    requires 0 <= k < |cars|
  {
    cars[k := if MayMove(cars, k, phase) then Advance(cars[k]) else Hold(cars[k])]
  }

  /**
   * The list after the move loop has processed its first k cars, in order, each judged
   * against the list as already updated for the cars before it.
   */
  function MovePrefix(cars: seq<Car>, phase: int, k: nat): (r: seq<Car>)
    requires k <= |cars|
    ensures |r| == |cars|
    ensures forall j :: 0 <= j < k ==> r[j] == Advance(cars[j]) || r[j] == Hold(cars[j])
    ensures forall j :: k <= j < |cars| ==> r[j] == cars[j]
    decreases k
  {
    if k == 0 then cars else UpdateAt(MovePrefix(cars, phase, k - 1), k - 1, phase)
  }

  /** The list after the whole move loop. */
  function MoveAll(cars: seq<Car>, phase: int): seq<Car> {
    MovePrefix(cars, phase, |cars|)
  }

  /**
   * The move loop at core/traffic_env.py: the list is updated in place, car by car, so each
   * car is judged against the positions that the cars before it already reached in this tick.
   */
  method MoveCars(cars: seq<Car>, phase: int) returns (moved: seq<Car>)
    ensures moved == MoveAll(cars, phase)
  {
    moved := cars;
    var i := 0;
    while i < |moved|
      invariant 0 <= i <= |moved| == |cars|
      invariant moved == MovePrefix(cars, phase, i)
    {
      var ok := CanMove(moved, i, phase);
      if ok {
        moved := moved[i := Advance(moved[i])];
      } else {
        moved := moved[i := Hold(moved[i])];
      }
      i := i + 1;
    }
  }

  /** Once the loop is past index i, later iterations leave car i alone. */
  lemma {:induction false} MoveSettled(cars: seq<Car>, phase: int, i: nat, k: nat)
    requires i < k <= |cars|
    ensures MovePrefix(cars, phase, k)[i] == MovePrefix(cars, phase, i + 1)[i]
    decreases k
  {
    if k > i + 1 {
      MoveSettled(cars, phase, i, k - 1);
    }
  }

  /**
   * What the move loop does to each car: it is held (waiting) exactly when the rule, applied
   * to the list as already updated for the cars before it, denies it; a released car is
   * displaced by its velocity and a held car keeps its position; direction and velocity never change.
   */
  lemma MoveAllEach(cars: seq<Car>, phase: int, i: nat)
    requires i < |cars|
    ensures var before := MovePrefix(cars, phase, i);
            var after := MoveAll(cars, phase)[i];
            before[i] == cars[i] &&
            after.waiting == !MayMove(before, i, phase) &&
            (after.waiting ==> after.x == cars[i].x && after.y == cars[i].y) &&
            (!after.waiting ==> after.x == cars[i].x + cars[i].vx && after.y == cars[i].y + cars[i].vy) &&
            after.direction == cars[i].direction && after.vx == cars[i].vx && after.vy == cars[i].vy
  {
    if i + 1 < |cars| {
      MoveSettled(cars, phase, i, |cars|);
    }
  }

  // ---------------------------------------------------------------------------
  // Mutual exclusion on the conflict box
  // ---------------------------------------------------------------------------

  /** At most one car overlaps the conflict box. */
  predicate Exclusive(cars: seq<Car>) {
    forall i, j :: 0 <= i < j < |cars| ==> !InBox(cars[i]) || !InBox(cars[j])
  }

  /** Judging and moving one car keeps the box to at most one occupant. */
  lemma UpdatePreservesExclusive(cars: seq<Car>, k: int, phase: int)
    requires 0 <= k < |cars| && Exclusive(cars)
    ensures Exclusive(UpdateAt(cars, k, phase))
  {
  }

  /** The whole move loop keeps the box to at most one occupant. */
  lemma {:induction false} MovePreservesExclusive(cars: seq<Car>, phase: int, k: nat)
    requires k <= |cars| && Exclusive(cars)
    ensures Exclusive(MovePrefix(cars, phase, k))
    decreases k
  {
    if k > 0 {
      MovePreservesExclusive(cars, phase, k - 1);
      UpdatePreservesExclusive(MovePrefix(cars, phase, k - 1), k - 1, phase);
    }
  }

  /** Appending cars that are outside the box keeps the box to at most one occupant. */
  lemma ExclusiveAppend(cars: seq<Car>, more: seq<Car>)
    requires Exclusive(cars)
    requires forall c :: c in more ==> !InBox(c)
    ensures Exclusive(cars + more)
  {
  }

  /** A held car is never inside the box: every car the move loop has processed and held is outside. */
  predicate StoppedOutside(cars: seq<Car>) {
    forall c :: c in cars ==> c.waiting ==> !InBox(c)
  }

  lemma {:induction false} MoveStopsOutside(cars: seq<Car>, phase: int, k: nat)
    requires k <= |cars|
    ensures forall j :: 0 <= j < k ==> MovePrefix(cars, phase, k)[j].waiting ==> !InBox(MovePrefix(cars, phase, k)[j])
    decreases k
  {
    if k > 0 {
      MoveStopsOutside(cars, phase, k - 1);
      var prev := MovePrefix(cars, phase, k - 1);
      var r := MovePrefix(cars, phase, k);
      assert r == UpdateAt(prev, k - 1, phase);
      forall j | 0 <= j < k && r[j].waiting
        ensures !InBox(r[j])
      {
        if j < k - 1 {
          assert r[j] == prev[j];
        } else if !MayMove(prev, k - 1, phase) {
          assert !InBox(prev[k - 1]);
        }
      }
    }
  }

  // ---------------------------------------------------------------------------
  // Eviction of cars that left the screen
  // ---------------------------------------------------------------------------

  /** The car is within the eviction margin around the window, in both axes. */
  predicate OnScreen(c: Car) {
    -EvictMargin < c.x < WindowWidth + EvictMargin && -EvictMargin < c.y < WindowHeight + EvictMargin
  }

  /** The list without the cars that left the screen. */
  function Evict(cars: seq<Car>): (r: seq<Car>)
    ensures |r| <= |cars|
    ensures forall c :: c in r <==> c in cars && OnScreen(c)
  {
    if cars == [] then []
    else (if OnScreen(cars[0]) then [cars[0]] else []) + Evict(cars[1..])
  }

  /** Eviction keeps the survivors in their original order: it distributes over concatenation. */
  lemma {:induction false} EvictAppend(a: seq<Car>, b: seq<Car>)
    ensures Evict(a + b) == Evict(a) + Evict(b)
  {
    if a == [] {
      assert a + b == b;
    } else {
      assert (a + b)[0] == a[0];
      assert (a + b)[1..] == a[1..] + b;
      EvictAppend(a[1..], b);
    }
  }

  /** When no car has left the screen, eviction removes nothing. */
  lemma {:induction false} EvictKeepsAllOnScreen(cars: seq<Car>)
    requires forall c :: c in cars ==> OnScreen(c)
    ensures Evict(cars) == cars
  {
    if cars != [] {
      assert cars[0] in cars;
      assert forall c :: c in cars[1..] ==> c in cars;
      EvictKeepsAllOnScreen(cars[1..]);
    }
  }

  lemma {:induction false} EvictPreservesExclusive(cars: seq<Car>)
    requires Exclusive(cars)
    ensures Exclusive(Evict(cars))
  {
    if cars != [] {
      var t := cars[1..];
      assert Exclusive(t) by {
        forall i, j | 0 <= i < j < |t|
          ensures !InBox(t[i]) || !InBox(t[j])
        {
          assert t[i] == cars[i + 1] && t[j] == cars[j + 1];
        }
      }
      EvictPreservesExclusive(t);
      if OnScreen(cars[0]) && InBox(cars[0]) {
        forall c | c in Evict(t)
          ensures !InBox(c)
        {
          var j :| 0 <= j < |t| && t[j] == c;
          assert cars[j + 1] == c;
        }
        var r := [cars[0]] + Evict(t);
        forall i, j | 0 <= i < j < |r|
          ensures !InBox(r[i]) || !InBox(r[j])
        {
          if i > 0 {
            assert r[i] == Evict(t)[i - 1] && r[j] == Evict(t)[j - 1];
          } else {
            assert r[j] in Evict(t);
          }
        }
      } else if OnScreen(cars[0]) {
        var r := [cars[0]] + Evict(t);
        forall i, j | 0 <= i < j < |r|
          ensures !InBox(r[i]) || !InBox(r[j])
        {
          if i > 0 {
            assert r[i] == Evict(t)[i - 1] && r[j] == Evict(t)[j - 1];
          }
        }
      }
    }
  }

  /** The car-list part of the simulation's invariant. */
  predicate CarsValid(cars: seq<Car>, speed: int) {
    (forall c :: c in cars ==> OnScreen(c) && InLane(c, speed)) &&
    StoppedOutside(cars) && Exclusive(cars)
  }

  /** The two lanes cross only inside the conflict box: overlapping cars of different directions are both in it. */
  lemma LanesCrossInBox(a: Car, b: Car, speed: int)
    requires InLane(a, speed) && InLane(b, speed) && a.direction != b.direction
    ensures Collide(CarRect(a), CarRect(b)) ==> InBox(a) && InBox(b)
  {
  }

  /**
   * Perpendicular traffic never collides: in a valid car list an eastbound and a southbound
   * car never have overlapping rectangles, because the lanes only cross inside the conflict
   * box, where at most one car can be.
   */
  lemma NoOpposingOverlap(cars: seq<Car>, speed: int, i: int, j: int)
    requires CarsValid(cars, speed)
    requires 0 <= i < |cars| && 0 <= j < |cars| && cars[i].direction != cars[j].direction
    ensures !Collide(CarRect(cars[i]), CarRect(cars[j]))
  {
    assert cars[i] in cars && cars[j] in cars;
    LanesCrossInBox(cars[i], cars[j], speed);
    if i < j {
      assert !InBox(cars[i]) || !InBox(cars[j]);
    } else {
      assert !InBox(cars[j]) || !InBox(cars[i]);
    }
  }

  /**
   * The move loop followed by eviction re-establishes the car invariant from cars that are
   * in their lanes with at most one of them in the box (as after spawning).
   */
  lemma MoveKeepsCarsValid(arrived: seq<Car>, phase: int, speed: int)
    requires forall c :: c in arrived ==> InLane(c, speed)
    requires Exclusive(arrived)
    ensures CarsValid(Evict(MoveAll(arrived, phase)), speed)
  {
    var moving := MoveAll(arrived, phase);
    MovePreservesExclusive(arrived, phase, |arrived|);
    MoveStopsOutside(arrived, phase, |arrived|);
    EvictPreservesExclusive(moving);
    forall c | c in moving
      ensures InLane(c, speed) && (c.waiting ==> !InBox(c))
    {
      var j :| 0 <= j < |moving| && moving[j] == c;
      assert arrived[j] in arrived;
    }
  }

  // ---------------------------------------------------------------------------
  // Observation for the controller
  // ---------------------------------------------------------------------------

  /** The snapshot a controller sees: waiting counts and red times per direction. */
  datatype Observation = Observation(eastWaiting: nat, southWaiting: nat, eastRedTime: real, southRedTime: real)

  /** The number of cars with the given direction that are waiting. */
  function CountWaiting(cars: seq<Car>, d: Direction): (n: nat)
    ensures n <= |cars|
    ensures n == 0 <==> forall c :: c in cars ==> !(c.direction == d && c.waiting)
  {
    if cars == [] then 0
    else (if cars[0].direction == d && cars[0].waiting then 1 else 0) + CountWaiting(cars[1..], d)
  }

  /** A car is counted for at most one direction. */
  lemma {:induction false} CountWaitingBothDirections(cars: seq<Car>)
    ensures CountWaiting(cars, East) + CountWaiting(cars, South) <= |cars|
  {
    if cars != [] {
      CountWaitingBothDirections(cars[1..]);
    }
  }

  // ---------------------------------------------------------------------------
  // The simulation object
  // ---------------------------------------------------------------------------

  class TrafficEnv {
    /** Per-step displacement of every spawned car, in pixels. */
    const speed: Speed
    /** 0: southbound green, eastbound red; 1: eastbound green, southbound red. */
    var phase: int
    var phaseTimer: real
    var cars: seq<Car>
    var time: real
    var redTimeEast: real
    var redTimeSouth: real

    /**
     * The state the simulation keeps: a valid phase, non-negative timers, every car on screen
     * and in its lane, held cars outside the box, and at most one car inside the box.
     */
    ghost predicate Valid()
      reads this
    {
      (phase == 0 || phase == 1) &&
      phaseTimer >= 0.0 && time >= 0.0 && redTimeEast >= 0.0 && redTimeSouth >= 0.0 &&
      CarsValid(cars, speed)
    }

    constructor (speed: Speed)
      ensures Valid() && this.speed == speed
      ensures cars == [] && phase == 0 && phaseTimer == 0.0 && time == 0.0
      ensures redTimeEast == 0.0 && redTimeSouth == 0.0
    {
      this.speed := speed;
      phase := 0;
      phaseTimer := 0.0;
      cars := [];
      time := 0.0;
      redTimeEast := 0.0;
      redTimeSouth := 0.0;
    }

    /** Clears the cars and returns to phase 0 with every timer at zero; the result does not depend on the prior state. */
    method Reset()
      modifies this
      ensures Valid()
      ensures cars == [] && phase == 0 && phaseTimer == 0.0 && time == 0.0
      ensures redTimeEast == 0.0 && redTimeSouth == 0.0
    {
      cars := [];
      phase := 0;
      phaseTimer := 0.0;
      time := 0.0;
      redTimeEast := 0.0;
      redTimeSouth := 0.0;
    }

    /** Appends at most one eastbound and then at most one southbound car, as decided by the two draws. */
    method SpawnCars(spawnEast: bool, spawnSouth: bool)
      requires Valid()
      modifies this
      ensures Valid()
      ensures cars == old(cars) + Arrivals(spawnEast, spawnSouth, speed)
      ensures phase == old(phase) && phaseTimer == old(phaseTimer) && time == old(time)
      ensures redTimeEast == old(redTimeEast) && redTimeSouth == old(redTimeSouth)
    {
      ArrivalsAreFresh(spawnEast, spawnSouth, speed);
      ExclusiveAppend(cars, Arrivals(spawnEast, spawnSouth, speed));
      if spawnEast {
        cars := cars + [EastArrival(speed)];
      }
      if spawnSouth {
        cars := cars + [SouthArrival(speed)];
      }
    }

    /** Switches to the given phase and restarts the phase timer. */
    method SetPhase(p: int)
      requires p == 0 || p == 1
      modifies this
      ensures phase == p && phaseTimer == 0.0
      ensures cars == old(cars) && time == old(time)
      ensures redTimeEast == old(redTimeEast) && redTimeSouth == old(redTimeSouth)
    {
      phase := p;
      phaseTimer := 0.0;
    }

    /**
     * One tick: advance the phase timer; honour a change request once the minimum green has
     * elapsed; update the red times for the phase now in force; spawn; judge and move every car
     * in list order; evict cars that left the screen; advance the clock.
     */
    method Step(phaseAction: int, dt: real, spawnEast: bool, spawnSouth: bool)
      requires Valid()
      requires dt > 0.0 && (phaseAction == 0 || phaseAction == 1)
      modifies this
      ensures Valid()
      ensures old(phaseTimer) + dt >= PhaseMinDurationSec && phaseAction != old(phase) ==>
                phase == phaseAction && phaseTimer == 0.0
      ensures !(old(phaseTimer) + dt >= PhaseMinDurationSec && phaseAction != old(phase)) ==>
                phase == old(phase) && phaseTimer == old(phaseTimer) + dt
      ensures phase == 1 ==> redTimeEast == 0.0 && redTimeSouth == old(redTimeSouth) + dt
      ensures phase == 0 ==> redTimeSouth == 0.0 && redTimeEast == old(redTimeEast) + dt
      ensures cars == Evict(MoveAll(old(cars) + Arrivals(spawnEast, spawnSouth, speed), phase))
      ensures time == old(time) + dt
    {
      phaseTimer := phaseTimer + dt;
      if phaseTimer >= PhaseMinDurationSec && phaseAction != phase {
        SetPhase(phaseAction);
      }

      if phase == 1 {
        redTimeSouth := redTimeSouth + dt;
        redTimeEast := 0.0;
      } else {
        redTimeEast := redTimeEast + dt;
        redTimeSouth := 0.0;
      }

      SpawnCars(spawnEast, spawnSouth);

      ghost var arrived := cars;
      var moving := MoveCars(cars, phase);
      MoveKeepsCarsValid(arrived, phase, speed);
      cars := Evict(moving);
      time := time + dt;
    }

    /** In every state the simulation reaches, no eastbound car overlaps a southbound car. */
    lemma NoCollision(i: int, j: int)
      requires Valid()
      requires 0 <= i < |cars| && 0 <= j < |cars| && cars[i].direction != cars[j].direction
      ensures !Collide(CarRect(cars[i]), CarRect(cars[j]))
    {
      NoOpposingOverlap(cars, speed, i, j);
    }

    /** The controller's snapshot: the waiting cars counted per direction, and the two red times. */
    function GetState(): (st: Observation)
      reads this
      ensures st.eastWaiting + st.southWaiting <= |cars|
      ensures st.eastWaiting > 0 <==> exists c :: c in cars && c.direction == East && c.waiting
      ensures st.southWaiting > 0 <==> exists c :: c in cars && c.direction == South && c.waiting
      ensures st.eastRedTime == redTimeEast && st.southRedTime == redTimeSouth
    {
      CountWaitingBothDirections(cars);
      Observation(CountWaiting(cars, East), CountWaiting(cars, South), redTimeEast, redTimeSouth)
    }
  }
}
