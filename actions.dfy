// The primitive actions and the detector of drone.py: the direction table,
// one-shot Move / Wait / Scan actions and the Chebyshev-square queries they
// and the detector run. The Drone class itself is in module Drones.

module Actions {
  import opened Environment
  import opened EventSystem

  /** `DIRECTIONS`: the name of a direction to its unit delta. */
  const Directions: map<string, Position> := map[
    "up" := Position(0, -1),
    "down" := Position(0, 1),
    "left" := Position(-1, 0),
    "right" := Position(1, 0),
    "stay" := Position(0, 0)
  ]

  /** The four directions that random choices and command parsers draw from. */
  const Compass: seq<string> := ["up", "down", "left", "right"]

  /** A value in an event payload. */
  datatype Value =
    | EntityValue(entity: Entity)
    | PositionValue(position: Position)
    | TextValue(text: string)
    | EntitiesValue(entities: seq<Entity>)

  type DroneEvent = Event<Value>

  function DroneMoved(drone: Entity, position: Position): DroneEvent {
    Event("drone_moved", map["drone" := EntityValue(drone), "position" := PositionValue(position)])
  }

  function MovementBlocked(drone: Entity, direction: string): DroneEvent {
    Event("movement_blocked", map["drone" := EntityValue(drone), "direction" := TextValue(direction)])
  }

  function ScanCompleted(drone: Entity, entities: seq<Entity>): DroneEvent {
    Event("scan_completed", map["drone" := EntityValue(drone), "entities" := EntitiesValue(entities)])
  }

  function TargetDetected(drone: Entity, targets: seq<Entity>): DroneEvent {
    Event("target_detected", map["drone" := EntityValue(drone), "targets" := EntitiesValue(targets)])
  }

  /** The delta of a direction; a name outside the table does not move. */
  function Delta(direction: string): Position {
    if direction in Directions then Directions[direction] else Position(0, 0)
  }

  lemma DeltaValues()
    ensures Delta("up") == Position(0, -1) && Delta("down") == Position(0, 1)
    ensures Delta("left") == Position(-1, 0) && Delta("right") == Position(1, 0)
  {
  }

  /** Where one move attempt in `direction` leaves a drone standing at `p`:
      one step when the cell it leads to is on the grid, otherwise no move. */
  function MoveTarget(grid: Grid, p: Position, direction: string): (q: Position)
    ensures q != p ==> direction in Directions && q == p.Add(Directions[direction]) && grid.IsValidPosition(q)
    ensures direction in Directions && grid.IsValidPosition(p.Add(Directions[direction])) ==> q == p.Add(Directions[direction])
    ensures grid.IsValidPosition(p) ==> grid.IsValidPosition(q)
    ensures Manhattan(p, q) <= 1
  {
    if direction in Directions && grid.IsValidPosition(p.Add(Directions[direction])) then
      p.Add(Directions[direction])
    else
      p
  }

  /** The events one move attempt fires: `drone_moved` or `movement_blocked`,
      nothing for an unknown direction. */
  function MoveEvents(grid: Grid, drone: Entity, p: Position, direction: string): (r: seq<DroneEvent>)
    ensures |r| == if direction in Directions then 1 else 0
    ensures direction in Directions && grid.IsValidPosition(p.Add(Directions[direction])) ==>
              r == [DroneMoved(drone, p.Add(Directions[direction]))]
    ensures direction in Directions && !grid.IsValidPosition(p.Add(Directions[direction])) ==>
              r == [MovementBlocked(drone, direction)]
  {
    if direction !in Directions then []
    else if grid.IsValidPosition(p.Add(Directions[direction])) then [DroneMoved(drone, p.Add(Directions[direction]))]
    else [MovementBlocked(drone, direction)]
  }

  /** `n` copies of one direction. */
  function Repeat(d: string, n: nat): (r: seq<string>)
    ensures |r| == n
    ensures forall i :: 0 <= i < n ==> r[i] == d
  {
    if n == 0 then [] else [d] + Repeat(d, n - 1)
  }

  /** Where a sequence of unobstructed moves leads from `p`. */
  function Walk(p: Position, path: seq<string>): Position
    decreases path
  {
    if path == [] then p else Walk(p.Add(Delta(path[0])), path[1..])
  }

  lemma {:induction false} WalkAppend(p: Position, a: seq<string>, b: seq<string>)
    ensures Walk(p, a + b) == Walk(Walk(p, a), b)
    decreases a
  {
    if a == [] {
      assert a + b == b;
    } else {
      assert (a + b)[1..] == a[1..] + b;
      WalkAppend(p.Add(Delta(a[0])), a[1..], b);
    }
  }

  /** Two walks chained end to end are one walk along both paths. */
  lemma WalkThrough(p: Position, a: seq<string>, mid: Position, b: seq<string>, q: Position)
    requires Walk(p, a) == mid && Walk(mid, b) == q
    ensures Walk(p, a + b) == q
  {
    WalkAppend(p, a, b);
  }

  /** `|delta|` moves along one axis: towards `negative` when `delta < 0`,
      towards `positive` otherwise. */
  function Straight(delta: int, negative: string, positive: string): (r: seq<string>)
    ensures |r| == Abs(delta)
  {
    Repeat(if delta < 0 then negative else positive, Abs(delta))
  }

  /** A straight run is its first move followed by the shorter run. */
  lemma StraightUnfold(delta: int, negative: string, positive: string)
    requires delta != 0
    ensures Straight(delta, negative, positive) ==
              [if delta < 0 then negative else positive] +
              Straight(if delta < 0 then delta + 1 else delta - 1, negative, positive)
  {
  }

  /** Horizontal moves shift by `dx` along the x axis only. */
  lemma {:induction false} StraightWalkX(p: Position, dx: int)
    ensures Walk(p, Straight(dx, "left", "right")) == Position(p.x + dx, p.y)
    decreases Abs(dx)
  {
    if dx != 0 {
      var h := if dx < 0 then "left" else "right";
      var rest := if dx < 0 then dx + 1 else dx - 1;
      StraightUnfold(dx, "left", "right");
      DeltaValues();
      StraightWalkX(p.Add(Delta(h)), rest);
      assert ([h] + Straight(rest, "left", "right"))[1..] == Straight(rest, "left", "right");
    }
  }


  /** Vertical moves shift by `dy` along the y axis only. */
  lemma {:induction false} StraightWalkY(p: Position, dy: int)
    ensures Walk(p, Straight(dy, "up", "down")) == Position(p.x, p.y + dy)
    decreases Abs(dy)
  {
    if dy != 0 {
      var h := if dy < 0 then "up" else "down";
      var rest := if dy < 0 then dy + 1 else dy - 1;
      StraightUnfold(dy, "up", "down");
      DeltaValues();
      StraightWalkY(p.Add(Delta(h)), rest);
      assert ([h] + Straight(rest, "up", "down"))[1..] == Straight(rest, "up", "down");
    }
  }


  /** Horizontal moves then vertical ones reach the target. */
  lemma HorizontalFirstReaches(from: Position, target: Position)
    ensures Walk(from, Straight(target.x - from.x, "left", "right") + Straight(target.y - from.y, "up", "down")) == target
  {
    var mid := Position(target.x, from.y);
    var a, b := Straight(target.x - from.x, "left", "right"), Straight(target.y - from.y, "up", "down");
    assert Walk(from, a) == mid by {
      StraightWalkX(from, target.x - from.x);
    }
    assert Walk(mid, b) == target by {
      StraightWalkY(mid, target.y - from.y);
    }
    WalkThrough(from, a, mid, b, target);
  }

  /** Vertical moves then horizontal ones reach the target. */
  lemma VerticalFirstReaches(from: Position, target: Position)
    ensures Walk(from, Straight(target.y - from.y, "up", "down") + Straight(target.x - from.x, "left", "right")) == target
  {
    var mid := Position(from.x, target.y);
    var a, b := Straight(target.y - from.y, "up", "down"), Straight(target.x - from.x, "left", "right");
    assert Walk(from, a) == mid by {
      StraightWalkY(from, target.y - from.y);
    }
    assert Walk(mid, b) == target by {
      StraightWalkX(mid, target.x - from.x);
    }
    WalkThrough(from, a, mid, b, target);
  }

  // ---------------------------------------------------------------------
  // Wait: a tick counter

  datatype WaitState = WaitState(tick: int, completed: bool)

  /** One `WaitAction.execute`: the new state and the value returned. */
  function WaitStep(ticks: int, s: WaitState): (WaitState, bool) {
    if s.completed then (s, true)
    else (WaitState(s.tick + 1, s.tick + 1 >= ticks), s.tick + 1 >= ticks)
  }

  /** The state after `k` calls on a fresh (or reset) wait, and what the
      `k`-th call returned. */
  function WaitRun(ticks: int, k: nat): (WaitState, bool) {
    if k == 0 then (WaitState(0, false), false)
    else WaitStep(ticks, WaitRun(ticks, k - 1).0)
  }

  /** `WaitAction(n)` returns false on calls 1..n-1 and true from call n on;
      its counter stops at n (at 1 when n < 1). */
  lemma {:induction false} WaitCompletesOnCall(ticks: int, k: nat)
    requires 1 <= k
    ensures WaitRun(ticks, k).1 == (k >= ticks)
    ensures WaitRun(ticks, k).0 == WaitState(if k < ticks then k else if ticks < 1 then 1 else ticks, k >= ticks)
  {
    if k > 1 {
      WaitCompletesOnCall(ticks, k - 1);
    }
  }

  // ---------------------------------------------------------------------
  // Scan: the Chebyshev square, dx outer and dy inner

  /** What `get_entities_at` yields for a cell the scan visits. */
  function CellEntities(grid: Grid, p: Position): seq<Entity>
    reads grid, grid.entities
  {
    if grid.IsValidPosition(p) then At(grid.entities, p) else []
  }

  /** The entities found in column `dx` for dy in [-r, dyEnd). */
  function ColumnScan(grid: Grid, c: Position, r: int, dx: int, dyEnd: int): seq<Entity>
    reads grid, grid.entities
    decreases dyEnd + r
  {
    if dyEnd <= -r then []
    else ColumnScan(grid, c, r, dx, dyEnd - 1) + CellEntities(grid, Position(c.x + dx, c.y + dyEnd - 1))
  }

  /** The entities found in columns dx in [-r, dxEnd). */
  function SquareScan(grid: Grid, c: Position, r: int, dxEnd: int): seq<Entity>
    reads grid, grid.entities
    decreases dxEnd + r
  {
    if dxEnd <= -r then []
    else SquareScan(grid, c, r, dxEnd - 1) + ColumnScan(grid, c, r, dxEnd - 1, r + 1)
  }

  /** Everything a scan of radius `r` around `c` collects, in visiting order. */
  function Square(grid: Grid, c: Position, r: int): seq<Entity>
    reads grid, grid.entities
  {
    SquareScan(grid, c, r, r + 1)
  }

  lemma {:induction false} ColumnScanMembers(grid: Grid, c: Position, r: int, dx: int, dyEnd: int, e: Entity)
    ensures e in ColumnScan(grid, c, r, dx, dyEnd) <==>
              e in grid.entities && grid.IsValidPosition(e.position) &&
              e.position.x == c.x + dx && -r <= e.position.y - c.y < dyEnd
    decreases dyEnd + r
  {
    if dyEnd > -r {
      ColumnScanMembers(grid, c, r, dx, dyEnd - 1, e);
    }
  }

  lemma {:induction false} SquareScanMembers(grid: Grid, c: Position, r: int, dxEnd: int, e: Entity)
    ensures e in SquareScan(grid, c, r, dxEnd) <==>
              e in grid.entities && grid.IsValidPosition(e.position) &&
              -r <= e.position.x - c.x < dxEnd && -r <= e.position.y - c.y <= r
    decreases dxEnd + r
  {
    if dxEnd > -r {
      var before := SquareScan(grid, c, r, dxEnd - 1);
      var column := ColumnScan(grid, c, r, dxEnd - 1, r + 1);
      assert SquareScan(grid, c, r, dxEnd) == before + column;
      SquareScanMembers(grid, c, r, dxEnd - 1, e);
      ColumnScanMembers(grid, c, r, dxEnd - 1, r + 1, e);
      var dx := e.position.x - c.x;
      if dx == dxEnd - 1 {
        assert e !in before;
      } else {
        assert e !in column;
      }
    }
  }

  /** A scan finds exactly the registered entities on valid cells within
      Chebyshev distance `r` of the centre. */
  lemma SquareMembers(grid: Grid, c: Position, r: int, e: Entity)
    ensures e in Square(grid, c, r) <==>
              e in grid.entities && grid.IsValidPosition(e.position) && Chebyshev(e.position, c) <= r
  {
    SquareScanMembers(grid, c, r, r + 1, e);
  }

  /** The nested loops shared by `ScanAction.execute` and `Detector.check`. */
  method CollectSquare(grid: Grid, center: Position, range: int) returns (found: seq<Entity>)
    ensures found == Square(grid, center, range)
  {
    found := [];
    if range < 0 {
      return;
    }
    var dx := -range;
    while dx <= range
      invariant -range <= dx <= range + 1
      invariant found == SquareScan(grid, center, range, dx)
      decreases range + 1 - dx
    {
      var column := CollectColumn(grid, center, range, dx);
      SquareScanNext(grid, center, range, dx);
      found := found + column;
      dx := dx + 1;
    }
  }

  /** The scan up to column `dx + 1` is the scan up to `dx`, then column `dx`. */
  lemma SquareScanNext(grid: Grid, c: Position, r: int, dx: int)
    requires -r <= dx
    ensures SquareScan(grid, c, r, dx + 1) == SquareScan(grid, c, r, dx) + ColumnScan(grid, c, r, dx, r + 1)
  {
  }

  /** The inner loop of the scan: column `dx`, dy from `-range` to `range`. */
  method CollectColumn(grid: Grid, center: Position, range: int, dx: int) returns (found: seq<Entity>)
    ensures found == ColumnScan(grid, center, range, dx, range + 1)
  {
    found := [];
    var dy := -range;
    while dy <= range
      invariant dy == -range || -range <= dy <= range + 1
      invariant found == ColumnScan(grid, center, range, dx, dy)
      decreases range + 1 - dy
    {
      var p := Position(center.x + dx, center.y + dy);
      if grid.IsValidPosition(p) {
        found := found + grid.EntitiesAt(p);
      }
      dy := dy + 1;
    }
  }

  // ---------------------------------------------------------------------
  // The action objects

  datatype ActionKind = Move(direction: string) | Wait(ticks: int) | Scan(range: int)

  /** The mutable part of an action: `completed`, and the tick counter that
      only waits use. */
  datatype ActionState = ActionState(completed: bool, tick: int)

  /** What one `execute` does: the action's new state, the drone's new
      position, the value returned and the events fired. */
  datatype ActionOutcome = ActionOutcome(state: ActionState, position: Position, done: bool, fired: seq<DroneEvent>)

  /** One `execute` of an action of kind `kind` in state `s`, for the drone
      `body` standing at `pos`. */
  function ActionStep(grid: Grid, body: Entity, kind: ActionKind, s: ActionState, pos: Position): (r: ActionOutcome)
    reads grid, grid.entities
    ensures r.done == r.state.completed
    ensures s.completed ==> r == ActionOutcome(s, pos, true, [])
    ensures !kind.Wait? ==> r.done && r.state.tick == s.tick
    ensures !kind.Move? ==> r.position == pos
    ensures grid.IsValidPosition(pos) ==> grid.IsValidPosition(r.position)
  {
    if s.completed then ActionOutcome(s, pos, true, [])
    else
      match kind
      case Move(d) => ActionOutcome(ActionState(true, s.tick), MoveTarget(grid, pos, d), true, MoveEvents(grid, body, pos, d))
      case Wait(ticks) =>
        var w := WaitStep(ticks, WaitState(s.tick, s.completed));
        ActionOutcome(ActionState(w.0.completed, w.0.tick), pos, w.1, [])
      case Scan(range) => ActionOutcome(ActionState(true, s.tick), pos, true, [ScanCompleted(body, Square(grid, pos, range))])
  }

  /** What a pending move or scan does on its `execute`: a move steps to
      `MoveTarget` and fires `drone_moved` with the new cell, or
      `movement_blocked` with its direction, or nothing for an unknown
      direction; a scan stays put and fires one `scan_completed` carrying
      every entity on the valid cells of its square. Both complete. */
  lemma ActionStepEvents(grid: Grid, body: Entity, kind: ActionKind, s: ActionState, pos: Position)
    requires !s.completed && !kind.Wait?
    ensures var r := ActionStep(grid, body, kind, s, pos);
            r.done && r.state == ActionState(true, s.tick) &&
            (kind.Move? ==> r.position == MoveTarget(grid, pos, kind.direction) &&
                            r.fired == MoveEvents(grid, body, pos, kind.direction)) &&
            (kind.Move? && kind.direction in Directions && grid.IsValidPosition(pos.Add(Directions[kind.direction])) ==>
               r.fired == [DroneMoved(body, r.position)]) &&
            (kind.Move? && kind.direction in Directions && !grid.IsValidPosition(pos.Add(Directions[kind.direction])) ==>
               r.position == pos && r.fired == [MovementBlocked(body, kind.direction)]) &&
            (kind.Move? && kind.direction !in Directions ==> r.position == pos && r.fired == []) &&
            (kind.Scan? ==> r.position == pos && r.fired == [ScanCompleted(body, Square(grid, pos, kind.range))])
  {
  }

  /** A one-shot primitive action. `currentTick` is used by waits only. */
  class Action {
    const kind: ActionKind
    var completed: bool
    var currentTick: int

    constructor MoveAction(direction: string)
      ensures kind == Move(direction) && State() == ActionState(false, 0)
    {
      kind := Move(direction);
      completed := false;
      currentTick := 0;
    }

    constructor WaitAction(ticks: int)
      ensures kind == Wait(ticks) && State() == ActionState(false, 0)
    {
      kind := Wait(ticks);
      completed := false;
      currentTick := 0;
    }

    constructor ScanAction(range: int)
      ensures kind == Scan(range) && State() == ActionState(false, 0)
    {
      kind := Scan(range);
      completed := false;
      currentTick := 0;
    }

    function State(): ActionState
      reads this
    {
      ActionState(completed, currentTick)
    }

    /** `execute`: returns whether the action is now complete, with the
        events it fired. Completed actions return true and do nothing. */
    method Execute(body: Entity, grid: Grid) returns (done: bool, fired: seq<DroneEvent>)
      modifies this, body
      ensures ActionOutcome(State(), body.position, done, fired) ==
              ActionStep(grid, body, kind, old(State()), old(body.position))
    {
      if completed {
        return true, [];
      }
      match kind {
        case Move(direction) =>
          if direction !in Directions {
            completed := true;
            return true, [];
          }
          var newPosition := body.position.Add(Directions[direction]);
          if grid.IsValidPosition(newPosition) {
            body.position := newPosition;
            completed := true;
            fired := [DroneMoved(body, newPosition)];
          } else {
            completed := true;
            fired := [MovementBlocked(body, direction)];
          }
          done := true;
        case Wait(ticks) =>
          currentTick := currentTick + 1;
          fired := [];
          if currentTick >= ticks {
            completed := true;
            return true, fired;
          }
          done := false;
        case Scan(range) =>
          var detected := CollectSquare(grid, body.position, range);
          fired := [ScanCompleted(body, detected)];
          completed := true;
          done := true;
      }
    }

    /** `reset`: pending again; a wait also restarts its counter. */
    method Reset()
      modifies this
      ensures State() == ActionState(false, if kind.Wait? then 0 else old(currentTick))
    {
      completed := false;
      if kind.Wait? {
        currentTick := 0;
      }
    }
  }

  /** A wait of `n` ticks run by `execute` returns false on calls 1..n-1 and
      true from call `n` on (from the first call when `n < 1`). */
  lemma {:induction false} WaitActionRun(grid: Grid, body: Entity, ticks: int, k: nat, pos: Position)
    requires 1 <= k
    ensures var s := WaitRun(ticks, k - 1).0;
            ActionStep(grid, body, Wait(ticks), ActionState(s.completed, s.tick), pos).done == (k >= ticks)
  {
    WaitCompletesOnCall(ticks, k);
    if k > 1 {
      WaitCompletesOnCall(ticks, k - 1);
    }
  }

  // ---------------------------------------------------------------------
  // Detector

  /** The comprehension of `Detector.check`: targets other than the drone. */
  function Targets(found: seq<Entity>, selfId: int): (r: seq<Entity>)
    ensures forall e :: e in r ==> e in found && e.entityType == "target" && e.id != selfId
    ensures forall e :: e in found && e.entityType == "target" && e.id != selfId ==> e in r
  {
    if found == [] then []
    else (if found[0].entityType == "target" && found[0].id != selfId then [found[0]] else []) +
         Targets(found[1..], selfId)
  }

  /** The detector reports exactly the targets, other than the drone itself,
      standing on valid cells within Chebyshev distance `r`. */
  lemma DetectsExactly(grid: Grid, c: Position, r: int, selfId: int, e: Entity)
    ensures e in Targets(Square(grid, c, r), selfId) <==>
              e in grid.entities && grid.IsValidPosition(e.position) && Chebyshev(e.position, c) <= r &&
              e.entityType == "target" && e.id != selfId
  {
    SquareMembers(grid, c, r, e);
  }

  /** A detector of range 2 at (5, 5) sees a target at (6, 7) (distance 2)
      and not one at (8, 5) (distance 3). */
  lemma DetectorRangeExample(grid: Grid, near: Entity, far: Entity, selfId: int)
    requires grid.width >= 10 && grid.height >= 10
    requires near in grid.entities && near.position == Position(6, 7)
    requires near.entityType == "target" && near.id != selfId
    requires far.position == Position(8, 5)
    ensures near in Targets(Square(grid, Position(5, 5), 2), selfId)
    ensures far !in Targets(Square(grid, Position(5, 5), 2), selfId)
  {
    DetectsExactly(grid, Position(5, 5), 2, selfId, near);
    DetectsExactly(grid, Position(5, 5), 2, selfId, far);
  }

  /** The events `check` fires for a detector: `target_detected` with the
      targets in range, when there are any and the detector is attached. */
  function Detections(grid: Grid, d: Detector): (r: seq<DroneEvent>)
    reads d, d.drone, grid, grid.entities
    ensures |r| <= 1
    ensures r != [] ==> d.drone != null && r[0].eventType == "target_detected"
  {
    if d.drone == null then []
    else
      var targets := Targets(Square(grid, d.drone.position, d.range), d.drone.id);
      if targets == [] then [] else [TargetDetected(d.drone, targets)]
  }

  class Detector {
    const range: int
    var drone: Entity?

    constructor (range: int)
      ensures this.range == range && drone == null
    {
      this.range := range;
      drone := null;
    }

    method AttachTo(drone: Entity)
      modifies this
      ensures this.drone == drone
    {
      this.drone := drone;
    }

    /** `check`: the targets in range, and `target_detected` fired when there
        are any. Without an attached drone: nothing. */
    method Check(grid: Grid) returns (targets: seq<Entity>, fired: seq<DroneEvent>)
      ensures drone == null ==> targets == [] && fired == []
      ensures drone != null ==> targets == Targets(Square(grid, drone.position, range), drone.id)
      ensures |fired| == (if targets == [] then 0 else 1)
      ensures fired != [] ==> fired[0] == TargetDetected(drone, targets)
      ensures fired == Detections(grid, this)
    {
      if drone == null {
        return [], [];
      }
      var detected := CollectSquare(grid, drone.position, range);
      targets := Targets(detected, drone.id);
      fired := [];
      if targets != [] {
        fired := [TargetDetected(drone, targets)];
      }
    }
  }
}
