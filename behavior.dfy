// Multi-step drone behaviours (behavior.py): move-to, explore, patrol and
// search, and the factory that builds them from a type name and parameters.
//
// Each behaviour is a class whose `Update` is proved against a step function
// on values (`MoveToStep`, `ExploreStep`, `PatrolStep`, `SearchStep`); the
// lemmas about runs of updates are stated on those functions. Randomness is
// an injected index into `Compass`. Between updates a behaviour never holds a
// half-executed action (every action it starts is a move or a scan, which
// complete on their first execution), so `current_action` is not a field here.

module Behaviors {
  import opened Wrappers
  import opened Environment
  import opened EventSystem
  import opened Actions

  /** What one `update` call does: the behaviour's new state, the drone's new
      position, the value returned and the events fired. */
  datatype Outcome<S> = Outcome(state: S, position: Position, done: bool, fired: seq<DroneEvent>)

  predicate ValidPicks(picks: seq<nat>) {
    forall i :: 0 <= i < |picks| ==> picks[i] < |Compass|
  }

  // ---------------------------------------------------------------------
  // Path planning: all horizontal moves first, then all vertical ones

  /** The route `_plan_path` builds from `from` to `target`. */
  function Plan(from: Position, target: Position): (r: seq<string>)
    ensures |r| == Manhattan(from, target)
  {
    Straight(target.x - from.x, "left", "right") + Straight(target.y - from.y, "up", "down")
  }

  /** The first move of a plan. */
  function PlanHead(p: Position, t: Position): string {
    if p.x < t.x then "right"
    else if p.x > t.x then "left"
    else if p.y < t.y then "down"
    else "up"
  }

  /** The cell the first move of a plan leads to. */
  function PlanNext(p: Position, t: Position): (q: Position)
    ensures q == p.Add(Delta(PlanHead(p, t)))
  {
    DeltaValues();
    if p.x < t.x then Position(p.x + 1, p.y)
    else if p.x > t.x then Position(p.x - 1, p.y)
    else if p.y < t.y then Position(p.x, p.y + 1)
    else Position(p.x, p.y - 1)
  }

  /** A plan is its first move followed by the plan from the cell that move
      reaches. */
  lemma PlanUnfold(p: Position, t: Position)
    requires p != t
    ensures Plan(p, t) == [PlanHead(p, t)] + Plan(PlanNext(p, t), t)
  {
    if p.x != t.x {
      PlanUnfoldRow(p, t);
    } else {
      PlanUnfoldColumn(p, t);
    }
  }

  /** Off the target's column, the first move is horizontal. */
  lemma PlanUnfoldRow(p: Position, t: Position)
    requires p.x != t.x
    ensures Plan(p, t) == [PlanHead(p, t)] + Plan(PlanNext(p, t), t)
  {
    var q := PlanNext(p, t);
    StraightUnfold(t.x - p.x, "left", "right");
    assert t.x - q.x == if t.x - p.x < 0 then t.x - p.x + 1 else t.x - p.x - 1;
    assert q.y == p.y;
  }

  /** In the target's column, the first move is vertical. */
  lemma PlanUnfoldColumn(p: Position, t: Position)
    requires p.x == t.x && p.y != t.y
    ensures Plan(p, t) == [PlanHead(p, t)] + Plan(PlanNext(p, t), t)
  {
    var q := PlanNext(p, t);
    StraightUnfold(t.y - p.y, "up", "down");
    assert t.y - q.y == if t.y - p.y < 0 then t.y - p.y + 1 else t.y - p.y - 1;
    assert q.x == p.x;
    assert Straight(0, "left", "right") == [];
    assert Plan(p, t) == Straight(t.y - p.y, "up", "down");
    assert Plan(q, t) == Straight(t.y - q.y, "up", "down");
  }

  /** Moving the first planned move onto the route taken so far keeps the
      whole route. */
  lemma PlanExtend(taken: seq<string>, p: Position, t: Position)
    requires p != t
    ensures (taken + [PlanHead(p, t)]) + Plan(PlanNext(p, t), t) == taken + Plan(p, t)
    ensures Manhattan(PlanNext(p, t), t) < Manhattan(p, t)
  {
    PlanUnfold(p, t);
  }

  /** Followed on an open grid, a plan ends on its target. */
  lemma PlanReaches(from: Position, target: Position)
    ensures Walk(from, Plan(from, target)) == target
  {
    HorizontalFirstReaches(from, target);
  }


  /** Between two cells of the grid the first move of a plan stays on the grid. */
  lemma PlanHeadStaysOnGrid(grid: Grid, p: Position, t: Position)
    requires p != t && grid.IsValidPosition(p) && grid.IsValidPosition(t)
    ensures grid.IsValidPosition(p.Add(Delta(PlanHead(p, t))))
    ensures Manhattan(p.Add(Delta(PlanHead(p, t))), t) + 1 == Manhattan(p, t)
  {
  }

  // ---------------------------------------------------------------------
  // MoveToBehavior

  datatype MoveToState = MoveToState(completed: bool, path: seq<string>)

  /** One `MoveToBehavior.update` for a drone standing at `pos`. */
  function MoveToStep(grid: Grid, body: Entity, target: Position, s: MoveToState, pos: Position): Outcome<MoveToState> {
    if s.completed then Outcome(s, pos, true, [])
    else if pos == target then Outcome(MoveToState(true, s.path), pos, true, [])
    else if s.path == [] then Outcome(s, pos, false, [])
    else
      var q := MoveTarget(grid, pos, s.path[0]);
      Outcome(MoveToState(false, if q != target then Plan(q, target) else s.path[1..]),
              q, false, MoveEvents(grid, body, pos, s.path[0]))
  }

  /** An update returns true exactly when the behaviour had completed or the
      drone stands on the target on entry; it then marks the behaviour
      completed, leaves the drone where it is and fires nothing. */
  lemma MoveToStepDone(grid: Grid, body: Entity, target: Position, s: MoveToState, pos: Position)
    ensures var r := MoveToStep(grid, body, target, s, pos);
            (r.done <==> s.completed || pos == target) &&
            (r.done ==> r.state.completed && r.position == pos && r.fired == [])
  {
  }

  /** The outcome of the `k`-th update of a run starting in `s` at `pos`. */
  function MoveToRun(grid: Grid, body: Entity, target: Position, s: MoveToState, pos: Position, k: nat): Outcome<MoveToState> {
    if k == 0 then Outcome(s, pos, false, [])
    else
      var prev := MoveToRun(grid, body, target, s, pos, k - 1);
      MoveToStep(grid, body, target, prev.state, prev.position)
  }

  /** A move-to on course: pending, holding the plan from where the drone
      stands, between two cells of the grid. */
  ghost predicate OnCourse(grid: Grid, target: Position, s: MoveToState, pos: Position) {
    !s.completed && s.path == Plan(pos, target) && grid.IsValidPosition(pos) && grid.IsValidPosition(target)
  }

  /** On course and not yet there, an update moves the drone one cell closer
      along its plan, fires `drone_moved`, and stays on course. */
  lemma MoveToStepCloser(grid: Grid, body: Entity, target: Position, s: MoveToState, pos: Position)
    requires OnCourse(grid, target, s, pos) && pos != target
    ensures var o := MoveToStep(grid, body, target, s, pos);
            !o.done && o.position == pos.Add(Delta(PlanHead(pos, target))) &&
            Manhattan(o.position, target) + 1 == Manhattan(pos, target) &&
            o.fired == [DroneMoved(body, o.position)] &&
            OnCourse(grid, target, o.state, o.position)
  {
    PlanUnfold(pos, target);
    PlanHeadStaysOnGrid(grid, pos, target);
  }

  /** Started `d` cells away on the grid, the drone follows its initial
      plan move by move: after `k` updates it has made the first `k` moves,
      is `d - k` cells away, and no update so far returned true; the update
      after the `d`-th returns true. */
  lemma {:induction false} MoveToArrival(grid: Grid, body: Entity, target: Position, s: MoveToState, pos: Position, k: nat)
    requires OnCourse(grid, target, s, pos) && k <= Manhattan(pos, target)
    ensures var o := MoveToRun(grid, body, target, s, pos, k);
            OnCourse(grid, target, o.state, o.position) && !o.done &&
            o.state.path == s.path[k..] && o.position == Walk(pos, s.path[..k]) &&
            Manhattan(o.position, target) == Manhattan(pos, target) - k
  {
    if k == 0 {
      assert s.path[..0] == [];
    } else {
      MoveToArrival(grid, body, target, s, pos, k - 1);
      var prev := MoveToRun(grid, body, target, s, pos, k - 1);
      FollowOneMove(grid, body, target, prev.state, prev.position, s.path, k);
      WalkSnoc(pos, s.path, k);
    }
  }

  /** The update after the last planned move returns true. */
  lemma MoveToArrivalDone(grid: Grid, body: Entity, target: Position, s: MoveToState, pos: Position)
    requires OnCourse(grid, target, s, pos)
    ensures !MoveToRun(grid, body, target, s, pos, Manhattan(pos, target)).done
    ensures MoveToRun(grid, body, target, s, pos, Manhattan(pos, target)).position == target
    ensures MoveToRun(grid, body, target, s, pos, Manhattan(pos, target) + 1).done
  {
    MoveToArrival(grid, body, target, s, pos, Manhattan(pos, target));
  }

  /** One update on course consumes the next move of the original plan. */
  lemma FollowOneMove(grid: Grid, body: Entity, target: Position, s: MoveToState, pos: Position, plan: seq<string>, k: nat)
    requires OnCourse(grid, target, s, pos) && pos != target
    requires 1 <= k <= |plan| && s.path == plan[k - 1..]
    ensures var o := MoveToStep(grid, body, target, s, pos);
            OnCourse(grid, target, o.state, o.position) && !o.done &&
            o.state.path == plan[k..] && o.position == pos.Add(Delta(plan[k - 1])) &&
            Manhattan(o.position, target) + 1 == Manhattan(pos, target)
  {
    MoveToStepCloser(grid, body, target, s, pos);
    PlanUnfold(pos, target);
    assert plan[k - 1..] == [plan[k - 1]] + plan[k..];
  }

  lemma WalkSnoc(p: Position, path: seq<string>, k: nat)
    requires 1 <= k <= |path|
    ensures Walk(p, path[..k]) == Walk(p, path[..k - 1]).Add(Delta(path[k - 1]))
  {
    assert path[..k] == path[..k - 1] + [path[k - 1]];
    WalkAppend(p, path[..k - 1], [path[k - 1]]);
    assert [path[k - 1]][1..] == [];
  }

  /** A target off the grid is never reached: the behaviour never completes. */
  lemma {:induction false} MoveToOffGridNeverCompletes(grid: Grid, body: Entity, target: Position, s: MoveToState, pos: Position, k: nat)
    requires !grid.IsValidPosition(target) && grid.IsValidPosition(pos) && !s.completed
    ensures var o := MoveToRun(grid, body, target, s, pos, k);
            !o.done && !o.state.completed && grid.IsValidPosition(o.position)
  {
    if k > 0 {
      MoveToOffGridNeverCompletes(grid, body, target, s, pos, k - 1);
    }
  }

  lemma MoveToExamplePlan()
    ensures Plan(Position(0, 0), Position(3, 2)) == ["right", "right", "right", "down", "down"]
  {
    assert Straight(3, "left", "right") == ["right", "right", "right"];
    assert Straight(2, "up", "down") == ["down", "down"];
  }

  /** Started at (0, 0) towards (3, 2) on a grid holding both, the drone
      follows right, right, right, down, down (`MoveToArrival`), stands on the
      target after the fifth update, and the sixth update returns true. */
  lemma MoveToExample(grid: Grid, body: Entity, s: MoveToState)
    requires grid.width >= 4 && grid.height >= 3
    requires s == MoveToState(false, Plan(Position(0, 0), Position(3, 2)))
    ensures s.path == ["right", "right", "right", "down", "down"]
    ensures MoveToRun(grid, body, Position(3, 2), s, Position(0, 0), 5).position == Position(3, 2)
    ensures !MoveToRun(grid, body, Position(3, 2), s, Position(0, 0), 5).done
    ensures MoveToRun(grid, body, Position(3, 2), s, Position(0, 0), 6).done
  {
    var t := Position(3, 2);
    var p0 := Position(0, 0);
    MoveToExamplePlan();
    assert OnCourse(grid, t, s, p0) && Manhattan(p0, t) == 5;
    MoveToArrivalDone(grid, body, t, s, p0);
  }

  class MoveToBehavior {
    const target: Position
    var completed: bool
    var path: seq<string>

    constructor (target: Position)
      ensures this.target == target && State() == MoveToState(false, [])
    {
      this.target := target;
      completed := false;
      path := [];
    }

    function State(): MoveToState
      reads this
    {
      MoveToState(completed, path)
    }

    /** `start`: plans the route from where the drone stands. */
    method Start(body: Entity)
      modifies this
      ensures State() == MoveToState(old(completed), Plan(body.position, target))
    {
      PlanPath(body.position);
    }

    /** `_plan_path`: horizontal moves until the column matches, then
        vertical ones. */
    method PlanPath(from: Position)
      modifies `path
      ensures path == Plan(from, target)
    {
      path := [];
      var current := from;
      while current != target
        invariant path + Plan(current, target) == Plan(from, target)
        decreases Manhattan(current, target)
      {
        ghost var before, at := path, current;
        if current.x < target.x {
          path := path + ["right"];
          current := Position(current.x + 1, current.y);
        } else if current.x > target.x {
          path := path + ["left"];
          current := Position(current.x - 1, current.y);
        } else if current.y < target.y {
          path := path + ["down"];
          current := Position(current.x, current.y + 1);
        } else {
          // the column matches and current != target, so current.y > target.y
          path := path + ["up"];
          current := Position(current.x, current.y - 1);
        }
        assert path == before + [PlanHead(at, target)] && current == PlanNext(at, target);
        PlanExtend(before, at, target);
      }
    }

    /** `update`: completes on arrival; otherwise takes the next planned move
        and, when that did not reach the target, replans from where the drone
        now stands (which is what recovers from a blocked move). */
    method Update(body: Entity, grid: Grid) returns (done: bool, fired: seq<DroneEvent>)
      modifies this, body
      ensures Outcome(State(), body.position, done, fired) ==
              MoveToStep(grid, body, target, old(State()), old(body.position))
    {
      if completed {
        return true, [];
      }
      if body.position == target {
        completed := true;
        return true, [];
      }
      fired := [];
      if path != [] {
        var action := new Action.MoveAction(path[0]);
        path := path[1..];
        var finished;
        finished, fired := action.Execute(body, grid);
        if finished && body.position != target {
          PlanPath(body.position);
        }
      }
      done := false;
    }
  }

  // ---------------------------------------------------------------------
  // ExploreBehavior

  datatype ExploreState = ExploreState(completed: bool, currentStep: int)

  /** One `ExploreBehavior.update`; `pick` is the random choice among
      `Compass`. Blocked moves count as steps too. */
  function ExploreStep(grid: Grid, body: Entity, steps: int, s: ExploreState, pos: Position, pick: nat): Outcome<ExploreState>
    requires pick < |Compass|
  {
    if s.completed then Outcome(s, pos, true, [])
    else if steps > 0 && s.currentStep >= steps then Outcome(ExploreState(true, s.currentStep), pos, true, [])
    else Outcome(ExploreState(false, s.currentStep + 1), MoveTarget(grid, pos, Compass[pick]), false,
                 MoveEvents(grid, body, pos, Compass[pick]))
  }

  /** An update returns true exactly when the behaviour had completed or a
      positive budget is spent; otherwise it makes one move attempt, which
      fires one event and counts one step. */
  lemma ExploreStepDone(grid: Grid, body: Entity, steps: int, s: ExploreState, pos: Position, pick: nat)
    requires pick < |Compass|
    ensures var r := ExploreStep(grid, body, steps, s, pos, pick);
            (r.done <==> s.completed || (steps > 0 && s.currentStep >= steps)) &&
            r.done == r.state.completed &&
            (!r.done ==> r.state.currentStep == s.currentStep + 1 && |r.fired| == 1)
  {
  }

  /** The outcome of the last of the updates driven by `picks`. */
  function ExploreRun(grid: Grid, body: Entity, steps: int, s: ExploreState, pos: Position, picks: seq<nat>): Outcome<ExploreState>
    requires ValidPicks(picks)
    decreases |picks|
  {
    if picks == [] then Outcome(s, pos, false, [])
    else
      var prev := ExploreRun(grid, body, steps, s, pos, picks[..|picks| - 1]);
      ExploreStep(grid, body, steps, prev.state, prev.position, picks[|picks| - 1])
  }

  /** Until the budget is spent (for ever when `steps <= 0`) every update
      moves, counts one step and returns false; the drone stays on the grid. */
  lemma {:induction false} ExploreCounts(grid: Grid, body: Entity, steps: int, s: ExploreState, pos: Position, picks: seq<nat>)
    requires ValidPicks(picks) && !s.completed && grid.IsValidPosition(pos)
    requires steps <= 0 || (0 <= s.currentStep && s.currentStep + |picks| <= steps)
    ensures var o := ExploreRun(grid, body, steps, s, pos, picks);
            o.state == ExploreState(false, s.currentStep + |picks|) && !o.done && grid.IsValidPosition(o.position)
    decreases |picks|
  {
    if picks != [] {
      ExploreCounts(grid, body, steps, s, pos, picks[..|picks| - 1]);
    }
  }

  /** With a budget of `steps > 0`, started fresh, the update after `k` moves
      returns true exactly when `k == steps`. */
  lemma ExploreFinishes(grid: Grid, body: Entity, steps: int, pos: Position, picks: seq<nat>, pick: nat)
    requires ValidPicks(picks) && pick < |Compass| && grid.IsValidPosition(pos)
    requires 0 < steps && |picks| <= steps
    ensures var o := ExploreRun(grid, body, steps, ExploreState(false, 0), pos, picks);
            ExploreStep(grid, body, steps, o.state, o.position, pick).done <==> |picks| == steps
  {
    ExploreCounts(grid, body, steps, ExploreState(false, 0), pos, picks);
  }

  class ExploreBehavior {
    const steps: int
    var completed: bool
    var currentStep: int

    constructor (steps: int)
      ensures this.steps == steps && State() == ExploreState(false, 0)
    {
      this.steps := steps;
      completed := false;
      currentStep := 0;
    }

    function State(): ExploreState
      reads this
    {
      ExploreState(completed, currentStep)
    }

    method Update(body: Entity, grid: Grid, pick: nat) returns (done: bool, fired: seq<DroneEvent>)
      requires pick < |Compass|
      modifies this, body
      ensures Outcome(State(), body.position, done, fired) ==
              ExploreStep(grid, body, steps, old(State()), old(body.position), pick)
    {
      if completed {
        return true, [];
      }
      if steps > 0 && currentStep >= steps {
        completed := true;
        return true, [];
      }
      var action := new Action.MoveAction(Compass[pick]);
      var finished;
      finished, fired := action.Execute(body, grid);
      if finished {
        currentStep := currentStep + 1;
      }
      done := false;
    }
  }

  // ---------------------------------------------------------------------
  // PatrolBehavior

  /** The move-to currently driving a patrol: its target and its state. */
  datatype Leg = Leg(target: Position, move: MoveToState)

  datatype PatrolState = PatrolState(completed: bool, index: int, loop: int, leg: Option<Leg>)

  datatype LegCounters = LegCounters(index: int, loop: int, completed: bool)

  /** The counters after a patrol over `n` waypoints creates a new leg: the
      index wraps, a wrap counts a loop, and the loop that reaches `loops`
      (when `loops >= 0`) ends the patrol. */
  function AdvanceLeg(n: nat, loops: int, index: int, loop: int): LegCounters
    requires n > 0
  {
    var i := (index + 1) % n;
    var l := if i == 0 then loop + 1 else loop;
    LegCounters(i, l, i == 0 && 0 <= loops <= l)
  }

  /** One `PatrolBehavior.update`: when there is no leg or the last one has
      completed, start a leg towards the current waypoint and advance the
      counters (ending the patrol without running the new leg when the last
      loop is done); then run the leg once. */
  function PatrolStep(grid: Grid, body: Entity, waypoints: seq<Position>, loops: int, s: PatrolState, pos: Position): (r: Outcome<PatrolState>)
    requires 0 <= s.index < |waypoints|
    ensures 0 <= r.state.index < |waypoints|
  {
    if s.completed then Outcome(s, pos, true, [])
    else if s.leg.None? || s.leg.value.move.completed then
      var target := waypoints[s.index];
      var started := Leg(target, MoveToState(false, Plan(pos, target)));
      var c := AdvanceLeg(|waypoints|, loops, s.index, s.loop);
      if c.completed then Outcome(PatrolState(true, c.index, c.loop, Some(started)), pos, true, [])
      else RunLeg(grid, body, c.index, c.loop, started, pos)
    else
      RunLeg(grid, body, s.index, s.loop, s.leg.value, pos)
  }

  /** One update of the current leg inside a patrol. */
  function RunLeg(grid: Grid, body: Entity, index: int, loop: int, leg: Leg, pos: Position): (r: Outcome<PatrolState>)
    ensures r.state.index == index && !r.done
  {
    var o := MoveToStep(grid, body, leg.target, leg.move, pos);
    Outcome(PatrolState(false, index, loop, Some(Leg(leg.target, o.state))), o.position, false, o.fired)
  }

  /** An update with no running leg creates one towards the current
      waypoint and advances the counters by `AdvanceLeg`. When that ends the
      patrol, it returns true without running the leg: the drone stays and
      nothing fires. Otherwise it runs the new leg once and returns false. */
  lemma PatrolStepNewLeg(grid: Grid, body: Entity, waypoints: seq<Position>, loops: int, s: PatrolState, pos: Position)
    requires 0 <= s.index < |waypoints|
    requires !s.completed && (s.leg.None? || s.leg.value.move.completed)
    ensures var r := PatrolStep(grid, body, waypoints, loops, s, pos);
            var c := AdvanceLeg(|waypoints|, loops, s.index, s.loop);
            var target := waypoints[s.index];
            var o := MoveToStep(grid, body, target, MoveToState(false, Plan(pos, target)), pos);
            r.state.index == c.index && r.state.loop == c.loop && r.state.completed == c.completed &&
            r.done == c.completed &&
            (c.completed ==> r.position == pos && r.fired == [] &&
                             r.state.leg == Some(Leg(target, MoveToState(false, Plan(pos, target))))) &&
            (!c.completed ==> r.position == o.position && r.fired == o.fired &&
                              r.state.leg == Some(Leg(target, o.state)))
  {
  }

  /** An update with a leg still running leaves the counters alone, runs
      that leg once and returns false. */
  lemma PatrolStepRunsLeg(grid: Grid, body: Entity, waypoints: seq<Position>, loops: int, s: PatrolState, pos: Position)
    requires 0 <= s.index < |waypoints|
    requires !s.completed && s.leg.Some? && !s.leg.value.move.completed
    ensures var r := PatrolStep(grid, body, waypoints, loops, s, pos);
            var o := MoveToStep(grid, body, s.leg.value.target, s.leg.value.move, pos);
            r.state.index == s.index && r.state.loop == s.loop && !r.state.completed && !r.done &&
            r.position == o.position && r.fired == o.fired && r.state.leg == Some(Leg(s.leg.value.target, o.state))
  {
  }

  /** The counters after `k` legs have been created on a fresh patrol (no
      further legs once it has ended). */
  function Legs(n: nat, loops: int, k: nat): LegCounters
    requires n > 0
  {
    if k == 0 then LegCounters(0, 0, false)
    else
      var prev := Legs(n, loops, k - 1);
      if prev.completed then prev else AdvanceLeg(n, loops, prev.index, prev.loop)
  }

  lemma {:induction false} MulMonotone(n: nat, a: int, b: int)
    requires a <= b
    ensures n * a <= n * b
    decreases n
  {
    if n > 0 {
      MulMonotone(n - 1, a, b);
    }
  }

  /** The number of loops a patrol runs: `loops`, but at least one. */
  function LoopsRun(loops: int): nat {
    if loops < 1 then 1 else loops
  }

  /** Quotient and remainder are unique. */
  lemma DivUnique(n: nat, i: int, a: int, j: int, b: int)
    requires 0 <= i < n && 0 <= j < n && i + n * a == j + n * b
    ensures i == j && a == b
  {
    if a < b {
      assert n * (a + 1) == n * a + n;
      MulMonotone(n, a + 1, b);
    } else if b < a {
      assert n * (b + 1) == n * b + n;
      MulMonotone(n, b + 1, a);
    }
  }

  /** The wrap-around of the waypoint index. */
  lemma NextIndex(n: nat, i: int)
    requires 0 <= i < n
    ensures (i + 1) % n == if i + 1 < n then i + 1 else 0
  {
    var j := i + 1;
    assert j == j % n + n * (j / n);
    if j < n {
      DivUnique(n, j % n, j / n, j, 0);
    } else {
      DivUnique(n, j % n, j / n, 0, 1);
    }
  }

  /** With `loops >= 0` a patrol over `n` waypoints ends when its
      `n * max(loops, 1)`-th leg is created (before running it); with
      `loops < 0` it never ends. In between, after `k` legs the counters
      satisfy `index + n * loop == k`. */
  lemma {:induction false} LegCount(n: nat, loops: int, k: nat)
    requires n > 0
    requires loops < 0 || k <= n * LoopsRun(loops)
    ensures var c := Legs(n, loops, k);
            0 <= c.index < n && 0 <= c.loop && c.index + n * c.loop == k &&
            c.completed == (0 <= loops && k == n * LoopsRun(loops))
  {
    if k > 0 {
      LegCount(n, loops, k - 1);
      var prev := Legs(n, loops, k - 1);
      assert !prev.completed;
      NextIndex(n, prev.index);
      if prev.index + 1 < n {
        LegWithinLoop(n, loops, k, prev.index, prev.loop);
      } else {
        LegEndsLoop(n, loops, k, prev.index, prev.loop);
      }
    }
  }

  /** A new leg that does not wrap the index cannot end the patrol. */
  lemma LegWithinLoop(n: nat, loops: int, k: nat, i: int, l: int)
    requires 0 <= i && i + 1 < n && 0 <= l && i + n * l + 1 == k
    ensures var c := LegCounters(i + 1, l, false);
            0 <= c.index < n && c.index + n * c.loop == k &&
            c.completed == (0 <= loops && k == n * LoopsRun(loops))
  {
    if 0 <= loops && k == n * LoopsRun(loops) {
      DivUnique(n, 0, LoopsRun(loops), i + 1, l);
    }
  }

  /** A new leg that wraps the index counts a loop; it ends the patrol when
      that loop reaches `loops`, which is when `k == n * max(loops, 1)`. */
  lemma LegEndsLoop(n: nat, loops: int, k: nat, i: int, l: int)
    requires n > 0 && i + 1 == n && 0 <= l && i + n * l + 1 == k
    requires loops < 0 || k <= n * LoopsRun(loops)
    ensures var c := LegCounters(0, l + 1, 0 <= loops <= l + 1);
            0 <= c.loop && c.index + n * c.loop == k &&
            c.completed == (0 <= loops && k == n * LoopsRun(loops))
  {
    var L := LoopsRun(loops);
    assert k == n * (l + 1) by {
      assert n * (l + 1) == n * l + n;
    }
    if 0 <= loops {
      assert l + 1 <= L by {
        if l + 1 > L {
          MulMonotone(n, L + 1, l + 1);
        }
      }
      if k == n * L {
        DivUnique(n, 0, L, 0, l + 1);
      }
    }
  }

  /** Two waypoints and `loops == 2`: the patrol ends when it creates its
      fourth leg, so it completes three legs, not four; the third leg's
      creation does not end it. */
  lemma PatrolTwoLoopsExample()
    ensures !Legs(2, 2, 3).completed && Legs(2, 2, 4).completed
  {
    LegCount(2, 2, 3);
    LegCount(2, 2, 4);
  }

  /** Along a run of updates the counters are always `Legs(n, loops, k)`,
      `k` being the number of legs created so far: an update that creates a
      leg moves to `k + 1`, any other keeps `k`. With `LegCount` this gives
      the patrol's ending for every run. */
  lemma PatrolStepLegs(grid: Grid, body: Entity, waypoints: seq<Position>, loops: int, s: PatrolState, pos: Position, k: nat)
    requires 0 <= s.index < |waypoints|
    requires LegCounters(s.index, s.loop, s.completed) == Legs(|waypoints|, loops, k)
    ensures var r := PatrolStep(grid, body, waypoints, loops, s, pos);
            var created := !s.completed && (s.leg.None? || s.leg.value.move.completed);
            LegCounters(r.state.index, r.state.loop, r.state.completed) == Legs(|waypoints|, loops, if created then k + 1 else k)
  {
    if !s.completed && (s.leg.None? || s.leg.value.move.completed) {
      PatrolStepNewLeg(grid, body, waypoints, loops, s, pos);
    } else if !s.completed {
      PatrolStepRunsLeg(grid, body, waypoints, loops, s, pos);
    }
  }

  /** `loops == 0` runs one loop, exactly like `loops == 1`. */
  lemma PatrolZeroLoopsIsOne(n: nat, k: nat)
    requires n > 0 && k <= n
    ensures Legs(n, 0, k) == Legs(n, 1, k)
  {
    LegCount(n, 0, k);
    LegCount(n, 1, k);
    var a, b := Legs(n, 0, k), Legs(n, 1, k);
    DivUnique(n, a.index, a.loop, b.index, b.loop);
  }

  class PatrolBehavior {
    const waypoints: seq<Position>
    const loops: int
    var completed: bool
    var currentWaypointIndex: int
    var currentLoop: int
    var currentMove: MoveToBehavior?

    constructor (waypoints: seq<Position>, loops: int)
      ensures this.waypoints == waypoints && this.loops == loops
      ensures State() == PatrolState(false, 0, 0, None)
    {
      this.waypoints := waypoints;
      this.loops := loops;
      completed := false;
      currentWaypointIndex := 0;
      currentLoop := 0;
      currentMove := null;
    }

    /** The waypoint index is in range; it can only fail for an empty list,
        which the source does not handle. */
    ghost predicate Valid()
      reads this
    {
      0 <= currentWaypointIndex < |waypoints|
    }

    ghost function State(): PatrolState
      reads this, currentMove
    {
      PatrolState(completed, currentWaypointIndex, currentLoop,
                  if currentMove == null then None else Some(Leg(currentMove.target, currentMove.State())))
    }

    method Update(body: Entity, grid: Grid) returns (done: bool, fired: seq<DroneEvent>)
      requires Valid()
      modifies this, body, currentMove
      ensures Valid()
      ensures currentMove == old(currentMove) || (currentMove != null && fresh(currentMove))
      ensures Outcome(State(), body.position, done, fired) ==
              PatrolStep(grid, body, waypoints, loops, old(State()), old(body.position))
    {
      if completed {
        return true, [];
      }
      if currentMove == null || currentMove.completed {
        var ended := NewLeg(body);
        if ended {
          return true, [];
        }
      }
      fired := StepLeg(body, grid);
      done := false;
    }

    /** A new move-to towards the current waypoint, started from where the
        drone stands; the counters advance, and the patrol may end. */
    method NewLeg(body: Entity) returns (ended: bool)
      requires Valid() && !completed
      modifies this
      ensures Valid() && currentMove != null && fresh(currentMove)
      ensures var c := AdvanceLeg(|waypoints|, loops, old(currentWaypointIndex), old(currentLoop));
              currentWaypointIndex == c.index && currentLoop == c.loop && completed == ended == c.completed
      ensures var target := waypoints[old(currentWaypointIndex)];
              Leg(currentMove.target, currentMove.State()) == Leg(target, MoveToState(false, Plan(body.position, target)))
    {
      var target := waypoints[currentWaypointIndex];
      var leg := new MoveToBehavior(target);
      leg.Start(body);
      currentMove := leg;
      currentWaypointIndex := (currentWaypointIndex + 1) % |waypoints|;
      ended := false;
      if currentWaypointIndex == 0 {
        currentLoop := currentLoop + 1;
        if 0 <= loops <= currentLoop {
          completed := true;
          ended := true;
        }
      }
    }

    /** One update of the current leg. */
    method StepLeg(body: Entity, grid: Grid) returns (fired: seq<DroneEvent>)
      requires Valid() && !completed && currentMove != null
      modifies body, currentMove
      ensures Outcome(State(), body.position, false, fired) ==
              RunLeg(grid, body, currentWaypointIndex, currentLoop,
                     old(Leg(currentMove.target, currentMove.State())), old(body.position))
    {
      var finished;
      finished, fired := currentMove.Update(body, grid);
    }
  }

  // ---------------------------------------------------------------------
  // SearchBehavior

  datatype SearchState = SearchState(completed: bool, stepCount: int, totalSteps: int)

  /** One `SearchBehavior.update`: a scan once `stepsBetweenScans` moves have
      been made since the last one, otherwise a random move; only moves count
      towards `maxSteps`. */
  function SearchStep(grid: Grid, body: Entity, stepsBetweenScans: int, scanRange: int, maxSteps: int,
                      s: SearchState, pos: Position, pick: nat): Outcome<SearchState>
    requires pick < |Compass|
    reads grid, grid.entities
  {
    if s.completed then Outcome(s, pos, true, [])
    else if maxSteps > 0 && s.totalSteps >= maxSteps then
      Outcome(SearchState(true, s.stepCount, s.totalSteps), pos, true, [])
    else if s.stepCount >= stepsBetweenScans then
      Outcome(SearchState(false, 0, s.totalSteps), pos, false, [ScanCompleted(body, Square(grid, pos, scanRange))])
    else
      Outcome(SearchState(false, s.stepCount + 1, s.totalSteps + 1), MoveTarget(grid, pos, Compass[pick]), false,
              MoveEvents(grid, body, pos, Compass[pick]))
  }

  /** An update returns true exactly when the behaviour had completed or a
      positive move budget is spent; otherwise it fires one event, a scan
      when enough moves have been made since the last one and a move attempt
      otherwise, and only a move counts towards the budget. */
  lemma SearchStepDone(grid: Grid, body: Entity, c: int, range: int, maxSteps: int, s: SearchState, pos: Position, pick: nat)
    requires pick < |Compass|
    ensures var r := SearchStep(grid, body, c, range, maxSteps, s, pos, pick);
            (r.done <==> s.completed || (maxSteps > 0 && s.totalSteps >= maxSteps)) &&
            r.done == r.state.completed &&
            (!r.done ==> |r.fired| == 1 && (r.fired[0].eventType == "scan_completed" <==> s.stepCount >= c)) &&
            (!r.done ==> r.state.totalSteps == s.totalSteps + (if s.stepCount >= c then 0 else 1))
  {
  }

  function SearchRun(grid: Grid, body: Entity, stepsBetweenScans: int, scanRange: int, maxSteps: int,
                     s: SearchState, pos: Position, picks: seq<nat>): Outcome<SearchState>
    requires ValidPicks(picks)
    reads grid, grid.entities
    decreases |picks|
  {
    if picks == [] then Outcome(s, pos, false, [])
    else
      var prev := SearchRun(grid, body, stepsBetweenScans, scanRange, maxSteps, s, pos, picks[..|picks| - 1]);
      SearchStep(grid, body, stepsBetweenScans, scanRange, maxSteps, prev.state, prev.position, picks[|picks| - 1])
  }

  /** Within the move budget, the updates after a scan are moves, each
      counting one step, until `stepsBetweenScans` of them have been made. */
  lemma {:induction false} SearchMoves(grid: Grid, body: Entity, c: int, r: int, maxSteps: int,
                                       s: SearchState, pos: Position, picks: seq<nat>)
    requires ValidPicks(picks) && !s.completed && s.stepCount + |picks| <= c
    requires maxSteps <= 0 || s.totalSteps + |picks| <= maxSteps
    ensures var o := SearchRun(grid, body, c, r, maxSteps, s, pos, picks);
            o.state == SearchState(false, s.stepCount + |picks|, s.totalSteps + |picks|) && !o.done
    decreases |picks|
  {
    if picks != [] {
      SearchMoves(grid, body, c, r, maxSteps, s, pos, picks[..|picks| - 1]);
    }
  }

  /** With `stepsBetweenScans == c >= 1`, after a scan the drone makes `c`
      moves and the next update scans again, resetting the count. */
  lemma SearchCadence(grid: Grid, body: Entity, c: int, r: int, maxSteps: int,
                      total: int, pos: Position, picks: seq<nat>, pick: nat)
    requires ValidPicks(picks) && pick < |Compass| && 1 <= c && |picks| == c
    requires maxSteps <= 0 || total + c < maxSteps
    ensures var o := SearchRun(grid, body, c, r, maxSteps, SearchState(false, 0, total), pos, picks);
            var next := SearchStep(grid, body, c, r, maxSteps, o.state, o.position, pick);
            next.state == SearchState(false, 0, total + c) && next.position == o.position &&
            next.fired == [ScanCompleted(body, Square(grid, o.position, r))] && !next.done
  {
    SearchMoves(grid, body, c, r, maxSteps, SearchState(false, 0, total), pos, picks);
  }

  /** With `stepsBetweenScans <= 0` a search scans on every update and never
      moves, so it never reaches `maxSteps` either. */
  lemma {:induction false} SearchScansForever(grid: Grid, body: Entity, c: int, r: int, maxSteps: int,
                                              s: SearchState, pos: Position, picks: seq<nat>)
    requires ValidPicks(picks) && c <= 0 && !s.completed && c <= s.stepCount
    requires maxSteps <= 0 || s.totalSteps < maxSteps
    ensures var o := SearchRun(grid, body, c, r, maxSteps, s, pos, picks);
            o.position == pos && !o.done && !o.state.completed && o.state.totalSteps == s.totalSteps &&
            c <= o.state.stepCount
    ensures picks != [] ==>
              SearchRun(grid, body, c, r, maxSteps, s, pos, picks).fired == [ScanCompleted(body, Square(grid, pos, r))]
    decreases |picks|
  {
    if picks != [] {
      SearchScansForever(grid, body, c, r, maxSteps, s, pos, picks[..|picks| - 1]);
    }
  }

  /** With `0 < maxSteps <= stepsBetweenScans`, a fresh search moves
      `maxSteps` times and the next update returns true. */
  lemma SearchStopsAtMaxSteps(grid: Grid, body: Entity, c: int, r: int, maxSteps: int,
                              pos: Position, picks: seq<nat>, pick: nat)
    requires ValidPicks(picks) && pick < |Compass| && 0 < maxSteps <= c && |picks| == maxSteps
    ensures var o := SearchRun(grid, body, c, r, maxSteps, SearchState(false, 0, 0), pos, picks);
            !o.done && SearchStep(grid, body, c, r, maxSteps, o.state, o.position, pick).done
  {
    SearchMoves(grid, body, c, r, maxSteps, SearchState(false, 0, 0), pos, picks);
  }

  class SearchBehavior {
    const stepsBetweenScans: int
    const scanRange: int
    const maxSteps: int
    var completed: bool
    var stepCount: int
    var totalSteps: int

    constructor (stepsBetweenScans: int, scanRange: int, maxSteps: int)
      ensures this.stepsBetweenScans == stepsBetweenScans && this.scanRange == scanRange
      ensures this.maxSteps == maxSteps && State() == SearchState(false, 0, 0)
    {
      this.stepsBetweenScans := stepsBetweenScans;
      this.scanRange := scanRange;
      this.maxSteps := maxSteps;
      completed := false;
      stepCount := 0;
      totalSteps := 0;
    }

    function State(): SearchState
      reads this
    {
      SearchState(completed, stepCount, totalSteps)
    }

    method Update(body: Entity, grid: Grid, pick: nat) returns (done: bool, fired: seq<DroneEvent>)
      requires pick < |Compass|
      modifies this, body
      ensures Outcome(State(), body.position, done, fired) ==
              SearchStep(grid, body, stepsBetweenScans, scanRange, maxSteps, old(State()), old(body.position), pick)
    {
      if completed {
        return true, [];
      }
      if maxSteps > 0 && totalSteps >= maxSteps {
        completed := true;
        return true, [];
      }
      var action: Action;
      if stepCount >= stepsBetweenScans {
        action := new Action.ScanAction(scanRange);
        stepCount := 0;
      } else {
        action := new Action.MoveAction(Compass[pick]);
      }
      var finished;
      finished, fired := action.Execute(body, grid);
      if finished && action.kind.Move? {
        stepCount := stepCount + 1;
        totalSteps := totalSteps + 1;
      }
      done := false;
    }
  }

  // ---------------------------------------------------------------------
  // Any behaviour, as a drone holds it

  /** The state of any behaviour, with its parameters. */
  datatype Snapshot =
    | MoveToSnap(target: Position, moveTo: MoveToState)
    | ExploreSnap(steps: int, explore: ExploreState)
    | PatrolSnap(waypoints: seq<Position>, loops: int, patrol: PatrolState)
    | SearchSnap(stepsBetweenScans: int, scanRange: int, maxSteps: int, search: SearchState)
  {
    /** A patrol's waypoint index is in range (so its list is not empty). */
    predicate Valid() {
      PatrolSnap? ==> 0 <= patrol.index < |waypoints|
    }

    predicate Completed() {
      match this
      case MoveToSnap(_, s) => s.completed
      case ExploreSnap(_, s) => s.completed
      case PatrolSnap(_, _, s) => s.completed
      case SearchSnap(_, _, _, s) => s.completed
    }
  }

  /** `start`: a move-to plans its route; the others do nothing. */
  function Started(s: Snapshot, pos: Position): (r: Snapshot)
    ensures r.Valid() == s.Valid() && r.Completed() == s.Completed()
  {
    if s.MoveToSnap? then MoveToSnap(s.target, MoveToState(s.moveTo.completed, Plan(pos, s.target))) else s
  }

  /** `start` leaves every kind but a move-to as it is, and gives a move-to a
      shortest route from the drone's cell that ends on its target. */
  lemma StartedPlansRoute(s: Snapshot, pos: Position)
    ensures !s.MoveToSnap? ==> Started(s, pos) == s
    ensures s.MoveToSnap? ==>
              var r := Started(s, pos);
              r.MoveToSnap? && r.target == s.target && r.moveTo.completed == s.moveTo.completed &&
              |r.moveTo.path| == Manhattan(pos, s.target) && Walk(pos, r.moveTo.path) == s.target
  {
    if s.MoveToSnap? {
      PlanReaches(pos, s.target);
    }
  }

  /** One `update` of any behaviour. */
  function Step(grid: Grid, body: Entity, s: Snapshot, pos: Position, pick: nat): (r: Outcome<Snapshot>)
    requires s.Valid() && pick < |Compass|
    reads grid, grid.entities
    ensures r.state.Valid()
    ensures r.done <==> r.state.Completed()
    ensures s.Completed() ==> r.state == s && r.position == pos && r.fired == []
  {
    match s
    case MoveToSnap(target, st) =>
      var o := MoveToStep(grid, body, target, st, pos);
      Outcome(MoveToSnap(target, o.state), o.position, o.done, o.fired)
    case ExploreSnap(steps, st) =>
      var o := ExploreStep(grid, body, steps, st, pos, pick);
      Outcome(ExploreSnap(steps, o.state), o.position, o.done, o.fired)
    case PatrolSnap(waypoints, loops, st) =>
      var o := PatrolStep(grid, body, waypoints, loops, st, pos);
      Outcome(PatrolSnap(waypoints, loops, o.state), o.position, o.done, o.fired)
    case SearchSnap(c, r, m, st) =>
      var o := SearchStep(grid, body, c, r, m, st, pos, pick);
      Outcome(SearchSnap(c, r, m, o.state), o.position, o.done, o.fired)
  }

  /** A behaviour object of one of the four kinds. */
  datatype Behavior =
    | MoveTo(moveTo: MoveToBehavior)
    | Explore(explore: ExploreBehavior)
    | Patrol(patrol: PatrolBehavior)
    | Search(search: SearchBehavior)
  {
    /** The objects holding the behaviour's state. */
    ghost function Repr(): set<object>
      reads if Patrol? then {patrol} else {}
    {
      match this
      case MoveTo(b) => {b}
      case Explore(b) => {b}
      case Patrol(b) => if b.currentMove == null then {b} else {b, b.currentMove}
      case Search(b) => {b}
    }

    ghost function Snap(): Snapshot
      reads Repr()
    {
      match this
      case MoveTo(b) => MoveToSnap(b.target, b.State())
      case Explore(b) => ExploreSnap(b.steps, b.State())
      case Patrol(b) => PatrolSnap(b.waypoints, b.loops, b.State())
      case Search(b) => SearchSnap(b.stepsBetweenScans, b.scanRange, b.maxSteps, b.State())
    }

    method Start(body: Entity)
      modifies Repr()
      ensures Repr() == old(Repr())
      ensures Snap() == Started(old(Snap()), body.position)
    {
      if MoveTo? {
        moveTo.Start(body);
      }
    }

    /** `stop`: no behaviour does anything when stopped. */
    method Stop(body: Entity)
      ensures Snap() == old(Snap())
    {
    }

    method Update(body: Entity, grid: Grid, pick: nat) returns (done: bool, fired: seq<DroneEvent>)
      requires Snap().Valid() && pick < |Compass|
      modifies Repr(), body
      ensures forall o :: o in Repr() ==> o in old(Repr()) || fresh(o)
      ensures Outcome(Snap(), body.position, done, fired) == Step(grid, body, old(Snap()), old(body.position), pick)
    {
      match this
      case MoveTo(b) =>
        done, fired := b.Update(body, grid);
      case Explore(b) =>
        done, fired := b.Update(body, grid, pick);
      case Patrol(b) =>
        done, fired := b.Update(body, grid);
      case Search(b) =>
        done, fired := b.Update(body, grid, pick);
    }
  }

  /** A behaviour whose objects are untouched keeps its snapshot. */
  twostate lemma SnapFrame(b: Behavior)
    requires unchanged(old(b.Repr()))
    ensures b.Snap() == old(b.Snap())
  {
  }

  // ---------------------------------------------------------------------
  // BehaviorFactory

  /** A behaviour's type and constructor arguments. */
  datatype BehaviorSpec =
    | MoveToSpec(target: Position)
    | ExploreSpec(steps: int)
    | PatrolSpec(waypoints: seq<Position>, loops: int)
    | SearchSpec(stepsBetweenScans: int, scanRange: int, maxSteps: int)

  /** The parameter dictionary: integer entries, and the waypoint list of a
      patrol (each waypoint a dictionary that should hold "x" and "y"). */
  datatype Params = Params(scalars: map<string, int>, waypoints: Option<seq<map<string, int>>>)

  /** What `create_behavior` does: builds a behaviour, returns None for an
      unknown type, or raises KeyError for a missing parameter. */
  datatype Created = Built(spec: BehaviorSpec) | UnknownType | KeyError(key: string)

  const BehaviorTypes: set<string> := {"move_to", "explore", "patrol", "search"}

  function TypeName(spec: BehaviorSpec): (r: string)
    ensures r in BehaviorTypes
  {
    match spec
    case MoveToSpec(_) => "move_to"
    case ExploreSpec(_) => "explore"
    case PatrolSpec(_, _) => "patrol"
    case SearchSpec(_, _, _) => "search"
  }

  /** `dict.get(key, default)`. */
  function Get(m: map<string, int>, key: string, default: int): int {
    if key in m then m[key] else default
  }

  /** The waypoint comprehension: each dictionary's "x" and "y", in order;
      the first missing key raises. */
  function ToWaypoints(wps: seq<map<string, int>>): (r: Created)
    ensures r.Built? || r.KeyError?
    ensures r.Built? <==> forall i :: 0 <= i < |wps| ==> "x" in wps[i] && "y" in wps[i]
    ensures r.Built? ==> r.spec.PatrolSpec? && |r.spec.waypoints| == |wps| &&
                         forall i :: 0 <= i < |wps| ==> r.spec.waypoints[i] == Position(wps[i]["x"], wps[i]["y"])
    ensures r.KeyError? ==> r.key in {"x", "y"}
  {
    if wps == [] then Built(PatrolSpec([], -1))
    else if "x" !in wps[0] then KeyError("x")
    else if "y" !in wps[0] then KeyError("y")
    else
      match ToWaypoints(wps[1..])
      case Built(rest) => Built(PatrolSpec([Position(wps[0]["x"], wps[0]["y"])] + rest.waypoints, -1))
      case other => other
  }

  /** `BehaviorFactory.create_behavior`. */
  function CreateBehavior(behaviorType: string, params: Params): (r: Created)
    ensures r.UnknownType? <==> behaviorType !in BehaviorTypes
    ensures r.Built? ==> TypeName(r.spec) == behaviorType
    ensures r.KeyError? ==> (behaviorType == "move_to" && r.key in {"x", "y"} && r.key !in params.scalars) ||
                            (behaviorType == "patrol" && r.key in {"waypoints", "x", "y"})
  {
    if behaviorType == "move_to" then
      if "x" !in params.scalars then KeyError("x")
      else if "y" !in params.scalars then KeyError("y")
      else Built(MoveToSpec(Position(params.scalars["x"], params.scalars["y"])))
    else if behaviorType == "explore" then
      Built(ExploreSpec(Get(params.scalars, "steps", -1)))
    else if behaviorType == "patrol" then
      match params.waypoints
      case None => KeyError("waypoints")
      case Some(wps) =>
        match ToWaypoints(wps)
        case Built(p) => Built(PatrolSpec(p.waypoints, Get(params.scalars, "loops", -1)))
        case other => other
    else if behaviorType == "search" then
      Built(SearchSpec(Get(params.scalars, "steps_between_scans", 1), Get(params.scalars, "scan_range", 1),
                       Get(params.scalars, "max_steps", -1)))
    else UnknownType
  }

  /** The parameters that describe a behaviour completely. */
  function Encode(spec: BehaviorSpec): Params {
    match spec
    case MoveToSpec(t) => Params(map["x" := t.x, "y" := t.y], None)
    case ExploreSpec(steps) => Params(map["steps" := steps], None)
    case PatrolSpec(wps, loops) => Params(map["loops" := loops], Some(EncodeWaypoints(wps)))
    case SearchSpec(c, r, m) => Params(map["steps_between_scans" := c, "scan_range" := r, "max_steps" := m], None)
  }

  function EncodeWaypoints(wps: seq<Position>): (r: seq<map<string, int>>)
    ensures |r| == |wps|
    ensures forall i :: 0 <= i < |wps| ==> r[i] == map["x" := wps[i].x, "y" := wps[i].y]
  {
    if wps == [] then [] else [map["x" := wps[0].x, "y" := wps[0].y]] + EncodeWaypoints(wps[1..])
  }

  /** Every behaviour can be built from its type name and its parameters. */
  lemma CreateRoundTrip(spec: BehaviorSpec)
    ensures CreateBehavior(TypeName(spec), Encode(spec)) == Built(spec)
  {
    if spec.PatrolSpec? {
      var wps := EncodeWaypoints(spec.waypoints);
      var r := ToWaypoints(wps);
      assert r.Built?;
      assert r.spec.waypoints == spec.waypoints;
    }
  }

  /** Omitted parameters take the defaults: explore for ever, patrol for ever,
      search scanning after every move with range 1 and no step limit. */
  lemma CreateDefaults(wps: seq<Position>)
    ensures CreateBehavior("explore", Params(map[], None)) == Built(ExploreSpec(-1))
    ensures CreateBehavior("search", Params(map[], None)) == Built(SearchSpec(1, 1, -1))
    ensures CreateBehavior("patrol", Params(map[], Some(EncodeWaypoints(wps)))) == Built(PatrolSpec(wps, -1))
    ensures CreateBehavior("move_to", Params(map["y" := 3], None)) == KeyError("x")
    ensures CreateBehavior("patrol", Params(map["loops" := 2], None)) == KeyError("waypoints")
  {
    CreateRoundTrip(PatrolSpec(wps, -1));
  }

  /** The initial state of a behaviour built from `spec`. */
  function Initial(spec: BehaviorSpec): (r: Snapshot)
    ensures r.Valid() <==> !spec.PatrolSpec? || |spec.waypoints| > 0
    ensures !r.Completed()
  {
    match spec
    case MoveToSpec(t) => MoveToSnap(t, MoveToState(false, []))
    case ExploreSpec(steps) => ExploreSnap(steps, ExploreState(false, 0))
    case PatrolSpec(wps, loops) => PatrolSnap(wps, loops, PatrolState(false, 0, 0, None))
    case SearchSpec(c, r, m) => SearchSnap(c, r, m, SearchState(false, 0, 0))
  }

  /** Builds the behaviour object `spec` describes. */
  method Instantiate(spec: BehaviorSpec) returns (b: Behavior)
    ensures fresh(b.Repr())
    ensures b.Snap() == Initial(spec)
  {
    match spec
    case MoveToSpec(t) =>
      var m := new MoveToBehavior(t);
      b := MoveTo(m);
    case ExploreSpec(steps) =>
      var e := new ExploreBehavior(steps);
      b := Explore(e);
    case PatrolSpec(wps, loops) =>
      var p := new PatrolBehavior(wps, loops);
      b := Patrol(p);
    case SearchSpec(c, r, m) =>
      var s := new SearchBehavior(c, r, m);
      b := Search(s);
  }
}
