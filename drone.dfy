// The drone (drone.py, class Drone): a grid entity that runs either its
// behaviour or its FIFO queue of primitive actions, one step per tick, and
// then lets its detector look around.

module Drones {
  import opened Wrappers
  import opened Environment
  import opened EventSystem
  import opened Actions
  import opened Behaviors

  class Drone {
    /** The entity the drone is on the grid (its position and identity). */
    const body: Entity
    const droneId: int
    var currentAction: Action?
    var actionQueue: seq<Action>
    var currentBehavior: Option<Behavior>
    var detector: Detector?

    /** `Drone(position, drone_id)`; `id` stands for the object's identity. */
    constructor (position: Position, droneId: int, id: int)
      ensures fresh(body) && body.position == position && body.entityType == "drone" && body.id == id
      ensures this.droneId == droneId && Queue() == [] && currentBehavior == None && detector == null
      ensures Valid()
    {
      body := new Entity(position, "drone", id);
      this.droneId := droneId;
      currentAction := null;
      actionQueue := [];
      currentBehavior := None;
      detector := null;
    }

    /** Actions wait in the queue only behind a current action. */
    ghost predicate Valid()
      reads this
    {
      currentAction == null ==> actionQueue == []
    }

    /** The actions still to run, the current one first. */
    ghost function Queue(): seq<Action>
      reads this
    {
      if currentAction == null then [] else [currentAction] + actionQueue
    }

    /** The objects of the current behaviour. */
    ghost function BehaviorRepr(): set<object>
      reads this, if currentBehavior.Some? && currentBehavior.value.Patrol? then {currentBehavior.value.patrol} else {}
    {
      if currentBehavior.Some? then currentBehavior.value.Repr() else {}
    }

    /** A drone can run its behaviour: a patrol must have waypoints. */
    ghost predicate Runnable()
      reads this, BehaviorRepr()
    {
      currentBehavior.Some? ==> currentBehavior.value.Snap().Valid()
    }

    /** `update`: one tick. With a behaviour, the behaviour runs and the queue
        is left alone; otherwise the current action executes and, once
        complete, the next queued action becomes current. The detector, if
        any, then checks, and its events follow. `pick` is the random choice
        the behaviour may make. */
    method Update(grid: Grid, pick: nat) returns (fired: seq<DroneEvent>)
      requires Valid() && Runnable() && pick < |Compass|
      modifies this, body, currentAction, BehaviorRepr()
      ensures Valid() && Runnable()
      ensures currentBehavior == old(currentBehavior) && detector == old(detector)
      ensures forall o :: o in BehaviorRepr() ==> o in old(BehaviorRepr()) || fresh(o)
      ensures old(currentBehavior).Some? ==>
                var o := Step(grid, body, old(currentBehavior.value.Snap()), old(body.position), pick);
                currentBehavior.value.Snap() == o.state && body.position == o.position &&
                Queue() == old(Queue()) &&
                (currentAction != null ==> currentAction.State() == old(currentAction.State())) &&
                fired == o.fired + (if detector == null then [] else Detections(grid, detector))
      ensures old(currentBehavior).None? && old(currentAction) != null ==>
                var o := ActionStep(grid, body, old(currentAction).kind, old(currentAction.State()), old(body.position));
                old(currentAction).State() == o.state && body.position == o.position &&
                Queue() == (if o.done then old(Queue())[1..] else old(Queue())) &&
                fired == o.fired + (if detector == null then [] else Detections(grid, detector))
      ensures old(currentBehavior).None? && old(currentAction) == null ==>
                body.position == old(body.position) && Queue() == [] &&
                fired == (if detector == null then [] else Detections(grid, detector))
    {
      if currentBehavior.Some? {
        fired := TickBehavior(grid, pick);
      } else if currentAction != null {
        fired := TickAction(grid);
      } else {
        fired := Detect(grid);
      }
    }

    /** `update` with a behaviour: the behaviour's step, then detection. */
    method TickBehavior(grid: Grid, pick: nat) returns (fired: seq<DroneEvent>)
      requires currentBehavior.Some? && Runnable() && pick < |Compass|
      modifies body, BehaviorRepr()
      ensures unchanged(this) && Runnable()
      ensures forall o :: o in BehaviorRepr() ==> o in old(BehaviorRepr()) || fresh(o)
      ensures var o := Step(grid, body, old(currentBehavior.value.Snap()), old(body.position), pick);
              currentBehavior.value.Snap() == o.state && body.position == o.position &&
              fired == o.fired + (if detector == null then [] else Detections(grid, detector))
    {
      fired := RunBehavior(grid, pick);
      label BeforeDetection:
      var detected := Detect(grid);
      SnapFrame@BeforeDetection(currentBehavior.value);
      fired := fired + detected;
    }

    /** `update` without a behaviour: the current action's step, then
        detection. */
    method TickAction(grid: Grid) returns (fired: seq<DroneEvent>)
      requires Valid() && currentAction != null
      modifies this`currentAction, this`actionQueue, body, currentAction
      ensures Valid()
      ensures var o := ActionStep(grid, body, old(currentAction).kind, old(currentAction.State()), old(body.position));
              old(currentAction).State() == o.state && body.position == o.position &&
              Queue() == (if o.done then old(Queue())[1..] else old(Queue())) &&
              fired == o.fired + (if detector == null then [] else Detections(grid, detector))
    {
      fired := RunAction(grid);
      var detected := Detect(grid);
      fired := fired + detected;
    }

    /** The detector's part of `update`: its events, none without one. */
    method Detect(grid: Grid) returns (detected: seq<DroneEvent>)
      ensures detected == if detector == null then [] else Detections(grid, detector)
    {
      detected := [];
      if detector != null {
        var targets;
        targets, detected := detector.Check(grid);
      }
    }

    /** The behaviour half of `update`. */
    method RunBehavior(grid: Grid, pick: nat) returns (fired: seq<DroneEvent>)
      requires currentBehavior.Some? && Runnable() && pick < |Compass|
      modifies body, BehaviorRepr()
      ensures unchanged(this)
      ensures Runnable()
      ensures forall o :: o in BehaviorRepr() ==> o in old(BehaviorRepr()) || fresh(o)
      ensures var o := Step(grid, body, old(currentBehavior.value.Snap()), old(body.position), pick);
              currentBehavior.value.Snap() == o.state && body.position == o.position && fired == o.fired
    {
      var done;
      done, fired := currentBehavior.value.Update(body, grid, pick);
    }

    /** The action half of `update`: execute, and on completion move on to
        the next queued action. */
    method RunAction(grid: Grid) returns (fired: seq<DroneEvent>)
      requires Valid() && currentAction != null
      modifies this`currentAction, this`actionQueue, body, currentAction
      ensures Valid()
      ensures var o := ActionStep(grid, body, old(currentAction).kind, old(currentAction.State()), old(body.position));
              old(currentAction).State() == o.state && body.position == o.position &&
              Queue() == (if o.done then old(Queue())[1..] else old(Queue())) && fired == o.fired
    {
      var done;
      done, fired := currentAction.Execute(body, grid);
      if done {
        Advance();
      }
    }

    /** The next queued action, if any, becomes current. */
    method Advance()
      requires Valid() && currentAction != null
      modifies this`currentAction, this`actionQueue
      ensures Valid() && Queue() == old(Queue())[1..]
    {
      currentAction := null;
      if actionQueue != [] {
        currentAction := actionQueue[0];
        actionQueue := actionQueue[1..];
      }
    }

    /** `add_action`: appends to the queue (the action becomes current when
        there is none). The behaviour, if any, is kept. */
    method AddAction(action: Action)
      requires Valid()
      modifies this
      ensures Valid() && Queue() == old(Queue()) + [action]
      ensures currentBehavior == old(currentBehavior) && detector == old(detector)
    {
      if currentAction == null {
        currentAction := action;
      } else {
        actionQueue := actionQueue + [action];
      }
    }

    /** `clear_actions`: drops the current action and everything queued. */
    method ClearActions()
      modifies this
      ensures Valid() && Queue() == []
      ensures currentBehavior == old(currentBehavior) && detector == old(detector)
    {
      actionQueue := [];
      currentAction := null;
    }

    /** `set_behavior`: clears the actions, installs the behaviour and starts
        it from the drone's position. The previous behaviour is not stopped. */
    method SetBehavior(behavior: Option<Behavior>)
      modifies this, if behavior.Some? then behavior.value.Repr() else {}
      ensures Valid() && Queue() == [] && currentBehavior == behavior && detector == old(detector)
      ensures behavior.Some? ==>
                behavior.value.Repr() == old(behavior.value.Repr()) &&
                behavior.value.Snap() == Started(old(behavior.value.Snap()), body.position)
    {
      ClearActions();
      currentBehavior := behavior;
      if behavior.Some? {
        behavior.value.Start(body);
      }
    }

    /** `clear_behavior`: stops the behaviour (a no-op for every kind) and
        removes it; queued actions are kept. */
    method ClearBehavior()
      requires Valid()
      modifies this
      ensures Valid() && currentBehavior == None && Queue() == old(Queue()) && detector == old(detector)
    {
      if currentBehavior.Some? {
        currentBehavior.value.Stop(body);
      }
      currentBehavior := None;
    }

    /** `set_detector`: installs the detector and attaches it to this drone. */
    method SetDetector(d: Detector)
      modifies this, d
      ensures detector == d && d.drone == body
      ensures Queue() == old(Queue()) && currentBehavior == old(currentBehavior)
    {
      detector := d;
      d.AttachTo(body);
    }
  }
}
