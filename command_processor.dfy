// The text command processor (command_processor.py): finds a drone id and
// `direction=steps` orders in a command, then replaces the chosen drone's
// behaviour and actions by one move per step. Both patterns are read on the
// lowercased text, with ASCII `\s` and `\d`.

module Commands {
  import opened Wrappers
  import opened Text
  import opened Environment
  import opened Actions
  import opened Drones

  /** One match of `(up|down|left|right)\s*=\s*(\d+)`. */
  datatype Order = Order(direction: string, steps: nat)

  /** The id captured by `drone\s*(\d+)` when the pattern matches at the
      start of `s`. A greedy `\s*` that gave back a blank could not meet
      `\d` there, so the match, when there is one, is this one. */
  function DroneIdAt(s: string): (r: Option<nat>)
    ensures r.Some? ==> StartsWith(s, "drone")
  {
    if StartsWith(s, "drone") then
      var t := SkipSpaces(s[5..]);
      var n := DigitCount(t);
      if n > 0 then Some(NumberValue(t[..n])) else None
    else None
  }

  /** `re.search(r"drone\s*(\d+)", s)`: the id of the leftmost match. */
  function FindDroneId(s: string): (r: Option<nat>)
    ensures r.None? <==> forall i :: 0 <= i <= |s| ==> DroneIdAt(s[i..]).None?
    ensures r.Some? ==> exists i :: 0 <= i <= |s| && DroneIdAt(s[i..]) == r &&
                                    forall j :: 0 <= j < i ==> DroneIdAt(s[j..]).None?
  {
    Search(s, DroneIdAt)
  }

  /** The direction word `(up|down|left|right)` at the start of `s`, if any
      (no two of them share a first letter). */
  function DirectionAt(s: string): (r: Option<string>)
    ensures r.Some? ==> r.value in Compass && StartsWith(s, r.value)
  {
    if StartsWith(s, "up") then Some("up")
    else if StartsWith(s, "down") then Some("down")
    else if StartsWith(s, "left") then Some("left")
    else if StartsWith(s, "right") then Some("right")
    else None
  }

  /** `\s*=\s*(\d+)` at the start of `s`: the number and the length of the
      match. As with the drone pattern, the greedy blanks are never given
      back. */
  function StepsAt(s: string): (r: Option<(nat, nat)>)
    ensures r.Some? ==> 0 < r.value.1 <= |s|
  {
    var a := SkipSpaces(s);
    if a == [] || a[0] != '=' then None
    else
      var b := SkipSpaces(a[1..]);
      var n := DigitCount(b);
      if n == 0 then None
      else Some((NumberValue(b[..n]), |s| - |b| + n))
  }

  /** The order matched by the movement pattern at the start of `s`, with the
      length of the match. */
  function OrderAt(s: string): (r: Option<(Order, nat)>)
    ensures r.Some? ==> r.value.0.direction in Compass && 0 < r.value.1 <= |s|
  {
    match DirectionAt(s)
    case None => None
    case Some(w) =>
      match StepsAt(s[|w|..])
      case None => None
      case Some(m) => Some((Order(w, m.0), |w| + m.1))
  }

  /** `re.findall` of the movement pattern: matches left to right, the scan
      resuming where the last match ended. */
  function FindOrders(s: string): (r: seq<Order>)
    ensures forall o :: o in r ==> o.direction in Compass
    ensures r == [] <==> forall i :: 0 <= i < |s| ==> OrderAt(s[i..]).None?
  {
    if s == [] then []
    else
      match OrderAt(s)
      case Some(m) =>
        assert s[0..] == s;
        [m.0] + FindOrders(s[m.1..])
      case None =>
        var r := FindOrders(s[1..]);
        assert r == [] <==> forall i :: 0 <= i < |s| ==> OrderAt(s[i..]).None? by {
          assert s[0..] == s;
          assert forall i :: 1 <= i < |s| ==> s[1..][i - 1..] == s[i..];
        }
        r
  }

  /** The moves one drone is given for `orders`: `steps` copies of each
      direction, in order. */
  function Expand(orders: seq<Order>): (r: seq<string>)
    ensures forall d :: d in r ==> exists o :: o in orders && o.direction == d
  {
    if orders == [] then []
    else
      var last := orders[|orders| - 1];
      var r := Expand(orders[..|orders| - 1]) + Repeat(last.direction, last.steps);
      assert forall d :: d in r ==> exists o :: o in orders && o.direction == d by {
        forall d | d in r
          ensures exists o :: o in orders && o.direction == d
        {
          if d in Expand(orders[..|orders| - 1]) {
            var o :| o in orders[..|orders| - 1] && o.direction == d;
            assert o in orders;
          } else {
            assert last in orders;
          }
        }
      }
      r
  }

  /** The queue holds one fresh-looking move per entry of `dirs`, in order. */
  predicate QueueMoves(q: seq<Action>, dirs: seq<string>) {
    |q| == |dirs| && forall i :: 0 <= i < |q| ==> q[i].kind == Move(dirs[i])
  }

  /** What the processor decides about a command, before touching any drone. */
  datatype Verdict =
    | NoDroneId
    | UnknownDrone(id: nat)
    | NoMovements
    | Accepted(id: nat, orders: seq<Order>)

  /** The checks of `process_command`, in order, on the lowercased text. */
  function Interpret(text: string, ids: set<int>): (r: Verdict)
    ensures r.NoDroneId? <==> FindDroneId(Lower(text)).None?
    ensures r.UnknownDrone? ==> r.id !in ids && FindDroneId(Lower(text)) == Some(r.id)
    ensures r.NoMovements? || r.Accepted? ==>
              FindDroneId(Lower(text)).Some? && FindDroneId(Lower(text)).value in ids
    ensures r.NoMovements? ==> FindOrders(Lower(text)) == []
    ensures r.Accepted? ==>
              Some(r.id) == FindDroneId(Lower(text)) && r.orders != [] && r.orders == FindOrders(Lower(text))
  {
    var lowered := Lower(text);
    match FindDroneId(lowered)
    case None => NoDroneId
    case Some(id) =>
      if id !in ids then UnknownDrone(id)
      else
        var orders := FindOrders(lowered);
        if orders == [] then NoMovements else Accepted(id, orders)
  }

  /** Matching ignores case: the verdict on a lowercased command is the
      verdict on the command. */
  lemma InterpretIgnoresCase(text: string, ids: set<int>)
    ensures Interpret(Lower(text), ids) == Interpret(text, ids)
  {
    LowerIdempotent(text);
  }

  /** The text of one order, `direction=steps`. */
  function OrderText(o: Order): string {
    o.direction + "=" + Numeral(o.steps)
  }

  /** The orders written out, each followed by a blank. */
  function Render(orders: seq<Order>): string {
    if orders == [] then [] else OrderText(orders[0]) + " " + Render(orders[1..])
  }

  lemma DigitCountOf(d: string, t: string)
    requires AllDigits(d) && (t == [] || !IsDigit(t[0]))
    ensures DigitCount(d + t) == |d|
    decreases |d|
  {
    if d != [] {
      assert (d + t)[1..] == d[1..] + t;
      DigitCountOf(d[1..], t);
    }
  }

  lemma DirectionAtWord(w: string, rest: string)
    requires w in Compass
    ensures DirectionAt(w + rest) == Some(w)
  {
    assert (w + rest)[..|w|] == w;
    assert (w + rest)[0] == w[0];
  }

  /** The part of the movement pattern after the direction word, read on
      `=` and a numeral followed by a blank. */
  lemma StepsAtText(n: nat, rest: string)
    ensures StepsAt("=" + Numeral(n) + " " + rest) == Some((n, 1 + |Numeral(n)|))
  {
    var num := Numeral(n);
    var t := "=" + num + " " + rest;
    assert t[1..] == num + (" " + rest);
    assert !IsSpace(num[0]);
    DigitCountOf(num, " " + rest);
    assert (num + (" " + rest))[..|num|] == num;
    NumeralRoundTrip(n);
  }

  lemma OrderAtWord(w: string, t: string)
    requires w in Compass && StepsAt(t).Some?
    ensures OrderAt(w + t) == Some((Order(w, StepsAt(t).value.0), |w| + StepsAt(t).value.1))
  {
    DirectionAtWord(w, t);
    assert (w + t)[|w|..] == t;
  }

  lemma OrderTextSplit(o: Order, rest: string)
    ensures OrderText(o) + " " + rest == o.direction + ("=" + Numeral(o.steps) + " " + rest)
  {
  }

  /** An order's text followed by a blank is matched at its start, and the
      match covers exactly the order's text. */
  lemma OrderAtText(o: Order, rest: string)
    requires o.direction in Compass
    ensures OrderAt(OrderText(o) + " " + rest) == Some((o, |OrderText(o)|))
  {
    var t := "=" + Numeral(o.steps) + " " + rest;
    OrderTextSplit(o, rest);
    StepsAtText(o.steps, rest);
    OrderAtWord(o.direction, t);
  }

  /** No order starts at a blank. */
  lemma OrderAtBlank(rest: string)
    ensures OrderAt(" " + rest).None?
  {
    assert (" " + rest)[0] == ' ';
  }

  /** An order matched at the start of `s` is the first order found. */
  lemma FindOrdersAt(s: string, o: Order, n: nat)
    requires OrderAt(s) == Some((o, n))
    ensures FindOrders(s) == [o] + FindOrders(s[n..])
  {
  }

  /** A leading blank is skipped. */
  lemma FindOrdersBlank(rest: string)
    ensures FindOrders(" " + rest) == FindOrders(rest)
  {
    OrderAtBlank(rest);
    assert (" " + rest)[1..] == rest;
  }

  /** One written-out order, then a blank, is read as that order before
      whatever the rest holds. */
  lemma FindOrdersStep(o: Order, rest: string)
    requires o.direction in Compass
    ensures FindOrders(OrderText(o) + " " + rest) == [o] + FindOrders(rest)
  {
    var head := OrderText(o);
    var s := head + " " + rest;
    OrderAtText(o, rest);
    FindOrdersAt(s, o, |head|);
    DropFirstOfThree(head, " ", rest);
    FindOrdersBlank(rest);
  }

  /** Written-out orders are read back as the same orders. */
  lemma {:induction false} FindOrdersRender(orders: seq<Order>)
    requires forall o :: o in orders ==> o.direction in Compass
    ensures FindOrders(Render(orders)) == orders
  {
    if orders != [] {
      assert orders[0] in orders;
      FindOrdersStep(orders[0], Render(orders[1..]));
      FindOrdersRender(orders[1..]);
    }
  }

  /** `drone<digits>` at the start of a command is read as that id. */
  lemma FindDroneIdOfText(id: nat, rest: string)
    requires rest == [] || !IsDigit(rest[0])
    ensures FindDroneId("drone" + Numeral(id) + rest) == Some(id)
  {
    DroneIdAtText(id, rest);
    SearchAtStart("drone" + Numeral(id) + rest, DroneIdAt);
  }

  /** The drone pattern matches `drone<digits>` at its start. */
  lemma DroneIdAtText(id: nat, rest: string)
    requires rest == [] || !IsDigit(rest[0])
    ensures DroneIdAt("drone" + Numeral(id) + rest) == Some(id)
  {
    var s := "drone" + Numeral(id) + rest;
    var num := Numeral(id);
    assert s[..5] == "drone";
    assert s[5..] == num + rest;
    assert !IsSpace(num[0]);
    DigitCountOf(num, rest);
    assert (num + rest)[..|num|] == num;
    NumeralRoundTrip(id);
  }

  /** `{drone.drone_id: drone for drone in drones}`: every drone's id is a
      key, and each key maps to the last drone with that id. */
  function DroneMap(drones: seq<Drone>): (r: map<int, Drone>)
    ensures forall i :: 0 <= i < |drones| ==> drones[i].droneId in r
    ensures forall k :: k in r ==> LastWithId(drones, k, r[k])
  {
    if drones == [] then map[]
    else
      var init := drones[..|drones| - 1];
      var last := drones[|drones| - 1];
      var m := DroneMap(init);
      assert drones == init + [last];
      LastWithIdLast(init, last);
      LastWithIdExtend(init, last, m);
      m[last.droneId := last]
  }

  /** `d` is the last of `drones` whose id is `k`. */
  predicate LastWithId(drones: seq<Drone>, k: int, d: Drone) {
    exists i :: 0 <= i < |drones| && drones[i] == d && d.droneId == k &&
                forall j :: i < j < |drones| ==> drones[j].droneId != k
  }

  lemma LastWithIdLast(init: seq<Drone>, last: Drone)
    ensures LastWithId(init + [last], last.droneId, last)
  {
    assert (init + [last])[|init|] == last;
  }

  lemma LastWithIdExtend(init: seq<Drone>, last: Drone, m: map<int, Drone>)
    requires forall k :: k in m ==> LastWithId(init, k, m[k])
    ensures forall k :: k in m && k != last.droneId ==> LastWithId(init + [last], k, m[k])
  {
    forall k | k in m && k != last.droneId
      ensures LastWithId(init + [last], k, m[k])
    {
      var i :| 0 <= i < |init| && init[i] == m[k] && m[k].droneId == k &&
               forall j :: i < j < |init| ==> init[j].droneId != k;
      assert (init + [last])[i] == m[k];
    }
  }

  /** Two drones sharing an id: the later one is the one the map keeps. */
  lemma DroneMapLaterWins(a: Drone, b: Drone)
    requires a != b && a.droneId == b.droneId
    ensures DroneMap([a, b]) == map[a.droneId := b]
  {
    assert [a, b][..1] == [a];
    assert [a][..0] == [];
  }

  /** Every action of `q` is as new: not completed, no ticks counted. */
  predicate Pending(q: seq<Action>)
    reads set a | a in q
  {
    forall a :: a in q ==> a.State() == ActionState(false, 0)
  }

  /** `for _ in range(steps): drone.add_action(MoveAction(direction))`:
      appends `steps` new moves in `direction`; nothing runs for a negative
      count. */
  method EnqueueMoves(d: Drone, direction: string, steps: int)
    requires d.Valid()
    modifies d
    ensures d.Valid() && d.currentBehavior == old(d.currentBehavior) && d.detector == old(d.detector)
    ensures var n := if steps < 0 then 0 else steps;
            |d.Queue()| == |old(d.Queue())| + n && d.Queue()[..|old(d.Queue())|] == old(d.Queue()) &&
            QueueMoves(d.Queue()[|old(d.Queue())|..], Repeat(direction, n))
    ensures forall i :: |old(d.Queue())| <= i < |d.Queue()| ==>
              fresh(d.Queue()[i]) && d.Queue()[i].State() == ActionState(false, 0)
  {
    ghost var before := d.Queue();
    var j := 0;
    while j < steps
      invariant 0 <= j && (if steps < 0 then j == 0 else j <= steps)
      invariant d.Valid() && d.currentBehavior == old(d.currentBehavior) && d.detector == old(d.detector)
      invariant |d.Queue()| == |before| + j && d.Queue()[..|before|] == before
      invariant QueueMoves(d.Queue()[|before|..], Repeat(direction, j))
      invariant forall i :: |before| <= i < |d.Queue()| ==>
                  fresh(d.Queue()[i]) && d.Queue()[i].State() == ActionState(false, 0)
    {
      var a := new Action.MoveAction(direction);
      d.AddAction(a);
      assert Repeat(direction, j + 1) == Repeat(direction, j) + [direction];
      j := j + 1;
    }
  }

  lemma QueueMovesAppend(q1: seq<Action>, q2: seq<Action>, d1: seq<string>, d2: seq<string>)
    requires QueueMoves(q1, d1) && QueueMoves(q2, d2)
    ensures QueueMoves(q1 + q2, d1 + d2)
  {
  }

  /** One run of moves joins a queue of pending moves that already spells
      out `planned`. */
  method AppendMoves(d: Drone, direction: string, steps: int, ghost planned: seq<string>)
    requires d.Valid() && QueueMoves(d.Queue(), planned) && Pending(d.Queue())
    modifies d
    ensures d.Valid() && d.currentBehavior == old(d.currentBehavior) && d.detector == old(d.detector)
    ensures QueueMoves(d.Queue(), planned + Repeat(direction, if steps < 0 then 0 else steps))
    ensures Pending(d.Queue()) && forall a :: a in d.Queue() ==> a in old(d.Queue()) || fresh(a)
  {
    ghost var q := d.Queue();
    EnqueueMoves(d, direction, steps);
    ghost var added := d.Queue()[|q|..];
    assert d.Queue() == q + added;
    QueueMovesAppend(q, added, planned, Repeat(direction, if steps < 0 then 0 else steps));
  }

  /** One more order adds its moves to the expansion. */
  lemma ExpandStep(orders: seq<Order>, i: nat)
    requires i < |orders|
    ensures Expand(orders[..i + 1]) == Expand(orders[..i]) + Repeat(orders[i].direction, orders[i].steps)
  {
    assert orders[..i + 1][..i] == orders[..i];
  }

  /** The nested loop of `process_command`: for each order in turn, its
      moves join the (emptied) queue of `d`. */
  method ApplyOrders(d: Drone, orders: seq<Order>)
    requires d.Valid() && d.Queue() == []
    modifies d
    ensures d.Valid() && d.currentBehavior == old(d.currentBehavior) && d.detector == old(d.detector)
    ensures QueueMoves(d.Queue(), Expand(orders))
    ensures (forall a :: a in d.Queue() ==> fresh(a)) && Pending(d.Queue())
  {
    for i := 0 to |orders|
      invariant d.Valid() && d.currentBehavior == old(d.currentBehavior) && d.detector == old(d.detector)
      invariant QueueMoves(d.Queue(), Expand(orders[..i]))
      invariant (forall a :: a in d.Queue() ==> fresh(a)) && Pending(d.Queue())
    {
      AppendMoves(d, orders[i].direction, orders[i].steps, Expand(orders[..i]));
      ExpandStep(orders, i);
    }
    assert orders[..|orders|] == orders;
  }

  class CommandProcessor {
    var drones: seq<Drone>
    var droneMap: map<int, Drone>

    /** `CommandProcessor(drones)`; no drones (`None`) is the empty list. */
    constructor (drones: seq<Drone>)
      ensures this.drones == drones && droneMap == DroneMap(drones)
    {
      this.drones := drones;
      droneMap := DroneMap(drones);
    }

    /** `set_drones`: replaces the list and rebuilds the id map. */
    method SetDrones(drones: seq<Drone>)
      modifies this
      ensures this.drones == drones && droneMap == DroneMap(drones)
    {
      this.drones := drones;
      droneMap := DroneMap(drones);
    }

    /** `process_command`: on any rejection no drone changes. On acceptance
        only the chosen drone changes: its behaviour is removed and its
        actions become one new move per step of each order, in order. */
    method ProcessCommand(text: string) returns (ok: bool)
      requires forall d :: d in droneMap.Values ==> d.Valid()
      modifies droneMap.Values
      ensures ok <==> Interpret(text, droneMap.Keys).Accepted?
      ensures !ok ==> forall d :: d in droneMap.Values ==> unchanged(d)
      ensures ok ==>
                var v := Interpret(text, droneMap.Keys);
                var d := droneMap[v.id];
                d.Valid() && d.currentBehavior == None && d.detector == old(d.detector) &&
                QueueMoves(d.Queue(), Expand(v.orders)) &&
                (forall a :: a in d.Queue() ==> fresh(a)) && Pending(d.Queue()) &&
                (forall e :: e in droneMap.Values && e != d ==> unchanged(e))
    {
      var v := Interpret(text, droneMap.Keys);
      if !v.Accepted? {
        return false;
      }
      var d := droneMap[v.id];
      d.ClearBehavior();
      d.ClearActions();
      ApplyOrders(d, v.orders);
      ok := true;
    }
  }
}
