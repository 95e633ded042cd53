// The rule-based half of the language-model controller (llm_controller.py):
// the movement-command heuristic, the fallback parser that turns a command
// into a JSON-like move command, the executor of such commands, and the
// generator of a command that reaches a target cell.

module LlmController {
  import opened Wrappers
  import opened Text
  import opened Environment
  import opened Actions
  import opened Drones
  import opened Commands

  const MovementKeywords: seq<string> :=
    ["move", "go", "take", "send", "navigate", "direct", "guide", "fly",
     "left", "right", "up", "down", "north", "south", "east", "west"]

  const DroneKeywords: seq<string> := ["drone", "uav", "quadcopter", "copter"]

  const NumberWords: seq<string> :=
    ["one", "two", "three", "four", "five", "six", "seven", "eight", "nine", "ten"]

  /** `any(keyword in text for keyword in keywords)`. */
  function AnyIn(text: string, keywords: seq<string>): (r: bool)
    ensures r <==> exists i :: 0 <= i < |keywords| && Contains(text, keywords[i])
  {
    if keywords == [] then false
    else if Contains(text, keywords[0]) then true
    else
      var r := AnyIn(text, keywords[1..]);
      assert r <==> exists i :: 0 <= i < |keywords| && Contains(text, keywords[i]) by {
        assert forall i :: 1 <= i < |keywords| ==> keywords[1..][i - 1] == keywords[i];
      }
      r
  }

  /** `_is_likely_movement_command`: the lowercased text holds a movement
      keyword and a drone keyword, each as a substring. */
  function IsLikelyMovementCommand(text: string): (r: bool)
    ensures r <==> (exists i :: 0 <= i < |MovementKeywords| && Contains(Lower(text), MovementKeywords[i])) &&
                   (exists j :: 0 <= j < |DroneKeywords| && Contains(Lower(text), DroneKeywords[j]))
  {
    var lowered := Lower(text);
    AnyIn(lowered, MovementKeywords) && AnyIn(lowered, DroneKeywords)
  }

  // ---------------------------------------------------------------------
  // Step counts
  // ---------------------------------------------------------------------

  /** `{direction}\s+(\d+)` at the start of `s`: the number it captures. */
  function DigitsAfter(direction: string, s: string): (r: Option<nat>)
    ensures r.Some? ==> StartsWith(s, direction)
  {
    if StartsWith(s, direction) then
      var t := s[|direction|..];
      if t == [] || !IsSpace(t[0]) then None
      else
        var b := SkipSpaces(t);
        var n := DigitCount(b);
        if n == 0 then None else Some(NumberValue(b[..n]))
    else None
  }

  /** The first number word, from `NumberWords[k]` on, that follows
      `direction` and a blank somewhere in `text`, as its value. */
  function WordSteps(text: string, direction: string, k: nat): (r: Option<nat>)
    requires k <= |NumberWords|
    ensures r.Some? ==> k < r.value <= |NumberWords| &&
                        Contains(text, direction + " " + NumberWords[r.value - 1]) &&
                        forall j :: k <= j < r.value - 1 ==> !Contains(text, direction + " " + NumberWords[j])
    ensures r.None? ==> forall j :: k <= j < |NumberWords| ==> !Contains(text, direction + " " + NumberWords[j])
    decreases |NumberWords| - k
  {
    if k == |NumberWords| then None
    else if Contains(text, direction + " " + NumberWords[k]) then Some(k + 1)
    else WordSteps(text, direction, k + 1)
  }

  /** `re.search(direction + r"\s+(\d+)", text)`: the number captured by
      the leftmost match. A number is only found right after `direction`. */
  function FirstDigitsAfter(text: string, direction: string): (r: Option<nat>)
    ensures r.None? <==> forall i :: 0 <= i <= |text| ==> DigitsAfter(direction, text[i..]).None?
    ensures r.Some? ==> exists i :: 0 <= i <= |text| && DigitsAfter(direction, text[i..]) == r &&
                                    forall j :: 0 <= j < i ==> DigitsAfter(direction, text[j..]).None?
    ensures r.Some? ==> Contains(text, direction)
  {
    var r := Search(text, s => DigitsAfter(direction, s));
    assert r.Some? ==> Contains(text, direction) by {
      if r.Some? {
        var i :| 0 <= i <= |text| && DigitsAfter(direction, text[i..]) == r;
        DigitsAfterOccurs(text, direction, i);
      }
    }
    r
  }

  lemma DigitsAfterOccurs(text: string, direction: string, i: nat)
    requires i <= |text| && DigitsAfter(direction, text[i..]).Some?
    ensures OccursAt(text, direction, i)
  {
    assert text[i..][..|direction|] == text[i..i + |direction|];
  }

  /** `_extract_steps`: for each word in turn, the number after its first
      `word<blanks><digits>` occurrence, else the first number word (in
      one..ten order) written after it; 0 when nothing matches. A step
      count is only ever read next to one of the words. */
  function ExtractSteps(text: string, words: seq<string>): (r: nat)
    ensures r != 0 ==> exists w :: w in words && Contains(text, w)
  {
    if words == [] then 0
    else
      match FirstDigitsAfter(text, words[0])
      case Some(n) => n
      case None =>
        match WordSteps(text, words[0], 0)
        case Some(v) =>
          WordStepsOccurs(text, words[0], v);
          v
        case None => ExtractSteps(text, words[1..])
  }

  /** `word` has a step reading in `text`: digits after it, or a number word. */
  predicate HasReading(text: string, word: string) {
    FirstDigitsAfter(text, word).Some? || WordSteps(text, word, 0).Some?
  }

  /** The words are tried in order and the first one with a reading decides:
      its `word\s+\d+` number when there is one (even 0), else its first
      number word; the later words are not looked at. */
  lemma {:induction false} ExtractStepsFirstReading(text: string, words: seq<string>, i: nat)
    requires i < |words| && HasReading(text, words[i])
    requires forall j :: 0 <= j < i ==> !HasReading(text, words[j])
    ensures FirstDigitsAfter(text, words[i]).Some? ==>
              ExtractSteps(text, words) == FirstDigitsAfter(text, words[i]).value
    ensures FirstDigitsAfter(text, words[i]).None? ==>
              ExtractSteps(text, words) == WordSteps(text, words[i], 0).value
  {
    if i > 0 {
      assert !HasReading(text, words[0]);
      ExtractStepsFirstReading(text, words[1..], i - 1);
    }
  }

  /** No word with a reading: the count is 0, even when the words occur. */
  lemma {:induction false} ExtractStepsNoReading(text: string, words: seq<string>)
    requires forall j :: 0 <= j < |words| ==> !HasReading(text, words[j])
    ensures ExtractSteps(text, words) == 0
  {
    if words != [] {
      assert !HasReading(text, words[0]);
      ExtractStepsNoReading(text, words[1..]);
    }
  }

  /** A number word is only read after the direction word. */
  lemma WordStepsOccurs(text: string, direction: string, v: nat)
    requires WordSteps(text, direction, 0) == Some(v)
    ensures Contains(text, direction)
  {
    ContainsFirstOfThree(text, direction, " ", NumberWords[v - 1]);
  }

  /** A direction word followed by a blank and a numeral reads as that
      numeral, whatever the other words. */
  lemma ExtractStepsReadsNumeral(w: string, n: nat, others: seq<string>)
    requires w != []
    ensures ExtractSteps(w + " " + Numeral(n), [w] + others) == n
  {
    var text := w + " " + Numeral(n);
    var num := Numeral(n);
    assert text[0..] == text;
    assert StartsWith(text, w) by {
      assert text[..|w|] == w;
    }
    var t := text[|w|..];
    assert t == " " + num;
    assert SkipSpaces(t) == num by {
      assert t[1..] == num;
      assert !IsSpace(num[0]);
    }
    DigitCountOf(num, []);
    assert num + [] == num;
    assert num[..|num|] == num;
    NumeralRoundTrip(n);
    assert DigitsAfter(w, text[0..]) == Some(n);
    assert FirstDigitsAfter(text, w) == Some(n);
    assert ([w] + others)[0] == w;
  }

  // ---------------------------------------------------------------------
  // The fallback parser
  // ---------------------------------------------------------------------

  /** The phrases that name drone `i`: `drone 3`, `drone3`, `drone #3`,
      `drone number 3`, `drone-3`, and for 1..10 the spelt-out forms. */
  function Patterns(i: nat): (r: seq<string>)
    ensures |r| == (if 1 <= i <= |NumberWords| then 7 else 5)
    ensures r[0] == "drone " + Numeral(i)
  {
    var digits := ["drone " + Numeral(i), "drone" + Numeral(i), "drone #" + Numeral(i),
                   "drone number " + Numeral(i), "drone-" + Numeral(i)];
    if 1 <= i <= |NumberWords| then
      digits + ["drone " + NumberWords[i - 1], "drone number " + NumberWords[i - 1]]
    else digits
  }

  /** The text names drone `i` by one of its phrases. */
  predicate Mentions(text: string, i: nat) {
    AnyIn(text, Patterns(i))
  }

  /** The phrases are found inside longer numbers too: a text naming
      `drone 12` also names drone 1. */
  lemma LongerNumberMentions(text: string, i: nat, more: string)
    requires Contains(text, "drone " + Numeral(i) + more)
    ensures Mentions(text, i)
  {
    ContainsPrefix(text, "drone " + Numeral(i), more);
    assert Patterns(i)[0] == "drone " + Numeral(i);
  }

  /** The drone loop of `_simple_command_parser`: the smallest `i` in
      `1..count` the text names, if any. */
  method SelectDrone(text: string, count: nat) returns (id: Option<nat>)
    ensures id.Some? ==> 1 <= id.value <= count && Mentions(text, id.value) &&
                         forall j :: 1 <= j < id.value ==> !Mentions(text, j)
    ensures id.None? ==> forall j :: 1 <= j <= count ==> !Mentions(text, j)
  {
    var i := 1;
    while i <= count
      invariant 1 <= i <= count + 1
      invariant forall j :: 1 <= j < i ==> !Mentions(text, j)
    {
      if AnyIn(text, Patterns(i)) {
        return Some(i);
      }
      i := i + 1;
    }
    return None;
  }

  /** One entry of `parameters.movements`; either field may be absent. */
  datatype Movement = Movement(direction: Option<string>, steps: Option<int>)

  /** A command as `execute_json_command` reads it: `command_type`,
      `target.drone_id` and `parameters.movements` (absent keys are `None`
      or the empty list). */
  datatype MoveCommand = MoveCommand(commandType: Option<string>, droneId: Option<int>, movements: seq<Movement>)

  /** The parser's answer: a command, or a dictionary with an `error` key. */
  datatype Parsed = Parsed(command: MoveCommand) | ParseError(message: string)

  /** The step count the parser reads for a direction named by `words`: it
      only extracts one when a word occurs. The test is redundant, since a
      count is only ever read next to one of the words. */
  function StepsFor(text: string, words: seq<string>): (r: nat)
    requires |words| == 2
    ensures r == ExtractSteps(text, words)
  {
    if Contains(text, words[0]) || Contains(text, words[1]) then ExtractSteps(text, words)
    else
      assert forall w :: w in words ==> !Contains(text, w);
      0
  }

  /** The movement for `direction`, present when its step count is positive. */
  function Emit(direction: string, steps: nat): (r: seq<Movement>) {
    if steps > 0 then [Movement(Some(direction), Some(steps))] else []
  }

  /** The movements of a parsed command: left, right, up, down, in that
      order, each at most once. */
  function Emitted(text: string): seq<Movement> {
    Emit("left", StepsFor(text, ["left", "west"])) + Emit("right", StepsFor(text, ["right", "east"])) +
    Emit("up", StepsFor(text, ["up", "north"])) + Emit("down", StepsFor(text, ["down", "south"]))
  }

  /** The position of a direction in the parser's order. */
  function Rank(m: Movement): int {
    if m.direction == Some("left") then 0
    else if m.direction == Some("right") then 1
    else if m.direction == Some("up") then 2
    else 3
  }

  /** The movements name a known direction and carry a positive step count. */
  predicate WellFormed(ms: seq<Movement>) {
    forall m :: m in ms ==> m.direction.Some? && m.direction.value in Compass &&
                            m.steps.Some? && m.steps.value > 0
  }

  /** The movements come strictly in rank order. */
  predicate Ranked(ms: seq<Movement>) {
    forall i, j :: 0 <= i < j < |ms| ==> Rank(ms[i]) < Rank(ms[j])
  }

  lemma EmitShape(direction: string, steps: nat, k: int)
    requires direction in Compass && k == Rank(Movement(Some(direction), None))
    ensures Ranked(Emit(direction, steps)) && WellFormed(Emit(direction, steps))
    ensures forall m :: m in Emit(direction, steps) ==> Rank(m) == k
  {
  }

  lemma WellFormedAppend(a: seq<Movement>, b: seq<Movement>)
    requires WellFormed(a) && WellFormed(b)
    ensures WellFormed(a + b)
  {
  }

  lemma RankedAppend(a: seq<Movement>, b: seq<Movement>, k: int)
    requires Ranked(a) && Ranked(b)
    requires forall m :: m in a ==> Rank(m) < k
    requires forall m :: m in b ==> k <= Rank(m)
    ensures Ranked(a + b)
  {
    forall i, j | 0 <= i < j < |a + b|
      ensures Rank((a + b)[i]) < Rank((a + b)[j])
    {
      if j < |a| {
        assert (a + b)[i] == a[i] && (a + b)[j] == a[j];
      } else if i >= |a| {
        assert (a + b)[i] == b[i - |a|] && (a + b)[j] == b[j - |a|];
      } else {
        assert (a + b)[i] in a && (a + b)[j] in b;
      }
    }
  }

  /** Every parsed movement names a known direction with a positive step
      count, and the directions come strictly in the order left, right, up,
      down. */
  lemma EmittedWellFormed(text: string)
    ensures |Emitted(text)| <= 4 && WellFormed(Emitted(text)) && Ranked(Emitted(text))
  {
    FourEmits(StepsFor(text, ["left", "west"]), StepsFor(text, ["right", "east"]),
              StepsFor(text, ["up", "north"]), StepsFor(text, ["down", "south"]));
  }

  lemma FourEmits(a: nat, b: nat, c: nat, d: nat)
    ensures var ms := Emit("left", a) + Emit("right", b) + Emit("up", c) + Emit("down", d);
            |ms| <= 4 && WellFormed(ms) && Ranked(ms)
  {
    var l, r, u, w := Emit("left", a), Emit("right", b), Emit("up", c), Emit("down", d);
    EmitShape("left", a, 0);
    EmitShape("right", b, 1);
    EmitShape("up", c, 2);
    EmitShape("down", d, 3);
    RankedAppend(l, r, 1);
    RankedAppend(l + r, u, 2);
    RankedAppend(l + r + u, w, 3);
    WellFormedAppend(l, r);
    WellFormedAppend(l + r, u);
    WellFormedAppend(l + r + u, w);
  }

  /** One direction check of `_simple_command_parser`: when one of the two
      words occurs, the step count is extracted, and a positive one gives a
      movement. */
  method EmitDirection(t: string, direction: string, words: seq<string>) returns (ms: seq<Movement>)
    requires |words| == 2
    ensures ms == Emit(direction, StepsFor(t, words))
  {
    ms := [];
    if Contains(t, words[0]) || Contains(t, words[1]) {
      var steps := ExtractSteps(t, words);
      if steps > 0 {
        ms := [Movement(Some(direction), Some(steps))];
      }
    }
  }

  /** The direction checks of `_simple_command_parser`, appending one
      movement per direction with a positive step count. */
  method EmitMovements(t: string) returns (movements: seq<Movement>)
    ensures movements == Emitted(t)
  {
    var l := EmitDirection(t, "left", ["left", "west"]);
    var r := EmitDirection(t, "right", ["right", "east"]);
    var u := EmitDirection(t, "up", ["up", "north"]);
    var d := EmitDirection(t, "down", ["down", "south"]);
    movements := l + r + u + d;
  }

  /** `_simple_command_parser`: the text is lowercased; the smallest drone
      number it names among `1..droneCount` is the target; the movements are
      those of `Emitted`. Either missing part gives its error. */
  method SimpleCommandParser(text: string, droneCount: nat) returns (r: Parsed)
    ensures var t := Lower(text);
            r.ParseError? <==> (forall j :: 1 <= j <= droneCount ==> !Mentions(t, j)) || Emitted(t) == []
    ensures var t := Lower(text);
            r.ParseError? ==>
              r.message == if forall j :: 1 <= j <= droneCount ==> !Mentions(t, j)
                           then "Could not determine drone ID"
                           else "Could not determine movement directions"
    ensures var t := Lower(text);
            r.Parsed? ==>
              r.command.commandType == Some("move") && r.command.movements == Emitted(t) &&
              r.command.droneId.Some? && 1 <= r.command.droneId.value <= droneCount &&
              Mentions(t, r.command.droneId.value) &&
              forall j :: 1 <= j < r.command.droneId.value ==> !Mentions(t, j)
  {
    var t := Lower(text);
    var id := SelectDrone(t, droneCount);
    if id.None? {
      return ParseError("Could not determine drone ID");
    }
    var movements := EmitMovements(t);
    if movements == [] {
      return ParseError("Could not determine movement directions");
    }
    r := Parsed(MoveCommand(Some("move"), Some(id.value), movements));
  }

  // ---------------------------------------------------------------------
  // Executing a move command
  // ---------------------------------------------------------------------

  /** What `_execute_move_command` does with a list of movements: the moves
      it enqueues, and whether it stopped on a movement without a step count
      (`range(None)` raises, and the moves queued so far stay). */
  datatype MovePlan = MovePlan(moves: seq<string>, aborted: bool)

  function PlanMovements(ms: seq<Movement>): (r: MovePlan)
    ensures forall d :: d in r.moves ==> d in Compass
  {
    if ms == [] then MovePlan([], false)
    else
      var p := PlanMovements(ms[..|ms| - 1]);
      var m := ms[|ms| - 1];
      if p.aborted then p
      else if m.direction.None? || m.direction.value !in Compass then p
      else if m.steps.None? then MovePlan(p.moves, true)
      else MovePlan(p.moves + Repeat(m.direction.value, if m.steps.value < 0 then 0 else m.steps.value), false)
  }

  /** One more movement, read against the plan so far. */
  lemma PlanStep(ms: seq<Movement>, i: nat)
    requires i < |ms|
    ensures var p := PlanMovements(ms[..i]);
            var m := ms[i];
            PlanMovements(ms[..i + 1]) ==
              if p.aborted then p
              else if m.direction.None? || m.direction.value !in Compass then p
              else if m.steps.None? then MovePlan(p.moves, true)
              else MovePlan(p.moves + Repeat(m.direction.value, if m.steps.value < 0 then 0 else m.steps.value), false)
  {
    assert ms[..i + 1][..i] == ms[..i];
  }

  /** Once aborted, later movements change nothing. */
  lemma {:induction false} PlanStaysAborted(ms: seq<Movement>, j: nat)
    requires j <= |ms| && PlanMovements(ms[..j]).aborted
    ensures PlanMovements(ms) == PlanMovements(ms[..j])
    decreases |ms|
  {
    if j < |ms| {
      var init := ms[..|ms| - 1];
      assert init[..j] == ms[..j];
      PlanStaysAborted(init, j);
    } else {
      assert ms[..j] == ms;
    }
  }

  /** A parsed command runs to the end: every movement is enqueued, for as
      many moves as its step count. */
  lemma {:induction false} PlanOfWellFormed(ms: seq<Movement>)
    requires forall m :: m in ms ==> m.direction.Some? && m.direction.value in Compass &&
                                     m.steps.Some? && m.steps.value >= 0
    ensures !PlanMovements(ms).aborted
    ensures |PlanMovements(ms).moves| == StepTotal(ms)
  {
    if ms != [] {
      var init := ms[..|ms| - 1];
      assert forall m :: m in init ==> m in ms;
      PlanOfWellFormed(init);
      assert ms[|ms| - 1] in ms;
    }
  }

  /** The sum of the step counts. */
  function StepTotal(ms: seq<Movement>): int {
    if ms == [] then 0
    else
      var m := ms[|ms| - 1];
      StepTotal(ms[..|ms| - 1]) + (if m.steps.Some? then m.steps.value else 0)
  }

  /** Commands from the fallback parser never abort. */
  lemma ParsedCommandsRun(text: string)
    ensures !PlanMovements(Emitted(text)).aborted
  {
    EmittedWellFormed(text);
    PlanOfWellFormed(Emitted(text));
  }

  /** The index of the first drone whose id is `id` (`None` matches none). */
  function FirstWithId(drones: seq<Drone>, id: Option<int>): (r: Option<nat>)
    ensures r.Some? ==> r.value < |drones| && id == Some(drones[r.value].droneId) &&
                        forall j :: 0 <= j < r.value ==> id != Some(drones[j].droneId)
    ensures r.None? ==> forall j :: 0 <= j < |drones| ==> id != Some(drones[j].droneId)
  {
    if drones == [] then None
    else if id == Some(drones[0].droneId) then Some(0)
    else
      match FirstWithId(drones[1..], id)
      case None => None
      case Some(k) => Some(k + 1)
  }

  /** The search loop of `_execute_move_command`. */
  method FindDrone(drones: seq<Drone>, id: Option<int>) returns (k: Option<nat>)
    ensures k == FirstWithId(drones, id)
  {
    k := None;
    for i := 0 to |drones|
      invariant forall j :: 0 <= j < i ==> id != Some(drones[j].droneId)
    {
      if id == Some(drones[i].droneId) {
        k := Some(i);
        FirstWithIdIs(drones, id, i);
        return;
      }
    }
    FirstWithIdNone(drones, id);
  }

  lemma FirstWithIdIs(drones: seq<Drone>, id: Option<int>, i: nat)
    requires i < |drones| && id == Some(drones[i].droneId)
    requires forall j :: 0 <= j < i ==> id != Some(drones[j].droneId)
    ensures FirstWithId(drones, id) == Some(i)
  {
  }

  lemma FirstWithIdNone(drones: seq<Drone>, id: Option<int>)
    requires forall j :: 0 <= j < |drones| ==> id != Some(drones[j].droneId)
    ensures FirstWithId(drones, id) == None
  {
  }

  /** The movement loop of `_execute_move_command`, on a cleared drone:
      unknown directions are skipped, a missing step count stops it with
      `false`, a negative one enqueues nothing. */
  method ApplyMovements(d: Drone, ms: seq<Movement>) returns (ok: bool)
    requires d.Valid() && d.Queue() == []
    modifies d
    ensures ok == !PlanMovements(ms).aborted
    ensures d.Valid() && d.currentBehavior == old(d.currentBehavior) && d.detector == old(d.detector)
    ensures QueueMoves(d.Queue(), PlanMovements(ms).moves)
    ensures (forall a :: a in d.Queue() ==> fresh(a)) && Pending(d.Queue())
  {
    for i := 0 to |ms|
      invariant !PlanMovements(ms[..i]).aborted
      invariant d.Valid() && d.currentBehavior == old(d.currentBehavior) && d.detector == old(d.detector)
      invariant QueueMoves(d.Queue(), PlanMovements(ms[..i]).moves)
      invariant (forall a :: a in d.Queue() ==> fresh(a)) && Pending(d.Queue())
    {
      var m := ms[i];
      PlanStep(ms, i);
      if m.direction.Some? && m.direction.value in Compass {
        if m.steps.None? {
          PlanStaysAborted(ms, i + 1);
          return false;
        }
        AppendMoves(d, m.direction.value, m.steps.value, PlanMovements(ms[..i]).moves);
      }
    }
    assert ms[..|ms|] == ms;
    ok := true;
  }

  /** `_execute_move_command`: an unknown drone id changes nothing and fails.
      Otherwise the first drone with that id loses its behaviour and actions
      and is given the planned moves; the result says whether the movements
      ran to the end. No other drone changes. */
  method ExecuteMoveCommand(cmd: MoveCommand, drones: seq<Drone>) returns (ok: bool)
    requires forall d :: d in drones ==> d.Valid()
    modifies set d | d in drones
    ensures FirstWithId(drones, cmd.droneId).None? ==> !ok && forall d :: d in drones ==> unchanged(d)
    ensures FirstWithId(drones, cmd.droneId).Some? ==>
              var d := drones[FirstWithId(drones, cmd.droneId).value];
              var p := PlanMovements(cmd.movements);
              ok == !p.aborted &&
              d.Valid() && d.currentBehavior == None && d.detector == old(d.detector) &&
              QueueMoves(d.Queue(), p.moves) &&
              (forall a :: a in d.Queue() ==> fresh(a)) && Pending(d.Queue()) &&
              (forall e :: e in drones && e != d ==> unchanged(e))
  {
    var k := FindDrone(drones, cmd.droneId);
    if k.None? {
      return false;
    }
    var d := drones[k.value];
    d.ClearBehavior();
    d.ClearActions();
    ok := ApplyMovements(d, cmd.movements);
  }

  /** `execute_json_command`: only move commands are carried out, exactly as
      `ExecuteMoveCommand` does, including the partial change a failing plan
      leaves; any other command type fails without changing a drone. */
  method ExecuteJsonCommand(cmd: MoveCommand, drones: seq<Drone>) returns (ok: bool)
    requires forall d :: d in drones ==> d.Valid()
    modifies set d | d in drones
    ensures cmd.commandType != Some("move") ==> !ok && forall d :: d in drones ==> unchanged(d)
    ensures cmd.commandType == Some("move") && FirstWithId(drones, cmd.droneId).None? ==>
              !ok && forall d :: d in drones ==> unchanged(d)
    ensures cmd.commandType == Some("move") && FirstWithId(drones, cmd.droneId).Some? ==>
              var d := drones[FirstWithId(drones, cmd.droneId).value];
              var p := PlanMovements(cmd.movements);
              ok == !p.aborted &&
              d.Valid() && d.currentBehavior == None && d.detector == old(d.detector) &&
              QueueMoves(d.Queue(), p.moves) &&
              (forall a :: a in d.Queue() ==> fresh(a)) && Pending(d.Queue()) &&
              (forall e :: e in drones && e != d ==> unchanged(e))
  {
    if cmd.commandType == Some("move") {
      ok := ExecuteMoveCommand(cmd, drones);
    } else {
      ok := false;
    }
  }

  // ---------------------------------------------------------------------
  // Generating a command
  // ---------------------------------------------------------------------

  /** `generate_command`: the vertical movement first (up when the target is
      above), then the horizontal one (left when it is to the left), each
      with the distance as its step count and left out when zero. */
  function GenerateCommand(target: Position, from: Position, droneId: int): (r: MoveCommand)
    ensures r.commandType == Some("move") && r.droneId == Some(droneId)
    ensures |r.movements| <= 2
  {
    MoveCommand(Some("move"), Some(droneId),
                Leg(target.y - from.y, "up", "down") + Leg(target.x - from.x, "left", "right"))
  }

  /** The movement covering `delta` along one axis, `negative` or `positive`
      by its sign; none when `delta` is zero. */
  function Leg(delta: int, negative: string, positive: string): seq<Movement> {
    if delta != 0 then [Movement(Some(if delta < 0 then negative else positive), Some(Abs(delta)))] else []
  }

  /** Planning a well-formed movement after a plan that has not aborted. */
  lemma PlanAppendOne(ms: seq<Movement>, direction: string, steps: nat)
    requires direction in Compass && !PlanMovements(ms).aborted
    ensures PlanMovements(ms + [Movement(Some(direction), Some(steps))]) ==
              MovePlan(PlanMovements(ms).moves + Repeat(direction, steps), false)
  {
    assert (ms + [Movement(Some(direction), Some(steps))])[..|ms|] == ms;
  }

  /** A leg adds its moves to a plan that has not aborted. */
  lemma LegPlan(ms: seq<Movement>, delta: int, negative: string, positive: string)
    requires negative in Compass && positive in Compass && !PlanMovements(ms).aborted
    ensures PlanMovements(ms + Leg(delta, negative, positive)) ==
              MovePlan(PlanMovements(ms).moves + Straight(delta, negative, positive), false)
  {
    if delta != 0 {
      PlanAppendOne(ms, if delta < 0 then negative else positive, Abs(delta));
    } else {
      assert ms + [] == ms;
      assert Straight(delta, negative, positive) == [];
      assert PlanMovements(ms).moves + [] == PlanMovements(ms).moves;
    }
  }

  /** A generated command plans the vertical leg's moves, then the
      horizontal leg's, and never aborts. */
  lemma GeneratedPlan(target: Position, from: Position, droneId: int)
    ensures PlanMovements(GenerateCommand(target, from, droneId).movements) ==
              MovePlan(Straight(target.y - from.y, "up", "down") + Straight(target.x - from.x, "left", "right"), false)
  {
    var vs := Leg(target.y - from.y, "up", "down");
    FirstLegPlan(target.y - from.y, "up", "down");
    LegPlan(vs, target.x - from.x, "left", "right");
  }

  /** A leg on its own is planned into its moves. */
  lemma FirstLegPlan(delta: int, negative: string, positive: string)
    requires negative in Compass && positive in Compass
    ensures PlanMovements(Leg(delta, negative, positive)) == MovePlan(Straight(delta, negative, positive), false)
  {
    LegPlan([], delta, negative, positive);
    assert [] + Leg(delta, negative, positive) == Leg(delta, negative, positive);
    assert [] + Straight(delta, negative, positive) == Straight(delta, negative, positive);
  }

  /** Carrying out a generated command takes the drone, on an open grid, to
      the target by a shortest route, vertical moves first. */
  lemma GenerateCommandReaches(target: Position, from: Position, droneId: int)
    ensures var p := PlanMovements(GenerateCommand(target, from, droneId).movements);
            !p.aborted && |p.moves| == Manhattan(from, target) && Walk(from, p.moves) == target
  {
    GeneratedPlan(target, from, droneId);
    VerticalFirstReaches(from, target);
  }
}
