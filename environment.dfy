// The grid world: positions, entities and the grid that registers them
// (environment.py).

module Environment {

  function Abs(n: int): nat { if n < 0 then -n else n }

  /** An integer grid coordinate; equality is coordinate-wise (a datatype value). */
  datatype Position = Position(x: int, y: int) {
    /** Componentwise addition (`Position.__add__`). */
    function Add(other: Position): (r: Position)
      ensures r.x - x == other.x && r.y - y == other.y
    {
      Position(x + other.x, y + other.y)
    }
  }

  /** Number of unit moves between two cells. */
  function Manhattan(a: Position, b: Position): nat {
    Abs(a.x - b.x) + Abs(a.y - b.y)
  }

  /** Radius of the smallest square around `b` that holds `a`. */
  function Chebyshev(a: Position, b: Position): nat {
    if Abs(a.x - b.x) < Abs(a.y - b.y) then Abs(a.y - b.y) else Abs(a.x - b.x)
  }

  lemma PositionEquality(a: Position, b: Position)
    ensures a == b <==> a.x == b.x && a.y == b.y
  {
  }

  lemma AddCommutesAndAssociates(a: Position, b: Position, c: Position)
    ensures a.Add(b) == b.Add(a)
    ensures a.Add(b).Add(c) == a.Add(b.Add(c))
    ensures a.Add(Position(0, 0)) == a
  {
  }

  /** Something on the grid. `id` stands for Python's `id(self)`: an integer
      that identifies the object. */
  class Entity {
    const id: int
    const entityType: string
    var position: Position

    constructor (position: Position, entityType: string, id: int)
      ensures this.position == position && this.entityType == entityType && this.id == id
    {
      this.position := position;
      this.entityType := entityType;
      this.id := id;
    }
  }

  /** The registered entities standing on `p`, in registration order
      (the list comprehension of `get_entities_at`). */
  function At(es: seq<Entity>, p: Position): (r: seq<Entity>)
    reads es
    ensures forall e :: e in r ==> e in es && e.position == p
    ensures forall e :: e in es && e.position == p ==> e in r
    ensures |r| <= |es|
  {
    if es == [] then []
    else (if es[0].position == p then [es[0]] else []) + At(es[1..], p)
  }

  /** Looking up a concatenation looks up each part, in order; with
      `AtSingle` this pins `At` down as an order-keeping filter. */
  lemma {:induction false} AtAppend(a: seq<Entity>, b: seq<Entity>, p: Position)
    ensures At(a + b, p) == At(a, p) + At(b, p)
  {
    if a == [] {
      assert a + b == b;
    } else {
      assert (a + b)[1..] == a[1..] + b;
      AtAppend(a[1..], b, p);
    }
  }

  lemma AtSingle(e: Entity, p: Position)
    ensures At([e], p) == if e.position == p then [e] else []
  {
    assert [e][1..] == [];
  }

  /** Index of the first occurrence of `e` in `s`. */
  function FirstIndex<T(==)>(s: seq<T>, e: T): (i: nat)
    requires e in s
    ensures i < |s| && s[i] == e
    ensures forall j :: 0 <= j < i ==> s[j] != e
  {
    if s[0] == e then 0 else 1 + FirstIndex(s[1..], e)
  }

  /** `list.remove`: drops the first occurrence of `e`, if any. */
  function RemoveFirst<T(==)>(s: seq<T>, e: T): seq<T> {
    if s == [] then []
    else if s[0] == e then s[1..]
    else [s[0]] + RemoveFirst(s[1..], e)
  }

  lemma {:induction false} RemoveFirstAbsent<T>(s: seq<T>, e: T)
    requires e !in s
    ensures RemoveFirst(s, e) == s
  {
    if s != [] {
      RemoveFirstAbsent(s[1..], e);
    }
  }

  /** When present, exactly the first occurrence goes. */
  lemma {:induction false} RemoveFirstPresent<T>(s: seq<T>, e: T)
    requires e in s
    ensures RemoveFirst(s, e) == s[..FirstIndex(s, e)] + s[FirstIndex(s, e) + 1..]
    ensures |RemoveFirst(s, e)| == |s| - 1
  {
    if s[0] != e {
      RemoveFirstPresent(s[1..], e);
      var i := FirstIndex(s[1..], e);
      assert s[..i + 1] == [s[0]] + s[1..][..i];
      assert s[i + 2..] == s[1..][i + 1..];
    }
  }

  predicate InBounds(width: int, height: int, p: Position) {
    0 <= p.x < width && 0 <= p.y < height
  }

  /** The grid: its size and the ordered entity registry. */
  class Grid {
    const width: int
    const height: int
    var entities: seq<Entity>

    constructor (width: int, height: int)
      ensures this.width == width && this.height == height && entities == []
    {
      this.width := width;
      this.height := height;
      entities := [];
    }

    /** `is_valid_position`: inside the grid boundaries. */
    predicate IsValidPosition(p: Position) {
      InBounds(width, height, p)
    }

    /** Appends without checking for duplicates. */
    method AddEntity(e: Entity)
      modifies this
      ensures entities == old(entities) + [e]
    {
      entities := entities + [e];
    }

    /** Removes the first occurrence of `e`; no change when absent. */
    method RemoveEntity(e: Entity)
      modifies this
      ensures entities == RemoveFirst(old(entities), e)
    {
      if e in entities {
        entities := RemoveFirst(entities, e);
      } else {
        RemoveFirstAbsent(entities, e);
      }
    }

    function EntitiesAt(p: Position): (r: seq<Entity>)
      reads this, entities
      ensures forall e :: e in r ==> e in entities && e.position == p
      ensures forall e :: e in entities && e.position == p ==> e in r
    {
      At(entities, p)
    }

    /** One tick of the grid: the entities whose `update` runs, in the order
        they run. */
    method Update() returns (calls: seq<Entity>)
      ensures |calls| == |entities|
      ensures forall i :: 0 <= i < |calls| ==> calls[i] == entities[i]
    {
      calls := [];
      for i := 0 to |entities|
        invariant |calls| == i
        invariant forall j :: 0 <= j < i ==> calls[j] == entities[j]
      {
        calls := calls + [entities[i]];
      }
    }
  }

  /** After `add_entity(e)` a lookup sees everything it saw before, then `e`
      when `e` stands on the queried cell. */
  lemma AddEntityLookup(before: seq<Entity>, e: Entity, p: Position)
    ensures At(before + [e], p) == At(before, p) + (if e.position == p then [e] else [])
  {
    AtAppend(before, [e], p);
  }
}
