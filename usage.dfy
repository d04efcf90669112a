/** How the operations compose for a caller: appending elements one
    `DynamicArray_add_element` call at a time, the cost of doing so without
    reserving first, and the sequence that tests.c drives. */
module Usage {
  import opened Slots
  import opened ArrayState

  /** Appending `es` in order, one add_element call each, every allocation
      succeeding (as in tests.c:46-48). */
  function AppendAll<T>(s: State<T>, es: seq<T>): (r: State<T>)
    requires s.Valid()
    ensures r.Valid()
    ensures r.Elements() == s.Elements() + es
    ensures r.capacity == Max(s.capacity, s.length + |es|)
    decreases |es|
  {
    if es == [] then s
    else
      var next := Add(s, es[0], true).state;
      var r := AppendAll(next, es[1..]);
      assert s.Elements() + es == s.Elements() + [es[0]] + es[1..];
      r
  }

  /** How many of those add_element calls find every slot taken and go
      through DynamicArray_reserve, i.e. call realloc. */
  function Reallocations<T>(s: State<T>, es: seq<T>): (k: nat)
    requires s.Valid()
    ensures k == if s.length + |es| <= s.capacity then 0 else s.length + |es| - s.capacity
    decreases |es|
  {
    if es == [] then 0
    else (if s.length < s.capacity then 0 else 1) + Reallocations(Add(s, es[0], true).state, es[1..])
  }

  /** With room for every element, appending never reallocates. */
  lemma {:induction false} RoomyAppendNeverReallocates<T>(s: State<T>, es: seq<T>)
    requires s.Valid() && s.length + |es| <= s.capacity
    ensures Reallocations(s, es) == 0
    decreases |es|
  {
    if es != [] {
      RoomyAppendNeverReallocates(Add(s, es[0], true).state, es[1..]);
    }
  }

  /** Growth is linear, one slot per add: on a full array every append
      reallocates, so `k` appends cost `k` reallocations. */
  lemma {:induction false} FullAppendReallocatesEveryTime<T>(s: State<T>, es: seq<T>)
    requires s.Valid() && s.length == s.capacity
    ensures Reallocations(s, es) == |es|
    ensures AppendAll(s, es).capacity == s.capacity + |es|
    decreases |es|
  {
    if es != [] {
      FullAppendReallocatesEveryTime(Add(s, es[0], true).state, es[1..]);
    }
  }

  /** Reserving room for the elements first, as the header advises, leaves
      the appends without a single reallocation and the elements in place. */
  lemma ReserveBeforeAppend<T>(s: State<T>, es: seq<T>)
    requires s.Valid()
    ensures var reserved := Reserve(s, s.length + |es|, true).state;
      && Reallocations(reserved, es) == 0
      && AppendAll(reserved, es).Elements() == s.Elements() + es
  {
    RoomyAppendNeverReallocates(Reserve(s, s.length + |es|, true).state, es);
  }

  /** The sequence of tests.c:38-48 with the corrected shrink and every
      allocation succeeding: reserve 25 slots at construction, shrink by 4,
      reserve 50 (capacity 50), then append three elements, none of which
      reallocates. The remove step that follows in tests.c is not part of
      the library. */
  lemma HarnessScenario<T>(d1: T, d2: T, d3: T)
    ensures
      var created := InitAndReserve<T>(25, true, true).value;
      var shrunk := Shrink(created, 4, true);
      var reserved := Reserve(shrunk.state, 50, true);
      var filled := AppendAll(reserved.state, [d1, d2, d3]);
      && shrunk.status == Success && shrunk.state.capacity == 21
      && reserved.status == Success && reserved.state.capacity == 50
      && Reallocations(reserved.state, [d1, d2, d3]) == 0
      && filled.Elements() == [d1, d2, d3]
      && GetElement(filled, 1) == Some(d2)
      && GetElement(filled, 3) == None
  {
    var created := InitAndReserve<T>(25, true, true).value;
    var reserved := Reserve(Shrink(created, 4, true).state, 50, true).state;
    RoomyAppendNeverReallocates(reserved, [d1, d2, d3]);
  }
}
