/** The value held by one `struct DynamicArray` and the effect of each
    operation of the library on it. Allocation is outside the model: every
    operation that allocates takes the allocator's answer as a boolean. An
    operation returning a status answers `Success` (0) or `Failure` (-1). */
module ArrayState {
  import opened Slots

  const Success: int := 0
  const Failure: int := -1

  function Max(a: nat, b: nat): nat { if a >= b then a else b }
  function Min(a: nat, b: nat): nat { if a <= b then a else b }

  /** The four fields of the struct: `elements_n`, `element_capacity`,
      `content` and `is_alloc`. (`type_size` only scales byte counts.) */
  datatype State<T> = State(length: nat, capacity: nat, content: Storage<T>, isAlloc: bool)
  {
    /** What every operation relies on: no more elements than slots, a live
        block of exactly `capacity` slots whenever `is_alloc` is set, NULL and
        no slots otherwise, and an element in each of the first `length` slots. */
    predicate Valid()
    {
      && length <= capacity
      && (isAlloc <==> content.Block?)
      && (content.Block? ==> |content.slots| == capacity)
      && (!isAlloc ==> content.Null? && capacity == 0)
      && (content.Block? ==> forall i :: 0 <= i < length ==> content.slots[i].Some?)
    }

    /** The stored elements, in insertion order. */
    function Elements(): (es: seq<T>)
      requires Valid()
      ensures |es| == length
      ensures forall i :: 0 <= i < length ==> content.slots[i] == Some(es[i])
    {
      seq(length, i requires 0 <= i < length && content.Block? && i < |content.slots| && content.slots[i].Some? =>
        content.slots[i].value)
    }
  }

  /** The status an operation returns together with the state it leaves. */
  datatype Step<T> = Step(status: int, state: State<T>)

  /** `DynamicArray_init`: NULL when the struct cannot be allocated, otherwise
      an empty array that owns no storage. */
  function Init<T>(structOk: bool): (r: Option<State<T>>)
    ensures r.Some? <==> structOk
    ensures r.Some? ==> r.value.Valid() && r.value.Elements() == []
    ensures r.Some? ==> r.value.capacity == 0 && !r.value.isAlloc
  {
    if structOk then Some(State(0, 0, Null, false)) else None
  }

  /** `DynamicArray_init_and_reserve`: NULL when either the struct or its
      storage cannot be allocated (the struct is freed again in the second
      case), otherwise an empty array owning exactly `n` slots. */
  function InitAndReserve<T>(n: nat, structOk: bool, contentOk: bool): (r: Option<State<T>>)
    ensures r.Some? <==> structOk && contentOk
    ensures r.Some? ==> r.value.Valid() && r.value.Elements() == []
    ensures r.Some? ==> r.value.capacity == n && r.value.isAlloc
  {
    if structOk && contentOk then Some(State(0, n, Block(Resized([], n)), true)) else None
  }

  /** `DynamicArray_reserve`: nothing happens when there are already more
      than `n` slots; otherwise the block is reallocated to exactly `n` slots
      (also when there are exactly `n`). */
  function Reserve<T>(s: State<T>, n: nat, allocOk: bool): (r: Step<T>)
    requires s.Valid()
    ensures r.state.Valid()
    ensures r.status == Success || r.status == Failure
    ensures r.status == Success <==> s.capacity > n || allocOk
    ensures r.status == Success ==> r.state.capacity == Max(s.capacity, n)
    ensures r.status == Failure ==> r.state == s
    ensures s.capacity > n ==> r.state == s
    ensures r.state.length == s.length && r.state.Elements() == s.Elements()
  {
    if s.capacity > n then Step(Success, s)
    else if !allocOk then Step(Failure, s)
    else Step(Success, State(s.length, n, Block(Resized(s.content.Slots(), n)), true))
  }

  /** `DynamicArray_shrink` as the header describes it: removing at least as
      many slots as there are frees the storage and empties the array;
      removing fewer reallocates the block to `capacity - n` slots and drops
      the elements that no longer fit. A failed reallocation changes nothing.
      (The code as written differs in both branches; see module Findings.) */
  function Shrink<T>(s: State<T>, n: nat, allocOk: bool): (r: Step<T>)
    requires s.Valid()
    ensures r.state.Valid()
    ensures r.status == Success || r.status == Failure
    ensures r.status == Success <==> n >= s.capacity || allocOk
    ensures n >= s.capacity ==> r.state.capacity == 0 && r.state.length == 0 && !r.state.isAlloc
    ensures n < s.capacity && r.status == Success ==>
      r.state.capacity == s.capacity - n && r.state.length == Min(s.length, s.capacity - n)
    ensures r.status == Failure ==> r.state == s
    ensures r.state.length <= s.length && r.state.Elements() == s.Elements()[..r.state.length]
  {
    if n >= s.capacity then Step(Success, State(0, 0, Null, false))
    else if !allocOk then Step(Failure, s)
    else
      var c := s.capacity - n;
      Step(Success, State(Min(s.length, c), c, Block(Resized(s.content.slots, c)), s.isAlloc))
  }

  /** `DynamicArray_get_element`: NULL for an index past the stored elements,
      otherwise the element at that index. */
  function GetElement<T>(s: State<T>, index: nat): (r: Option<T>)
    requires s.Valid()
    ensures r.None? <==> index >= s.length
    ensures r.Some? ==> r.value == s.Elements()[index]
  {
    if index >= s.length then None else Some(s.content.slots[index].value)
  }

  /** The copy into the first free slot and the count increment that end
      `DynamicArray_add_element`. */
  function Store<T>(s: State<T>, e: T): (r: State<T>)
    requires s.Valid() && s.length < s.capacity
    ensures r.Valid() && r.capacity == s.capacity
    ensures r.Elements() == s.Elements() + [e]
  {
    State(s.length + 1, s.capacity, Block(s.content.slots[s.length := Some(e)]), s.isAlloc)
  }

  /** `DynamicArray_add_element`: when every slot is taken, first reserve
      exactly one more slot (failing as a whole if that fails), then append. */
  function Add<T>(s: State<T>, e: T, allocOk: bool): (r: Step<T>)
    requires s.Valid()
    ensures r.state.Valid()
    ensures r.status == Success || r.status == Failure
    ensures r.status == Success <==> s.length < s.capacity || allocOk
    ensures r.status == Success ==> r.state.Elements() == s.Elements() + [e]
    ensures r.status == Success ==> r.state.capacity == Max(s.capacity, s.length + 1)
    ensures r.status == Failure ==> r.state == s
  {
    if s.length + 1 > s.capacity then
      var grown := Reserve(s, s.length + 1, allocOk);
      if grown.status != Success then Step(Failure, s) else Step(Success, Store(grown.state, e))
    else
      Step(Success, Store(s, e))
  }

  /** Reserving exactly the current number of slots still goes to the
      allocator: it may fail, but whatever the answer, the capacity and the
      elements stay as they were. */
  lemma ReserveAtCapacity<T>(s: State<T>, allocOk: bool)
    requires s.Valid()
    ensures Reserve(s, s.capacity, allocOk).status == Failure <==> !allocOk
    ensures Reserve(s, s.capacity, allocOk).state.capacity == s.capacity
    ensures Reserve(s, s.capacity, allocOk).state.Elements() == s.Elements()
  {
  }

  /** After a successful append, the new element is readable at the old
      length, the earlier ones are where they were, and one past it is out
      of bounds. */
  lemma GetAfterAdd<T>(s: State<T>, e: T, allocOk: bool, index: nat)
    requires s.Valid() && Add(s, e, allocOk).status == Success
    ensures GetElement(Add(s, e, allocOk).state, index) ==
      if index < s.length then GetElement(s, index)
      else if index == s.length then Some(e)
      else None
  {
  }
}
