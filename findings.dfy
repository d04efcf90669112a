/** `DynamicArray_shrink` as the code has it, beside the corrected
    ArrayState.Shrink that the rest of the model uses, and the inputs that
    show where the two part ways. */
module Findings {
  import opened Slots
  import opened ArrayState

  /** `SIZE_MAX + 1`: `size_t` arithmetic wraps modulo this. */
  const SizeLimit: nat := 0x1_0000_0000_0000_0000

  /** `DynamicArray_shrink` as written. A full shrink frees the storage and
      empties the array but leaves `element_capacity` alone. A partial shrink
      calls realloc and, on success, updates the counts but never stores the
      pointer realloc returned, so `content` still names the old block, which
      the C standard deems released even when realloc shrank it in place
      (the damage shows in practice when realloc moves the block). */
  function ShrinkAsWritten<T>(s: State<T>, n: nat, allocOk: bool): (r: Step<T>)
    ensures r.status == Success <==> n >= s.capacity || allocOk
    ensures n >= s.capacity ==>
      && r.state.length == 0 && r.state.capacity == s.capacity
      && !r.state.isAlloc && r.state.content == Null
    ensures n < s.capacity && allocOk ==>
      && r.state.capacity == s.capacity - n && r.state.length == Min(s.length, s.capacity - n)
      && r.state.isAlloc == s.isAlloc && r.state.content == Released
    ensures r.status == Failure ==> r.state == s
  {
    if n >= s.capacity then Step(Success, State(0, s.capacity, Null, false))
    else if !allocOk then Step(Failure, s)
    else
      var c := s.capacity - n;
      Step(Success, State(Min(s.length, c), c, Released, s.isAlloc))
  }

  /** Whether the slot `DynamicArray_add_element` copies into is live storage:
      either the add reserves a slot first, or slot `length` of the current
      block exists. */
  predicate AddCopiesIntoStorage<T>(s: State<T>)
  {
    s.length + 1 > s.capacity || (s.content.Block? && s.length < |s.content.slots|)
  }

  /** On every valid state, and so on every state the corrected operations
      leave, add_element copies into live storage. */
  lemma ValidAddCopiesIntoStorage<T>(s: State<T>)
    requires s.Valid()
    ensures AddCopiesIntoStorage(s)
  {
  }

  /** Full shrink as written: the capacity survives while the storage is
      gone, so the next add_element skips the reserve and copies through
      NULL. The corrected shrink leaves a valid empty array instead. */
  lemma FullShrinkKeepsCapacity<T>(s: State<T>, n: nat, allocOk: bool)
    requires s.Valid() && 0 < s.capacity <= n
    ensures ShrinkAsWritten(s, n, allocOk).status == Success
    ensures ShrinkAsWritten(s, n, allocOk).state.capacity == s.capacity
    ensures ShrinkAsWritten(s, n, allocOk).state.content == Null
    ensures ShrinkAsWritten(s, n, allocOk).state.length == 0 && !ShrinkAsWritten(s, n, allocOk).state.isAlloc
    ensures !ShrinkAsWritten(s, n, allocOk).state.Valid()
    ensures !AddCopiesIntoStorage(ShrinkAsWritten(s, n, allocOk).state)
    ensures Shrink(s, n, allocOk).state.Valid() && Shrink(s, n, allocOk).state.capacity == 0
  {
  }

  /** The concrete case: five slots holding two elements, shrink by five. */
  lemma FullShrinkExample(e: int)
    ensures
      var s := InitAndReserve<int>(5, true, true).value;
      var two := Add(Add(s, e, true).state, e, true).state;
      var t := ShrinkAsWritten(two, 5, true).state;
      && two.Valid() && two.length == 2
      && t.length == 0 && t.capacity == 5
      && !AddCopiesIntoStorage(t)
  {
  }

  /** The byte count DynamicArray.c:89 passes to realloc, computed in
      `size_t`: `type_size * (elements_n - element_number)`, where both the
      subtraction and the product wrap. */
  function ShrinkRequestAsWritten(typeSize: nat, length: nat, n: nat): (bytes: nat)
    ensures bytes < SizeLimit
  {
    (typeSize * ((length - n) % SizeLimit)) % SizeLimit
  }

  /** The byte count the new capacity needs, `type_size * (element_capacity
      - element_number)`: the size of the block the corrected shrink keeps. */
  function ShrinkRequest<T>(typeSize: nat, s: State<T>, n: nat): (bytes: nat)
    requires s.Valid() && n < s.capacity
    ensures bytes == typeSize * |Shrink(s, n, true).state.content.slots|
  {
    typeSize * (s.capacity - n)
  }

  /** Multiplying by a positive factor keeps a strict order. */
  lemma MulStrictlyMonotonic(a: nat, b: nat, c: nat)
    requires a > 0 && b < c
    ensures a * b < a * c
  {
  }

  /** Multiplying by a natural factor keeps a non-strict order. */
  lemma MulMonotonic(a: nat, b: nat, c: nat)
    requires b <= c
    ensures a * b <= a * c
  {
  }

  /** With fewer slots removed than elements stored, realloc is asked for the
      room of `length - n` elements, less than the `capacity - n` slots the
      struct records afterwards (whenever some slot was free). */
  lemma ShrinkRequestUndersized<T>(typeSize: nat, s: State<T>, n: nat)
    requires s.Valid() && 0 < typeSize && n <= s.length < s.capacity
    requires typeSize * s.capacity < SizeLimit
    ensures ShrinkRequestAsWritten(typeSize, s.length, n) < ShrinkRequest(typeSize, s, n)
  {
    var length, capacity := s.length, s.capacity;
    MulMonotonic(typeSize, 1, capacity);
    assert (length - n) % SizeLimit == length - n;
    MulMonotonic(typeSize, length - n, capacity);
    assert (typeSize * (length - n)) % SizeLimit == typeSize * (length - n);
    MulStrictlyMonotonic(typeSize, length - n, capacity - n);
  }

  /** With more slots removed than elements stored, the subtraction wraps:
      the scenario of tests.c:38-42 (25 slots of an 8-byte struct, no
      element, shrink by 4) asks realloc for `SIZE_MAX - 31` bytes instead
      of 168, a request no allocator satisfies, so the shrink the test
      expects to succeed returns -1. */
  lemma ShrinkRequestWrapsInHarness()
    ensures ShrinkRequestAsWritten(8, 0, 4) == SizeLimit - 32
    ensures ShrinkRequest(8, InitAndReserve<int>(25, true, true).value, 4) == 168
  {
    assert (0 - 4) % SizeLimit == SizeLimit - 4;
    assert 8 * (SizeLimit - 4) == 7 * SizeLimit + (SizeLimit - 32);
  }

  /** Partial shrink as written: after a successful realloc the struct keeps
      the released block, so it still claims `is_alloc` and its elements
      while owning no storage. The corrected shrink keeps a live block of
      exactly the new capacity holding the surviving elements. */
  lemma PartialShrinkLosesBlock<T>(s: State<T>, n: nat)
    requires s.Valid() && n < s.capacity
    ensures ShrinkAsWritten(s, n, true).state.content == Released
    ensures ShrinkAsWritten(s, n, true).state.isAlloc
    ensures !ShrinkAsWritten(s, n, true).state.Valid()
    ensures Shrink(s, n, true).state.content.Block?
    ensures |Shrink(s, n, true).state.content.slots| == s.capacity - n
    ensures Shrink(s, n, true).state.Elements() == s.Elements()[..Min(s.length, s.capacity - n)]
  {
  }
}
