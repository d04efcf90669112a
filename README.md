# DynamicArrayLib in Dafny

A model of DynamicArrayLib, a type-erased growable array written in C. One
`struct DynamicArray` holds a count of stored elements (`elements_n`), a count
of slots (`element_capacity`), a storage block (`content`) and a flag saying
whether that block is allocated (`is_alloc`). The caller reserves and shrinks
capacity explicitly, and `add_element` grows by exactly one slot when every
slot is taken. Every status-returning operation answers 0 on success and -1
on error; the constructors and `get_element` answer NULL on failure.

The project has five modules:

- `Slots` (slots.dfy): a slot that may hold an element, the storage behind
  `content` (NULL, a live block, or a block already released), and `Resized`,
  which is what `realloc` does to a block.
- `ArrayState` (state.dfy): the struct as a value, its invariant `Valid`,
  the stored elements `Elements`, and one function per operation. Each
  function gives the status and the new state, and its contract states the
  operation's effect.
- `DynamicArrays` (dynamic_array.dfy): the class `DynamicArray<T>`. Its
  fields match the struct's fields and its methods update them in place.
  Each method is proved to have exactly the effect its `ArrayState`
  function describes.
- `Findings` (findings.dfy): `DynamicArray_shrink` exactly as the code is
  written, and the inputs that show it breaking the struct.
- `Usage` (usage.dfy): how the operations compose for a caller. This covers
  appending one element at a time, the linear growth, reserving before
  appending, and the sequence that tests.c runs.

Every allocation request (`malloc`, `realloc`) is an input: a boolean saying
whether the allocator satisfied it. Elements are values of a type parameter,
not `type_size` raw bytes.

The operations follow the code, with one deliberate exception: shrinking.
The class and `ArrayState.Shrink` use the corrected shrink described under
"## Findings", and `Findings.ShrinkAsWritten` keeps the code as written.

Reserving exactly the current number of slots goes to `realloc` again
(DynamicArray.c:64 tests `>`). The header agrees: it promises to do nothing
only when the request is *below* the current slot count (DynamicArray.h:19-21).
The model follows the code. `ArrayState.ReserveAtCapacity` shows what this
means: such a reserve can fail with -1, but it never changes the capacity or
the elements.

## Model

| member | source | states |
|---|---|---|
| Slots.Resized | DynamicArray.c:66 | realloc to `n` slots gives exactly `n` slots; the first `min(old, n)` keep their contents and every new slot is empty |
| ArrayState.Init | DynamicArray.c:20-33 | NULL exactly when the struct allocation fails; otherwise a valid array with no elements, capacity 0 and no storage |
| ArrayState.InitAndReserve | DynamicArray.c:35-52 | NULL exactly when the struct allocation or the storage allocation fails; otherwise a valid empty array with capacity `n` and allocated storage |
| ArrayState.Reserve | DynamicArray.c:61-76 | status is 0 or -1, and 0 exactly when capacity > n or the allocation succeeds; success gives capacity max(old, n); failure, or capacity > n, leaves the state unchanged; length and elements are always preserved and validity is kept |
| ArrayState.ReserveAtCapacity | DynamicArray.c:64-74 | reserving exactly the current capacity fails exactly when the allocation fails, and never changes the capacity or the elements |
| ArrayState.Shrink | DynamicArray.h:24-26 | status is 0 or -1, and 0 exactly when n >= capacity or the allocation succeeds; n >= capacity gives an empty array with capacity 0 and no storage; otherwise success gives capacity `capacity - n` and length min(length, capacity - n); failure changes nothing; the elements kept are always a prefix of the old ones, and validity is kept |
| ArrayState.GetElement | DynamicArray.c:110-117 | NULL exactly when index >= length; otherwise the element stored at that index |
| ArrayState.Store | DynamicArray.c:124-125 | copying into the first free slot appends the element to the contents and keeps the capacity and validity |
| ArrayState.Add | DynamicArray.c:119-128 | status is 0 or -1, and 0 exactly when a slot is free or the one-slot growth allocation succeeds; success appends the element and gives capacity max(capacity, length + 1); failure leaves the state unchanged |
| ArrayState.GetAfterAdd | DynamicArray.h:32-37 | after a successful add, the earlier indices read as before, the old length reads the new element, and any index past it reads NULL |
| DynamicArrays.DynamicArray.constructor | DynamicArray.c:26-30 | sets the element size and leaves a valid empty array with no storage |
| DynamicArrays.DynamicArray.Init | DynamicArray.c:20-33 | returns null exactly when the struct allocation fails; otherwise returns a fresh handle whose state is `ArrayState.Init` |
| DynamicArrays.DynamicArray.InitAndReserve | DynamicArray.c:35-52 | returns null exactly when either allocation fails; otherwise returns a fresh handle whose state is `ArrayState.InitAndReserve` |
| DynamicArrays.DynamicArray.Reserve | DynamicArray.c:61-76 | the returned status and the new field values are those of `ArrayState.Reserve` on the old fields |
| DynamicArrays.DynamicArray.Shrink | DynamicArray.c:78-98 | the returned status and the new field values are those of the corrected `ArrayState.Shrink` on the old fields |
| DynamicArrays.DynamicArray.GetSize | DynamicArray.c:100-103 | returns the number of stored elements, which is at most the capacity; no state change |
| DynamicArrays.DynamicArray.GetCapacity | DynamicArray.c:105-108 | returns the number of slots, which is at least the number of stored elements; no state change |
| DynamicArrays.DynamicArray.GetElement | DynamicArray.c:110-117 | returns NULL exactly when index >= size; otherwise returns the element at that index |
| DynamicArrays.DynamicArray.AddElement | DynamicArray.c:119-128 | grows through `Reserve` only when every slot is taken; the returned status and new fields are those of `ArrayState.Add` |
| Findings.ValidAddCopiesIntoStorage | DynamicArray.c:121-124 | in every valid state, add_element either grows first or copies into an existing slot of live storage |
| Findings.ShrinkAsWritten | DynamicArray.c:78-98 | status 0 exactly when n >= capacity or realloc succeeds; a full shrink gives length 0, the same capacity, no allocation flag and NULL storage; a successful partial shrink gives capacity `capacity - n` and length min(length, capacity - n) but leaves `content` on the released block; a failure changes nothing |
| Findings.FullShrinkKeepsCapacity | DynamicArray.c:81-87 | after a full shrink as written, the length is 0, the allocation flag is cleared, the capacity is unchanged and the storage is NULL; the state is not valid, and the next add copies through NULL without growing; the corrected shrink gives a valid array with capacity 0 |
| Findings.FullShrinkExample | DynamicArray.c:81-87 | five slots holding two elements, shrunk by five as written, give length 0 and capacity 5, and the next add copies through NULL |
| Findings.ShrinkRequestAsWritten | DynamicArray.c:89 | the byte count handed to realloc is computed modulo 2^64 |
| Findings.ShrinkRequest | DynamicArray.c:89 | the intended byte count is the element size times the number of slots in the block the corrected shrink keeps |
| Findings.ShrinkRequestUndersized | DynamicArray.c:89 | when n <= length < capacity, the as-written request is smaller than the block the new capacity needs |
| Findings.ShrinkRequestWrapsInHarness | tests.c:38-42 | for 25 slots of 8 bytes, no elements and a shrink by 4, the as-written request is 2^64 - 32 bytes instead of 168 |
| Findings.PartialShrinkLosesBlock | DynamicArray.c:89-95 | after a partial shrink as written, the struct still claims allocated storage but points at a released block, so the state is not valid; the corrected shrink keeps a live block of capacity - n slots holding the surviving prefix |
| Usage.AppendAll | DynamicArray.c:119-128 | appending elements one add at a time keeps validity, appends them in order, and gives capacity max(capacity, length + count) |
| Usage.Reallocations | DynamicArray.c:121-122 | with one-slot growth, the number of adds that reallocate is exactly the number of elements that do not fit in the free slots: 0 when length + count <= capacity, otherwise length + count - capacity |
| Usage.RoomyAppendNeverReallocates | DynamicArray.h:35-36 | when enough slots are free, appending never reallocates |
| Usage.FullAppendReallocatesEveryTime | DynamicArray.c:121-122 | appending to a full array reallocates once per element, and each add grows the capacity by exactly one |
| Usage.ReserveBeforeAppend | DynamicArray.h:35-36 | reserving room for the elements first makes appending them reallocation-free, with the elements in order |
| Usage.HarnessScenario | tests.c:38-48 | with the corrected shrink, reserve 25 / shrink 4 / reserve 50 gives capacities 21 and 50; the three appends do not reallocate, element 1 is the second element, and index 3 is out of bounds |

## Findings

| source | as written | input that shows it | evidently intended | confidence | as-written member | corrected member |
|---|---|---|---|---|---|---|
| DynamicArray.c:81-87 | a full shrink frees `content` and zeroes `elements_n` but keeps `element_capacity` | capacity 5, two elements, shrink by 5, then add_element: the add sees a free slot, skips the reserve and copies through NULL | the header says the memory is freed; `element_capacity` should be reset to 0 | high (not executed) | Findings.ShrinkAsWritten, Findings.FullShrinkKeepsCapacity, Findings.FullShrinkExample | ArrayState.Shrink |
| DynamicArray.c:89 | the realloc size is `type_size * (elements_n - element_number)`, which is too small when `n <= elements_n < capacity` and wraps past 2^64 when `elements_n < n` | tests.c:42: 25 slots of 8 bytes, no elements, shrink by 4, asks for 2^64 - 32 bytes instead of 168, so the shrink the test asserts returns -1 | `type_size * (element_capacity - element_number)` | high (not executed) | Findings.ShrinkRequestAsWritten, Findings.ShrinkRequestUndersized, Findings.ShrinkRequestWrapsInHarness | Findings.ShrinkRequest, ArrayState.Shrink |
| DynamicArray.c:89-93 | the pointer returned by realloc is never stored in `content` | any partial shrink whose realloc succeeds: `content` still points at the old block, which the C standard deems released; the damage shows in practice when realloc moves the block rather than shrinking it in place | `content = temp_ptr` | high (not executed) | Findings.ShrinkAsWritten, Findings.PartialShrinkLosesBlock | ArrayState.Shrink |

## Left out

- Memory management: `malloc`, `realloc`, `free` and `memcpy`, and the byte offsets computed from `type_size` (DynamicArray.c:22, 44, 66, 89, 114-115, 124). Each allocation outcome is a boolean input, and elements are values of a type parameter.
- `DynamicArray_free` (DynamicArray.c:54-59): it only releases memory, so there is nothing to state about it.
- The NULL-handle checks of reserve and shrink (DynamicArray.c:63, 80): a Dafny object reference is never null.
- `size_t` wrap-around: counts are unbounded naturals. The model ignores overflow in `elements_n + 1` and in the byte products `type_size * n` given to malloc and realloc. Wrap-around is modelled only where it causes a finding, in Findings.ShrinkRequestAsWritten.
- Aliasing: `get_element` returns a pointer into the storage block, and a later reserve, shrink or add invalidates it. The model returns the element's value.
- `DynamicArray_remove_element` and a batch append: tests.c:50 calls the first, but neither is defined in DynamicArray.c or declared in DynamicArray.h. So the last step of tests.c (remove at 1, then read the element at 1) is not modelled.
- `DEFAULT_SIZE` (DynamicArray.c:7): it is defined but never used.
- Platform: the wrap-around in Findings.ShrinkRequestAsWritten assumes a 64-bit `size_t`, and Findings.ShrinkRequestWrapsInHarness assumes that the tests.c struct of an `int` and a `float` takes 8 bytes. Both hold on LP64 platforms; other data models are not covered.
- Usage.AppendAll: it covers only runs where every allocation succeeds. The failure of a single add is stated by ArrayState.Add.
