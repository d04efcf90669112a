/** The library's handle: a `struct DynamicArray` whose fields the operations
    update in place. Each operation is proved against the function of the
    same name in ArrayState, which states its effect on the struct's value. */
module DynamicArrays {
  import opened Slots
  import ArrayState

  class DynamicArray<T> {
    /** Byte size of one element; set once, by the constructor. */
    const typeSize: nat
    /** `elements_n`: number of stored elements. */
    var length: nat
    /** `element_capacity`: number of slots. */
    var capacity: nat
    /** `content`: the storage block. */
    var content: Storage<T>
    /** `is_alloc`: whether `content` is a live allocation. */
    var isAlloc: bool

    /** The struct's current value. */
    function Model(): ArrayState.State<T>
      reads this
    {
      ArrayState.State(length, capacity, content, isAlloc)
    }

    predicate Valid()
      reads this
    {
      Model().Valid()
    }

    /** The stored elements, in insertion order. */
    function Elements(): seq<T>
      reads this
      requires Valid()
    {
      Model().Elements()
    }

    /** The field initialisation of `DynamicArray_init` on a freshly allocated
        struct: no elements, no slots, no storage. */
    constructor (typeSize: nat)
      ensures this.typeSize == typeSize
      ensures Valid() && Model() == ArrayState.Init<T>(true).value
    {
      this.typeSize := typeSize;
      length := 0;
      capacity := 0;
      content := Null;
      isAlloc := false;
    }

    /** `DynamicArray_init`: null when the struct's allocation fails. */
    static method Init(typeSize: nat, structOk: bool) returns (da: DynamicArray?<T>)
      ensures da != null <==> structOk
      ensures da != null ==> fresh(da) && da.typeSize == typeSize
      ensures da != null ==> da.Valid() && Some(da.Model()) == ArrayState.Init<T>(structOk)
    {
      if !structOk {
        return null;
      }
      da := new DynamicArray(typeSize);
    }

    /** `DynamicArray_init_and_reserve`: null when the struct's or the
        storage's allocation fails. */
    static method InitAndReserve(typeSize: nat, n: nat, structOk: bool, contentOk: bool)
      returns (da: DynamicArray?<T>)
      ensures da != null <==> structOk && contentOk
      ensures da != null ==> fresh(da) && da.typeSize == typeSize
      ensures da != null ==> da.Valid() && Some(da.Model()) == ArrayState.InitAndReserve<T>(n, structOk, contentOk)
    {
      if !structOk {
        return null;
      }
      da := new DynamicArray(typeSize);
      da.capacity := n;
      if !contentOk {
        return null;
      }
      da.content := Block(Resized([], n));
      da.isAlloc := true;
    }

    /** `DynamicArray_reserve`. */
    method Reserve(n: nat, allocOk: bool) returns (status: int)
      requires Valid()
      modifies this
      ensures Valid()
      ensures ArrayState.Step(status, Model()) == ArrayState.Reserve(old(Model()), n, allocOk)
    {
      if capacity > n {
        return ArrayState.Success;
      }
      if !allocOk {
        return ArrayState.Failure;
      }
      content := Block(Resized(content.Slots(), n));
      isAlloc := true;
      capacity := n;
      return ArrayState.Success;
    }

    /** `DynamicArray_shrink`, with the capacity reset of a full shrink and
        the reallocated block stored back (see module Findings). */
    method Shrink(n: nat, allocOk: bool) returns (status: int)
      requires Valid()
      modifies this
      ensures Valid()
      ensures ArrayState.Step(status, Model()) == ArrayState.Shrink(old(Model()), n, allocOk)
    {
      if n >= capacity {
        length := 0;
        capacity := 0;
        content := Null;
        isAlloc := false;
        return ArrayState.Success;
      }
      if !allocOk {
        return ArrayState.Failure;
      }
      content := Block(Resized(content.slots, capacity - n));
      capacity := capacity - n;
      if length > capacity {
        length := capacity;
      }
      return ArrayState.Success;
    }

    /** `DynamicArray_get_size`. */
    method GetSize() returns (size: nat)
      requires Valid()
      ensures size == |Elements()| && size <= capacity
    {
      return length;
    }

    /** `DynamicArray_get_capacity`. */
    method GetCapacity() returns (slots: nat)
      requires Valid()
      ensures slots == capacity && |Elements()| <= slots
    {
      return capacity;
    }

    /** `DynamicArray_get_element`: the element itself rather than a pointer
        into the block. */
    method GetElement(index: nat) returns (e: Option<T>)
      requires Valid()
      ensures e == ArrayState.GetElement(Model(), index)
      ensures e.None? <==> index >= |Elements()|
      ensures e.Some? ==> e.value == Elements()[index]
    {
      if index >= length {
        return None;
      }
      return Some(content.slots[index].value);
    }

    /** `DynamicArray_add_element`: grows through `Reserve` by one slot when
        every slot is taken, then copies the element into the first free slot. */
    method AddElement(e: T, allocOk: bool) returns (status: int)
      requires Valid()
      modifies this
      ensures Valid()
      ensures ArrayState.Step(status, Model()) == ArrayState.Add(old(Model()), e, allocOk)
    {
      if length + 1 > capacity {
        var grown := Reserve(length + 1, allocOk);
        if grown != ArrayState.Success {
          return ArrayState.Failure;
        }
      }
      content := Block(content.slots[length := Some(e)]);
      length := length + 1;
      return ArrayState.Success;
    }
  }
}
