/** The storage a dynamic array is built on: a slot that may or may not hold
    an element, the block of slots behind the `content` pointer, and what
    `realloc` does to such a block. Elements are values of a type parameter
    instead of `type_size` raw bytes. */
module Slots {

  /** A slot that holds an element, or does not (memory never written);
      also the result of an accessor that answers NULL. */
  datatype Option<T> = None | Some(value: T)

  /** What the `content` pointer refers to: NULL, a live allocation of
      `|slots|` element-sized slots, or memory that has been handed back to
      the allocator (a dangling pointer). */
  datatype Storage<T> = Null | Block(slots: seq<Option<T>>) | Released
  {
    /** The slots reachable through the pointer: none unless it is live. */
    function Slots(): seq<Option<T>>
    {
      if Block? then slots else []
    }
  }

  /** `realloc(p, n)` (and `malloc(n)`, which is `realloc(NULL, n)`): the first
      `min(|slots|, n)` slots keep their contents, any new slot holds nothing. */
  function Resized<T>(slots: seq<Option<T>>, n: nat): (r: seq<Option<T>>)
    ensures |r| == n
    ensures forall i :: 0 <= i < n && i < |slots| ==> r[i] == slots[i]
    ensures forall i :: |slots| <= i < n ==> r[i] == None
  {
    if n <= |slots| then slots[..n] else slots + seq(n - |slots|, _ => None)
  }
}
