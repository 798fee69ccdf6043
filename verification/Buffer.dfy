/**
 The compacting receive buffer (crates/h11r/src/wire.rs `Buffer`): a queue of
 live bytes behind a consumed prefix that is dropped when it is cheap to do so.
 */
module Buffers {
  import opened Bytes

  class Buffer {
    var stored: bytes
    var start: nat
    /** Bytes copied by compaction, and bytes consumed, since creation. */
    ghost var moved: nat
    ghost var consumed: nat

    /** Compaction is paid for by consumption: it never copies a byte more
        than has been discarded since the last time. */
    ghost predicate Valid()
      reads this
    {
      start <= |stored| && moved + start <= consumed
    }

    /** The unread bytes. */
    function Live(): (live: bytes)
      requires start <= |stored|
      reads this
    {
      stored[start..]
    }

    constructor ()
      ensures Valid() && Live() == [] && moved == consumed == 0
    {
      stored, start, moved, consumed := [], 0, 0, 0;
    }

    method Extend(data: bytes)
      requires Valid()
      modifies this
      ensures Valid() && consumed == old(consumed)
      ensures Live() == old(Live()) + data
      ensures |stored| <= 2 * |Live()|
    {
      var live := |stored| - start;
      if start > 0 && start >= live {
        stored := stored[start..];
        start := 0;
        moved := moved + live;
      }
      stored := stored + data;
    }

    method Consume(count: nat)
      requires Valid() && count <= |Live()|
      modifies this
      ensures Valid() && consumed == old(consumed) + count && moved == old(moved)
      ensures Live() == old(Live())[count..]
    {
      start := start + count;
      consumed := consumed + count;
    }

    method Take(count: nat) returns (value: bytes)
      requires Valid() && count <= |Live()|
      modifies this
      ensures Valid() && consumed == old(consumed) + count && moved == old(moved)
      ensures value == old(Live())[..count] && Live() == old(Live())[count..]
    {
      value := Live()[..count];
      Consume(count);
    }
  }
}
