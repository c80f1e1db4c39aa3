/** Fixed ring of optional slots, as kept by the owner-thread and cross-thread queues. */
module Ring {

  import opened Options

  /** The slot index of the i-th buffered value; one wrap is all the code ever needs. */
  function Pos(head: nat, i: nat, n: nat): nat
  {
    if head + i < n then head + i else head + i - n
  }

  lemma WrapOnce(head: nat, i: nat, n: nat)
    requires head < n && i <= n
    ensures (head + i) % n == Pos(head, i, n)
  {
    if n <= head + i { ModOnce(head + i, n); } else { ModNone(head + i, n); }
  }

  lemma ModNone(a: nat, n: nat)
    requires a < n
    ensures a % n == a
  {
  }

  lemma ModOnce(a: nat, n: nat)
    requires 0 < n <= a < 2 * n
    ensures a % n == a - n
  {
    assert a == n * (a / n) + a % n;
    assert a / n == 1;
  }

  class Buffer<T> {
    const slots: array<Option<T>>
    var head: nat
    var size: nat

    ghost predicate Valid()
      reads this, slots
    {
      && size <= slots.Length
      && (if slots.Length == 0 then head == 0 else head < slots.Length)
      && forall i :: 0 <= i < slots.Length ==> (slots[Pos(head, i, slots.Length)].Some? <==> i < size)
    }

    /** The buffered values, oldest first. */
    ghost function Contents(): (c: seq<T>)
      requires Valid()
      reads this, slots
      ensures |c| == size
    {
      seq(size, i requires 0 <= i < size && Valid() reads this, slots =>
        slots[Pos(head, i, slots.Length)].value)
    }

    constructor (capacity: nat)
      ensures Valid() && fresh(slots) && slots.Length == capacity && Contents() == []
    {
      slots := new Option<T>[capacity](_ => None);
      head, size := 0, 0;
    }

    /** Append; the modulus is only ever taken when there is room, hence a slot. */
    method Push(value: T)
      requires Valid() && size < slots.Length
      modifies this`size, slots
      ensures Valid() && Contents() == old(Contents()) + [value]
    {
      WrapOnce(head, size, slots.Length);
      slots[(head + size) % slots.Length] := Some(value);
      size := size + 1;
    }

    /** Move out the oldest value and empty its slot. */
    method Pop() returns (value: T)
      requires Valid() && 0 < size
      modifies this`head, this`size, slots
      ensures Valid() && old(Contents()) == [value] + Contents()
    {
      ghost var n, was, before := slots.Length, head, Contents();
      assert Pos(head, 0, n) == head;
      value := slots[head].value;
      slots[head] := None;
      WrapOnce(head, 1, slots.Length);
      head := (head + 1) % slots.Length;
      size := size - 1;
      forall i | 0 <= i < n
        ensures slots[Pos(head, i, n)].Some? <==> i < size
      {
        assert Pos(head, i, n) == if i + 1 < n then Pos(was, i + 1, n) else was;
      }
      forall i | 0 <= i < size
        ensures Contents()[i] == before[i + 1]
      {
        assert Pos(head, i, n) == Pos(was, i + 1, n);
      }
    }

    method TryPop() returns (value: Option<T>)
      requires Valid()
      modifies this`head, this`size, slots
      ensures Valid() && old(Contents()) == (if value.Some? then [value.value] else []) + Contents()
      ensures value.None? ==> old(Contents()) == []
    {
      value := None;
      if size > 0 {
        var v := Pop();
        value := Some(v);
      }
    }
  }
}
