/** Intrusive links shared by every waiter and request list of the runtime.

    A `Link` is the hook part of an operation embedded in a suspended coroutine
    frame: the pair `next`/`prev` threads it on one list, `linked` says whether it is on
    it, and `item` is the operation's own mutable state. The lists never touch `item`, so
    every fact about operation state survives linking. */
module IntrusiveList {

  import opened Sequences

  class Link<P> {
    var next: Link?<P>
    var prev: Link?<P>
    var linked: bool
    var item: P

    constructor (item: P)
      ensures this.item == item && next == null && prev == null && !linked
    {
      this.item := item;
      next, prev, linked := null, null, false;
    }
  }

  /** The link at a position, or null outside the list. */
  ghost function Nth<P>(xs: seq<Link<P>>, i: int): Link?<P>
  {
    if 0 <= i < |xs| then xs[i] else null
  }

  ghost predicate Forward<P>(xs: seq<Link<P>>, first: Link?<P>)
    reads xs`next
  {
    first == Nth(xs, 0) && forall i {:trigger xs[i].next} :: 0 <= i < |xs| ==> xs[i].next == Nth(xs, i + 1)
  }

  ghost predicate Backward<P>(xs: seq<Link<P>>, last: Link?<P>)
    reads xs`prev
  {
    last == Nth(xs, |xs| - 1) && forall i {:trigger xs[i].prev} :: 0 <= i < |xs| ==> xs[i].prev == Nth(xs, i - 1)
  }

  /** Doubly linked list. Nodes are one-shot: they enter with null links, and leaving
      does not clear them. */
  class List<P> {
    var first: Link?<P>
    var last: Link?<P>
    ghost var links: seq<Link<P>>

    ghost predicate Valid()
      reads `first, `last, `links, links`next, links`prev, links`linked
    {
      && (forall i :: 0 <= i < |links| ==> links[i].linked)
      && Distinct(links) && Forward(links, first) && Backward(links, last)
    }

    constructor ()
      ensures Valid() && links == []
    {
      first, last, links := null, null, [];
    }

    method PushBack(n: Link<P>)
      requires Valid() && !n.linked && n.next == null
      modifies `first, `last, `links, n`prev, n`linked, links`next
      ensures Valid() && links == old(links) + [n]
    {
      n.linked := true;
      n.prev := last;
      if last != null { last.next := n; } else { first := n; }
      last := n;
      links := links + [n];
    }

    method PushFront(n: Link<P>)
      requires Valid() && !n.linked && n.prev == null
      modifies `first, `last, `links, n`next, n`linked, links`prev
      ensures Valid() && links == [n] + old(links)
    {
      n.linked := true;
      n.next := first;
      if first != null { first.prev := n; } else { last := n; }
      first := n;
      links := [n] + links;
    }

    /** Unlink a member wherever it stands, keeping the order of the others. */
    method Unlink(n: Link<P>, ghost k: nat)
      requires Valid() && k < |links| && links[k] == n
      modifies `first, `last, `links, links`next, links`prev, n`linked
      ensures Valid() && links == Remove(old(links), k)
      ensures n !in links && !n.linked
    {
      hide Forward, Backward;
      RemoveIs(links, k);
      SkipForward(n, k);
      SkipBackward(n, k);
      n.linked := false;
      links := Remove(links, k);
    }

    /** Lead the predecessor of a member past it. */
    method SkipForward(n: Link<P>, ghost k: nat)
      requires k < |links| && links[k] == n && Distinct(links) && Forward(links, first) && Backward(links, last)
      modifies `first, links`next
      ensures n.next == Nth(links, k + 1) && Forward(Remove(links, k), first)
    {
      if n.prev != null { n.prev.next := n.next; } else { first := n.next; }
    }

    /** Lead the successor of a member back past it. */
    method SkipBackward(n: Link<P>, ghost k: nat)
      requires k < |links| && links[k] == n && Distinct(links) && n.next == Nth(links, k + 1) && Backward(links, last)
      modifies `last, links`prev
      ensures Backward(Remove(links, k), last)
    {
      if n.next != null { n.next.prev := n.prev; } else { last := n.prev; }
    }
  }

  /** Hook of an operation that is queued for resumption; a node is on at most one queue. */
  class Node {
    const id: nat
    var after: Node?

    constructor (id: nat)
      ensures this.id == id && after == null
    {
      this.id := id;
      after := null;
    }
  }

  /** Single-threaded FIFO threaded through `after`. */
  class ReadyQueue {
    var head: Node?
    var tail: Node?
    ghost var nodes: seq<Node>

    ghost predicate Valid()
      reads `head, `tail, `nodes, nodes`after
    {
      && (forall i, j :: 0 <= i < j < |nodes| ==> nodes[i] != nodes[j])
      && head == At(0)
      && tail == At(|nodes| - 1)
      && (forall i {:trigger nodes[i].after} :: 0 <= i < |nodes| ==> nodes[i].after == At(i + 1))
    }

    ghost function At(i: int): Node?
      reads `nodes
    {
      if 0 <= i < |nodes| then nodes[i] else null
    }

    constructor ()
      ensures Valid() && nodes == []
    {
      head, tail, nodes := null, null, [];
    }

    /** The code asserts only that the hook is clear; being on no queue is the caller's
        duty. */
    method Push(n: Node)
      requires Valid() && n.after == null && n !in nodes
      modifies `head, `tail, `nodes, nodes`after
      ensures Valid() && nodes == old(nodes) + [n]
      ensures forall m :: m in nodes[..|nodes| - 1] && m != old(tail) ==> m.after == old(m.after)
    {
      if tail == null { head := n; } else { tail.after := n; }
      tail := n;
      nodes := nodes + [n];
    }

    method Pop() returns (n: Node?)
      requires Valid()
      modifies `head, `tail, `nodes, nodes`after
      ensures Valid()
      ensures n == null <==> old(nodes) == []
      ensures n == null ==> nodes == []
      ensures n != null ==> old(nodes) == [n] + nodes && n.after == null && n !in nodes
    {
      n := head;
      if n == null { return; }
      head := n.after;
      n.after := null;
      if head == null { tail := null; }
      nodes := nodes[1..];
    }
  }

  /** What the code's assertion catches: a second push of a queued node goes unnoticed
      exactly when that node is the tail, where it would close a cycle. */
  lemma AssertMissesExactlyTheTail(q: ReadyQueue, n: Node)
    requires q.Valid() && n in q.nodes
    ensures n.after == null <==> n == q.tail
  {
    var i :| 0 <= i < |q.nodes| && q.nodes[i] == n;
    assert q.nodes[i].after == q.At(i + 1);
  }
}
