/** The bounded queue with parked operations behind both the owner-thread channel and
    the cross-thread mailbox: a ring buffer, an intrusive list of parked operations,
    direct handoff, refill on receive, and lazy pruning of canceled nodes.

    Channel and mailbox share every step of matching, buffering and parking, and differ
    in four places. A channel's try operations read its loop's stop flag; a mailbox's do
    not. A mailbox's close reads cancellation flags as it evicts waiters; a channel's
    does not. A channel waiter expired by its loop stays linked until its frame goes; a
    mailbox waiter is unlinked at once. Completing a channel waiter queues it on the
    loop, completing a mailbox waiter posts a message to its loop: `done` is that queue
    in the first case and the sequence of posted messages in the second.

    Stop tokens fire and owner loops stop on other threads at any moment, so the code
    that reads those flags is modelled with the flags changing just before each read.
    `trace` is the abstract run performed so far; `Core` ties every field to the state
    that run reaches. */
module Queues {
  import opened Options
  import opened Ring
  import opened Sequences
  import opened IntrusiveList
  import opened BoundedQueue
  import opened Parking

  class Queue<T> {
    const buffer: Buffer<T>
    const waiters: List<Wait<T>>
    var done: seq<Link<Wait<T>>>
    var closed: bool
    var stopping: set<nat>
    ghost var trace: seq<Event<T>>
    ghost var s: State<T>

    ghost function Snap(): Shot<T>
      reads this, waiters, waiters.links`item, done`item
    {
      Shot(Payloads(waiters.links), Payloads(done))
    }

    /** A frame about to be resumed unlinks itself only from a list it is on. */
    ghost predicate Anchored(links: seq<Link<Wait<T>>>, nodes: seq<Link<Wait<T>>>)
      reads nodes`linked
    {
      forall i :: 0 <= i < |nodes| && nodes[i].linked ==> nodes[i] in links
    }

    ghost predicate Retired(items: seq<Wait<T>>)
    {
      forall i :: 0 <= i < |items| ==> !items[i].active
    }

    /** The coupling with the abstract state, given the values the queue holds. */
    ghost predicate Core(values: seq<T>)
      reads this, waiters, waiters.links, done
    {
      && waiters.Valid() && Traced(trace, s) && Holds(values, s.buf)
      && closed == s.closed && stopping == s.stopped
      && Couples(Snap(), s) && Retired(Snap().done) && Anchored(waiters.links, done) && Distinct(done)
    }

    ghost predicate Valid()
      reads this, buffer, buffer.slots, waiters, waiters.links, done
    {
      buffer.Valid() && buffer.slots.Length == s.cap && Core(buffer.Contents()) && !Closing(s)
    }

    constructor (capacity: nat)
      ensures Valid() && fresh(buffer) && fresh(buffer.slots) && fresh(waiters)
      ensures trace == [] && s.cap == capacity && stopping == {} && waiters.links == [] && done == []
    {
      buffer := new Buffer(capacity);
      waiters := new List();
      done := [];
      closed, stopping := false, {};
      trace, s := [], Init(capacity);
    }

    ghost method Note(e: Event<T>)
      requires Traced(trace, s) && Enabled(s, e)
      modifies this`trace, this`s
      ensures trace == old(trace) + [e] && s == Step(old(s), e) && s.cap == old(s.cap)
      ensures Traced(trace, s) && Extends(old(s), s)
    {
      TraceStep(trace, s, e);
      trace, s := trace + [e], Step(s, e);
    }

    // ---- Heap steps ----------------------------------------------------------

    lemma Head()
      requires waiters.Valid() && waiters.first != null
      ensures waiters.links != [] && waiters.links[0] == waiters.first
    {
    }

    lemma NotReady(n: Link<Wait<T>>)
      requires Retired(Snap().done) && n.item.active
      ensures n !in done
    {
      PayloadsAt(done);
    }

    /** Change the state of a linked node. */
    method Write(n: Link<Wait<T>>, item: Wait<T>, ghost k: nat)
      requires waiters.Valid() && k < |waiters.links| && waiters.links[k] == n && n !in done
      modifies n`item
      ensures n.item == item && n.linked
      ensures |old(Snap()).nodes| == |waiters.links| && Snap() == old(Snap()).(nodes := old(Snap()).nodes[k := item])
    {
      PayloadsAt(waiters.links);
      n.item := item;
      PayloadsAt(waiters.links);
    }

    method Detach(n: Link<Wait<T>>, ghost k: nat)
      requires waiters.Valid() && k < |waiters.links| && waiters.links[k] == n && Anchored(waiters.links, done)
      modifies waiters, waiters.links`next, waiters.links`prev, n`linked
      ensures waiters.Valid() && waiters.links == Remove(old(waiters.links), k) && n !in waiters.links && !n.linked
      ensures k < |old(Snap()).nodes| && Snap() == old(Snap()).(nodes := Remove(old(Snap()).nodes, k))
      ensures Anchored(waiters.links, done)
    {
      hide List.Valid;
      PayloadsAt(waiters.links);
      waiters.Unlink(n, k);
      PayloadsAt(waiters.links);
    }

    /** Retire a wait: publish its terminal state and queue its continuation once. */
    method Post(n: Link<Wait<T>>, item: Wait<T>)
      requires n !in waiters.links && n !in done && !n.linked && Anchored(waiters.links, done) && Distinct(done)
      modifies this`done, n`item
      ensures done == old(done) + [n] && n.item == item && Distinct(done)
      ensures Snap() == old(Snap()).(done := old(Snap()).done + [item]) && Anchored(waiters.links, done)
    {
      n.item := item;
      PayloadsSnoc(done, n);
      done := done + [n];
    }

    // ---- Environment ---------------------------------------------------------

    /** A stop callback marks a parked operation. */
    method CancelFn(n: Link<Wait<T>>, ghost k: nat, ghost values: seq<T>)
      requires Core(values) && k < |waiters.links| && waiters.links[k] == n && n.item.active
      modifies this`trace, this`s, n`item
      ensures Core(values) && trace == old(trace) + [Fire(n.item.id)]
      ensures s == old(s).(fired := old(s).fired + {n.item.id}) && n.item.id in s.outcome
      ensures n.item == old(n.item).(canceled := true)
    {
      hide List.Valid, Traced, Couples;
      ghost var v := Snap();
      PayloadsAt(waiters.links);
      SameNode(v, s, k);
      KnownWaiter(trace, s, k);
      OtherIds(trace, s, k);
      FireCouples(v, s, k);
      NotReady(n);
      Note(Fire(n.item.id));
      Write(n, n.item.(canceled := true), k);
    }

    /** A loop is stopped, possibly by another thread. */
    method StopLoop(owner: nat, ghost values: seq<T>)
      requires Core(values)
      modifies this`trace, this`s, this`stopping
      ensures Core(values) && trace == old(trace) + [Stop(owner)]
      ensures s == old(s).(stopped := old(s).stopped + {owner})
    {
      hide List.Valid, Traced;
      stopping := stopping + {owner};
      Note(Stop(owner));
    }

    /** Anything other threads may do before the next flag is read. */
    method Interfere(ghost values: seq<T>)
      requires Core(values)
      modifies this`trace, this`s, this`stopping, waiters.links`item
      ensures Core(values) && Idle(old(trace), trace) && Flagged(old(s), s)
    {
      hide List.Valid, Traced, Couples;
      var steps: nat := *;
      while steps > 0
        invariant Core(values) && Idle(old(trace), trace) && Flagged(old(s), s)
      {
        steps := steps - 1;
        if * {
          var owner: nat := *;
          StopLoop(owner, values);
        } else {
          FireOne(values);
        }
      }
    }

    /** The token of an arbitrary parked operation fires. */
    method FireOne(ghost values: seq<T>)
      requires Core(values)
      modifies this`trace, this`s, waiters.links`item
      ensures Core(values) && Idle(old(trace), trace) && Flagged(old(s), s)
    {
      var n := waiters.first;
      ghost var k := 0;
      var skip: nat := *;
      while n != null && skip > 0
        invariant 0 <= k <= |waiters.links| && n == Nth(waiters.links, k)
        decreases |waiters.links| - k
      {
        n, k, skip := n.next, k + 1, skip - 1;
      }
      if n != null && n.item.active { CancelFn(n, k, values); }
    }

    // ---- Completion ----------------------------------------------------------

    /** Unlink the head waiter, record its terminal state and queue its continuation. */
    method Complete(n: Link<Wait<T>>, item: Wait<T>, ghost e: Event<T>, ghost before: seq<T>, ghost after: seq<T>)
      requires Core(before) && waiters.first == n && n.item.active && Enabled(s, e)
      requires Leaves(s, Step(s, e), 0) && Holds(after, Step(s, e).buf)
      requires !item.active && item.id == n.item.id && n.item.id in Step(s, e).outcome
      requires Observes(item, Step(s, e).outcome[n.item.id])
      modifies this`trace, this`s, this`done, waiters, waiters.links
      ensures Core(after) && trace == old(trace) + [e] && s == Step(old(s), e) && s.cap == old(s.cap)
      ensures done == old(done) + [n]
      ensures waiters.links == old(waiters.links)[1..] && n.item == item
    {
      hide List.Valid, Traced, Couples, Step, Enabled, Holds, Observes, Extends, Anchored, Matches, Distinct, Leaves, Retired, Payloads;
      ghost var v := Snap();
      LeavesFlags(s, Step(s, e), 0);
      TraceStep(trace, s, e);
      NotReady(n);
      Head();
      CompleteCouples(v, s, Step(s, e), item);
      RetiredSnoc(v.done, item);
      Move(n, item);
      trace, s := trace + [e], Step(s, e);
    }

    /** Take the head off the list and queue its continuation. */
    method Move(n: Link<Wait<T>>, item: Wait<T>)
      requires waiters.Valid() && waiters.links != [] && waiters.links[0] == n
      requires Anchored(waiters.links, done) && n !in done && Distinct(done)
      modifies this`done, waiters, waiters.links
      ensures waiters.Valid() && Anchored(waiters.links, done) && Distinct(done) && done == old(done) + [n]
      ensures waiters.links == old(waiters.links)[1..] && n.item == item
      ensures old(Snap()).nodes != [] && Snap() == Shot(Remove(old(Snap()).nodes, 0), old(Snap()).done + [item])
    {
      hide List.Valid, Anchored, Distinct, Payloads;
      Detach(n, 0);
      Post(n, item);
    }

    lemma RetiredSnoc(items: seq<Wait<T>>, item: Wait<T>)
      requires Retired(items) && !item.active
      ensures Retired(items + [item])
    {
    }

    /** Remove the head waiter, failing it with the given fault if it is still pending. */
    method RemoveFirst(error: Option<Fault>, ghost e: Event<T>, ghost values: seq<T>)
      requires Core(values) && waiters.first != null && s.waiters != [] && Enabled(s, e)
      requires ((e.Drop? || e == Evict(true)) && error == Some(Canceled)) ||
        (e == Evict(false) && error == if s.waiters[0].payload.Some? then Some(BrokenPipe) else None)
      modifies this`trace, this`s, this`done, waiters, waiters.links
      ensures Core(values) && trace == old(trace) + [e] && Trimmed(old(s), s) && |s.waiters| == |old(s).waiters| - 1
      ensures old(waiters.links) != [] && waiters.links == old(waiters.links)[1..]
    {
      hide List.Valid, Traced, Couples, Holds, Anchored, Distinct, Step, Enabled, Leaves, Observes, Trimmed, Matches;
      var n := waiters.first;
      ghost var v := Snap();
      HeadMatches(v);
      RemoveStep(trace, s, e, error, n.item);
      if n.item.active {
        Complete(n, n.item.(active := false, error := error), e, values, values);
      } else {
        TraceStep(trace, s, e);
        LeaveCouples(v, s, Step(s, e), 0);
        Detach(n, 0);
        trace, s := trace + [e], Step(s, e);
      }
    }

    lemma HeadMatches(v: Shot<T>)
      requires Couples(v, s) && v == Snap() && waiters.Valid() && waiters.first != null
      ensures s.waiters != [] && waiters.links != [] && waiters.links[0] == waiters.first
      ensures Matches(waiters.first.item, s.waiters[0], s.fired)
    {
      PayloadsAt(waiters.links);
    }

    // ---- Matching ------------------------------------------------------------

    /** The head is absent, or a live waiter. */
    ghost predicate Settled(t: State<T>)
    {
      !Closing(t) && (t.waiters == [] || Live(t, t.waiters[0]))
    }

    lemma ReadHead(v: Shot<T>)
      requires Couples(v, s) && stopping == s.stopped && v == Snap()
      requires waiters.Valid() && waiters.first != null
      ensures var item := waiters.first.item;
        && s.waiters != [] && waiters.links != [] && waiters.links[0] == waiters.first
        && Matches(item, s.waiters[0], s.fired)
        && (Live(s, s.waiters[0]) <==> item.active && !item.canceled && item.id.owner !in stopping)
    {
      PayloadsAt(waiters.links);
    }

    /** Read the flags of the head waiter. */
    method Probe(w: Link<Wait<T>>, ghost values: seq<T>) returns (live: bool)
      requires Core(values) && w == waiters.first
      modifies this`trace, this`s, this`stopping, waiters.links`item
      ensures Core(values) && Idle(old(trace), trace) && Flagged(old(s), s)
      ensures s.waiters != [] && (live <==> Live(s, s.waiters[0])) && Matches(w.item, s.waiters[0], s.fired)
      ensures waiters.links != []
    {
      hide List.Valid, Traced, Couples;
      Interfere(values);
      ReadHead(Snap());
      live := w.item.active && !w.item.canceled && w.item.id.owner !in stopping;
    }

    /** Drop dead waiters from the front; return the first live one if it faces the
        desired way. It stays linked until `Complete` unlinks it, with no flag read in
        between. */
    method Take(sending: bool, ghost values: seq<T>) returns (w: Link?<Wait<T>>)
      requires Core(values) && !Closing(s)
      modifies this`trace, this`s, this`stopping, this`done, waiters, waiters.links
      ensures Core(values) && Quiet(old(trace), trace) && Trimmed(old(s), s) && Settled(s)
      ensures w != null ==>
        && w == waiters.first && s.waiters != [] && w.item.active && w.item.sending == sending
        && Matches(w.item, s.waiters[0], s.fired)
      ensures w == null ==> s.waiters == [] || s.waiters[0].payload.Some? != sending
      ensures Suffix(waiters.links, old(waiters.links))
    {
      hide List.Valid, Traced, Couples, Holds, Quiet, Trimmed, Flagged;
      Untouched(trace, s);
      while waiters.first != null
        invariant Core(values) && Quiet(old(trace), trace) && Trimmed(old(s), s) && !Closing(s)
        invariant Suffix(waiters.links, old(waiters.links))
        decreases |waiters.links|
      {
        w := waiters.first;
        ghost var t0, s0 := trace, s;
        var live := Probe(w, values);
        QuietTrim(old(trace), t0, trace, old(s), s0, s);
        if live {
          if w.item.sending != sending { w := null; }
          return;
        }
        t0, s0 := trace, s;
        RemoveFirst(Some(Canceled), Drop, values);
        DropTrim(old(trace), t0, old(s), s0, s);
      }
      w := null;
      NoWaiters(Snap());
    }

    lemma NoWaiters(v: Shot<T>)
      requires Couples(v, s) && v == Snap() && waiters.Valid() && waiters.first == null
      ensures s.waiters == [] && waiters.links == []
    {
      PayloadsAt(waiters.links);
    }

    /** Direct handoff to the head receiver. */
    method Deliver(w: Link<Wait<T>>, id: Op, value: T, ghost wait: bool, ghost values: seq<T>)
      requires Core(values) && w == waiters.first && w.item.active && id !in s.outcome
      requires Settled(s) && !s.closed && s.waiters != [] && s.waiters[0].payload.None?
      requires Matches(w.item, s.waiters[0], s.fired)
      modifies this`trace, this`s, this`done, waiters, waiters.links
      ensures Core(values) && trace == old(trace) + [Send(id, value, wait)] && s == HandOver(old(s), Item(id, value))
      ensures s.cap == old(s.cap) && !Closing(s) && id in s.outcome && s.outcome[id].Sent? && Called(old(s), s, id)
      ensures Suffix(waiters.links, old(waiters.links))
    {
      hide List.Valid, Traced, Couples, Holds;
      KnownHead(trace, s);
      Complete(w, w.item.(active := false, value := Some(value)), Send(id, value, wait), values, values);
    }

    /** Complete the head sender while its value enters behind the ones held. */
    method Admit(w: Link<Wait<T>>, id: Op, ghost wait: bool, ghost before: seq<T>, ghost after: seq<T>)
      requires Core(before) && w == waiters.first && w.item.active && id !in s.outcome
      requires Settled(s) && s.waiters != [] && s.waiters[0].payload.Some?
      requires Matches(w.item, s.waiters[0], s.fired) && Holds(after, Refill(s, id).buf)
      modifies this`trace, this`s, this`done, waiters, waiters.links
      ensures Core(after) && trace == old(trace) + [Recv(id, wait)] && s == Refill(old(s), id)
      ensures s.cap == old(s.cap) && !Closing(s) && id in s.outcome && Called(old(s), s, id)
      ensures Suffix(waiters.links, old(waiters.links))
    {
      hide List.Valid, Traced, Couples, Holds;
      KnownHead(trace, s);
      Complete(w, w.item.(active := false), Recv(id, wait), before, after);
    }

    /** An operation that completes against the buffer alone. */
    ghost method Enter(e: Event<T>, before: seq<T>, after: seq<T>)
      requires Core(before) && Enabled(s, e) && Holds(after, Step(s, e).buf)
      requires Step(s, e).waiters == s.waiters && Step(s, e).fired == s.fired && Step(s, e).stopped == s.stopped
      requires Step(s, e).closed == s.closed
      modifies this`trace, this`s
      ensures Core(after) && trace == old(trace) + [e] && s == Step(old(s), e) && s.cap == old(s.cap)
    {
      hide List.Valid, Traced, Couples;
      ghost var r := Step(s, e);
      TraceStep(trace, s, e);
      SameCouples(Snap(), s, r);
      trace, s := trace + [e], r;
    }

    ghost method Draw(id: Op, wait: bool, values: seq<T>)
      requires Core(values) && Settled(s) && id !in s.outcome && values != []
      requires s.waiters == [] || s.waiters[0].payload.None?
      modifies this`trace, this`s
      ensures Core(values[1..]) && trace == old(trace) + [Recv(id, wait)]
      ensures s.cap == old(s.cap) && !Closing(s) && id in s.outcome && s.outcome[id] == Got(values[0], |old(s).out|)
      ensures Called(old(s), s, id)
    {
      hide List.Valid, Traced, Couples, Holds;
      HoldsLength(values, s.buf);
      FetchHolds(values, s, id);
      Enter(Recv(id, wait), values, values[1..]);
    }

    lemma Sizes()
      requires Valid()
      ensures |buffer.Contents()| == |s.buf| <= buffer.slots.Length && closed == s.closed
    {
    }

    /** Transfer directly or buffer. Without room nothing is recorded yet: the caller
        still has to decide between waiting and giving up. */
    method PushValue(id: Op, value: T, ghost wait: bool) returns (ok: bool)
      requires Valid() && !closed && id !in s.outcome
      modifies this`trace, this`s, this`stopping, this`done, waiters, waiters.links, buffer`size, buffer.slots
      ensures Valid() && Suffix(waiters.links, old(waiters.links))
      ensures ok ==> Logged(old(trace), trace, Send(id, value, wait)) && id in s.outcome && s.outcome[id].Sent?
      ensures ok ==> Called(old(s), s, id)
      ensures !ok ==> Quiet(old(trace), trace) && Trimmed(old(s), s) && Blocked(s, true)
    {
      hide Core, List.Valid, Buffer.Valid, Buffer.Contents, Quiet, Holds, Matches, Live, Trimmed;
      ghost var values := buffer.Contents();
      Sizes();
      var w := Take(false, values);
      TrimmedKeeps(old(s), s);
      ghost var t0, s0 := trace, s;
      if w != null {
        FacesReceiver(w.item, s);
        Deliver(w, id, value, wait, values);
      } else if buffer.size == buffer.slots.Length {
        return false;
      } else {
        buffer.Push(value);
        Insert(id, value, wait, values);
      }
      Log(old(trace), t0, Send(id, value, wait));
      TrimCalled(old(s), s0, s, id);
      ok := true;
    }

    ghost method Insert(id: Op, value: T, wait: bool, values: seq<T>)
      requires Core(values) && Settled(s) && id !in s.outcome && !s.closed && |s.buf| < s.cap
      requires s.waiters == [] || s.waiters[0].payload.Some?
      modifies this`trace, this`s
      ensures Core(values + [value]) && trace == old(trace) + [Send(id, value, wait)]
      ensures s.cap == old(s.cap) && !Closing(s) && id in s.outcome && s.outcome[id].Sent? && Called(old(s), s, id)
    {
      hide List.Valid, Traced, Couples, Holds;
      StoreHolds(values, s.buf, Item(id, value));
      Enter(Send(id, value, wait), values, values + [value]);
    }

    /** Receive in order, refilling the freed slot from one blocked sender. */
    method PopValue(id: Op, ghost wait: bool) returns (value: Option<T>)
      requires Valid() && id !in s.outcome
      modifies this`trace, this`s, this`stopping, this`done, waiters, waiters.links, buffer, buffer.slots
      ensures Valid() && Suffix(waiters.links, old(waiters.links))
      ensures value.Some? ==>
        && Logged(old(trace), trace, Recv(id, wait)) && id in s.outcome && Called(old(s), s, id)
        && s.outcome[id] == Got(value.value, |old(s).out|)
      ensures value.None? ==> Quiet(old(trace), trace) && Trimmed(old(s), s) && Blocked(s, false)
    {
      hide Core, List.Valid, Buffer.Valid, Buffer.Contents, Quiet, Holds, Matches, Live, Trimmed;
      ghost var values := buffer.Contents();
      Sizes();
      value := buffer.TryPop();
      var w := Take(true, values);
      TrimmedKeeps(old(s), s);
      ghost var t0, s0 := trace, s;
      value := Conclude(w, value, id, wait, values);
      if value.Some? {
        Log(old(trace), t0, Recv(id, wait));
        TrimCalled(old(s), s0, s, id);
      }
    }

    method Conclude(w: Link?<Wait<T>>, got: Option<T>, id: Op, ghost wait: bool, ghost values: seq<T>) returns (value: Option<T>)
      requires Core(values) && Settled(s) && id !in s.outcome
      requires w != null ==>
        && w == waiters.first && s.waiters != [] && w.item.active && w.item.sending && Matches(w.item, s.waiters[0], s.fired)
      requires w == null ==> s.waiters == [] || s.waiters[0].payload.None?
      requires buffer.Valid() && values == (if got.Some? then [got.value] else []) + buffer.Contents()
      requires (got.None? ==> values == []) && |values| <= buffer.slots.Length
      modifies this`trace, this`s, this`done, waiters, waiters.links, buffer`size, buffer.slots
      ensures buffer.Valid() && Core(buffer.Contents()) && Suffix(waiters.links, old(waiters.links))
      ensures s.cap == old(s.cap) && !Closing(s)
      ensures value.Some? ==>
        && trace == old(trace) + [Recv(id, wait)] && Called(old(s), s, id)
        && id in s.outcome && s.outcome[id] == Got(value.value, |old(s).out|)
      ensures value.None? ==> trace == old(trace) && s == old(s) && values == [] && w == null
    {
      hide Core, List.Valid, Buffer.Valid, Buffer.Contents, Matches, Live;
      value := got;
      if w != null {
        value := Refilled(w, got, id, wait, values);
      } else if value.Some? {
        assert buffer.Contents() == values[1..];
        Draw(id, wait, values);
      } else {
        assert buffer.Contents() == values;
      }
    }

    method Refilled(w: Link<Wait<T>>, got: Option<T>, id: Op, ghost wait: bool, ghost values: seq<T>) returns (value: Option<T>)
      requires Core(values) && Settled(s) && s.waiters != [] && Matches(w.item, s.waiters[0], s.fired)
      requires w == waiters.first && w.item.active && w.item.sending && id !in s.outcome
      requires buffer.Valid() && values == (if got.Some? then [got.value] else []) + buffer.Contents()
      requires (got.None? ==> values == []) && |values| <= buffer.slots.Length
      modifies this`trace, this`s, this`done, waiters, waiters.links, buffer`size, buffer.slots
      ensures buffer.Valid() && Core(buffer.Contents()) && trace == old(trace) + [Recv(id, wait)]
      ensures s.cap == old(s.cap) && !Closing(s) && Suffix(waiters.links, old(waiters.links))
      ensures value.Some? && id in s.outcome && s.outcome[id] == Got(value.value, |old(s).out|) && Called(old(s), s, id)
    {
      hide List.Valid, Buffer.Valid, Buffer.Contents, Traced, Couples, Holds, Matches, Refill, Live;
      FacesSender(w.item, s);
      RefillHolds(values, s, id);
      value := got;
      if value.Some? {
        buffer.Push(w.item.value.value);
      } else {
        value := w.item.value;
      }
      assert buffer.Contents() == (values + [w.item.value.value])[1..];
      Admit(w, id, wait, values, buffer.Contents());
    }

    // ---- Operations ----------------------------------------------------------

    /** A one-shot node before its only suspension. */
    ghost predicate Unused(n: Link<Wait<T>>)
      reads this, n
    {
      && !n.linked && n.next == null && !n.item.active && !n.item.canceled && n.item.error.None?
      && n.item.sending == n.item.value.Some?
      && n.item.id !in s.outcome && (n.item.token <==> n.item.id in s.fired)
    }

    lemma Apart(n: Link<Wait<T>>, values: seq<T>)
      requires Core(values) && n.item.id !in s.outcome
      ensures n !in waiters.links && n !in done
    {
      UnknownWaiter(trace, s, n.item.id);
      UnknownApart(waiters.links, done, s, n);
    }

    /** The stop token of a node that is not parked yet fires. */
    method TokenFires(n: Link<Wait<T>>, ghost values: seq<T>)
      requires Core(values) && Unused(n)
      modifies this`trace, this`s, n`item
      ensures Core(values) && Unused(n) && trace == old(trace) + [Fire(n.item.id)]
      ensures n.item == old(n.item).(token := true) && s == old(s).(fired := old(s).fired + {n.item.id})
    {
      hide List.Valid, Traced, Couples, Holds;
      Apart(n, values);
      UnknownWaiter(trace, s, n.item.id);
      FireOther(Snap(), s, n.item.id);
      Note(Fire(n.item.id));
      n.item := n.item.(token := true);
    }

    /** Read the loop's and the token's stop flags. */
    method StopSeen(n: Link<Wait<T>>) returns (seen: bool)
      requires Valid() && Unused(n)
      modifies this`trace, this`s, this`stopping, n`item
      ensures Valid() && Unused(n) && Quiet(old(trace), trace)
      ensures n.item == old(n.item).(token := n.item.token)
      ensures seen <==> n.item.id in s.fired || n.item.id.owner in s.stopped
      ensures !seen ==> s == old(s) && trace == old(trace)
      ensures Waved(old(s), s, n.item.id)
    {
      hide List.Valid, Buffer.Valid, Buffer.Contents, Traced, Couples, Holds;
      ghost var values := buffer.Contents();
      if * { StopLoop(n.item.id.owner, values); }
      if * { TokenFires(n, values); }
      seen := n.item.id.owner in stopping || n.item.token;
    }

    /** End an operation before it touches the queue. */
    method Refuse(n: Link<Wait<T>>)
      requires Valid() && Unused(n) && (n.item.id in s.fired || n.item.id.owner in s.stopped)
      modifies this`trace, this`s, n`item
      ensures Valid() && trace == old(trace) + [Event.Refuse(n.item.id, n.item.value)]
      ensures n.item == old(n.item).(error := Some(Canceled)) && Called(old(s), s, n.item.id)
      ensures n.item.id in s.outcome && s.outcome[n.item.id] == Failed(Canceled)
    {
      hide List.Valid, Buffer.Valid, Buffer.Contents, Traced, Couples, Holds;
      Apart(n, buffer.Contents());
      Enter(Event.Refuse(n.item.id, n.item.value), buffer.Contents(), buffer.Contents());
      n.item := n.item.(error := Some(Canceled));
    }

    /** The event of a suspending call. */
    ghost function CallOf(item: Wait<T>): Event<T>
    {
      if item.sending && item.value.Some? then Send(item.id, item.value.value, true) else Recv(item.id, true)
    }

    lemma ParkStep(t: State<T>, item: Wait<T>)
      requires Blocked(t, item.sending) && !t.closed && item.id !in t.outcome && item.sending == item.value.Some?
      ensures Enabled(t, CallOf(item))
      ensures Step(t, CallOf(item)) == BoundedQueue.Park(t, Waiter(item.id, true, item.value))
      ensures CallOf(item.(active := true)) == CallOf(item)
    {
    }

    /** Suspend behind the waiters of the same direction. */
    method Park(n: Link<Wait<T>>)
      requires Valid() && Unused(n) && Blocked(s, n.item.sending) && !closed
      requires n.item.id !in s.fired && n.item.id.owner !in s.stopped
      modifies this`trace, this`s, n, waiters, waiters.links`next
      ensures Valid() && trace == old(trace) + [CallOf(n.item)] && waiters.links == old(waiters.links) + [n]
      ensures n.item == old(n.item).(active := true)
      ensures n.item.id in s.outcome && s.outcome[n.item.id].Pending? && Called(old(s), s, n.item.id)
    {
      hide List.Valid, Buffer.Valid, Buffer.Contents, Traced, Couples, Holds, Anchored, Step, Enabled, Blocked, Extends;
      hide CallOf, Distinct, Called;
      ghost var v, e := Snap(), CallOf(n.item);
      Apart(n, buffer.Contents());
      ParkStep(s, n.item);
      TraceStep(trace, s, e);
      JoinCouples(v, s, Step(s, e), n.item.(active := true));
      n.item := n.item.(active := true);
      Append(n);
      ParkCalled(s, n.item.id, n.item.value);
      trace, s := trace + [e], Step(s, e);
    }

    method Append(n: Link<Wait<T>>)
      requires waiters.Valid() && !n.linked && n.next == null && n !in done && Anchored(waiters.links, done)
      modifies n`prev, n`linked, waiters, waiters.links`next
      ensures waiters.Valid() && waiters.links == old(waiters.links) + [n] && Anchored(waiters.links, done)
      ensures Snap() == old(Snap()).(nodes := old(Snap()).nodes + [n.item])
    {
      hide List.Valid;
      waiters.PushBack(n);
      PayloadsSnoc(old(waiters.links), n);
    }

    /** Push or end a send that need not wait. */
    method SendNow(n: Link<Wait<T>>) returns (over: bool)
      requires Valid() && Unused(n) && n.item.sending
      modifies this`trace, this`s, this`stopping, this`done, n`item, waiters, waiters.links, buffer`size, buffer.slots
      ensures Valid() && Suffix(waiters.links, old(waiters.links))
      ensures over ==> Ended(n, old(trace), old(n.item), CallOf(old(n.item))) && Called(old(s), s, n.item.id)
      ensures !over ==> Unused(n) && n.item == old(n.item) && Quiet(old(trace), trace) && Blocked(s, true) && !closed
      ensures !over ==> Trimmed(old(s), s)
    {
      hide Core, List.Valid, Buffer.Valid, Buffer.Contents, Quiet, Trimmed, Live;
      Separate(n);
      if closed {
        ghost var t0 := trace;
        Reject(n);
        QuietSelf(t0);
        Log(t0, t0, CallOf(old(n.item)));
        return true;
      }
      over := PushValue(n.item.id, n.item.value.value, true);
      if !over { TrimmedKeeps(old(s), s); }
    }

    /** The call has ended, its event is the last one, and the node shows the outcome. */
    ghost predicate Ended(n: Link<Wait<T>>, before: seq<Event<T>>, was: Wait<T>, e: Event<T>)
      reads this, n
    {
      && n.item.id == was.id && n.item.id in s.outcome && Logged(before, trace, e) && !n.linked
      && Observes(n.item, s.outcome[n.item.id])
    }

    lemma Separate(n: Link<Wait<T>>)
      requires Valid() && Unused(n)
      ensures n !in waiters.links && n !in done && closed == s.closed
    {
      Apart(n, buffer.Contents());
    }

    /** A send on a closed queue. */
    method Reject(n: Link<Wait<T>>)
      requires Valid() && Unused(n) && n.item.sending && closed
      modifies this`trace, this`s, n`item
      ensures Valid() && trace == old(trace) + [CallOf(old(n.item))]
      ensures n.item == old(n.item).(error := Some(BrokenPipe)) && Called(old(s), s, n.item.id)
      ensures n.item.id in s.outcome && s.outcome[n.item.id] == Failed(BrokenPipe)
    {
      hide List.Valid, Buffer.Valid, Buffer.Contents, Traced, Couples, Holds, Anchored;
      Apart(n, buffer.Contents());
      Enter(CallOf(n.item), buffer.Contents(), buffer.Contents());
      n.item := n.item.(error := Some(BrokenPipe));
    }

    /** Pop a value, or end a receive on a closed and empty queue. */
    method RecvNow(n: Link<Wait<T>>) returns (over: bool)
      requires Valid() && Unused(n) && !n.item.sending
      modifies this`trace, this`s, this`stopping, this`done, n`item, waiters, waiters.links, buffer, buffer.slots
      ensures Valid() && Suffix(waiters.links, old(waiters.links))
      ensures over ==> Ended(n, old(trace), old(n.item), CallOf(old(n.item))) && Called(old(s), s, n.item.id)
      ensures !over ==> Unused(n) && n.item == old(n.item) && Quiet(old(trace), trace) && Blocked(s, false) && !closed
      ensures !over ==> Trimmed(old(s), s)
    {
      hide Core, List.Valid, Buffer.Valid, Buffer.Contents, Quiet, Trimmed, Live;
      Separate(n);
      var got := PopValue(n.item.id, true);
      if got.Some? {
        Fill(n, got.value);
        return true;
      }
      TrimmedKeeps(old(s), s);
      over := closed;
      if over {
        ghost var t0, s0 := trace, s;
        Finish(n);
        Log(old(trace), t0, CallOf(n.item));
        TrimCalled(old(s), s0, s, n.item.id);
      }
    }

    method Fill(n: Link<Wait<T>>, value: T)
      requires Valid() && !n.linked && n.item.value.None? && n.item.id in s.outcome && s.outcome[n.item.id].Got?
      modifies n`item
      ensures Valid() && n.item == old(n.item).(value := Some(value))
    {
      hide List.Valid, Buffer.Valid, Buffer.Contents, Traced, Couples, Holds, Anchored;
      Unfilled(n);
      n.item := n.item.(value := Some(value));
    }

    lemma Unfilled(n: Link<Wait<T>>)
      requires waiters.Valid() && Couples(Snap(), s)
      requires !n.linked && n.item.value.None? && n.item.id in s.outcome && s.outcome[n.item.id].Got?
      ensures n !in waiters.links && n !in done
    {
      PayloadsAt(done);
    }

    /** A receive that finds the queue closed and drained. */
    method Finish(n: Link<Wait<T>>)
      requires Valid() && Unused(n) && !n.item.sending && closed && Blocked(s, false)
      modifies this`trace, this`s
      ensures Valid() && trace == old(trace) + [CallOf(n.item)]
      ensures n.item.id in s.outcome && s.outcome[n.item.id] == Drained && Called(old(s), s, n.item.id)
    {
      hide List.Valid, Buffer.Valid, Buffer.Contents, Traced, Couples, Holds, Anchored;
      Enter(CallOf(n.item), buffer.Contents(), buffer.Contents());
    }

    /** Suspend a send or receive, or complete it at once. */
    method AwaitSuspend(n: Link<Wait<T>>) returns (suspended: bool)
      requires Valid() && Unused(n)
      modifies this`trace, this`s, this`stopping, this`done, n, waiters, waiters.links, buffer, buffer.slots
      ensures Valid()
      ensures suspended ==>
        && Logged(old(trace), trace, CallOf(old(n.item))) && n.item.id == old(n.item.id)
        && n.item.id in s.outcome && s.outcome[n.item.id].Pending?
        && waiters.links != [] && waiters.links[|waiters.links| - 1] == n
        && Suffix(waiters.links[..|waiters.links| - 1], old(waiters.links))
      ensures !suspended ==> Suffix(waiters.links, old(waiters.links))
      ensures !suspended ==>
        || Ended(n, old(trace), old(n.item), CallOf(old(n.item)))
        || Ended(n, old(trace), old(n.item), Event.Refuse(n.item.id, old(n.item.value)))
      ensures old(n.item.id in s.fired || n.item.id.owner in s.stopped) ==>
        !suspended && Ended(n, old(trace), old(n.item), Event.Refuse(n.item.id, old(n.item.value)))
      ensures Called(old(s), s, old(n.item.id))
    {
      hide Valid, Quiet, Logged, Called, Waved, Ended, CallOf;
      var seen := StopSeen(n);
      if seen {
        Decline(n, old(trace), old(s), old(n.item));
        return false;
      }
      assert n.item == old(n.item);
      suspended := Proceed(n);
    }

    /** End an operation whose stop was seen. */
    method Decline(n: Link<Wait<T>>, ghost before: seq<Event<T>>, ghost was: State<T>, ghost item: Wait<T>)
      requires Valid() && Unused(n) && (n.item.id in s.fired || n.item.id.owner in s.stopped)
      requires n.item == item.(token := n.item.token) && Quiet(before, trace) && Waved(was, s, n.item.id)
      modifies this`trace, this`s, n`item
      ensures Valid() && n.item.id == item.id && Called(was, s, item.id)
      ensures Ended(n, before, item, Event.Refuse(item.id, item.value))
    {
      hide Valid, Quiet, Logged, Called, Waved;
      ghost var t0, s0 := trace, s;
      Refuse(n);
      Log(before, t0, Event.Refuse(item.id, item.value));
      WaveCalled(was, s0, s, item.id);
    }

    /** Match, buffer or park an operation that found no stop. */
    method Proceed(n: Link<Wait<T>>) returns (suspended: bool)
      requires Valid() && Unused(n)
      modifies this`trace, this`s, this`stopping, this`done, n, waiters, waiters.links, buffer, buffer.slots
      ensures Valid() && Called(old(s), s, old(n.item.id))
      ensures suspended ==>
        && Logged(old(trace), trace, CallOf(old(n.item))) && n.item.id == old(n.item.id)
        && n.item.id in s.outcome && s.outcome[n.item.id].Pending?
        && waiters.links != [] && waiters.links[|waiters.links| - 1] == n
        && Suffix(waiters.links[..|waiters.links| - 1], old(waiters.links))
      ensures !suspended ==> Suffix(waiters.links, old(waiters.links))
      ensures !suspended ==>
        || Ended(n, old(trace), old(n.item), CallOf(old(n.item)))
        || Ended(n, old(trace), old(n.item), Event.Refuse(n.item.id, old(n.item.value)))
    {
      hide Valid, Quiet, Trimmed, Blocked, Logged, Called, CallOf;
      var over;
      ghost var t0, s0 := trace, s;
      Separate(n);
      if n.item.sending { over := SendNow(n); } else { over := RecvNow(n); }
      if over { return false; }
      ghost var s1 := s;
      suspended := Arm(n, t0);
      TrimCalled(s0, s1, s, n.item.id);
    }

    /** Register cancellation and park, unless a stop came in meanwhile. */
    method Arm(n: Link<Wait<T>>, ghost before: seq<Event<T>>) returns (suspended: bool)
      requires Valid() && Unused(n) && Blocked(s, n.item.sending) && !closed && Quiet(before, trace)
      modifies this`trace, this`s, this`stopping, n, waiters, waiters.links`next
      ensures Valid()
      ensures suspended ==>
        && Logged(before, trace, CallOf(old(n.item))) && n.item.id == old(n.item.id)
        && n.item.id in s.outcome && s.outcome[n.item.id].Pending?
      ensures !suspended ==> Ended(n, before, old(n.item), Event.Refuse(n.item.id, old(n.item.value)))
      ensures waiters.links == if suspended then old(waiters.links) + [n] else old(waiters.links)
      ensures n.item.id == old(n.item.id) && Called(old(s), s, n.item.id)
    {
      hide Valid, Quiet, Blocked, Logged, Called, Waved, Ended;
      var seen := StopSeen(n);
      QuietTrans(before, old(trace), trace);
      ghost var t0 := trace;
      if seen {
        Decline(n, before, old(s), old(n.item));
        return false;
      }
      Park(n);
      Log(before, t0, CallOf(n.item));
      suspended := true;
    }

    /** Read whether a loop has been stopped. */
    method Stopped(owner: nat) returns (r: bool)
      requires Valid()
      modifies this`trace, this`s, this`stopping
      ensures Valid() && Quiet(old(trace), trace) && Flagged(old(s), s) && (r <==> owner in s.stopped)
      ensures owner in old(stopping) ==> r
    {
      hide List.Valid, Buffer.Valid, Buffer.Contents, Traced, Couples, Holds, Anchored;
      if * { StopLoop(owner, buffer.Contents()); }
      r := owner in stopping;
    }

    /** An operation that ends at once and leaves waiters and buffer as they are. */
    ghost method Conclusion(e: Event<T>, id: Op, payload: Option<T>, end: Outcome<T>)
      requires Valid() && id !in s.outcome && Enabled(s, e) && Step(s, e) == Settle(s, id, payload, end)
      modifies this`trace, this`s
      ensures Valid() && trace == old(trace) + [e] && id in s.outcome && s.outcome[id] == end && Called(old(s), s, id)
    {
      hide List.Valid, Buffer.Valid, Buffer.Contents, Traced, Couples, Holds, Anchored;
      Enter(e, buffer.Contents(), buffer.Contents());
    }

    /** Send without waiting; a channel first reads its loop's stop flag. */
    method TrySend(id: Op, value: T, readsLoop: bool) returns (ok: bool)
      requires Valid() && id !in s.outcome
      modifies this`trace, this`s, this`stopping, this`done, waiters, waiters.links, buffer`size, buffer.slots
      ensures Valid() && id in s.outcome && (ok <==> s.outcome[id].Sent?) && Suffix(waiters.links, old(waiters.links))
      ensures Logged(old(trace), trace, Send(id, value, false)) || Logged(old(trace), trace, Event.Refuse(id, Some(value)))
      ensures old(closed) || !readsLoop ==> Logged(old(trace), trace, Send(id, value, false))
      ensures readsLoop && id.owner in old(stopping) ==> !ok
      ensures !ok ==> s.outcome[id].Failed?
      ensures Called(old(s), s, id)
    {
      hide Core, List.Valid, Buffer.Valid, Buffer.Contents, Quiet, Trimmed, Live, Logged;
      Sizes();
      QuietSelf(trace);
      ok := false;
      if closed {
        Conclusion(Send(id, value, false), id, Some(value), Failed(BrokenPipe));
        Log(old(trace), old(trace), Send(id, value, false));
        return;
      }
      var stop := false;
      if readsLoop { stop := Stopped(id.owner); }
      ghost var t0, s0 := trace, s;
      if stop {
        Conclusion(Event.Refuse(id, Some(value)), id, Some(value), Failed(Canceled));
        Log(old(trace), t0, Event.Refuse(id, Some(value)));
      } else {
        ok := PushOrFail(id, value, old(trace));
      }
      FlagCalled(old(s), s0, s, id);
    }

    method PushOrFail(id: Op, value: T, ghost before: seq<Event<T>>) returns (ok: bool)
      requires Valid() && id !in s.outcome && !closed && Quiet(before, trace)
      modifies this`trace, this`s, this`stopping, this`done, waiters, waiters.links, buffer`size, buffer.slots
      ensures Valid() && id in s.outcome && (ok <==> s.outcome[id].Sent?) && Suffix(waiters.links, old(waiters.links))
      ensures Logged(before, trace, Send(id, value, false)) && (!ok ==> s.outcome[id].Failed?) && Called(old(s), s, id)
    {
      hide Core, List.Valid, Buffer.Valid, Buffer.Contents, Quiet, Trimmed, Live, Logged;
      Sizes();
      ok := PushValue(id, value, false);
      if ok {
        LogTrans(before, old(trace), trace, Send(id, value, false));
      } else {
        TrimmedKeeps(old(s), s);
        ghost var t0, s0 := trace, s;
        QuietTrans(before, old(trace), t0);
        GiveUp(s, id, value);
        Conclusion(Send(id, value, false), id, Some(value), Failed(Full));
        Log(before, t0, Send(id, value, false));
        TrimCalled(old(s), s0, s, id);
      }
    }

    /** Receive without waiting; a channel first reads its loop's stop flag. */
    method TryRecv(id: Op, readsLoop: bool) returns (value: Option<T>)
      requires Valid() && id !in s.outcome
      modifies this`trace, this`s, this`stopping, this`done, waiters, waiters.links, buffer, buffer.slots
      ensures Valid() && id in s.outcome && Suffix(waiters.links, old(waiters.links))
      ensures Logged(old(trace), trace, Recv(id, false)) || Logged(old(trace), trace, Event.Refuse(id, None))
      ensures if readsLoop then id.owner in old(stopping) ==> value.None?
              else Logged(old(trace), trace, Recv(id, false))
      ensures if value.Some? then s.outcome[id] == Got(value.value, |old(s).out|)
              else s.outcome[id] == Nothing || s.outcome[id] == Failed(Canceled)
      ensures Called(old(s), s, id)
    {
      hide Core, List.Valid, Buffer.Valid, Buffer.Contents, Quiet, Trimmed, Live, Logged;
      QuietSelf(trace);
      var stop := false;
      if readsLoop { stop := Stopped(id.owner); }
      ghost var t0, s0 := trace, s;
      value := None;
      if stop {
        Conclusion(Event.Refuse(id, None), id, None, Failed(Canceled));
        Log(old(trace), t0, Event.Refuse(id, None));
      } else {
        value := PopOrFail(id, old(trace));
      }
      FlagCalled(old(s), s0, s, id);
    }

    method PopOrFail(id: Op, ghost before: seq<Event<T>>) returns (value: Option<T>)
      requires Valid() && id !in s.outcome && Quiet(before, trace)
      modifies this`trace, this`s, this`stopping, this`done, waiters, waiters.links, buffer, buffer.slots
      ensures Valid() && id in s.outcome && Logged(before, trace, Recv(id, false)) && Suffix(waiters.links, old(waiters.links))
      ensures s.outcome[id] == (if value.Some? then Got(value.value, |old(s).out|) else Nothing) && Called(old(s), s, id)
    {
      hide Core, List.Valid, Buffer.Valid, Buffer.Contents, Quiet, Trimmed, Live, Logged;
      value := PopValue(id, false);
      if value.Some? {
        LogTrans(before, old(trace), trace, Recv(id, false));
      } else {
        TrimmedKeeps(old(s), s);
        ghost var t0, s0 := trace, s;
        QuietTrans(before, old(trace), t0);
        Conclusion(Recv(id, false), id, None, Nothing) by { FindNothing(s, id); }
        Log(before, t0, Recv(id, false));
        TrimCalled(old(s), s0, s, id);
      }
    }

    /** Close once and for all: reject senders, complete receivers. A mailbox ends those
        it finds canceled as such. */
    method Close(readsFlags: bool)
      requires Valid()
      modifies this`trace, this`s, this`closed, this`stopping, this`done, waiters, waiters.links
      ensures Valid() && closed && waiters.links == [] && s.waiters == []
      ensures old(trace) + [Event.Close] <= trace && Evictions(trace, |old(trace)| + 1, readsFlags)
      ensures s.outcome.Keys == old(s).outcome.Keys && s.fired <= old(s).fired + s.outcome.Keys
    {
      hide List.Valid, Buffer.Valid, Buffer.Contents, Traced, Couples, Holds, Anchored, Trimmed;
      closed := true;
      Note(Event.Close);
      SameCouples(Snap(), old(s), s);
      EvictAll(readsFlags, buffer.Contents());
    }

    method EvictAll(readsFlags: bool, ghost values: seq<T>)
      requires Core(values) && s.closed
      modifies this`trace, this`s, this`stopping, this`done, waiters, waiters.links
      ensures Core(values) && s.closed && s.cap == old(s.cap) && waiters.links == [] && s.waiters == []
      ensures old(trace) <= trace && Evictions(trace, |old(trace)|, readsFlags)
      ensures s.outcome.Keys == old(s).outcome.Keys && s.fired <= old(s).fired + s.outcome.Keys
    {
      hide Core, List.Valid, Trimmed, Couples, Quiet, Flagged;
      while waiters.first != null
        invariant Core(values) && s.closed && s.cap == old(s.cap)
        invariant old(trace) <= trace && Evictions(trace, |old(trace)|, readsFlags)
        invariant Suffix(waiters.links, old(waiters.links))
        invariant s.outcome.Keys == old(s).outcome.Keys && s.fired <= old(s).fired + s.outcome.Keys
        decreases |waiters.links|
      {
        ghost var s0, t0 := s, trace;
        var live := true;
        if readsFlags {
          live := Probe(waiters.first, values);
          MoreFlags(t0, trace, |old(trace)|, s0, s);
        }
        s0 := s;
        EvictFirst(live, values);
        TrimmedKeeps(s0, s);
      }
      Empty(values);
    }

    lemma MoreFlags(t0: seq<Event<T>>, t1: seq<Event<T>>, from: nat, s0: State<T>, s1: State<T>)
      requires Evictions(t0, from, true) && Idle(t0, t1) && Flagged(s0, s1) && from <= |t0|
      ensures t0 <= t1 && Evictions(t1, from, true) && s1.closed == s0.closed && s1.cap == s0.cap
      ensures s1.outcome == s0.outcome && s1.fired <= s0.fired + s0.outcome.Keys
    {
    }

    method EvictFirst(live: bool, ghost values: seq<T>)
      requires Core(values) && s.closed && waiters.first != null
      requires !live ==> s.waiters != [] && !Live(s, s.waiters[0])
      modifies this`trace, this`s, this`done, waiters, waiters.links
      ensures Core(values) && Trimmed(old(s), s) && trace == old(trace) + [Evict(!live)]
      ensures old(waiters.links) != [] && waiters.links == old(waiters.links)[1..]
    {
      hide List.Valid, Traced, Couples, Holds, Anchored, Trimmed, Live;
      HeadMatches(Snap());
      var error := if !live then Some(Canceled) else if waiters.first.item.sending then Some(BrokenPipe) else None;
      RemoveFirst(error, Evict(!live), values);
    }

    lemma Empty(values: seq<T>)
      requires Core(values) && waiters.first == null
      ensures s.waiters == [] && waiters.links == []
    {
      NoWaiters(Snap());
    }

    // ---- The owner loop ------------------------------------------------------

    /** The loop's expiry scan completes a marked waiter and leaves it linked. */
    method ExpireWait(n: Link<Wait<T>>, ghost k: nat)
      requires Valid() && k < |waiters.links| && waiters.links[k] == n
      requires n.item.active && (n.item.canceled || n.item.id.owner in stopping)
      modifies this`trace, this`s, this`done, n`item
      ensures Valid() && trace == old(trace) + [Event.Expire(k)] && done == old(done) + [n]
      ensures n.item == old(n.item).(active := false, error := Some(Canceled)) && n.linked
      ensures s.outcome.Keys == old(s).outcome.Keys && s.fired == old(s).fired && s.stopped == old(s).stopped
    {
      hide List.Valid, Buffer.Valid, Buffer.Contents, Traced, Couples, Holds, Anchored;
      hide Extends, Step, Enabled, Distinct, Retired, Payloads;
      ghost var v, e := Snap(), Event.Expire(k);
      PayloadsAt(waiters.links);
      SameMark(v, s, k);
      ExpireStep(trace, s, k);
      NotReady(n);
      TraceStep(trace, s, e);
      ExpireCouples(v, s, k);
      RetiredSnoc(v.done, n.item.(active := false, error := Some(Canceled)));
      Retire(n, k);
      trace, s := trace + [e], Step(s, e);
    }

    method Retire(n: Link<Wait<T>>, ghost k: nat)
      requires waiters.Valid() && k < |waiters.links| && waiters.links[k] == n && n !in done && Anchored(waiters.links, done) && Distinct(done)
      modifies this`done, n`item
      ensures Distinct(done)
      ensures n.item == old(n.item).(active := false, error := Some(Canceled)) && done == old(done) + [n] && n.linked
      ensures |old(Snap()).nodes| == |waiters.links| && Anchored(waiters.links, done)
      ensures Snap() == Shot(old(Snap()).nodes[k := n.item], old(Snap()).done + [n.item])
    {
      hide List.Valid, Payloads;
      Write(n, n.item.(active := false, error := Some(Canceled)), k);
      PayloadsSnoc(done, n);
      done := done + [n];
    }

    /** A mailbox waiter's loop finds it marked: unlink and complete it in one step. One
        that is no longer linked has a delivery under way and is left alone. */
    method Interrupt(n: Link<Wait<T>>, ghost k: nat)
      requires Valid() && (n.linked ==> k < |waiters.links| && waiters.links[k] == n)
      requires n.linked ==> n.item.active && (n.item.canceled || n.item.id.owner in stopping)
      modifies this`trace, this`s, this`done, n`item, waiters, waiters.links
      ensures Valid()
      ensures !old(n.linked) ==> trace == old(trace) && done == old(done) && n.item == old(n.item)
      ensures old(n.linked) ==>
        && trace == old(trace) + [Event.Expire(k), Event.Unlink(k)] && done == old(done) + [n] && !n.linked
        && n.item == old(n.item).(active := false, error := Some(Canceled))
      ensures s.outcome.Keys == old(s).outcome.Keys && s.fired == old(s).fired && s.stopped == old(s).stopped
    {
      hide List.Valid, Buffer.Valid, Buffer.Contents, Traced, Couples, Holds, Anchored;
      if !n.linked { return; }
      ExpireWait(n, k);
      UnlinkNode(n, k, buffer.Contents());
    }

    /** Resume the oldest completed operation; the destructor of its node unlinks it if
        it is still on the list. What it observes is how the operation ended. */
    method Resume() returns (n: Link<Wait<T>>)
      requires Valid() && done != []
      modifies this`trace, this`s, this`done, waiters, waiters.links
      ensures Valid() && n == old(done)[0] && !n.linked && n !in waiters.links && n.item == old(n.item)
      ensures n.item.id in s.outcome && Observes(n.item, s.outcome[n.item.id])
      ensures done == old(done)[1..] && n !in done && old(trace) <= trace
      ensures forall i :: 0 <= i < |waiters.links| ==> waiters.links[i] in old(waiters.links)
      ensures s.outcome == old(s).outcome && s.fired == old(s).fired && s.stopped == old(s).stopped
    {
      hide List.Valid, Buffer.Valid, Buffer.Contents, Traced, Couples, Holds, Anchored, Observes;
      n := done[0];
      NextDone();
      if n.linked {
        ghost var k :| 0 <= k < |waiters.links| && waiters.links[k] == n;
        UnlinkNode(n, k, buffer.Contents());
      }
      Advance();
    }

    lemma NextDone()
      requires waiters.Valid() && Couples(Snap(), s) && Retired(Snap().done) && Anchored(waiters.links, done) && done != []
      ensures var n := done[0];
        && !n.item.active && (n.linked <==> n in waiters.links)
        && n.item.id in s.outcome && Observes(n.item, s.outcome[n.item.id])
    {
      PayloadsAt(done);
    }

    method UnlinkNode(n: Link<Wait<T>>, ghost k: nat, ghost values: seq<T>)
      requires Core(values) && !Closing(s) && k < |waiters.links| && waiters.links[k] == n && !n.item.active
      modifies this`trace, this`s, waiters, waiters.links
      ensures Core(values) && !Closing(s) && s.cap == old(s.cap) && !n.linked && n !in waiters.links
      ensures trace == old(trace) + [Event.Unlink(k)]
      ensures waiters.links == Remove(old(waiters.links), k)
      ensures n.item == old(n.item) && done == old(done) && s.outcome == old(s).outcome
      ensures s.fired == old(s).fired && s.stopped == old(s).stopped
    {
      hide List.Valid, Traced, Couples, Holds, Anchored, Step, Enabled, Distinct, Retired, Payloads, Leaves, Extends, Remove;
      ghost var v, e := Snap(), Event.Unlink(k);
      PayloadsAt(waiters.links);
      SameNode(v, s, k);
      UnlinkStep(s, k);
      TraceStep(trace, s, e);
      LeaveCouples(v, s, Step(s, e), k);
      Detach(n, k);
      trace, s := trace + [e], Step(s, e);
    }

    method Advance()
      requires Valid() && done != []
      modifies this`done
      ensures Valid() && done == old(done)[1..]
    {
      hide List.Valid, Buffer.Valid, Buffer.Contents, Traced, Holds;
      assert Payloads(done)[1..] == Payloads(done[1..]);
      done := done[1..];
    }
  }
}
