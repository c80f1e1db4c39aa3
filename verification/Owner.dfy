/** Everything the owner thread may queue for resumption: yields, timers, parked waits,
    event awaiters and native requests, over the real ready queue.

    An operation has an identity, a hook for the ready queue and a link for the list of
    parked waits; its other state is in `ops`. Marks and deliveries by other threads may
    arrive before any read of a flag. `history` counts what happened to each operation:
    how often it was armed, pushed on the ready queue, resumed, or ended by a handler of
    its own instead of a push. */
module Owner {
  import opened Sequences
  import opened IntrusiveList

  datatype Kind = Yield | Timer | Wait | Io

  /** `shared` is a waiter that other threads complete, and `inFlight` one they have taken
      off its queue and whose message is on its way; `handler` is a native request that
      ends in a handler of its own instead of a continuation. */
  datatype Op = Op(
    kind: Kind, due: int, interruptible: bool, shared: bool, handler: bool,
    active: bool, canceled: bool, inFlight: bool, failed: bool)

  /** Only waits are shared, and only native requests have handlers. */
  predicate Proper(op: Op)
  {
    (op.shared ==> op.kind.Wait?) && (op.handler ==> op.kind.Io?)
  }

  datatype Entry = Armed(id: nat) | Pushed(id: nat) | Resumed(id: nat) | Handled(id: nat)

  /** The loop as values: its operations, the lists they are on, and the history. */
  datatype View = View(
    ops: map<nat, Op>, timers: seq<nat>, waits: seq<nat>, io: seq<nat>, ready: seq<nat>, history: multiset<Entry>)

  predicate Active(v: View, id: nat)
  {
    id in v.ops && v.ops[id].active
  }

  function One(b: bool): nat
  {
    if b then 1 else 0
  }

  /** An operation has been pushed as often as it was armed, except for an arming still
      pending or ended by its own handler, and resumed as often as it was pushed, except
      for a push still queued. */
  ghost predicate Balanced(v: View, id: nat)
  {
    && v.history[Armed(id)] == v.history[Pushed(id)] + v.history[Handled(id)] + One(Active(v, id))
    && v.history[Pushed(id)] == v.history[Resumed(id)] + One(id in v.ready)
  }

  /** Pending operations are on the list of their kind; queued ones are not pending. */
  ghost predicate Placed(v: View, id: nat)
  {
    && (id in v.timers <==> Active(v, id) && v.ops[id].kind.Timer?)
    && (id in v.waits <==> Active(v, id) && v.ops[id].kind.Wait?)
    && (id in v.io <==> Active(v, id) && v.ops[id].kind.Io?)
    && (id in v.ready ==> id in v.ops && !v.ops[id].active)
    && (Active(v, id) ==> !v.ops[id].kind.Yield?) && (id in v.ops ==> Proper(v.ops[id]))
  }

  ghost predicate Sound(v: View)
  {
    && Distinct(v.timers) && Distinct(v.waits) && Distinct(v.io) && Distinct(v.ready)
    && forall id :: Placed(v, id) && Balanced(v, id)
  }

  lemma {:induction false} Multiplicity(xs: seq<nat>, x: nat)
    requires Distinct(xs)
    ensures multiset(xs)[x] == One(x in xs)
  {
    if xs != [] {
      var init, last := xs[..|xs| - 1], xs[|xs| - 1];
      Multiplicity(init, x);
      assert xs == init + [last];
      assert last !in init;
    }
  }

  // ---- What the steps do, as values -------------------------------------------

  function Off(xs: seq<nat>, id: nat): seq<nat>
  {
    if id in xs then Remove(xs, Place(xs, id)) else xs
  }

  lemma OffIs(xs: seq<nat>, id: nat)
    requires Distinct(xs)
    ensures Distinct(Off(xs, id)) && forall y :: y in Off(xs, id) <==> y in xs && y != id
  {
    if id in xs { RemoveIs(xs, Place(xs, id)); }
  }

  function Arm(v: View, id: nat): View
    requires id in v.ops
  {
    var op := Set(v.ops[id]);
    v.(ops := v.ops[id := op], history := v.history + multiset{Armed(id)},
       timers := if op.kind.Timer? then v.timers + [id] else v.timers,
       waits := if op.kind.Wait? then [id] + v.waits else v.waits,
       io := if op.kind.Io? then [id] + v.io else v.io)
  }

  /** End a pending operation: off its list, and onto the ready queue unless a handler of
      its own takes it. */
  function Finish(v: View, id: nat, failed: bool, push: bool): View
    requires id in v.ops
  {
    v.(ops := v.ops[id := v.ops[id].(active := false, failed := failed)],
       timers := Off(v.timers, id), waits := Off(v.waits, id), io := Off(v.io, id),
       ready := if push then v.ready + [id] else v.ready,
       history := v.history + multiset{if push then Pushed(id) else Handled(id)})
  }

  function YieldTo(v: View, id: nat): View
  {
    v.(ready := v.ready + [id], history := v.history + multiset{Armed(id)} + multiset{Pushed(id)})
  }

  function Resume(v: View): View
    requires v.ready != []
  {
    v.(ready := v.ready[1..], history := v.history + multiset{Resumed(v.ready[0])})
  }

  /** Other threads may mark a pending operation and deliver to a pending shared waiter. */
  predicate Rises(a: Op, b: Op)
  {
    && b == a.(canceled := b.canceled, inFlight := b.inFlight)
    && (a.canceled ==> b.canceled) && (a.inFlight ==> b.inFlight)
    && (b.inFlight && !a.inFlight ==> a.shared) && (!a.active ==> b == a)
  }

  ghost predicate Raised(a: map<nat, Op>, b: map<nat, Op>)
  {
    a.Keys == b.Keys && forall id :: id in a ==> Rises(a[id], b[id])
  }

  // ---- Every step keeps it ----------------------------------------------------

  lemma ArmSound(v: View, id: nat)
    requires Sound(v) && id in v.ops && !v.ops[id].active && id !in v.ready && !v.ops[id].kind.Yield?
    ensures Sound(Arm(v, id))
  {
    var r := Arm(v, id);
    assert Placed(v, id);
    AppendIs(v.timers, id);
    PrependIs(v.waits, id);
    PrependIs(v.io, id);
    forall d ensures Placed(r, d) && Balanced(r, d) {
      assert Placed(v, d) && Balanced(v, d);
    }
  }

  lemma FinishSound(v: View, id: nat, failed: bool, push: bool)
    requires Sound(v) && Active(v, id)
    ensures Sound(Finish(v, id, failed, push))
  {
    var r := Finish(v, id, failed, push);
    assert Placed(v, id);
    OffIs(v.timers, id);
    OffIs(v.waits, id);
    OffIs(v.io, id);
    AppendIs(v.ready, id);
    forall d ensures Placed(r, d) && Balanced(r, d) {
      assert Placed(v, d) && Balanced(v, d);
    }
  }

  lemma YieldSound(v: View, id: nat)
    requires Sound(v) && id in v.ops && v.ops[id].kind.Yield? && id !in v.ready
    ensures Sound(YieldTo(v, id))
  {
    var r := YieldTo(v, id);
    assert Placed(v, id);
    AppendIs(v.ready, id);
    forall d ensures Placed(r, d) && Balanced(r, d) {
      assert Placed(v, d) && Balanced(v, d);
    }
  }

  lemma ResumeSound(v: View)
    requires Sound(v) && v.ready != []
    ensures Sound(Resume(v))
  {
    var r := Resume(v);
    RemoveIs(v.ready, 0);
    assert Remove(v.ready, 0) == v.ready[1..];
    forall d ensures Placed(r, d) && Balanced(r, d) {
      assert Placed(v, d) && Balanced(v, d);
    }
  }

  lemma RaiseSound(v: View, ops: map<nat, Op>)
    requires Sound(v) && Raised(v.ops, ops)
    ensures Sound(v.(ops := ops))
  {
    var r := v.(ops := ops);
    forall d ensures Placed(r, d) && Balanced(r, d) {
      assert Placed(v, d) && Balanced(v, d);
    }
  }

  lemma RegisterSound(v: View, id: nat, op: Op)
    requires Sound(v) && id !in v.ops && !op.active && Proper(op)
    ensures Sound(v.(ops := v.ops[id := op]))
  {
    var r := v.(ops := v.ops[id := op]);
    forall d ensures Placed(r, d) && Balanced(r, d) {
      assert Placed(v, d) && Balanced(v, d);
    }
  }

  lemma DestroySound(v: View, id: nat)
    requires Sound(v) && id in v.ops && !v.ops[id].active && id !in v.ready
    ensures Sound(v.(ops := v.ops - {id}))
  {
    var r := v.(ops := v.ops - {id});
    forall d ensures Placed(r, d) && Balanced(r, d) {
      assert Placed(v, d) && Balanced(v, d);
    }
  }

  // ---- The loop ---------------------------------------------------------------

  /** A manual-reset event: whether it is set, and the awaiters linked to it, notified ones
      included until their frames go. */
  datatype Signal = Signal(raised: bool, awaiters: seq<nat>)

  ghost predicate Signalled(signals: map<nat, Signal>, ops: map<nat, Op>)
  {
    forall e :: e in signals ==>
      Distinct(signals[e].awaiters) && forall w :: w in signals[e].awaiters ==> w in ops && ops[w].kind.Wait?
  }

  lemma SameKinds(signals: map<nat, Signal>, a: map<nat, Op>, b: map<nat, Op>)
    requires Signalled(signals, a) && forall id :: id in a ==> id in b && b[id].kind == a[id].kind
    ensures Signalled(signals, b)
  {
  }

  class Loop {
    const ready: ReadyQueue
    const waits: List<nat>
    var timers: seq<nat>
    var io: seq<nat>
    var ops: map<nat, Op>
    var links: map<nat, Link<nat>>
    var hooks: map<nat, Node>
    var signals: map<nat, Signal>
    ghost var waiting: seq<nat>
    ghost var queued: seq<nat>
    ghost var history: multiset<Entry>
    ghost var trace: seq<Act>

    ghost function Now(): View
      reads this
    {
      View(ops, timers, waiting, io, queued, history)
    }

    /** The linked nodes are the parked waits. */
    ghost predicate Threaded()
      reads this`waiting, this`links, waits`first, waits`last, waits`links
      reads waits.links`next, waits.links`prev, waits.links`linked, waits.links`item
    {
      && waits.Valid() && |waiting| == |waits.links|
      && (forall i :: 0 <= i < |waiting| ==>
            waiting[i] in links && waits.links[i] == links[waiting[i]] && waits.links[i].item == waiting[i])
    }

    /** The queued nodes are the ready operations, and every other hook is clear. */
    ghost predicate Hooked()
      reads this`queued, this`hooks, ready`head, ready`tail, ready`nodes, ready.nodes`after, hooks.Values`after
    {
      && ready.Valid() && |queued| == |ready.nodes|
      && (forall id :: id in hooks ==> hooks[id].id == id)
      && (forall i :: 0 <= i < |queued| ==> queued[i] in hooks && ready.nodes[i] == hooks[queued[i]])
      && (forall id :: id in hooks && id !in queued ==> hooks[id].after == null)
    }

    ghost predicate Valid()
      reads this, waits, waits.links, ready, ready.nodes`after, hooks.Values`after
    {
      ops.Keys == hooks.Keys && Threaded() && Hooked() && Signalled(signals, ops) && Tracked(trace, Now())
    }

    constructor ()
      ensures Valid() && ops == map[] && signals == map[] && history == multiset{} && fresh(ready) && fresh(waits)
    {
      ready := new ReadyQueue();
      waits := new List();
      timers, io, ops, links, hooks, signals := [], [], map[], map[], map[], map[];
      waiting, queued, history, trace := [], [], multiset{}, [];
    }

    /** The accounts of the code itself: without a handler, pushes are armings except one
        still pending; with one, they are none. A hook is on the queue at most once. */
    lemma Accounts(id: nat)
      requires Valid() && id in hooks
      ensures Made(trace, id, false) ==> Pushes(trace, id) == Armings(trace, id) - One(id in ops && ops[id].active)
      ensures Made(trace, id, true) ==>
        Pushes(trace, id) == 0 && Handlings(trace, id) == Armings(trace, id) - One(id in ops && ops[id].active)
      ensures forall i, j :: 0 <= i < j < |ready.nodes| ==> !(ready.nodes[i] == hooks[id] && ready.nodes[j] == hooks[id])
      ensures hooks[id] in ready.nodes ==> !ops[id].active
      ensures hooks[id] !in ready.nodes ==> hooks[id].after == null
    {
      ExactlyOnce(trace, id);
      if id in queued {
        var i :| 0 <= i < |queued| && queued[i] == id;
        assert ready.nodes[i] == hooks[id];
      }
    }

    // ---- Heap steps ----------------------------------------------------------

    /** Push a hook that is clear and not queued. */
    method Push(id: nat)
      requires Threaded() && Hooked() && id in hooks && id !in queued
      modifies this`queued, ready`head, ready`tail, ready`nodes, hooks.Values`after
      ensures Threaded() && Hooked() && queued == old(queued) + [id]
    {
      hide Threaded, ReadyQueue.Valid;
      var n := hooks[id];
      assert forall i :: 0 <= i < |ready.nodes| ==> ready.nodes[i] == hooks[queued[i]] && ready.nodes[i].id == queued[i];
      assert n !in ready.nodes;
      ready.Push(n);
      queued := queued + [id];
    }

    method Pop() returns (id: nat)
      requires Threaded() && Hooked() && queued != []
      modifies this`queued, ready`head, ready`tail, ready`nodes, hooks.Values`after
      ensures Threaded() && Hooked() && old(queued) == [id] + queued
    {
      hide ReadyQueue.Valid, Threaded;
      var n := ready.Pop();
      assert n == hooks[queued[0]];
      id := n.id;
      queued := queued[1..];
    }

    /** Link a new wait at the front. */
    method LinkFront(id: nat)
      requires Threaded() && id !in waiting
      modifies this`waiting, this`links, waits`first, waits`last, waits`links, links.Values`prev
      ensures Threaded() && waiting == [id] + old(waiting)
      ensures forall d :: d in links ==> links[d] in old(links).Values || fresh(links[d])
    {
      hide List.Valid;
      var n := new Link(id);
      waits.PushFront(n);
      links := links[id := n];
      waiting := [id] + waiting;
    }

    method UnlinkWait(id: nat)
      requires Threaded() && id in waiting && Distinct(waiting)
      modifies this`waiting
      modifies waits`first, waits`last, waits`links, links.Values`next, links.Values`prev, links.Values`linked
      ensures Threaded() && waiting == Off(old(waiting), id) && waits.links == Remove(old(waits.links), Place(old(waiting), id))
    {
      hide List.Valid, Place, Off, Distinct;
      ghost var k := Place(waiting, id);
      OffAt(waiting, k);
      waits.Unlink(links[id], k);
      waiting := Off(waiting, id);
    }

    // ---- Arming and ending ---------------------------------------------------

    /** A new operation, not pending. */
    method Register(id: nat, op: Op)
      requires Valid() && id !in ops && !op.active && Proper(op)
      modifies this`ops, this`hooks, this`trace
      ensures Valid() && Now() == old(Now()).(ops := old(ops)[id := op])
    {
      hide Threaded, Hooked, Tracked, Signalled;
      TraceNext(trace, Now(), Add(id, op));
      trace := trace + [Add(id, op)];
      SameKinds(signals, ops, ops[id := op]);
      Fit(id);
      ops := ops[id := op];
    }

    /** Give a new operation its hook. */
    method Fit(id: nat)
      requires Hooked() && id !in hooks
      modifies this`hooks
      ensures Hooked() && hooks.Keys == old(hooks).Keys + {id}
    {
      var n := new Node(id);
      hooks := hooks[id := n];
    }

    /** Queue the caller without waiting for anything. */
    method YieldNow(id: nat)
      requires Valid() && id in ops && ops[id].kind.Yield? && id !in queued
      modifies this`queued, this`history, this`trace, ready`head, ready`tail, ready`nodes, hooks.Values`after
      ensures Valid() && Now() == YieldTo(old(Now()), id)
    {
      hide Threaded, Hooked, Tracked, Signalled;
      ghost var v := Now();
      TraceNext(trace, v, Yielding(id));
      trace := trace + [Yielding(id)];
      history := history + multiset{Armed(id)} + multiset{Pushed(id)};
      Push(id);
      assert Now() == YieldTo(v, id);
    }

    /** Make an operation pending, unless its token or the loop is stopped. */
    method Start(id: nat, refused: bool)
      requires Valid() && id in ops && !ops[id].active && id !in queued && !ops[id].kind.Yield?
      modifies this`ops, this`timers, this`io, this`waiting, this`links, this`history, this`trace
      modifies waits`first, waits`last, waits`links, links.Values`prev
      ensures Valid() && Now() == Started(old(Now()), id, refused)
      ensures forall d :: d in links ==> links[d] in old(links).Values || fresh(links[d])
    {
      hide Valid, Arm;
      if refused { Refuse(id); } else { Begin(id); }
    }

    /** The token or the loop is stopped: the operation fails without being armed. */
    method Refuse(id: nat)
      requires Valid() && id in ops && !ops[id].active && id !in queued && !ops[id].kind.Yield?
      modifies this`ops, this`history, this`trace
      ensures Valid() && Now() == Started(old(Now()), id, true)
    {
      hide Threaded, Hooked, Tracked, Signalled, Do, Can;
      CanGo(Now(), id, true);
      TraceNext(trace, Now(), Go(id, true));
      trace := trace + [Go(id, true)];
      ghost var v := Now();
      Record(id, ops[id].(failed := true), multiset{});
      assert Now() == Started(v, id, true);
    }

    method Begin(id: nat)
      requires Valid() && id in ops && !ops[id].active && id !in queued && !ops[id].kind.Yield?
      modifies this`ops, this`timers, this`io, this`waiting, this`links, this`history, this`trace
      modifies waits`first, waits`last, waits`links, links.Values`prev
      ensures Valid() && Now() == Arm(old(Now()), id)
      ensures forall d :: d in links ==> links[d] in old(links).Values || fresh(links[d])
    {
      hide Threaded, Hooked, Tracked, Signalled, Sound, Do, Can;
      ghost var v := Now();
      CanGo(v, id, false);
      TraceNext(trace, v, Go(id, false));
      TrackedSound(trace, v);
      StartSound(v, id, false);
      trace := trace + [Go(id, false)];
      Enlist(id, ops[id].kind);
      Record(id, Set(ops[id]), multiset{Armed(id)});
      assert Now() == Arm(v, id);
    }

    /** Put an operation on the list of its kind. */
    method Enlist(id: nat, kind: Kind)
      requires Threaded() && Hooked() && id !in waiting
      modifies this`timers, this`io, this`waiting, this`links, waits`first, waits`last, waits`links, links.Values`prev
      ensures Threaded() && Hooked() && timers == if kind.Timer? then old(timers) + [id] else old(timers)
      ensures waiting == if kind.Wait? then [id] + old(waiting) else old(waiting)
      ensures io == if kind.Io? then [id] + old(io) else old(io)
      ensures forall d :: d in links ==> links[d] in old(links).Values || fresh(links[d])
    {
      hide Threaded, Hooked;
      if kind.Wait? {
        LinkFront(id);
      } else if kind.Timer? {
        timers := timers + [id];
      } else if kind.Io? {
        io := [id] + io;
      }
    }

    /** End a pending operation: take it off its list and queue its continuation, unless it
        has a handler of its own. */
    method End(id: nat, failed: bool)
      requires Valid() && Active(Now(), id)
      modifies this`ops, this`timers, this`io, this`waiting, this`queued, this`history, this`trace
      modifies waits`first, waits`last, waits`links, links.Values`next, links.Values`prev, links.Values`linked
      modifies ready`head, ready`tail, ready`nodes, hooks.Values`after
      ensures Valid() && Now() == Finish(old(Now()), id, failed, !old(ops)[id].handler)
      ensures id in old(waiting) ==> waits.links == Remove(old(waits.links), Place(old(waiting), id))
      ensures id !in old(waiting) ==> waits.links == old(waits.links)
    {
      hide Threaded, Hooked, Tracked, Signalled, Distinct, Remove, Place, Off, Sound, Do, Can;
      ghost var v := Now();
      var push := !ops[id].handler;
      CanEnd(v, id, failed, push);
      TraceNext(trace, v, Over(id, failed, push));
      TrackedSound(trace, v);
      Whereabouts(v, id);
      trace := trace + [Over(id, failed, push)];
      Move(id, ops[id].kind, push);
      Record(id, ops[id].(active := false, failed := failed), multiset{if push then Pushed(id) else Handled(id)});
      assert Now() == Finish(v, id, failed, push);
    }

    /** Change an operation's own state and the history. */
    method Record(id: nat, op: Op, ghost entries: multiset<Entry>)
      requires id in ops && ops.Keys == hooks.Keys && Threaded() && Hooked() && Signalled(signals, ops)
      requires op.kind == ops[id].kind
      modifies this`ops, this`history
      ensures ops.Keys == hooks.Keys && Threaded() && Hooked() && Signalled(signals, ops)
      ensures ops == old(ops)[id := op] && history == old(history) + entries
    {
      hide Threaded, Hooked, Signalled;
      SameKinds(signals, ops, ops[id := op]);
      ops, history := ops[id := op], history + entries;
    }

    /** Take an operation off its list and, if wanted, queue it. */
    method Move(id: nat, kind: Kind, push: bool)
      requires Threaded() && Hooked() && Distinct(waiting) && (id in waiting <==> kind.Wait?)
      requires push ==> id in hooks && id !in queued
      modifies this`timers, this`io, this`waiting, this`queued
      modifies waits`first, waits`last, waits`links, links.Values`next, links.Values`prev, links.Values`linked
      modifies ready`head, ready`tail, ready`nodes, hooks.Values`after
      ensures Threaded() && timers == Off(old(timers), id) && io == Off(old(io), id) && waiting == Off(old(waiting), id)
      ensures Hooked() && queued == if push then old(queued) + [id] else old(queued)
      ensures id in old(waiting) ==> waits.links == Remove(old(waits.links), Place(old(waiting), id))
      ensures id !in old(waiting) ==> waits.links == old(waits.links)
    {
      hide Threaded, Hooked, Distinct, Remove, Place, Off;
      TakeOff(id, kind);
      if push { Push(id); }
    }

    /** Take an operation off the list it is on. */
    method TakeOff(id: nat, kind: Kind)
      requires Threaded() && Distinct(waiting) && (id in waiting <==> kind.Wait?)
      modifies this`timers, this`io, this`waiting
      modifies waits`first, waits`last, waits`links, links.Values`next, links.Values`prev, links.Values`linked
      ensures Threaded() && timers == Off(old(timers), id) && io == Off(old(io), id) && waiting == Off(old(waiting), id)
      ensures id in old(waiting) ==> waits.links == Remove(old(waits.links), Place(old(waiting), id))
      ensures id !in old(waiting) ==> waits.links == old(waits.links)
    {
      hide Threaded, Distinct, Remove, Place;
      timers, io := Off(timers, id), Off(io, id);
      if kind.Wait? { UnlinkWait(id); }
    }

    /** Retire a wait once; one that is not pending any more is ignored. */
    method Notify(id: nat, failed: bool)
      requires Valid() && id in ops && ops[id].kind.Wait?
      modifies this`ops, this`timers, this`io, this`waiting, this`queued, this`history, this`trace
      modifies waits`first, waits`last, waits`links, links.Values`next, links.Values`prev, links.Values`linked
      modifies ready`head, ready`tail, ready`nodes, hooks.Values`after
      ensures Valid() && Now() == Notified(old(Now()), id, failed)
      ensures id in old(waiting) ==> waits.links == Remove(old(waits.links), Place(old(waiting), id))
      ensures id !in old(waiting) ==> waits.links == old(waits.links)
    {
      hide Threaded, Hooked, Tracked, Signalled, Finish;
      TrackedSound(trace, Now());
      Whereabouts(Now(), id);
      if ops[id].active { End(id, failed); }
    }

    /** A native request ends: its continuation is queued, or its own handler takes it. */
    method Complete(id: nat)
      requires Valid() && id in ops && id in io
      modifies this`ops, this`timers, this`io, this`waiting, this`queued, this`history, this`trace
      modifies waits`first, waits`last, waits`links, links.Values`next, links.Values`prev, links.Values`linked
      modifies ready`head, ready`tail, ready`nodes, hooks.Values`after
      ensures Valid() && Now() == Finish(old(Now()), id, false, !old(ops)[id].handler)
    {
      hide Threaded, Hooked, Tracked, Signalled, Finish;
      TrackedSound(trace, Now());
      Listed(Now(), id);
      End(id, false);
    }

    // ---- Events --------------------------------------------------------------

    method NewSignal(e: nat)
      requires Valid() && e !in signals
      modifies this`signals
      ensures Valid() && signals == old(signals)[e := Signal(false, [])]
    {
      hide Threaded, Hooked, Tracked;
      signals := signals[e := Signal(false, [])];
    }

    /** Wait for an event: park, link to it, and notify at once if it is set. */
    method Await(id: nat, e: nat, refused: bool)
      requires Valid() && id in ops && !ops[id].active && id !in queued && ops[id].kind.Wait?
      requires e in signals && id !in signals[e].awaiters
      modifies this`ops, this`timers, this`io, this`waiting, this`links, this`queued, this`history, this`trace, this`signals
      modifies waits`first, waits`last, waits`links, links.Values`next, links.Values`prev, links.Values`linked
      modifies ready`head, ready`tail, ready`nodes, hooks.Values`after
      ensures Valid()
      ensures signals == if refused then old(signals)
                         else old(signals)[e := Signal(old(signals)[e].raised, [id] + old(signals)[e].awaiters)]
      ensures var v := Started(old(Now()), id, refused);
              Now() == if !refused && old(signals)[e].raised then Finish(v, id, false, true) else v
    {
      hide Threaded, Hooked, Tracked, Finish;
      Start(id, refused);
      if refused { return; }
      PrependIs(signals[e].awaiters, id);
      Attach(e, Signal(signals[e].raised, [id] + signals[e].awaiters));
      if signals[e].raised { Notify(id, false); }
    }

    method Attach(e: nat, x: Signal)
      requires Valid() && e in signals && Distinct(x.awaiters)
      requires forall w :: w in x.awaiters ==> w in ops && ops[w].kind.Wait?
      modifies this`signals
      ensures Valid() && signals == old(signals)[e := x] && Now() == old(Now())
    {
      hide Threaded, Hooked, Tracked;
      signals := signals[e := x];
    }

    method Reset(e: nat)
      requires Valid() && e in signals
      modifies this`signals
      ensures Valid() && Now() == old(Now()) && signals == old(signals)[e := old(signals)[e].(raised := false)]
    {
      hide Threaded, Hooked, Tracked;
      Attach(e, signals[e].(raised := false));
    }

    /** Set an event: notify every awaiter linked to it. Those notified before, by an
        earlier set or by cancellation, are still linked and are not queued again. */
    method SetEvent(e: nat)
      requires Valid() && e in signals
      modifies this`ops, this`timers, this`io, this`waiting, this`queued, this`history, this`trace, this`signals
      modifies waits`first, waits`last, waits`links, links.Values`next, links.Values`prev, links.Values`linked
      modifies ready`head, ready`tail, ready`nodes, hooks.Values`after
      ensures Valid() && signals == old(signals)[e := old(signals)[e].(raised := true)]
      ensures Now() == NotifyAll(old(Now()), old(signals)[e].awaiters)
    {
      hide Valid, NotifyAll, Notified;
      Awaiters(e);
      Attach(e, signals[e].(raised := true));
      ghost var v := Now();
      var awaiters, i := signals[e].awaiters, 0;
      NotifyNone(v, awaiters);
      while i < |awaiters|
        invariant 0 <= i <= |awaiters| && Valid()
        invariant signals == old(signals)[e := old(signals)[e].(raised := true)] && signals[e].awaiters == awaiters
        invariant Now() == NotifyAll(v, awaiters[..i])
      {
        Awaiters(e);
        NotifyNext(v, awaiters, i);
        Notify(awaiters[i], false);
        i := i + 1;
      }
      assert awaiters[..i] == awaiters;
    }

    lemma Awaiters(e: nat)
      requires Valid() && e in signals
      ensures Distinct(signals[e].awaiters) && forall w :: w in signals[e].awaiters ==> w in ops && ops[w].kind.Wait?
    {
    }

    // ---- Expiry --------------------------------------------------------------

    /** Other threads mark operations and deliver to shared waiters. */
    method Interfere()
      requires Valid()
      modifies this`ops, this`trace
      ensures Valid() && Raised(old(ops), ops) && Now() == old(Now()).(ops := ops)
    {
      hide Valid;
      var steps: nat := *;
      while steps > 0
        invariant Valid() && Raised(old(ops), ops) && Now() == old(Now()).(ops := ops)
      {
        steps := steps - 1;
        var id: nat, mark: bool := *, *;
        if id in ops && ops[id].active && (mark || ops[id].shared) {
          Flag(id, if mark then ops[id].(canceled := true) else ops[id].(inFlight := true));
        }
      }
    }

    method Flag(id: nat, op: Op)
      requires Valid() && id in ops && Rises(ops[id], op)
      modifies this`ops, this`trace
      ensures Valid() && ops == old(ops)[id := op] && Now() == old(Now()).(ops := ops)
    {
      hide Threaded, Hooked, Tracked, Signalled;
      FlagRaises(ops, id, op);
      TraceNext(trace, Now(), Rise(ops[id := op]));
      trace := trace + [Rise(ops[id := op])];
      SameKinds(signals, ops, ops[id := op]);
      ops := ops[id := op];
    }

    /** Look at one operation as its flags then are, and fail it if it is doomed. */
    method Look(id: nat, all: bool) returns (doomed: bool, ghost mid: map<nat, Op>)
      requires Valid() && Active(Now(), id) && !ops[id].kind.Io?
      modifies this`ops, this`timers, this`io, this`waiting, this`queued, this`history, this`trace
      modifies waits`first, waits`last, waits`links, links.Values`next, links.Values`prev, links.Values`linked
      modifies ready`head, ready`tail, ready`nodes, hooks.Values`after
      ensures Valid() && Raised(old(ops), mid) && id in mid && doomed == Doomed(mid[id], all)
      ensures Now() == if doomed then Finish(old(Now()).(ops := mid), id, true, true) else old(Now()).(ops := mid)
      ensures waits.links == if doomed && id in old(waiting) then Remove(old(waits.links), Place(old(waiting), id))
                             else old(waits.links)
    {
      hide Valid, Finish, Remove, Place;
      Interfere();
      mid, doomed := ops, Doomed(ops[id], all);
      IsSound();
      Whereabouts(Now(), id);
      if doomed { End(id, true); }
    }

    /** The sweep over armed timers, in order: whoever is marked when looked at, or anybody
        on a stopped loop, is failed and queued; the others stay, in order. */
    method Sweep(all: bool) returns (ghost marks: seq<bool>)
      requires Valid()
      modifies this`ops, this`timers, this`io, this`waiting, this`queued, this`history, this`trace
      modifies waits`first, waits`last, waits`links, links.Values`next, links.Values`prev, links.Values`linked
      modifies ready`head, ready`tail, ready`nodes, hooks.Values`after
      ensures Valid() && |marks| == |old(timers)| && Scanned(old(timers), marks, all, old(ops), ops)
      ensures timers == Select(old(timers), marks, false) && queued == old(queued) + Select(old(timers), marks, true)
      ensures waiting == old(waiting) && io == old(io) && waits.links == old(waits.links)
    {
      hide Valid, Select, Finish, Scanned, Off, Doomed, Sound, Progress, Remove, Place;
      var ids, i := timers, 0;
      ghost var v := Now();
      marks := [];
      IsSound();
      ProgressStarts(v, all, false);
      while i < |ids|
        invariant 0 <= i <= |ids| && |marks| == i && Valid() && Progress(v, Now(), marks, all, false)
        invariant waits.links == old(waits.links)
      {
        ghost var now := Now();
        IsSound();
        ProgressAt(v, now, marks, all, false);
        var doomed, mid := Look(ids[i], all);
        ProgressNext(v, now, marks, all, false, mid);
        marks := marks + [doomed];
        i := i + 1;
      }
      ProgressEnds(v, Now(), marks, all, false);
    }

    lemma IsSound()
      requires Valid()
      ensures Sound(Now())
    {
      TrackedSound(trace, Now());
    }

    /** The scan over the linked list of parked waits, in list order. Every one of them is
        looked at once, although failing it takes it off the list: whoever is marked when
        looked at, or anybody on a stopped loop, is failed and queued, unless it ignores
        stops or has a delivery under way; the others stay, in order. */
    method Scan(all: bool) returns (ghost marks: seq<bool>)
      requires Valid()
      modifies this`ops, this`timers, this`io, this`waiting, this`queued, this`history, this`trace
      modifies waits`first, waits`last, waits`links, links.Values`next, links.Values`prev, links.Values`linked
      modifies ready`head, ready`tail, ready`nodes, hooks.Values`after
      ensures Valid() && |marks| == |old(waiting)| && Scanned(old(waiting), marks, all, old(ops), ops)
      ensures waiting == Select(old(waiting), marks, false) && queued == old(queued) + Select(old(waiting), marks, true)
      ensures forall i :: 0 <= i < |marks| && Missed(old(ops), ops, old(waiting)[i], all) ==> marks[i]
      ensures timers == old(timers) && io == old(io)
    {
      hide Valid, Select, Finish, Scanned, Off, Doomed, Sound, Progress, Remove, Place, Kept, NodeAt, Raised, Missed;
      ghost var v := Now();
      marks := [];
      IsSound();
      ProgressStarts(v, all, true);
      KeptNone(v.waits);
      Walk(0);
      Finished(waits.links, 0);
      var n := waits.first;
      while n != null
        invariant |marks| <= |v.waits| && (n != null ==> |marks| < |v.waits|) && Valid() && Progress(v, Now(), marks, all, true)
        invariant n == NodeAt(waits.links, Kept(v.waits, marks)) && |waits.links| == Kept(v.waits, marks) + |v.waits| - |marks|
        decreases |v.waits| - |marks|
      {
        var doomed;
        n, doomed := Visit(n, all, v, marks);
        marks := marks + [doomed];
        Finished(waits.links, Kept(v.waits, marks));
      }
      Finished(waits.links, Kept(v.waits, marks));
      ProgressEnds(v, Now(), marks, all, true);
      ScannedRest(v.waits, marks, all, v.ops, ops);
    }

    /** Look at the next wait of a scan, having read its successor. */
    method Visit(n: Link<nat>, all: bool, ghost v: View, ghost marks: seq<bool>) returns (next: Link?<nat>, doomed: bool)
      requires Valid() && |marks| < |v.waits| && Progress(v, Now(), marks, all, true)
      requires n == NodeAt(waits.links, Kept(v.waits, marks)) && |waits.links| == Kept(v.waits, marks) + |v.waits| - |marks|
      modifies this`ops, this`timers, this`io, this`waiting, this`queued, this`history, this`trace
      modifies waits`first, waits`last, waits`links, links.Values`next, links.Values`prev, links.Values`linked
      modifies ready`head, ready`tail, ready`nodes, hooks.Values`after
      ensures Valid() && Progress(v, Now(), marks + [doomed], all, true)
      ensures next == NodeAt(waits.links, Kept(v.waits, marks + [doomed]))
      ensures |waits.links| == Kept(v.waits, marks + [doomed]) + |v.waits| - |marks| - 1
    {
      hide Valid, Select, Finish, Scanned, Off, Doomed, Sound, Progress, Remove, Raised;
      ghost var now, links0, k := Now(), waits.links, Kept(v.waits, marks);
      IsSound();
      ProgressAt(v, now, marks, all, true);
      Walk(k);
      next := n.next;
      ghost var mid;
      doomed, mid := Look(n.item, all);
      ProgressNext(v, now, marks, all, true, mid);
      KeptNext(v.waits, marks, doomed);
      Skip(links0, k);
    }

    /** The node at a place of the list stands for the wait there. */
    lemma Walk(k: nat)
      requires Valid()
      ensures |waits.links| == |waiting| && waits.first == NodeAt(waits.links, 0)
      ensures k < |waiting| ==>
        waits.links[k].item == waiting[k] && waits.links[k].next == NodeAt(waits.links, k + 1)
    {
    }

    // ---- Timers --------------------------------------------------------------

    /** The front of the heap. */
    method Earliest() returns (k: nat)
      requires timers != [] && forall i :: 0 <= i < |timers| ==> timers[i] in ops
      ensures k < |timers| && forall i :: 0 <= i < |timers| ==> ops[timers[k]].due <= ops[timers[i]].due
    {
      k := 0;
      for i := 1 to |timers|
        invariant k < |timers| && forall j :: 0 <= j < i ==> ops[timers[k]].due <= ops[timers[j]].due
      {
        if ops[timers[i]].due < ops[timers[k]].due { k := i; }
      }
    }

    /** Finish exactly the timers that are due, earliest deadline first. */
    method FireDue(now: int) returns (ghost fired: seq<nat>)
      requires Valid()
      modifies this`ops, this`timers, this`io, this`waiting, this`queued, this`history, this`trace
      modifies waits`first, waits`last, waits`links, links.Values`next, links.Values`prev, links.Values`linked
      modifies ready`head, ready`tail, ready`nodes, hooks.Values`after
      ensures Valid() && Fired(old(Now()), Now(), fired, now)
      ensures forall id :: id in timers ==> id in ops && ops[id].due > now
      ensures waits.links == old(waits.links)
    {
      hide Valid, Finish, Off, Sound, Fired, Remove, Place;
      ghost var v := Now();
      fired := [];
      AllTick();
      FiredNone(v, now);
      while timers != []
        invariant Valid() && Fired(v, Now(), fired, now) && waits.links == old(waits.links)
        decreases |timers|
      {
        AllTick();
        var k := Earliest();
        if ops[timers[k]].due > now { return; }
        ghost var b := Now();
        IsSound();
        FiredNext(v, b, fired, now, k);
        fired := fired + [timers[k]];
        Whereabouts(b, timers[k]);
        End(timers[k], false);
      }
    }

    ghost predicate Ticking(id: nat)
      reads this
    {
      id in ops && ops[id].active && ops[id].kind.Timer? && id !in waiting && !ops[id].handler
    }

    lemma AllTick()
      requires Valid()
      ensures forall i :: 0 <= i < |timers| ==> Ticking(timers[i])
    {
      TrackedSound(trace, Now());
      forall i | 0 <= i < |timers| ensures Ticking(timers[i]) {
        assert Placed(Now(), timers[i]);
      }
    }

    /** One expiry pass: with a cancellation raised, the sweep of timers and the scan of
        waits; then the due timers. */
    method Expire(cancel: bool, all: bool, now: int)
      returns (ghost swept: seq<bool>, ghost scanned: seq<bool>, ghost fired: seq<nat>)
      requires Valid()
      modifies this`ops, this`timers, this`io, this`waiting, this`queued, this`history, this`trace
      modifies waits`first, waits`last, waits`links, links.Values`next, links.Values`prev, links.Values`linked
      modifies ready`head, ready`tail, ready`nodes, hooks.Values`after
      ensures Valid() && Passed(old(Now()), Now(), cancel, all, now, Pass(swept, scanned, fired))
    {
      hide Valid, Sound, Select, Scanned, Fired, Passed;
      ghost var a := Now();
      swept, scanned := Nobody(|timers|), Nobody(|waiting|);
      IsSound();
      if cancel {
        swept := Sweep(all);
        ghost var b := Now();
        scanned := Scan(all);
        ghost var c := Now();
        fired := FireDue(now);
        PassedAll(a, b, c, Now(), all, now, Pass(swept, scanned, fired));
      } else {
        NobodyIs(timers);
        NobodyIs(waiting);
        fired := FireDue(now);
        PassedNone(a, Now(), all, now, fired);
      }
    }

    // ---- The end of an operation ---------------------------------------------

    /** The frame of an awaiter goes: unlink it from its event. */
    method Detach(e: nat, id: nat)
      requires Valid() && e in signals
      modifies this`signals
      ensures Valid() && Now() == old(Now())
      ensures signals == old(signals)[e := old(signals)[e].(awaiters := Off(old(signals)[e].awaiters, id))]
    {
      hide Valid;
      Awaiters(e);
      OffIs(signals[e].awaiters, id);
      Attach(e, signals[e].(awaiters := Off(signals[e].awaiters, id)));
    }

    /** An operation that is neither pending nor queued goes. */
    method Destroy(id: nat)
      requires Valid() && id in ops && !ops[id].active && id !in queued
      requires forall e :: e in signals ==> id !in signals[e].awaiters
      modifies this`ops, this`hooks, this`trace
      ensures Valid() && Now() == old(Now()).(ops := old(ops) - {id}) && hooks == old(hooks) - {id}
    {
      hide Threaded, ReadyQueue.Valid, Tracked;
      TraceNext(trace, Now(), Gone(id));
      trace := trace + [Gone(id)];
      ops, hooks := ops - {id}, hooks - {id};
    }

    /** Take the oldest continuation off the queue. */
    method Next() returns (id: nat)
      requires Valid() && queued != []
      modifies this`queued, this`history, this`trace, ready`head, ready`tail, ready`nodes, hooks.Values`after
      ensures Valid() && id == old(queued)[0] && Now() == Resume(old(Now()))
    {
      hide Threaded, Hooked, Tracked, Signalled;
      ghost var v := Now();
      TraceNext(trace, v, Taken);
      trace := trace + [Taken];
      history := history + multiset{Resumed(queued[0])};
      id := Pop();
      assert Now() == Resume(v);
    }
  }

  function Set(op: Op): Op
  {
    op.(active := true, canceled := false, inFlight := false, failed := false)
  }

  /** A wait that is not pending any more is not notified again. */
  function Notified(v: View, id: nat, failed: bool): View
    requires id in v.ops
  {
    if v.ops[id].active then Finish(v, id, failed, true) else v
  }

  /** Notify in order. */
  function NotifyAll(v: View, ids: seq<nat>): (r: View)
    ensures r.ops.Keys == v.ops.Keys
  {
    if ids == [] then v
    else
      var r, id := NotifyAll(v, ids[..|ids| - 1]), ids[|ids| - 1];
      if id in r.ops then Notified(r, id, false) else r
  }

  lemma NotifyNone(v: View, ids: seq<nat>)
    ensures NotifyAll(v, ids[..0]) == v
  {
  }

  lemma NotifyNext(v: View, ids: seq<nat>, i: nat)
    requires i < |ids| && ids[i] in NotifyAll(v, ids[..i]).ops
    ensures NotifyAll(v, ids[..i + 1]) == Notified(NotifyAll(v, ids[..i]), ids[i], false)
  {
    assert ids[..i + 1][..i] == ids[..i];
  }

  function Started(v: View, id: nat, refused: bool): View
    requires id in v.ops
  {
    if refused then v.(ops := v.ops[id := v.ops[id].(failed := true)]) else Arm(v, id)
  }

  lemma StartSound(v: View, id: nat, refused: bool)
    requires Sound(v) && id in v.ops && !v.ops[id].active && id !in v.ready && !v.ops[id].kind.Yield?
    ensures Sound(Started(v, id, refused)) && id !in v.waits
  {
    assert Placed(v, id);
    if refused { FailSound(v, id); } else { ArmSound(v, id); }
  }

  lemma FailSound(v: View, id: nat)
    requires Sound(v) && id in v.ops && !v.ops[id].active
    ensures Sound(v.(ops := v.ops[id := v.ops[id].(failed := true)]))
  {
    var r := v.(ops := v.ops[id := v.ops[id].(failed := true)]);
    forall d ensures Placed(r, d) && Balanced(r, d) {
      assert Placed(v, d) && Balanced(v, d);
    }
  }

  /** A pending operation is on the list of its kind, on no other, and not queued. */
  lemma Whereabouts(v: View, id: nat)
    requires Sound(v)
    ensures Distinct(v.waits) && (id in v.waits ==> Active(v, id))
    ensures Active(v, id) ==>
      && id !in v.ready && (id in v.waits <==> v.ops[id].kind.Wait?) && (id in v.timers <==> v.ops[id].kind.Timer?)
      && (id in v.io <==> v.ops[id].kind.Io?) && !v.ops[id].kind.Yield? && (!v.ops[id].kind.Io? ==> !v.ops[id].handler)
  {
    assert Placed(v, id);
  }

  lemma Listed(v: View, id: nat)
    requires Sound(v) && (id in v.io || id in v.timers || id in v.waits)
    ensures Active(v, id)
  {
    assert Placed(v, id);
  }

  // ---- Scans ------------------------------------------------------------------

  predicate Stoppable(op: Op)
  {
    op.kind.Timer? || op.interruptible
  }

  /** What a scan fails: a marked operation, or any on a stopped loop, unless it ignores
      stops or its delivery is under way. */
  predicate Doomed(op: Op, all: bool)
  {
    Stoppable(op) && (all || op.canceled) && !op.inFlight
  }

  /** What became of an operation the scan has looked at. One that was failed had been
      marked by then and not delivered. One that was not, was not marked at the start, or
      has been delivered since. */
  ghost predicate Seen(a: Op, b: Op, failed: bool, all: bool)
  {
    if failed then
      b == a.(active := false, failed := true, canceled := b.canceled) && Doomed(b, all) && (a.canceled ==> b.canceled)
    else
      Rises(a, b) && !(Stoppable(a) && (all || a.canceled) && !b.inFlight)
  }

  /** A scan has looked at the first operations of a list, each once, while flags rose. */
  ghost predicate Scanned(ids: seq<nat>, marks: seq<bool>, all: bool, a: map<nat, Op>, b: map<nat, Op>)
  {
    && |marks| <= |ids| && a.Keys == b.Keys
    && (forall j :: 0 <= j < |marks| ==> ids[j] in a && Seen(a[ids[j]], b[ids[j]], marks[j], all))
    && (forall id :: id in a && id !in ids[..|marks|] ==> Rises(a[id], b[id]))
  }

  /** The operations of a scanned list are split between those that stay and those that
      are failed, in order and without loss. */
  lemma {:induction false} ScanSplits(ids: seq<nat>, marks: seq<bool>)
    requires |ids| == |marks| && Distinct(ids)
    ensures |Select(ids, marks, false)| + |Select(ids, marks, true)| == |ids|
    ensures forall i :: 0 <= i < |ids| ==>
      (ids[i] in Select(ids, marks, true) <==> marks[i]) && (ids[i] in Select(ids, marks, false) <==> !marks[i])
    ensures forall id :: id in Select(ids, marks, true) || id in Select(ids, marks, false) ==> id in ids
  {
    if ids != [] {
      var init, id := ids[..|ids| - 1], ids[|ids| - 1];
      assert Distinct(init) && id !in init;
      ScanSplits(init, marks[..|ids| - 1]);
      assert forall i :: 0 <= i < |ids| - 1 ==> ids[i] == init[i];
    }
  }

  lemma SeenRises(a: Op, b: Op, c: Op, failed: bool, all: bool)
    requires Seen(a, b, failed, all) && Rises(b, c)
    ensures Seen(a, c, failed, all)
  {
  }

  lemma RisesOn(a: Op, b: Op, c: Op)
    requires Rises(a, b) && Rises(b, c)
    ensures Rises(a, c)
  {
  }

  lemma ScanNext(ids: seq<nat>, marks: seq<bool>, all: bool, a: map<nat, Op>, b: map<nat, Op>, mid: map<nat, Op>)
    requires Distinct(ids) && |marks| < |ids| && Scanned(ids, marks, all, a, b) && Raised(b, mid) && ids[|marks|] in a
    requires b[ids[|marks|]].active
    ensures var id := ids[|marks|]; var doomed := Doomed(mid[id], all);
            Scanned(ids, marks + [doomed], all, a,
                    if doomed then mid[id := mid[id].(active := false, failed := true)] else mid)
  {
    hide Seen, Rises, Doomed;
    var id := ids[|marks|];
    var doomed := Doomed(mid[id], all);
    var ms, r := marks + [doomed], if doomed then mid[id := mid[id].(active := false, failed := true)] else mid;
    forall j | 0 <= j < |ms|
      ensures ids[j] in a && Seen(a[ids[j]], r[ids[j]], ms[j], all)
    {
      if j < |marks| {
        assert ids[j] != id;
        SeenRises(a[ids[j]], b[ids[j]], mid[ids[j]], marks[j], all);
      } else {
        RisesOn(a[id], b[id], mid[id]);
        LookedAt(a[id], mid[id], all);
      }
    }
    assert ids[..|ms|] == ids[..|marks|] + [id];
    forall d | d in a && d !in ids[..|ms|]
      ensures Rises(a[d], r[d])
    {
      RisesOn(a[d], b[d], mid[d]);
    }
  }

  lemma LookedAt(a: Op, b: Op, all: bool)
    requires Rises(a, b)
    ensures if Doomed(b, all) then Seen(a, b.(active := false, failed := true), true, all) else Seen(a, b, false, all)
  {
  }

  /** The list a scan goes over: the parked waits or the armed timers. */
  function ListOf(v: View, wait: bool): seq<nat>
  {
    if wait then v.waits else v.timers
  }

  /** How far a scan has come since it started. */
  ghost predicate Progress(a: View, b: View, marks: seq<bool>, all: bool, wait: bool)
  {
    var ids, i := ListOf(a, wait), |marks|;
    && i <= |ids| && Distinct(ids) && Scanned(ids, marks, all, a.ops, b.ops)
    && Parted(ids, marks, ListOf(b, wait), a.ready, b.ready)
    && ListOf(b, !wait) == ListOf(a, !wait) && b.io == a.io
  }

  /** Of the nodes visited, those not failed are left, and the others were queued. */
  ghost predicate Parted(ids: seq<nat>, marks: seq<bool>, left: seq<nat>, before: seq<nat>, after: seq<nat>)
    requires |marks| <= |ids|
  {
    var i := |marks|;
    left == Select(ids[..i], marks, false) + ids[i..] && after == before + Select(ids[..i], marks, true)
  }

  lemma ProgressStarts(v: View, all: bool, wait: bool)
    requires Sound(v)
    ensures Progress(v, v, [], all, wait)
  {
  }

  lemma ProgressEnds(a: View, b: View, marks: seq<bool>, all: bool, wait: bool)
    requires Progress(a, b, marks, all, wait) && |marks| == |ListOf(a, wait)|
    ensures var ids := ListOf(a, wait);
      && ListOf(b, wait) == Select(ids, marks, false) && b.ready == a.ready + Select(ids, marks, true)
      && Scanned(ids, marks, all, a.ops, b.ops) && ListOf(b, !wait) == ListOf(a, !wait) && b.io == a.io
  {
    var ids := ListOf(a, wait);
    assert ids[..|marks|] == ids && ids[|marks|..] == [];
  }

  /** The next operation of a scan is pending, right behind those kept so far. */
  lemma ProgressAt(a: View, b: View, marks: seq<bool>, all: bool, wait: bool)
    requires Progress(a, b, marks, all, wait) && Sound(b) && |marks| < |ListOf(a, wait)|
    ensures var ids, i := ListOf(a, wait), |marks|; var k := |Select(ids[..i], marks, false)|; var now := ListOf(b, wait);
      && k < |now| && now[k] == ids[i] && Active(b, ids[i]) && ids[i] in a.ops && !b.ops[ids[i]].kind.Io?
      && Distinct(now) && Off(now, ids[i]) == Remove(now, k) && Place(now, ids[i]) == k
      && ids[i] !in ListOf(b, !wait) && ids[i] !in b.io
      && Remove(now, k) == Select(ids[..i], marks, false) + ids[i + 1..]
  {
    hide Select, Scanned, Parted, Sound, Distinct, Off, Remove, Place;
    var ids, i := ListOf(a, wait), |marks|;
    PartedAt(ids, marks, ListOf(b, wait), a.ready, b.ready);
    ListedIn(b, ids[i], wait);
    OffAt(ListOf(b, wait), |Select(ids[..i], marks, false)|);
    ScannedKeys(ids, marks, all, a.ops, b.ops);
  }

  lemma PartedAt(ids: seq<nat>, marks: seq<bool>, left: seq<nat>, before: seq<nat>, after: seq<nat>)
    requires |marks| < |ids| && Parted(ids, marks, left, before, after)
    ensures var i := |marks|; var kept := Select(ids[..i], marks, false);
      && |kept| < |left| && left[|kept|] == ids[i] && ids[i] in left && Remove(left, |kept|) == kept + ids[i + 1..]
  {
    hide Select;
    var i := |marks|;
    var kept := Select(ids[..i], marks, false);
    assert left[..|kept|] == kept && left[|kept| + 1..] == ids[i + 1..];
  }

  lemma ListedIn(v: View, id: nat, wait: bool)
    requires Sound(v) && id in ListOf(v, wait)
    ensures Active(v, id) && !v.ops[id].kind.Io? && Distinct(ListOf(v, wait)) && id !in ListOf(v, !wait) && id !in v.io
  {
    hide Distinct;
    assert Placed(v, id);
  }

  lemma OffAt(xs: seq<nat>, k: nat)
    requires Distinct(xs) && k < |xs|
    ensures Off(xs, xs[k]) == Remove(xs, k) && Place(xs, xs[k]) == k
  {
    hide Remove;
  }

  lemma ScannedKeys(ids: seq<nat>, marks: seq<bool>, all: bool, a: map<nat, Op>, b: map<nat, Op>)
    requires Scanned(ids, marks, all, a, b)
    ensures a.Keys == b.Keys
  {
  }

  /** One more operation looked at, as its flags were then. */
  lemma ProgressNext(a: View, b: View, marks: seq<bool>, all: bool, wait: bool, mid: map<nat, Op>)
    requires Progress(a, b, marks, all, wait) && Sound(b) && |marks| < |ListOf(a, wait)| && Raised(b.ops, mid)
    ensures var id := ListOf(a, wait)[|marks|]; id in mid
    ensures var id := ListOf(a, wait)[|marks|]; var doomed := Doomed(mid[id], all); var r := b.(ops := mid);
      Progress(a, if doomed then Finish(r, id, true, true) else r, marks + [doomed], all, wait)
  {
    hide Scanned, Sound, Doomed, Select, Finish, Off, Remove, Place, Distinct, Raised, Progress;
    var id := ListOf(a, wait)[|marks|];
    ProgressAt(a, b, marks, all, wait);
    RaisedKeys(b.ops, mid);
    if Doomed(mid[id], all) {
      ProgressFails(a, b, marks, all, wait, mid);
    } else {
      ProgressKeeps(a, b, marks, all, wait, mid);
    }
  }

  lemma ProgressKeeps(a: View, b: View, marks: seq<bool>, all: bool, wait: bool, mid: map<nat, Op>)
    requires Progress(a, b, marks, all, wait) && Sound(b) && |marks| < |ListOf(a, wait)| && Raised(b.ops, mid)
    requires var id := ListOf(a, wait)[|marks|]; id in mid && !Doomed(mid[id], all)
    ensures Progress(a, b.(ops := mid), marks + [false], all, wait)
  {
    hide Scanned, Parted, Sound, Doomed, Raised, Distinct;
    var ids := ListOf(a, wait);
    ProgressHas(a, b, marks, all, wait);
    ScanNext(ids, marks, all, a.ops, b.ops, mid);
    PartedKeeps(ids, marks, ListOf(b, wait), a.ready, b.ready);
  }

  lemma ProgressHas(a: View, b: View, marks: seq<bool>, all: bool, wait: bool)
    requires Progress(a, b, marks, all, wait) && Sound(b) && |marks| < |ListOf(a, wait)|
    ensures Active(b, ListOf(a, wait)[|marks|]) && ListOf(a, wait)[|marks|] in a.ops
  {
    hide Progress;
    ProgressAt(a, b, marks, all, wait);
  }

  lemma PartedKeeps(ids: seq<nat>, marks: seq<bool>, left: seq<nat>, before: seq<nat>, after: seq<nat>)
    requires |marks| < |ids| && Parted(ids, marks, left, before, after)
    ensures Parted(ids, marks + [false], left, before, after)
  {
    hide Select;
    var i := |marks|;
    Cut(ids, i);
    SelectNext(ids[..i], marks, false, ids[i], false);
    SelectNext(ids[..i], marks, true, ids[i], false);
    Associative(Select(ids[..i], marks, false), [ids[i]], ids[i + 1..]);
  }

  lemma PartedFails(ids: seq<nat>, marks: seq<bool>, left: seq<nat>, before: seq<nat>, after: seq<nat>)
    requires |marks| < |ids| && Parted(ids, marks, left, before, after)
    ensures var i := |marks|;
      Parted(ids, marks + [true], Select(ids[..i], marks, false) + ids[i + 1..], before, after + [ids[i]])
  {
    hide Select;
    var i := |marks|;
    Cut(ids, i);
    SelectNext(ids[..i], marks, false, ids[i], true);
    SelectNext(ids[..i], marks, true, ids[i], true);
    Associative(before, Select(ids[..i], marks, true), [ids[i]]);
  }

  lemma ProgressFails(a: View, b: View, marks: seq<bool>, all: bool, wait: bool, mid: map<nat, Op>)
    requires Progress(a, b, marks, all, wait) && Sound(b) && |marks| < |ListOf(a, wait)| && Raised(b.ops, mid)
    requires var id := ListOf(a, wait)[|marks|]; id in mid && Doomed(mid[id], all)
    ensures Progress(a, Finish(b.(ops := mid), ListOf(a, wait)[|marks|], true, true), marks + [true], all, wait)
  {
    hide Scanned, Parted, Sound, Doomed, Select, Finish, Off, Remove, Place, Distinct, Raised;
    var ids, i := ListOf(a, wait), |marks|;
    ProgressAt(a, b, marks, all, wait);
    ScanNext(ids, marks, all, a.ops, b.ops, mid);
    PartedFails(ids, marks, ListOf(b, wait), a.ready, b.ready);
    FinishLists(b.(ops := mid), ids[i], wait);
    OffNothing(ListOf(b, !wait), ids[i]);
    OffNothing(b.io, ids[i]);
  }

  lemma RaisedKeys(a: map<nat, Op>, b: map<nat, Op>)
    requires Raised(a, b)
    ensures a.Keys == b.Keys
  {
  }

  lemma FinishLists(v: View, id: nat, wait: bool)
    requires id in v.ops
    ensures var r := Finish(v, id, true, true);
      && ListOf(r, wait) == Off(ListOf(v, wait), id) && ListOf(r, !wait) == Off(ListOf(v, !wait), id)
      && r.io == Off(v.io, id) && r.ready == v.ready + [id]
      && r.ops == v.ops[id := v.ops[id].(active := false, failed := true)]
  {
  }

  lemma OffNothing(xs: seq<nat>, id: nat)
    requires id !in xs
    ensures Off(xs, id) == xs
  {
  }

  ghost function NodeAt(links: seq<Link<nat>>, k: nat): Link?<nat>
  {
    if k < |links| then links[k] else null
  }

  lemma Skip(links: seq<Link<nat>>, k: nat)
    requires k < |links|
    ensures NodeAt(Remove(links, k), k) == NodeAt(links, k + 1) && |Remove(links, k)| == |links| - 1
  {
  }

  lemma Finished(links: seq<Link<nat>>, k: nat)
    ensures NodeAt(links, k) == null <==> |links| <= k
  {
  }

  /** How many of the first operations of a scan have stayed. */
  ghost function Kept(ids: seq<nat>, marks: seq<bool>): nat
    requires |marks| <= |ids|
  {
    |Select(ids[..|marks|], marks, false)|
  }

  lemma KeptNone(ids: seq<nat>)
    ensures Kept(ids, []) == 0
  {
  }

  lemma KeptNext(ids: seq<nat>, marks: seq<bool>, mark: bool)
    requires |marks| < |ids|
    ensures Kept(ids, marks + [mark]) == Kept(ids, marks) + One(!mark)
  {
    assert ids[..|marks + [mark]|] == ids[..|marks|] + [ids[|marks|]];
    SelectNext(ids[..|marks|], marks, false, ids[|marks|], mark);
  }

  function Nobody(n: nat): (r: seq<bool>)
    ensures |r| == n && forall i :: 0 <= i < n ==> !r[i]
  {
    seq(n, _ => false)
  }

  lemma {:induction false} NobodyIs(xs: seq<nat>)
    ensures Select(xs, Nobody(|xs|), false) == xs && Select(xs, Nobody(|xs|), true) == []
  {
    if xs != [] {
      NobodyIs(xs[..|xs| - 1]);
      assert Nobody(|xs|)[..|xs| - 1] == Nobody(|xs| - 1);
    }
  }

  ghost predicate Condemned(ops: map<nat, Op>, id: nat, all: bool)
  {
    id in ops && Doomed(ops[id], all)
  }

  /** A wait that was doomed before a scan and has not been delivered by its end; only a
      shared one can be. */
  ghost predicate Missed(a: map<nat, Op>, b: map<nat, Op>, id: nat, all: bool)
  {
    Condemned(a, id, all) && id in b && (a[id].shared ==> !b[id].inFlight)
  }

  /** An operation was failed, and was doomed when that was decided. */
  ghost predicate FailedBy(ops: map<nat, Op>, id: nat, all: bool)
  {
    Condemned(ops, id, all) && !ops[id].active && ops[id].failed
  }

  ghost predicate DueBy(ops: map<nat, Op>, id: nat, now: int)
  {
    id in ops && ops[id].due <= now
  }

  /** Which timers a pass sweeps, which waits it fails, and which timers it fires. */
  datatype Pass = Pass(swept: seq<bool>, scanned: seq<bool>, fired: seq<nat>)

  /** A whole expiry pass. It fails timers and waits only if cancellation was raised, only
      those doomed when looked at, and all those doomed at its start that no delivery
      saved; it fires exactly the remaining timers that are due, in deadline order; the
      other timers are still pending and not due; what it queues is exactly that. */
  ghost predicate Passed(a: View, z: View, cancel: bool, all: bool, now: int, p: Pass)
  {
    && |p.swept| == |a.timers| && |p.scanned| == |a.waits|
    && PassedOn(a, z, now, p) && PassedFor(a, z.ops, cancel, all, p)
  }

  ghost predicate PassedOn(a: View, z: View, now: int, p: Pass)
    requires |p.swept| == |a.timers| && |p.scanned| == |a.waits|
  {
    && z.ready == a.ready + Select(a.timers, p.swept, true) + Select(a.waits, p.scanned, true) + p.fired
    && z.waits == Select(a.waits, p.scanned, false) && z.io == a.io
    && Distinct(p.fired) && Ascending(p.fired, a.ops)
    && (forall id :: id in p.fired <==> id in Select(a.timers, p.swept, false) && DueBy(a.ops, id, now))
    && (forall id :: id in z.timers <==> id in Select(a.timers, p.swept, false) && !DueBy(a.ops, id, now))
  }

  ghost predicate PassedFor(a: View, ops: map<nat, Op>, cancel: bool, all: bool, p: Pass)
    requires |p.swept| == |a.timers| && |p.scanned| == |a.waits|
  {
    && (forall i :: 0 <= i < |a.timers| && p.swept[i] ==> cancel && FailedBy(ops, a.timers[i], all))
    && (forall i :: 0 <= i < |a.waits| && p.scanned[i] ==> cancel && FailedBy(ops, a.waits[i], all))
    && (cancel ==> forall i :: 0 <= i < |a.timers| && Condemned(a.ops, a.timers[i], all) ==> p.swept[i])
    && (cancel ==> forall i :: 0 <= i < |a.waits| && Missed(a.ops, ops, a.waits[i], all) ==> p.scanned[i])
  }

  /** What a scan leaves of every deadline, and of operations it does not look at. */
  lemma ScannedRest(ids: seq<nat>, marks: seq<bool>, all: bool, a: map<nat, Op>, b: map<nat, Op>)
    requires Scanned(ids, marks, all, a, b) && |marks| == |ids|
    ensures a.Keys == b.Keys && forall id :: id in a ==> b[id].due == a[id].due && b[id].shared == a[id].shared
    ensures forall id :: id in a && id !in ids ==> Rises(a[id], b[id])
    ensures forall i :: 0 <= i < |ids| && marks[i] ==> FailedBy(b, ids[i], all)
    ensures forall i :: 0 <= i < |ids| && Missed(a, b, ids[i], all) ==> marks[i]
  {
    assert ids[..|marks|] == ids;
    forall id | id in a ensures b[id].due == a[id].due && b[id].shared == a[id].shared {
      if id in ids {
        var j :| 0 <= j < |ids| && ids[j] == id;
        assert Seen(a[ids[j]], b[ids[j]], marks[j], all);
      }
    }
  }

  /** Timers alone change when timers fire, and those left are not due. */
  lemma FiredRest(a: View, b: View, fired: seq<nat>, now: int)
    requires Fired(a, b, fired, now) && forall id :: id in b.timers ==> id in b.ops && b.ops[id].due > now
    ensures b.ready == a.ready + fired && b.waits == a.waits && b.io == a.io && a.ops.Keys == b.ops.Keys
    ensures Distinct(fired) && Ascending(fired, a.ops)
    ensures forall id :: id in fired <==> id in a.timers && DueBy(a.ops, id, now)
    ensures forall id :: id in b.timers <==> id in a.timers && !DueBy(a.ops, id, now)
    ensures forall id :: id in a.ops && id !in a.timers ==> b.ops[id] == a.ops[id]
  {
    forall id ensures id in b.timers <==> id in a.timers && !DueBy(a.ops, id, now) {
      if id in a.timers { assert id in fired || id in b.timers; }
    }
  }

  lemma DueSame(a: map<nat, Op>, b: map<nat, Op>, now: int)
    requires a.Keys == b.Keys && forall id :: id in a ==> b[id].due == a[id].due
    ensures forall id :: DueBy(a, id, now) == DueBy(b, id, now)
  {
  }

  lemma AscendingSame(ids: seq<nat>, a: map<nat, Op>, b: map<nat, Op>)
    requires Ascending(ids, b) && a.Keys == b.Keys && forall id :: id in a ==> b[id].due == a[id].due
    ensures Ascending(ids, a)
  {
  }

  lemma PassedNone(a: View, z: View, all: bool, now: int, fired: seq<nat>)
    requires Sound(a) && Fired(a, z, fired, now) && forall id :: id in z.timers ==> id in z.ops && z.ops[id].due > now
    ensures Passed(a, z, false, all, now, Pass(Nobody(|a.timers|), Nobody(|a.waits|), fired))
  {
    hide Select, Fired, Ascending, Distinct;
    FiredRest(a, z, fired, now);
    NobodyIs(a.timers);
    NobodyIs(a.waits);
  }

  lemma PassedAll(a: View, b: View, c: View, z: View, all: bool, now: int, p: Pass)
    requires Sound(a) && |p.swept| == |a.timers| && |p.scanned| == |a.waits|
    requires Scanned(a.timers, p.swept, all, a.ops, b.ops) && b.waits == a.waits && b.io == a.io
    requires b.timers == Select(a.timers, p.swept, false) && b.ready == a.ready + Select(a.timers, p.swept, true)
    requires Scanned(a.waits, p.scanned, all, b.ops, c.ops) && c.timers == b.timers && c.io == b.io
    requires c.waits == Select(a.waits, p.scanned, false) && c.ready == b.ready + Select(a.waits, p.scanned, true)
    requires Fired(c, z, p.fired, now) && forall id :: id in z.timers ==> id in z.ops && z.ops[id].due > now
    ensures Passed(a, z, true, all, now, p)
  {
    hide Select, Fired, Scanned, Sound, PassedOn, PassedFor;
    FiredRest(c, z, p.fired, now);
    PassedTimers(a, b.ops, c.ops, z.ops, all, p);
    PassedWaits(a, b.ops, c.ops, z.ops, all, p);
    PassedFlags(a, z.ops, all, p);
    PassedLists(a, b, c, z, all, now, p);
  }

  lemma PassedFlags(a: View, ops: map<nat, Op>, all: bool, p: Pass)
    requires |p.swept| == |a.timers| && |p.scanned| == |a.waits|
    requires forall i :: 0 <= i < |a.timers| && p.swept[i] ==> FailedBy(ops, a.timers[i], all)
    requires forall i :: 0 <= i < |a.timers| && Condemned(a.ops, a.timers[i], all) ==> p.swept[i]
    requires forall i :: 0 <= i < |a.waits| && p.scanned[i] ==> FailedBy(ops, a.waits[i], all)
    requires forall i :: 0 <= i < |a.waits| && Missed(a.ops, ops, a.waits[i], all) ==> p.scanned[i]
    ensures PassedFor(a, ops, true, all, p)
  {
  }

  lemma PassedLists(a: View, b: View, c: View, z: View, all: bool, now: int, p: Pass)
    requires |p.swept| == |a.timers| && |p.scanned| == |a.waits|
    requires Scanned(a.timers, p.swept, all, a.ops, b.ops) && b.waits == a.waits && b.io == a.io
    requires b.timers == Select(a.timers, p.swept, false) && b.ready == a.ready + Select(a.timers, p.swept, true)
    requires Scanned(a.waits, p.scanned, all, b.ops, c.ops) && c.timers == b.timers && c.io == b.io
    requires c.waits == Select(a.waits, p.scanned, false) && c.ready == b.ready + Select(a.waits, p.scanned, true)
    requires Fired(c, z, p.fired, now) && forall id :: id in z.timers ==> id in z.ops && z.ops[id].due > now
    ensures PassedOn(a, z, now, p)
  {
    hide Select, Fired, Ascending, Distinct, Scanned, DueBy;
    FiredLists(c, z, p.fired, now);
    Deadlines(a.timers, p.swept, a.waits, p.scanned, all, a.ops, b.ops, c.ops, p.fired, now);
  }

  lemma FiredLists(a: View, b: View, fired: seq<nat>, now: int)
    requires Fired(a, b, fired, now) && forall id :: id in b.timers ==> id in b.ops && b.ops[id].due > now
    ensures b.ready == a.ready + fired && b.waits == a.waits && b.io == a.io && Distinct(fired) && Ascending(fired, a.ops)
    ensures forall id :: id in fired <==> id in a.timers && DueBy(a.ops, id, now)
    ensures forall id :: id in b.timers <==> id in a.timers && !DueBy(a.ops, id, now)
  {
    hide Fired, Ascending, Distinct, DueBy;
    FiredRest(a, b, fired, now);
  }

  /** Scans leave deadlines alone. */
  lemma Deadlines(timers: seq<nat>, swept: seq<bool>, waits: seq<nat>, scanned: seq<bool>, all: bool,
                  a: map<nat, Op>, b: map<nat, Op>, c: map<nat, Op>, fired: seq<nat>, now: int)
    requires |swept| == |timers| && |scanned| == |waits| && Ascending(fired, c)
    requires Scanned(timers, swept, all, a, b) && Scanned(waits, scanned, all, b, c)
    ensures Ascending(fired, a) && forall id :: DueBy(a, id, now) == DueBy(c, id, now)
  {
    hide Scanned, Ascending, DueBy;
    ScannedDue(timers, swept, all, a, b);
    ScannedDue(waits, scanned, all, b, c);
    AscendingSame(fired, a, c);
    DueSame(a, c, now);
  }

  lemma ScannedDue(ids: seq<nat>, marks: seq<bool>, all: bool, a: map<nat, Op>, b: map<nat, Op>)
    requires Scanned(ids, marks, all, a, b) && |marks| == |ids|
    ensures a.Keys == b.Keys && forall id :: id in a ==> b[id].due == a[id].due
  {
    ScannedRest(ids, marks, all, a, b);
  }

  /** The timers of a pass: whoever was swept had been doomed by then, and whoever was
      doomed at the start was swept. */
  lemma PassedTimers(a: View, b: map<nat, Op>, c: map<nat, Op>, z: map<nat, Op>, all: bool, p: Pass)
    requires Sound(a) && |p.swept| == |a.timers| && |p.scanned| == |a.waits|
    requires Scanned(a.timers, p.swept, all, a.ops, b) && Scanned(a.waits, p.scanned, all, b, c)
    requires z.Keys == c.Keys && forall id :: id in c && id !in Select(a.timers, p.swept, false) ==> z[id] == c[id]
    ensures forall i :: 0 <= i < |a.timers| && p.swept[i] ==> FailedBy(z, a.timers[i], all)
    ensures forall i :: 0 <= i < |a.timers| && Condemned(a.ops, a.timers[i], all) ==> p.swept[i]
  {
    hide Select, Scanned, Sound;
    Apart(a, p);
    ScannedRest(a.timers, p.swept, all, a.ops, b);
    ScannedRest(a.waits, p.scanned, all, b, c);
    forall i | 0 <= i < |a.timers|
      ensures p.swept[i] ==> FailedBy(z, a.timers[i], all)
      ensures Condemned(a.ops, a.timers[i], all) ==> p.swept[i]
    {
      assert Rises(b[a.timers[i]], c[a.timers[i]]);
      if Condemned(a.ops, a.timers[i], all) { assert Missed(a.ops, b, a.timers[i], all); }
    }
  }

  lemma PassedWaits(a: View, b: map<nat, Op>, c: map<nat, Op>, z: map<nat, Op>, all: bool, p: Pass)
    requires Sound(a) && |p.swept| == |a.timers| && |p.scanned| == |a.waits|
    requires Scanned(a.timers, p.swept, all, a.ops, b) && Scanned(a.waits, p.scanned, all, b, c)
    requires z.Keys == c.Keys && forall id :: id in c && id !in Select(a.timers, p.swept, false) ==> z[id] == c[id]
    ensures forall i :: 0 <= i < |a.waits| && p.scanned[i] ==> FailedBy(z, a.waits[i], all)
    ensures forall i :: 0 <= i < |a.waits| && Missed(a.ops, z, a.waits[i], all) ==> p.scanned[i]
  {
    hide Select, Scanned, Sound;
    Apart(a, p);
    ScannedRest(a.timers, p.swept, all, a.ops, b);
    ScannedRest(a.waits, p.scanned, all, b, c);
    forall i | 0 <= i < |a.waits|
      ensures p.scanned[i] ==> FailedBy(z, a.waits[i], all)
      ensures Missed(a.ops, z, a.waits[i], all) ==> p.scanned[i]
    {
      var id := a.waits[i];
      assert z[id] == c[id] && Rises(a.ops[id], b[id]);
      ScannedFlies(a.waits, p.scanned, all, b, c, i);
    }
  }

  /** A delivery that was under way before a scan still is. */
  lemma ScannedFlies(ids: seq<nat>, marks: seq<bool>, all: bool, a: map<nat, Op>, b: map<nat, Op>, i: nat)
    requires Scanned(ids, marks, all, a, b) && |marks| == |ids| && i < |ids|
    ensures ids[i] in a && ids[i] in b && (a[ids[i]].inFlight ==> b[ids[i]].inFlight)
  {
    assert Seen(a[ids[i]], b[ids[i]], marks[i], all);
  }

  /** Timers and waits are different operations, and those swept do not stay. */
  lemma Apart(a: View, p: Pass)
    requires Sound(a) && |p.swept| == |a.timers|
    ensures forall id :: id in a.timers ==> id in a.ops && !a.ops[id].shared && id !in a.waits
    ensures forall id :: id in a.waits ==> id in a.ops && id !in a.timers
    ensures forall i :: 0 <= i < |a.timers| && p.swept[i] ==> a.timers[i] !in Select(a.timers, p.swept, false)
    ensures forall id :: id in Select(a.timers, p.swept, false) ==> id in a.timers
  {
    forall id
      ensures id in a.timers ==> id in a.ops && !a.ops[id].shared && id !in a.waits
      ensures id in a.waits ==> id in a.ops && id !in a.timers
    {
      assert Placed(a, id);
    }
    ScanSplits(a.timers, p.swept);
  }

  // ---- Deadlines --------------------------------------------------------------

  ghost predicate Ascending(ids: seq<nat>, ops: map<nat, Op>)
  {
    && (forall i :: 0 <= i < |ids| ==> ids[i] in ops)
    && forall i, j :: 0 <= i < j < |ids| ==> ops[ids[i]].due <= ops[ids[j]].due
  }

  /** Some due timers have been finished, in deadline order, none twice, and every timer
      left is later than those. */
  ghost predicate Fired(a: View, b: View, fired: seq<nat>, now: int)
  {
    && b.ready == a.ready + fired && b.waits == a.waits && b.io == a.io && b.ops.Keys == a.ops.Keys
    && Distinct(fired) && Ascending(fired, a.ops)
    && (forall id :: id in fired ==> id in a.timers && a.ops[id].due <= now)
    && (forall id :: id in b.timers <==> id in a.timers && id !in fired)
    && (forall id :: id in a.timers ==> id in a.ops)
    && (fired != [] ==> forall id :: id in b.timers ==> a.ops[fired[|fired| - 1]].due <= a.ops[id].due)
    && (forall id :: id in a.ops ==> b.ops[id] == if id in fired then a.ops[id].(active := false, failed := false) else a.ops[id])
  }

  lemma FiredNone(v: View, now: int)
    requires forall id :: id in v.timers ==> id in v.ops
    ensures Fired(v, v, [], now)
  {
  }

  lemma FiredNext(a: View, b: View, fired: seq<nat>, now: int, k: nat)
    requires Fired(a, b, fired, now) && Sound(b) && k < |b.timers| && forall i :: 0 <= i < |b.timers| ==> b.timers[i] in b.ops
    requires b.ops[b.timers[k]].due <= now
    requires forall i :: 0 <= i < |b.timers| ==> b.ops[b.timers[k]].due <= b.ops[b.timers[i]].due
    ensures Fired(a, Finish(b, b.timers[k], false, true), fired + [b.timers[k]], now)
    ensures |Finish(b, b.timers[k], false, true).timers| < |b.timers|
  {
    hide Ascending, Off, Distinct, Balanced;
    var id := b.timers[k];
    assert Placed(b, id);
    assert forall i :: 0 <= i < |b.timers| ==> b.ops[b.timers[i]].due == a.ops[b.timers[i]].due;
    OffIs(b.timers, id);
    OffShorter(b.timers, id);
    OffNothing(b.waits, id);
    OffNothing(b.io, id);
    AppendIs(fired, id);
    AscendingNext(fired, a.ops, id);
    forall d | d in b.timers ensures a.ops[id].due <= a.ops[d].due {
      var i :| 0 <= i < |b.timers| && b.timers[i] == d;
    }
  }

  lemma AscendingNext(ids: seq<nat>, ops: map<nat, Op>, id: nat)
    requires Ascending(ids, ops) && id in ops && (ids != [] ==> ids[|ids| - 1] in ops && ops[ids[|ids| - 1]].due <= ops[id].due)
    ensures Ascending(ids + [id], ops)
  {
  }

  lemma OffShorter(xs: seq<nat>, id: nat)
    requires id in xs
    ensures |Off(xs, id)| < |xs|
  {
  }

  // ---- Runs -------------------------------------------------------------------

  /** What can happen to the operations of a loop; the methods of `Loop` do nothing else.
      An operation is started or destroyed only by its own coroutine, so when it is
      neither pending nor queued. */
  datatype Act =
    | Add(id: nat, op: Op)
    | Go(id: nat, refused: bool)
    | Yielding(id: nat)
    | Over(id: nat, failed: bool, push: bool)
    | Taken
    | Rise(ops: map<nat, Op>)
    | Gone(id: nat)

  ghost predicate Can(v: View, act: Act)
  {
    match act
    case Add(id, op) => id !in v.ops && !op.active && Proper(op)
    case Go(id, _) => id in v.ops && !v.ops[id].active && id !in v.ready && !v.ops[id].kind.Yield?
    case Yielding(id) => id in v.ops && v.ops[id].kind.Yield? && id !in v.ready
    case Over(id, _, push) => Active(v, id) && push == !v.ops[id].handler
    case Taken => v.ready != []
    case Rise(ops) => Raised(v.ops, ops)
    case Gone(id) => id in v.ops && !v.ops[id].active && id !in v.ready
  }

  ghost function Do(v: View, act: Act): View
    requires Can(v, act)
  {
    match act
    case Add(id, op) => v.(ops := v.ops[id := op])
    case Go(id, refused) => Started(v, id, refused)
    case Yielding(id) => YieldTo(v, id)
    case Over(id, failed, push) => Finish(v, id, failed, push)
    case Taken => Resume(v)
    case Rise(ops) => v.(ops := ops)
    case Gone(id) => v.(ops := v.ops - {id})
  }

  lemma DoSound(v: View, act: Act)
    requires Sound(v) && Can(v, act)
    ensures Sound(Do(v, act))
  {
    match act
    case Add(id, op) => RegisterSound(v, id, op);
    case Go(id, refused) => StartSound(v, id, refused);
    case Yielding(id) => YieldSound(v, id);
    case Over(id, failed, push) => FinishSound(v, id, failed, push);
    case Taken => ResumeSound(v);
    case Rise(ops) => RaiseSound(v, ops);
    case Gone(id) => DestroySound(v, id);
  }

  ghost predicate Legal(trace: seq<Act>)
    decreases |trace|, 0
  {
    trace == [] || (Legal(trace[..|trace| - 1]) && Can(Run(trace[..|trace| - 1]), trace[|trace| - 1]))
  }

  ghost function Run(trace: seq<Act>): View
    requires Legal(trace)
    decreases |trace|, 1
  {
    if trace == [] then View(map[], [], [], [], [], multiset{})
    else Do(Run(trace[..|trace| - 1]), trace[|trace| - 1])
  }

  /** The loop is as this legal run leaves it. */
  ghost predicate Tracked(trace: seq<Act>, v: View)
  {
    Legal(trace) && v == Run(trace)
  }

  lemma TraceNext(trace: seq<Act>, v: View, act: Act)
    requires Tracked(trace, v) && Can(v, act)
    ensures Tracked(trace + [act], Do(v, act))
  {
    assert (trace + [act])[..|trace|] == trace;
  }

  lemma TrackedSound(trace: seq<Act>, v: View)
    requires Tracked(trace, v)
    ensures Sound(v)
  {
    RunSound(trace);
  }

  lemma CanGo(v: View, id: nat, refused: bool)
    requires id in v.ops && !v.ops[id].active && id !in v.ready && !v.ops[id].kind.Yield?
    ensures Can(v, Go(id, refused)) && Do(v, Go(id, refused)) == Started(v, id, refused)
  {
  }

  lemma CanEnd(v: View, id: nat, failed: bool, push: bool)
    requires Active(v, id) && push == !v.ops[id].handler
    ensures Can(v, Over(id, failed, push)) && Do(v, Over(id, failed, push)) == Finish(v, id, failed, push)
  {
  }

  lemma FlagRaises(ops: map<nat, Op>, id: nat, op: Op)
    requires id in ops && Rises(ops[id], op)
    ensures Raised(ops, ops[id := op])
  {
  }

  /** How often an operation was armed, pushed on the ready queue, ended by its own handler
      and resumed in a run. */
  ghost function Armings(trace: seq<Act>, id: nat): nat
  {
    if trace == [] then 0
    else
      var act := trace[|trace| - 1];
      Armings(trace[..|trace| - 1], id) + One(act == Go(id, false) || act == Yielding(id))
  }

  ghost function Pushes(trace: seq<Act>, id: nat): nat
  {
    if trace == [] then 0
    else
      var act := trace[|trace| - 1];
      Pushes(trace[..|trace| - 1], id) + One((act.Over? && act.id == id && act.push) || act == Yielding(id))
  }

  ghost function Handlings(trace: seq<Act>, id: nat): nat
  {
    if trace == [] then 0
    else
      var act := trace[|trace| - 1];
      Handlings(trace[..|trace| - 1], id) + One(act.Over? && act.id == id && !act.push)
  }

  lemma {:induction false} RunSound(trace: seq<Act>)
    requires Legal(trace)
    ensures Sound(Run(trace))
  {
    if trace != [] {
      RunSound(trace[..|trace| - 1]);
      DoSound(Run(trace[..|trace| - 1]), trace[|trace| - 1]);
    }
  }

  lemma {:induction false} HistoryIs(trace: seq<Act>, id: nat)
    requires Legal(trace)
    ensures var h := Run(trace).history;
      h[Armed(id)] == Armings(trace, id) && h[Pushed(id)] == Pushes(trace, id) && h[Handled(id)] == Handlings(trace, id)
  {
    hide Do, Can;
    if trace != [] {
      HistoryIs(trace[..|trace| - 1], id);
      DoHistory(Run(trace[..|trace| - 1]), trace[|trace| - 1], id);
    }
  }

  lemma DoHistory(v: View, act: Act, id: nat)
    requires Can(v, act)
    ensures var h, r := v.history, Do(v, act).history;
      && r[Armed(id)] == h[Armed(id)] + One(act == Go(id, false) || act == Yielding(id))
      && r[Pushed(id)] == h[Pushed(id)] + One((act.Over? && act.id == id && act.push) || act == Yielding(id))
      && r[Handled(id)] == h[Handled(id)] + One(act.Over? && act.id == id && !act.push)
  {
  }

  /** This operation, in all its lives, was made with or without a handler of its own. */
  ghost predicate Made(trace: seq<Act>, id: nat, handler: bool)
  {
    forall i :: 0 <= i < |trace| && trace[i].Add? && trace[i].id == id ==> trace[i].op.handler == handler
  }

  /** Exactly once, across yields, timers, waits, event awaiters and native requests. In
      every run an operation without a handler, which every timer, wait and yield is, has
      been pushed on the ready queue once per arming, except for one still pending; one
      with a handler has ended in it as often, and is never pushed. An operation is queued
      at most once, and never while pending. */
  lemma ExactlyOnce(trace: seq<Act>, id: nat)
    requires Legal(trace)
    ensures var v := Run(trace);
      && (Made(trace, id, false) ==> Pushes(trace, id) == Armings(trace, id) - One(Active(v, id)))
      && (Made(trace, id, true) ==>
            Handlings(trace, id) == Armings(trace, id) - One(Active(v, id)) && Pushes(trace, id) == 0)
      && Pushes(trace, id) + Handlings(trace, id) == Armings(trace, id) - One(Active(v, id))
      && multiset(v.ready)[id] == One(id in v.ready) && !(Active(v, id) && id in v.ready)
  {
    RunSound(trace);
    HistoryIs(trace, id);
    if Made(trace, id, false) { OneWay(trace, id, false); }
    if Made(trace, id, true) { OneWay(trace, id, true); }
    var v := Run(trace);
    assert Placed(v, id) && Balanced(v, id);
    Multiplicity(v.ready, id);
  }

  lemma {:induction false} OneWay(trace: seq<Act>, id: nat, handler: bool)
    requires Legal(trace) && Made(trace, id, handler)
    ensures id in Run(trace).ops ==> Run(trace).ops[id].handler == handler
    ensures if handler then Pushes(trace, id) == 0 else Handlings(trace, id) == 0
  {
    hide Do, Can;
    if trace != [] {
      OneWay(trace[..|trace| - 1], id, handler);
      RunSound(trace[..|trace| - 1]);
      DoHandler(Run(trace[..|trace| - 1]), trace[|trace| - 1], id);
    }
  }

  /** No act changes whether an operation has a handler, and the handler decides how it
      ends. */
  lemma DoHandler(v: View, act: Act, id: nat)
    requires Sound(v) && Can(v, act)
    ensures var r := Do(v, act);
      && (id in r.ops && !(act.Add? && act.id == id) ==> id in v.ops && r.ops[id].handler == v.ops[id].handler)
      && (id in r.ops && act.Add? && act.id == id ==> r.ops[id].handler == act.op.handler)
      && (act.Over? && act.id == id ==> id in v.ops && act.push == !v.ops[id].handler)
      && (act == Yielding(id) ==> id in v.ops && !v.ops[id].handler)
  {
    assert Placed(v, id);
  }

  /** Setting an event queues exactly the awaiters that were pending, once each and in list
      order; however often it is set, nobody is queued again. */
  lemma NotifyAllIs(v: View, ids: seq<nat>)
    requires Sound(v) && Distinct(ids) && forall i :: 0 <= i < |ids| ==> ids[i] in v.ops
    ensures var r := NotifyAll(v, ids);
      && Sound(r) && r.ready == v.ready + Select(ids, Pendings(v, ids), true)
      && (forall i :: 0 <= i < |ids| ==> !r.ops[ids[i]].active)
      && (forall id :: id in v.ops && id !in ids ==> r.ops[id] == v.ops[id])
    ensures NotifyAll(NotifyAll(v, ids), ids) == NotifyAll(v, ids)
  {
    hide Sound, NotifyAll, Select, Distinct, Pendings;
    NotifyAllOnce(v, ids);
    NotifyNobody(NotifyAll(v, ids), ids);
  }

  lemma {:induction false} NotifyAllOnce(v: View, ids: seq<nat>)
    requires Sound(v) && Distinct(ids) && forall i :: 0 <= i < |ids| ==> ids[i] in v.ops
    ensures var r := NotifyAll(v, ids);
      && Sound(r) && r.ready == v.ready + Select(ids, Pendings(v, ids), true) && Quiet(v, r, ids)
  {
    hide Sound, NotifyAll, Notified, Select, Distinct, Pendings, Quiet;
    NotifyAllNext(v, ids);
    if ids != [] {
      var init, id := ids[..|ids| - 1], ids[|ids| - 1];
      var w := NotifyAll(v, init);
      DistinctInit(ids);
      NotifyAllOnce(v, init);
      QuietElse(v, w, init, id);
      PendingsNext(v, ids, w.ready);
      NotifiedIs(w, id);
      QuietNext(v, w, NotifyAll(v, ids), ids);
    } else {
      SelectNone();
      QuietNone(v);
    }
  }

  /** Nobody on the list is pending, and nobody else was touched. */
  ghost predicate Quiet(v: View, r: View, ids: seq<nat>)
    requires r.ops.Keys == v.ops.Keys
  {
    && (forall i :: 0 <= i < |ids| && ids[i] in r.ops ==> !r.ops[ids[i]].active)
    && (forall id :: id in v.ops && id !in ids ==> r.ops[id] == v.ops[id])
  }

  lemma QuietNone(v: View)
    ensures Quiet(v, v, [])
  {
  }

  lemma QuietElse(v: View, w: View, ids: seq<nat>, id: nat)
    requires w.ops.Keys == v.ops.Keys && Quiet(v, w, ids) && id !in ids
    ensures Active(w, id) == Active(v, id)
  {
  }

  lemma QuietNext(v: View, w: View, r: View, ids: seq<nat>)
    requires ids != [] && w.ops.Keys == v.ops.Keys && r.ops.Keys == v.ops.Keys && Quiet(v, w, ids[..|ids| - 1])
    requires forall i :: 0 <= i < |ids| ==> ids[i] in v.ops
    requires Distinct(ids) && !r.ops[ids[|ids| - 1]].active
    requires forall d :: d in w.ops && d != ids[|ids| - 1] ==> r.ops[d] == w.ops[d]
    ensures Quiet(v, r, ids)
  {
  }

  lemma NotifyAllNext(v: View, ids: seq<nat>)
    ensures ids == [] ==> NotifyAll(v, ids) == v
    ensures ids != [] && ids[|ids| - 1] in v.ops ==>
      NotifyAll(v, ids) == Notified(NotifyAll(v, ids[..|ids| - 1]), ids[|ids| - 1], false)
  {
  }

  lemma PendingsNext(v: View, ids: seq<nat>, after: seq<nat>)
    requires ids != [] && after == v.ready + Select(ids[..|ids| - 1], Pendings(v, ids[..|ids| - 1]), true)
    ensures var id := ids[|ids| - 1];
      v.ready + Select(ids, Pendings(v, ids), true) == if Active(v, id) then after + [id] else after
  {
    hide Select;
    var init, id := ids[..|ids| - 1], ids[|ids| - 1];
    PendingsInit(v, ids);
    SelectNext(init, Pendings(v, init), true, id, Active(v, id));
    Associative(v.ready, Select(init, Pendings(v, init), true), [id]);
  }

  lemma PendingsInit(v: View, ids: seq<nat>)
    requires ids != []
    ensures var init, id := ids[..|ids| - 1], ids[|ids| - 1];
      ids == init + [id] && Pendings(v, ids) == Pendings(v, init) + [Active(v, id)]
  {
  }

  lemma DistinctInit(ids: seq<nat>)
    requires Distinct(ids) && ids != []
    ensures Distinct(ids[..|ids| - 1]) && ids[|ids| - 1] !in ids[..|ids| - 1]
  {
  }

  lemma SelectNone()
    ensures Select<nat>([], [], true) == []
  {
  }

  lemma NotifiedIs(v: View, id: nat)
    requires Sound(v) && id in v.ops
    ensures var r := Notified(v, id, false);
      && Sound(r) && r.ready == (if Active(v, id) then v.ready + [id] else v.ready) && r.ops.Keys == v.ops.Keys
      && !r.ops[id].active && forall d :: d in v.ops && d != id ==> r.ops[d] == v.ops[d]
  {
    if Active(v, id) { FinishSound(v, id, false, true); }
  }

  function Pendings(v: View, ids: seq<nat>): (r: seq<bool>)
    ensures |r| == |ids| && forall i :: 0 <= i < |ids| ==> r[i] == Active(v, ids[i])
  {
    seq(|ids|, i requires 0 <= i < |ids| => Active(v, ids[i]))
  }

  lemma {:induction false} NotifyNobody(v: View, ids: seq<nat>)
    requires forall i :: 0 <= i < |ids| ==> ids[i] in v.ops && !v.ops[ids[i]].active
    ensures NotifyAll(v, ids) == v
  {
    if ids != [] { NotifyNobody(v, ids[..|ids| - 1]); }
  }
}
