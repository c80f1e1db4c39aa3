/** Linked batches: what reaches the submission queue, and how results come back.

    A batch is validated, room for all of it is made, and its entries are queued one by
    one. The kernel takes what is queued whenever the driver submits; a chain must never
    be taken in part, so no submission may happen between two entries of a batch. */
module Batches {

  import opened Options
  import opened Sequences
  import Uring

  datatype Order = Unlinked | Soft | Hard

  /** What a caller prepares: whether the operation is one a batch supports, whether it
      carries flags a batch refuses, and whether it drains. */
  datatype Entry = Entry(supported: bool, refused: bool, drain: bool)

  /** A queued submission: whose it is, its place there, its link to the next one. */
  datatype Sqe = Sqe(owner: nat, index: nat, link: Order, drain: bool)

  datatype Outcome = Done | Canceled | Invalid | Queued

  function Linked(owner: nat, batch: seq<Entry>, order: Order, i: nat): Sqe
    requires i < |batch|
  {
    Sqe(owner, i, if i + 1 < |batch| then order else Unlinked, batch[i].drain)
  }

  /** The whole batch: each entry linked to the next one, the last to nothing. */
  function Chain(owner: nat, batch: seq<Entry>, order: Order): (r: seq<Sqe>)
    ensures |r| == |batch| && forall i :: 0 <= i < |r| ==> r[i] == Linked(owner, batch, order, i)
  {
    seq(|batch|, i requires 0 <= i < |batch| => Linked(owner, batch, order, i))
  }

  predicate Acceptable(e: Entry)
  {
    e.supported && !e.refused
  }

  /** Nothing waits for a successor that is not queued yet. */
  predicate Closed(q: seq<Sqe>)
  {
    q == [] || q[|q| - 1].link.Unlinked?
  }

  /** Every link leads to the next entry of the same batch. */
  ghost predicate Joined(q: seq<Sqe>)
  {
    forall i :: 0 <= i < |q| - 1 && !q[i].link.Unlinked? ==>
      q[i + 1].owner == q[i].owner && q[i + 1].index == q[i].index + 1
  }

  lemma ChainJoins(q: seq<Sqe>, owner: nat, batch: seq<Entry>, order: Order)
    requires Joined(q) && Closed(q)
    ensures Joined(q + Chain(owner, batch, order)) && Closed(Chain(owner, batch, order))
  {
    var c := Chain(owner, batch, order);
    var r := q + c;
    forall i | 0 <= i < |r| - 1 && !r[i].link.Unlinked?
      ensures r[i + 1].owner == r[i].owner && r[i + 1].index == r[i].index + 1
    {
      if i >= |q| {
        assert r[i] == c[i - |q|] && r[i + 1] == c[i - |q| + 1];
      }
    }
  }

  /** The submission queue of one ring. `taken` is what the kernel has taken, in order. */
  class Submissions {
    const slots: nat
    const threshold: nat
    var queued: seq<Sqe>
    var watching: bool
    var waking: bool
    var drains: nat
    ghost var taken: seq<Sqe>

    ghost predicate Valid()
      reads this
    {
      0 < slots && |queued| <= slots && Joined(taken + queued) && (queued == [] ==> Closed(taken))
    }

    ghost function Stream(): seq<Sqe>
      reads this
    {
      taken + queued
    }

    constructor (slots: nat, threshold: nat)
      requires 0 < slots
      ensures Valid() && queued == [] && taken == [] && this.slots == slots && this.threshold == threshold
    {
      this.slots, this.threshold := slots, threshold;
      queued, taken := [], [];
      watching, waking, drains := true, false, 0;
    }

    /** Enter the kernel, which takes some of what is queued. Only ever called when no
        chain is incomplete. */
    method Enter()
      requires Valid() && queued != [] && Closed(queued)
      modifies this`queued, this`taken
      ensures Valid() && Stream() == old(Stream()) && |queued| < |old(queued)| && Closed(queued)
      ensures queued == old(queued)[|old(queued)| - |queued|..]
    {
      var k: int := *;
      if k < 1 || k > |queued| { k := |queued|; }
      assert taken + queued == (taken + queued[..k]) + queued[k..];
      taken, queued := taken + queued[..k], queued[k..];
    }

    /** Find a free slot for one submission, entering the kernel if there is none, or if
        a flush is allowed and enough is queued. */
    method Append(flush: bool, e: Sqe)
      requires Valid() && (Closed(queued) || (!flush && |queued| < slots))
      requires Joined(taken + queued + [e])
      modifies this`queued, this`taken
      ensures Valid() && Stream() == old(Stream()) + [e] && queued != [] && queued[|queued| - 1] == e
      ensures !flush && |old(queued)| < slots ==> queued == old(queued) + [e] && taken == old(taken)
    {
      if flush && threshold > 0 && |queued| >= threshold { Enter(); }
      while |queued| == slots
        invariant Valid() && Stream() == old(Stream()) && (Closed(queued) || (!flush && |queued| < slots))
        invariant !flush && |old(queued)| < slots ==> queued == old(queued) && taken == old(taken)
        decreases |queued|
      {
        Enter();
      }
      assert taken + (queued + [e]) == old(Stream()) + [e];
      queued := queued + [e];
    }

    /** Make room for a whole batch; a draining one also has the wake poll fire first. */
    method Reserve(count: nat, drain: bool) returns (ok: bool)
      requires Valid() && Closed(queued)
      modifies this`queued, this`taken, this`waking
      ensures Valid() && Closed(queued) && Stream() == old(Stream())
      ensures ok <==> count <= slots
      ensures ok ==> |queued| + count <= slots && (drain && watching ==> waking)
      ensures !ok ==> queued == old(queued) && taken == old(taken) && waking == old(waking)
    {
      ok := count <= slots;
      if ok {
        while slots - |queued| < count
          invariant Valid() && Closed(queued) && Stream() == old(Stream())
          decreases |queued|
        {
          Enter();
        }
        if drain && watching && !waking { waking := true; }
      }
    }

    /** Queue one request. A request with its own retirement handler is never flushed
        behind; a draining one first makes sure the wake poll fires. */
    method Submit(e: Sqe, handler: bool)
      requires Valid() && Joined(taken + queued + [e])
      requires Closed(queued) || (handler && |queued| < slots && (e.drain && watching ==> waking))
      modifies this`queued, this`taken, this`waking, this`drains
      ensures Valid() && Stream() == old(Stream()) + [e] && queued != [] && queued[|queued| - 1] == e
      ensures old(handler && |queued| < slots && (e.drain && watching ==> waking)) ==>
                queued == old(queued) + [e] && taken == old(taken) && waking == old(waking)
      ensures drains == old(drains) + if e.drain then 1 else 0
    {
      if e.drain {
        if watching && !waking {
          var _ := Reserve(1, true);
        }
        drains := drains + 1;
      }
      Append(!handler, e);
    }

    /** Validate a batch and link its entries. */
    static method Prepare(owner: nat, batch: seq<Entry>, order: Order)
        returns (ok: bool, requests: seq<Sqe>, drain: bool)
      ensures ok <==> forall e :: e in batch ==> Acceptable(e)
      ensures ok ==> requests == Chain(owner, batch, order) && (drain <==> exists e :: e in batch && e.drain)
    {
      ok, requests, drain := true, [], false;
      for i := 0 to |batch|
        invariant requests == Chain(owner, batch, order)[..i]
        invariant forall j :: 0 <= j < i ==> Acceptable(batch[j]) && (batch[j].drain ==> drain)
        invariant drain ==> exists e :: e in batch && e.drain
      {
        if !Acceptable(batch[i]) { return false, [], false; }
        drain := drain || batch[i].drain;
        requests := requests + [Linked(owner, batch, order, i)];
      }
    }

    /** Submit a batch. Either nothing is queued and the reason is given, or the whole
        chain sits untaken in consecutive slots at the end of the queue. */
    method SubmitBatch(owner: nat, batch: seq<Entry>, order: Order, stopped: bool) returns (r: Outcome)
      requires Valid() && Closed(queued)
      modifies this`queued, this`taken, this`waking, this`drains
      ensures Valid() && Closed(queued)
      ensures r.Canceled? <==> stopped
      ensures r.Done? <==> !stopped && batch == []
      ensures r.Queued? <==> !stopped && 0 < |batch| <= 32768 && |batch| <= slots && forall e :: e in batch ==> Acceptable(e)
      ensures !r.Queued? ==> queued == old(queued) && taken == old(taken)
      ensures r.Queued? ==>
        && taken + queued == old(taken + queued) + Chain(owner, batch, order)
        && |batch| <= |queued| && queued[|queued| - |batch|..] == Chain(owner, batch, order)
    {
      hide Valid, Joined, Closed;
      if stopped { return Canceled; }
      if batch == [] { return Done; }
      if |batch| > 32768 { return Invalid; }
      var ok, requests, drain := Prepare(owner, batch, order);
      if !ok { return Invalid; }
      Unfinished();
      ChainJoins(taken + queued, owner, batch, order);
      ok := Commit(requests, drain);
      return if ok then Queued else Invalid;
    }

    lemma Unfinished()
      requires Valid() && Closed(queued)
      ensures Joined(taken + queued) && Closed(taken + queued)
    {
    }

    /** Make room for prepared requests and queue all of them, or none. */
    method Commit(requests: seq<Sqe>, drain: bool) returns (ok: bool)
      requires Valid() && Closed(queued) && requests != [] && Closed(requests) && Joined(taken + queued + requests)
      requires forall e :: e in requests && e.drain ==> drain
      modifies this`queued, this`taken, this`waking, this`drains
      ensures Valid() && Closed(queued) && (ok <==> |requests| <= slots)
      ensures !ok ==> queued == old(queued) && taken == old(taken)
      ensures ok ==>
        && taken + queued == old(taken + queued) + requests
        && |requests| <= |queued| && queued[|queued| - |requests|..] == requests
    {
      ok := Reserve(|requests|, drain);
      if ok {
        Launch(requests);
        assert queued[|queued| - 1] == requests[|requests| - 1];
      }
    }

    /** Queue prepared requests for which room has been made. */
    method Launch(requests: seq<Sqe>)
      requires Valid() && Joined(taken + queued + requests) && |queued| + |requests| <= slots
      requires forall e :: e in requests && e.drain && watching ==> waking
      modifies this`queued, this`taken, this`waking, this`drains
      ensures queued == old(queued) + requests && taken == old(taken)
      ensures Joined(taken + queued) && |queued| <= slots
    {
      for i := 0 to |requests|
        invariant taken == old(taken) && queued == old(queued) + requests[..i] && waking == old(waking) && Valid()
      {
        Prefix(old(taken + queued), requests, i);
        assert taken + queued + [requests[i]] == old(taken + queued) + requests[..i + 1];
        Submit(requests[i], true);
      }
      assert taken + queued == old(taken + queued) + requests;
    }
  }

  /** The longer stream up to one more entry of the chain is still joined. */
  lemma Prefix(q: seq<Sqe>, c: seq<Sqe>, i: nat)
    requires i < |c| && Joined(q + c)
    ensures Joined(q + c[..i + 1])
  {
    var r := q + c[..i + 1];
    assert forall j :: 0 <= j < |r| ==> r[j] == (q + c)[j];
  }

  // ---- Results ---------------------------------------------------------------

  /** One batch above the ring. `values` are the results in the completion queue, one per
      completion. `nodes` are the addresses of the batch's requests, `outputs` its result
      slots, `sets` how often its barrier was opened, and `reported` what the kernel
      posted for each address, recorded when it did. */
  datatype Batch = Batch(
    ring: Uring.Ring, values: seq<int>, nodes: seq<nat>, launched: nat, outputs: seq<Option<int>>,
    reported: map<nat, int>, pending: nat, sets: nat)

  /** A step of the ring that posts a completion posts a result with it. */
  datatype Event =
    | Launch(drain: bool)
    | Native(step: Uring.Event, res: int)
    | Complete

  function Prepared(ring: Uring.Ring, values: seq<int>, nodes: seq<nat>): Batch
  {
    Batch(ring, values, nodes, 0, seq(|nodes|, _ => None), map[], |nodes|, 0)
  }

  predicate Posts(step: Uring.Event)
  {
    step.PostMain? || step.PostCancel? || step.PostWake?
  }

  /** Batch operations complete once. Anything else may use the ring meanwhile, and any
      entry may be canceled. */
  predicate Enabled(s: Batch, e: Event)
  {
    match e
    case Launch(_) => s.launched < |s.nodes| && s.nodes[s.launched] !in s.ring.io
    case Native(step, _) =>
      && Uring.Enabled(s.ring, step) && !step.Handle? && (step.Submit? ==> step.id !in s.nodes)
      && (step.PostMain? && step.more ==> step.id !in s.nodes)
    case Complete => Uring.Enabled(s.ring, Uring.Handle) && s.values != []
  }

  function Step(s: Batch, e: Event): Batch
    requires Enabled(s, e)
  {
    match e
    case Launch(drain) =>
      s.(ring := Uring.Step(s.ring, Uring.Submit(s.nodes[s.launched], drain)), launched := s.launched + 1)
    case Native(step, res) =>
      s.(ring := Uring.Step(s.ring, step),
         values := if Posts(step) then s.values + [res] else s.values,
         reported := if step.PostMain? && step.id in s.nodes then s.reported[step.id := res] else s.reported)
    case Complete => Completed(s)
  }

  /** A completion of one of our entries stores its result; a retirement counts down,
      and the last one opens the barrier. */
  function Completed(s: Batch): Batch
    requires Uring.Enabled(s.ring, Uring.Handle) && s.values != []
  {
    var c, ring, values := s.ring.cq[0], Uring.Step(s.ring, Uring.Handle), s.values[1..];
    if c.Wake? || c.id !in s.nodes then s.(ring := ring, values := values)
    else
      var r := if c.Main? then Stored(s, c.id, s.values[0]) else s;
      if c.id in ring.io then r.(ring := ring, values := values)
      else r.(ring := ring, values := values, pending := Less(r.pending), sets := if r.pending == 1 then r.sets + 1 else r.sets)
  }

  function Less(n: nat): nat
  {
    if n == 0 then 0 else n - 1
  }

  function Stored(s: Batch, id: nat, res: int): Batch
    requires id in s.nodes
  {
    var i := Place(s.nodes, id);
    s.(outputs := if i < |s.outputs| then s.outputs[i := Some(res)] else s.outputs)
  }

  // ---- The invariant ---------------------------------------------------------

  /** Entries not yet queued, or still listed by the ring. */
  ghost function Open(s: Batch): set<nat>
  {
    set i: nat | i < |s.nodes| && (i >= s.launched || s.nodes[i] in s.ring.io)
  }

  /** The completion of an entry has been handled. */
  ghost predicate Answered(s: Batch, i: nat)
    requires i < |s.nodes|
  {
    i < s.launched && (s.nodes[i] in s.ring.io ==> s.ring.io[s.nodes[i]].done)
  }

  /** An answered entry holds what the kernel had reported for its own address; the kernel
      reports once. */
  ghost predicate EntryOk(s: Batch, i: nat)
    requires i < |s.nodes| && |s.outputs| == |s.nodes|
  {
    var id := s.nodes[i];
    && (Answered(s, i) ==> id in s.reported && s.outputs[i] == Some(s.reported[id]))
    && (!Answered(s, i) ==> s.outputs[i].None?)
    && (i >= s.launched ==> id !in s.ring.io && id !in s.reported)
    && (id in s.reported ==> id !in s.ring.main)
  }

  /** The result beside a queued completion of ours is the one reported, and final. */
  ghost predicate SingleShot(s: Batch)
  {
    && |s.values| == |s.ring.cq|
    && forall k :: 0 <= k < |s.ring.cq| && s.ring.cq[k].Main? && s.ring.cq[k].id in s.nodes ==>
         && !s.ring.cq[k].more
         && s.ring.cq[k].id in s.reported && s.values[k] == s.reported[s.ring.cq[k].id]
  }

  ghost predicate Shape(s: Batch)
  {
    && Distinct(s.nodes) && |s.outputs| == |s.nodes| && s.launched <= |s.nodes| && SingleShot(s)
    && (forall i :: 0 <= i < |s.nodes| ==> EntryOk(s, i))
  }

  ghost predicate Counted(s: Batch)
  {
    s.pending == |Open(s)| && s.sets == if s.nodes != [] && s.pending == 0 then 1 else 0
  }

  ghost predicate Inv(s: Batch)
  {
    Uring.Inv(s.ring) && Shape(s) && Counted(s)
  }

  ghost function Indices(n: nat): set<nat>
  {
    if n == 0 then {} else Indices(n - 1) + {n - 1}
  }

  lemma {:induction false} IndicesSize(n: nat)
    ensures |Indices(n)| == n && forall i: nat :: i in Indices(n) <==> i < n
  {
    if n > 0 { IndicesSize(n - 1); }
  }

  lemma PreparedInv(ring: Uring.Ring, values: seq<int>, nodes: seq<nat>)
    requires Uring.Inv(ring) && |values| == |ring.cq| && Distinct(nodes) && forall id :: id in nodes ==> id !in ring.io
    ensures Inv(Prepared(ring, values, nodes))
  {
    var s := Prepared(ring, values, nodes);
    IndicesSize(|nodes|);
    assert Open(s) == Indices(|nodes|);
    forall k | 0 <= k < |ring.cq|
      ensures !(ring.cq[k].Main? && ring.cq[k].id in nodes)
    {
      if ring.cq[k].Main? { assert Uring.Names(ring.cq[k], ring.cq[k].id); }
    }
  }

  lemma LaunchInv(s: Batch, drain: bool)
    requires Inv(s) && Enabled(s, Launch(drain))
    ensures Inv(Step(s, Launch(drain)))
  {
    hide Uring.Inv, Uring.Step;
    var r := Step(s, Launch(drain));
    Uring.SubmitInv(s.ring, s.nodes[s.launched], drain);
    SubmitFlags(s.ring, s.nodes[s.launched], drain);
    forall i | 0 <= i < |r.nodes| ensures EntryOk(r, i) { assert EntryOk(s, i); }
    assert Open(r) == Open(s);
  }

  lemma SubmitFlags(ring: Uring.Ring, id: nat, drain: bool)
    requires Uring.Enabled(ring, Uring.Submit(id, drain))
    ensures var r := Uring.Step(ring, Uring.Submit(id, drain));
            && r.cq == ring.cq && r.main == ring.main + {id}
            && (forall d :: d in r.io <==> d in ring.io || d == id)
            && (forall d :: d in ring.io ==> r.io[d].done == ring.io[d].done) && !r.io[id].done
  {
  }

  /** The kernel holds only requests that are listed. */
  lemma MainIsListed(ring: Uring.Ring, id: nat)
    requires Uring.Inv(ring) && id in ring.main
    ensures id in ring.io
  {
    assert Uring.Referenced(ring, id);
  }

  lemma NativeInv(s: Batch, step: Uring.Event, res: int)
    requires Inv(s) && Enabled(s, Native(step, res))
    ensures Inv(Step(s, Native(step, res)))
  {
    hide Uring.Inv, Uring.Step;
    var r := Step(s, Native(step, res));
    Uring.StepInv(s.ring, step);
    if step.PostMain? { MainIsListed(s.ring, step.id); }
    NativeFlags(s, step, res);
    forall i | 0 <= i < |r.nodes| ensures EntryOk(r, i) { assert EntryOk(s, i); }
    assert Open(r) == Open(s);
  }

  /** Nothing but a handled completion retires a request or marks it done. */
  lemma NativeFlags(s: Batch, step: Uring.Event, res: int)
    requires Shape(s) && Enabled(s, Native(step, res)) && (step.PostMain? ==> step.id in s.ring.io)
    ensures SingleShot(Step(s, Native(step, res)))
    ensures var r := Uring.Step(s.ring, step);
            forall id :: id in s.nodes ==>
              && (id in r.io <==> id in s.ring.io) && (id in r.io ==> r.io[id].done == s.ring.io[id].done)
              && (id in r.main <==> id in s.ring.main && !(step.PostMain? && step.id == id))
  {
    if step.PostMain? && step.id in s.nodes {
      assert EntryOk(s, Place(s.nodes, step.id));
    }
  }

  /** What handling a completion does to the flags of any request. */
  lemma HandledFlags(ring: Uring.Ring, id: nat)
    requires Uring.Enabled(ring, Uring.Handle)
    ensures var r, c := Uring.Step(ring, Uring.Handle), ring.cq[0];
            if c.Wake? || c.id != id || id !in ring.io then (id in r.io <==> id in ring.io) && (id in r.io ==> r.io[id] == ring.io[id])
            else
              var done := if c.Main? then !c.more else ring.io[id].done;
              (id in r.io ==> r.io[id].done == done) && (id !in r.io ==> done)
  {
  }

  lemma CompleteInv(s: Batch)
    requires Inv(s) && Enabled(s, Complete)
    ensures Inv(Step(s, Complete))
  {
    hide Uring.Inv, Uring.Step, Uring.Handled;
    Uring.StepInv(s.ring, Uring.Handle);
    CompleteShape(s);
    CompleteCounts(s);
  }

  lemma CompleteShape(s: Batch)
    requires Uring.Inv(s.ring) && Shape(s) && Enabled(s, Complete)
    ensures Shape(Completed(s))
  {
    hide Uring.Inv, Uring.Step;
    var r := Completed(s);
    HeadEntry(s);
    RingTail(s.ring);
    forall i | 0 <= i < |r.nodes| ensures EntryOk(r, i) {
      assert EntryOk(s, i);
      HandledFlags(s.ring, s.nodes[i]);
    }
  }

  lemma RingTail(ring: Uring.Ring)
    requires Uring.Enabled(ring, Uring.Handle)
    ensures Uring.Step(ring, Uring.Handle).cq == ring.cq[1..] && Uring.Step(ring, Uring.Handle).main == ring.main
  {
  }

  /** A completion of one of our entries finds it queued and listed. */
  lemma HeadEntry(s: Batch)
    requires Uring.Inv(s.ring) && Shape(s) && s.ring.cq != []
    ensures var c := s.ring.cq[0]; !c.Wake? && c.id in s.nodes ==>
              c.id in s.ring.io && Place(s.nodes, c.id) < s.launched && (c.Main? ==> !s.ring.io[c.id].done && !c.more)
  {
    var c := s.ring.cq[0];
    if !c.Wake? && c.id in s.nodes {
      Uring.HandledIsListed(s.ring);
      assert EntryOk(s, Place(s.nodes, c.id));
      assert Uring.MainOk(s.ring, c.id);
      assert Uring.IsMain(c, c.id) <==> c.Main?;
    }
  }

  lemma OpenSame(s: Batch, r: Batch)
    requires r.nodes == s.nodes && r.launched == s.launched
    requires forall id :: id in s.nodes ==> (id in r.ring.io <==> id in s.ring.io)
    ensures Open(r) == Open(s)
  {
  }

  lemma OpenShrinks(s: Batch, r: Batch, k: nat)
    requires Distinct(s.nodes) && r.nodes == s.nodes && r.launched == s.launched && k < s.launched <= |s.nodes|
    requires s.nodes[k] in s.ring.io && s.nodes[k] !in r.ring.io
    requires forall id :: id in s.nodes && id != s.nodes[k] ==> (id in r.ring.io <==> id in s.ring.io)
    ensures k in Open(s) && Open(r) == Open(s) - {k}
  {
  }

  lemma CompleteCounts(s: Batch)
    requires Uring.Inv(s.ring) && Shape(s) && Counted(s) && Enabled(s, Complete)
    ensures Counted(Completed(s))
  {
    hide Uring.Inv, Uring.Step, Open, EntryOk, SingleShot;
    var r, c := Completed(s), s.ring.cq[0];
    HeadEntry(s);
    forall id | id in s.nodes && (c.Wake? || id != c.id)
      ensures id in r.ring.io <==> id in s.ring.io
    {
      HandledFlags(s.ring, id);
    }
    if !c.Wake? && c.id in s.nodes && c.id !in r.ring.io {
      OpenShrinks(s, r, Place(s.nodes, c.id));
    } else {
      OpenSame(s, r);
    }
  }

  lemma StepInv(s: Batch, e: Event)
    requires Inv(s) && Enabled(s, e)
    ensures Inv(Step(s, e))
  {
    match e
    case Launch(drain) => LaunchInv(s, drain);
    case Native(step, res) => NativeInv(s, step, res);
    case Complete => CompleteInv(s);
  }

  // ---- Runs ------------------------------------------------------------------

  ghost predicate Legal(s: Batch, trace: seq<Event>)
    decreases |trace|, 0
  {
    trace == [] || (Legal(s, trace[..|trace| - 1]) && Enabled(Run(s, trace[..|trace| - 1]), trace[|trace| - 1]))
  }

  ghost function Run(s: Batch, trace: seq<Event>): Batch
    requires Legal(s, trace)
    decreases |trace|, 1
  {
    if trace == [] then s else Step(Run(s, trace[..|trace| - 1]), trace[|trace| - 1])
  }

  lemma {:induction false} RunInv(s: Batch, trace: seq<Event>)
    requires Inv(s) && Legal(s, trace)
    ensures Inv(Run(s, trace)) && Run(s, trace).nodes == s.nodes
  {
    if trace != [] {
      RunInv(s, trace[..|trace| - 1]);
      StepInv(Run(s, trace[..|trace| - 1]), trace[|trace| - 1]);
    }
  }

  /** Every entry has been queued and retired. */
  ghost predicate AllRetired(s: Batch)
  {
    s.launched == |s.nodes| && forall i :: 0 <= i < |s.nodes| ==> s.nodes[i] !in s.ring.io
  }

  /** Each result is what the kernel reported for that entry, and no completion can reach
      a request any more. */
  ghost predicate AllReported(s: Batch)
  {
    && |s.outputs| == |s.nodes|
    && forall i :: 0 <= i < |s.nodes| ==>
         && s.nodes[i] in s.reported && s.outputs[i] == Some(s.reported[s.nodes[i]])
         && !Uring.Referenced(s.ring, s.nodes[i])
  }

  /** The barrier opens once, and exactly when every entry has been queued and retired;
      then every result is in its own slot. Other requests and cancellations may
      interleave freely. */
  lemma BarrierIsLast(ring: Uring.Ring, values: seq<int>, nodes: seq<nat>, trace: seq<Event>)
    requires Uring.Inv(ring) && |values| == |ring.cq|
    requires Distinct(nodes) && nodes != [] && forall id :: id in nodes ==> id !in ring.io
    requires Legal(Prepared(ring, values, nodes), trace)
    ensures var s := Run(Prepared(ring, values, nodes), trace);
            s.sets <= 1 && (s.sets == 1 <==> AllRetired(s)) && (s.sets == 1 ==> AllReported(s))
  {
    hide Uring.Inv, Run, Legal, Shape, Counted;
    PreparedInv(ring, values, nodes);
    RunInv(Prepared(ring, values, nodes), trace);
    Barrier(Run(Prepared(ring, values, nodes), trace));
  }

  ghost predicate ReportedBy(trace: seq<Event>, id: nat, res: int)
  {
    exists k :: 0 <= k < |trace| && trace[k] == Native(Uring.PostMain(id, false), res)
  }

  /** When the barrier has opened, result i is the one the kernel posted for entry i at
      some earlier point of the run. */
  lemma ResultsAreTheKernels(ring: Uring.Ring, values: seq<int>, nodes: seq<nat>, trace: seq<Event>, i: nat)
    requires Uring.Inv(ring) && |values| == |ring.cq| && Distinct(nodes) && (forall id :: id in nodes ==> id !in ring.io)
    requires Legal(Prepared(ring, values, nodes), trace) && Run(Prepared(ring, values, nodes), trace).sets == 1
    requires i < |nodes|
    ensures var s := Run(Prepared(ring, values, nodes), trace);
            i < |s.outputs| && s.outputs[i].Some? && ReportedBy(trace, nodes[i], s.outputs[i].value)
  {
    hide Uring.Inv, Run, Legal, Shape, Counted, ReportedBy;
    PreparedInv(ring, values, nodes);
    RunInv(Prepared(ring, values, nodes), trace);
    Barrier(Run(Prepared(ring, values, nodes), trace));
    Reports(Prepared(ring, values, nodes), trace, nodes[i]);
  }

  lemma {:induction false} Reports(s: Batch, trace: seq<Event>, id: nat)
    requires Legal(s, trace) && s.reported == map[]
    ensures id in Run(s, trace).reported ==> ReportedBy(trace, id, Run(s, trace).reported[id])
  {
    if trace != [] {
      var init, e := trace[..|trace| - 1], trace[|trace| - 1];
      Reports(s, init, id);
      var p, r := Run(s, init), Run(s, trace);
      if id in r.reported {
        if id in p.reported && r.reported[id] == p.reported[id] {
          var k :| 0 <= k < |init| && init[k] == Native(Uring.PostMain(id, false), p.reported[id]);
          assert trace[k] == init[k];
        } else {
          assert trace[|trace| - 1] == Native(Uring.PostMain(id, false), r.reported[id]);
        }
      }
    }
  }

  lemma Barrier(s: Batch)
    requires Inv(s) && s.nodes != []
    ensures s.sets <= 1 && (s.sets == 1 <==> AllRetired(s)) && (s.sets == 1 ==> AllReported(s))
  {
    hide Uring.Inv;
    OpenIsEmpty(s);
    if AllRetired(s) {
      assert Open(s) == {};
      Reported(s);
    }
  }

  lemma OpenIsEmpty(s: Batch)
    requires s.launched <= |s.nodes|
    ensures |Open(s)| == 0 <==> AllRetired(s)
  {
    if |Open(s)| == 0 {
      forall i: nat | i < |s.nodes|
        ensures i < s.launched && s.nodes[i] !in s.ring.io
      {
        assert i !in Open(s);
      }
      var next := if s.launched < |s.nodes| then s.launched else 0;
      assert next !in Open(s);
    } else {
      var i :| i in Open(s);
    }
  }

  lemma Reported(s: Batch)
    requires Uring.Inv(s.ring) && Shape(s) && AllRetired(s)
    ensures AllReported(s)
  {
    hide Uring.Inv, Uring.Referenced;
    forall i | 0 <= i < |s.nodes|
      ensures s.nodes[i] in s.reported && s.outputs[i] == Some(s.reported[s.nodes[i]])
      ensures !Uring.Referenced(s.ring, s.nodes[i])
    {
      assert EntryOk(s, i);
      Uring.ListedIffReferenced(s.ring, s.nodes[i]);
    }
  }

  /** A result, once stored, is never overwritten. */
  lemma ResultIsFinal(s: Batch, e: Event, i: nat)
    requires Inv(s) && Enabled(s, e) && i < |s.nodes| && s.outputs[i].Some?
    ensures |Step(s, e).outputs| == |s.outputs| && Step(s, e).outputs[i] == s.outputs[i]
  {
    hide Uring.Inv, Uring.Step;
    assert EntryOk(s, i);
    if e.Complete? { HeadEntry(s); }
  }
}
