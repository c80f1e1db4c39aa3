/** What the two queues with parked operations have in common: the node a suspended
    send or receive embeds in its frame, and the coupling of linked nodes and queued
    completions with the abstract queue. */
module Parking {
  import opened Options
  import opened Sequences
  import opened IntrusiveList
  import opened BoundedQueue

  /** The state of a send or receive node. `value` is the outgoing payload or the
      receive slot; `token` says whether its stop token has been asked to stop, and
      `canceled` is the mark its stop callback sets once the node is parked. */
  datatype Wait<T> = Wait(
    id: Op, sending: bool, value: Option<T>, token: bool,
    active: bool, canceled: bool, error: Option<Fault>)

  /** What the resumed coroutine sees is how the operation ended. */
  ghost predicate Observes<T>(item: Wait<T>, o: Outcome<T>)
  {
    match o
    case Pending => false
    case Sent => item.sending && item.error.None?
    case Got(v, _) => !item.sending && item.error.None? && item.value == Some(v)
    case Drained => !item.sending && item.error.None? && item.value.None?
    case Nothing => false
    case Failed(f) => item.error == Some(f)
  }

  /** A linked node stands for the abstract waiter at its position. */
  ghost predicate Matches<T>(item: Wait<T>, w: Waiter<T>, fired: set<Op>)
  {
    && item.id == w.id && item.active == w.active && item.sending == w.payload.Some?
    && (item.sending ==> item.value == w.payload)
    && (item.active ==>
          && (item.canceled <==> item.id in fired)
          && item.error.None? && (!item.sending ==> item.value.None?))
  }

  ghost predicate Holds<T>(values: seq<T>, buf: seq<Item<T>>)
  {
    |values| == |buf| && forall i :: 0 <= i < |buf| ==> values[i] == buf[i].value
  }

  /** The abstract state is the one this legal run reaches. */
  ghost predicate Traced<T>(trace: seq<Event<T>>, s: State<T>)
  {
    Legal(s.cap, trace) && s == Run(s.cap, trace)
  }

  lemma TraceStep<T>(trace: seq<Event<T>>, s: State<T>, e: Event<T>)
    requires Traced(trace, s) && Enabled(s, e)
    ensures Traced(trace + [e], Step(s, e)) && Step(s, e).cap == s.cap && Extends(s, Step(s, e))
  {
    hide Legal, Run, Step, Enabled, Extends, Inv;
    RunSnoc(s.cap, trace, e);
    RunInv(s.cap, trace);
    EndIsFinal(s, e);
    CapStays(s, e);
  }

  lemma CapStays<T>(s: State<T>, e: Event<T>)
    requires Enabled(s, e)
    ensures Step(s, e).cap == s.cap
  {
  }

  lemma OtherIds<T>(trace: seq<Event<T>>, s: State<T>, k: nat)
    requires Traced(trace, s) && k < |s.waiters|
    ensures forall i :: 0 <= i < |s.waiters| && i != k ==> s.waiters[i].id != s.waiters[k].id
  {
    RunInv(s.cap, trace);
  }

  /** Only the environment acted between two points of a run. */
  ghost predicate Idle<T>(a: seq<Event<T>>, b: seq<Event<T>>)
  {
    a <= b && forall i :: |a| <= i < |b| ==> b[i].Fire? || b[i].Stop?
  }

  /** Only environment steps and prunings separate two points of a run. */
  ghost predicate Quiet<T>(a: seq<Event<T>>, b: seq<Event<T>>)
  {
    a <= b && forall i :: |a| <= i < |b| ==> b[i].Fire? || b[i].Stop? || b[i].Drop?
  }

  /** A call contributed exactly this event, after what the environment did meanwhile. */
  ghost predicate Logged<T>(a: seq<Event<T>>, b: seq<Event<T>>, e: Event<T>)
  {
    b != [] && b[|b| - 1] == e && Quiet(a, b[..|b| - 1])
  }

  /** What the heap holds, as values: the linked nodes and the queued continuations. */
  datatype Shot<T> = Shot(nodes: seq<Wait<T>>, done: seq<Wait<T>>)

  ghost function Payloads<T>(links: seq<Link<Wait<T>>>): seq<Wait<T>>
    reads links`item
  {
    if links == [] then [] else [links[0].item] + Payloads(links[1..])
  }

  lemma {:induction false} PayloadsAt<T>(links: seq<Link<Wait<T>>>)
    ensures |Payloads(links)| == |links| && forall i :: 0 <= i < |links| ==> Payloads(links)[i] == links[i].item
  {
    if links != [] { PayloadsAt(links[1..]); }
  }

  lemma {:induction false} PayloadsSnoc<T>(links: seq<Link<Wait<T>>>, n: Link<Wait<T>>)
    ensures Payloads(links + [n]) == Payloads(links) + [n.item]
  {
    if links != [] {
      PayloadsSnoc(links[1..], n);
      assert (links + [n])[1..] == links[1..] + [n];
    }
  }

  /** Linked nodes are the abstract waiters, and everything completed sees how it
      ended. */
  ghost predicate Couples<T>(v: Shot<T>, s: State<T>)
  {
    && |v.nodes| == |s.waiters|
    && (forall i :: 0 <= i < |v.nodes| ==> Matches(v.nodes[i], s.waiters[i], s.fired))
    && (forall i :: 0 <= i < |v.done| ==>
          v.done[i].id in s.outcome && Observes(v.done[i], s.outcome[v.done[i].id]))
  }

  lemma SameNode<T>(v: Shot<T>, s: State<T>, k: nat)
    requires Couples(v, s) && k < |v.nodes|
    ensures |v.nodes| == |s.waiters| && v.nodes[k].id == s.waiters[k].id && v.nodes[k].active == s.waiters[k].active
  {
  }

  lemma FireCouples<T>(v: Shot<T>, s: State<T>, k: nat)
    requires Couples(v, s) && k < |v.nodes|
    requires forall i :: 0 <= i < |s.waiters| && i != k ==> s.waiters[i].id != s.waiters[k].id
    ensures Couples(v.(nodes := v.nodes[k := v.nodes[k].(canceled := true)]), s.(fired := s.fired + {v.nodes[k].id}))
  {
  }

  /** A token that belongs to no linked node changes nothing for those that are. */
  lemma FireOther<T>(v: Shot<T>, s: State<T>, id: Op)
    requires Couples(v, s) && forall i :: 0 <= i < |s.waiters| ==> s.waiters[i].id != id
    ensures Couples(v, s.(fired := s.fired + {id}))
  {
  }

  /** The waiter at k leaves and nothing else about the waiters changes. */
  ghost predicate Leaves<T>(s: State<T>, r: State<T>, k: nat)
  {
    && k < |s.waiters| && r.waiters == s.waiters[..k] + s.waiters[k + 1..]
    && r.fired == s.fired && r.stopped == s.stopped && r.closed == s.closed
  }

  lemma LeaveCouples<T>(v: Shot<T>, s: State<T>, r: State<T>, k: nat)
    requires Couples(v, s) && Leaves(s, r, k) && Extends(s, r)
    ensures k < |v.nodes| && Couples(v.(nodes := Remove(v.nodes, k)), r)
  {
  }

  lemma DoneCouples<T>(v: Shot<T>, s: State<T>, item: Wait<T>)
    requires Couples(v, s) && item.id in s.outcome && Observes(item, s.outcome[item.id])
    ensures Couples(v.(done := v.done + [item]), s)
  {
  }

  /** The head waiter leaves and its continuation is queued. */
  lemma CompleteCouples<T>(v: Shot<T>, s: State<T>, r: State<T>, item: Wait<T>)
    requires Couples(v, s) && Leaves(s, r, 0) && Extends(s, r)
    requires item.id in r.outcome && Observes(item, r.outcome[item.id])
    ensures v.nodes != [] && Couples(Shot(Remove(v.nodes, 0), v.done + [item]), r)
  {
    LeaveCouples(v, s, r, 0);
    DoneCouples(v.(nodes := Remove(v.nodes, 0)), r, item);
  }

  lemma JoinCouples<T>(v: Shot<T>, s: State<T>, r: State<T>, item: Wait<T>)
    requires Couples(v, s) && Extends(s, r) && r.fired == s.fired
    requires r.waiters == s.waiters + [Waiter(item.id, true, if item.sending then item.value else None)]
    requires item.active && item.error.None? && item.sending == item.value.Some? && !item.canceled && item.id !in s.fired
    ensures Couples(v.(nodes := v.nodes + [item]), r)
  {
  }

  /** Only the environment's flags differ, and no token of an operation yet to come. */
  ghost predicate Flagged<T>(s: State<T>, r: State<T>)
  {
    && r == s.(fired := r.fired, stopped := r.stopped)
    && s.fired <= r.fired <= s.fired + s.outcome.Keys && s.stopped <= r.stopped
  }

  /** Some waiters at the front are gone, flags may have been raised; no value moved. */
  ghost predicate Trimmed<T>(s: State<T>, r: State<T>)
  {
    && r == s.(fired := r.fired, stopped := r.stopped, waiters := r.waiters, outcome := r.outcome)
    && s.fired <= r.fired <= s.fired + s.outcome.Keys && s.stopped <= r.stopped
    && r.outcome.Keys == s.outcome.Keys
    && |r.waiters| <= |s.waiters| && r.waiters == s.waiters[|s.waiters| - |r.waiters|..]
  }

  /** A call has recorded its own operation and no other; the tokens that fired meanwhile
      belong to operations that have been called. */
  ghost predicate Called<T>(s: State<T>, r: State<T>, id: Op)
  {
    && r.outcome.Keys == s.outcome.Keys + {id}
    && s.fired <= r.fired <= s.fired + r.outcome.Keys && s.stopped <= r.stopped
  }

  lemma TrimCalled<T>(s: State<T>, p: State<T>, r: State<T>, id: Op)
    requires Trimmed(s, p) && Called(p, r, id)
    ensures Called(s, r, id)
  {
  }

  lemma FlagCalled<T>(s: State<T>, p: State<T>, r: State<T>, id: Op)
    requires (p == s || Flagged(s, p)) && Called(p, r, id)
    ensures Called(s, r, id)
  {
  }

  /** Before an operation is called, only its own token and loop concern it. */
  ghost predicate Waved<T>(s: State<T>, r: State<T>, id: Op)
  {
    && r == s.(fired := r.fired, stopped := r.stopped)
    && s.fired <= r.fired <= s.fired + {id} && s.stopped <= r.stopped
  }

  lemma WaveCalled<T>(s: State<T>, p: State<T>, r: State<T>, id: Op)
    requires Waved(s, p, id) && Called(p, r, id)
    ensures Called(s, r, id)
  {
  }

  lemma ParkCalled<T>(s: State<T>, id: Op, payload: Option<T>)
    ensures Called(s, BoundedQueue.Park(s, Waiter(id, true, payload)), id)
  {
  }

  lemma UnlinkStep<T>(s: State<T>, k: nat)
    requires !Closing(s) && k < |s.waiters| && !s.waiters[k].active
    ensures Enabled(s, Unlink(k))
    ensures var r := Step(s, Unlink(k));
      && Leaves(s, r, k) && r.outcome == s.outcome && r.fired == s.fired && r.stopped == s.stopped
      && r.closed == s.closed && r.buf == s.buf && r.cap == s.cap && !Closing(r)
  {
  }

  lemma ExpireStep<T>(trace: seq<Event<T>>, s: State<T>, k: nat)
    requires Traced(trace, s) && !Closing(s) && k < |s.waiters| && s.waiters[k].active && !Live(s, s.waiters[k])
    ensures Enabled(s, Expire(k))
    ensures var r := Step(s, Expire(k));
      && r.outcome.Keys == s.outcome.Keys && r.fired == s.fired && r.stopped == s.stopped
      && r.closed == s.closed && r.buf == s.buf && !Closing(r)
  {
    KnownWaiter(trace, s, k);
  }

  lemma Untouched<T>(a: seq<Event<T>>, s: State<T>)
    ensures Quiet(a, a) && Trimmed(s, s)
  {
  }

  lemma QuietTrim<T>(a: seq<Event<T>>, b: seq<Event<T>>, c: seq<Event<T>>, s: State<T>, p: State<T>, r: State<T>)
    requires Quiet(a, b) && Idle(b, c) && Trimmed(s, p) && Flagged(p, r)
    ensures Quiet(a, c) && Trimmed(s, r)
    ensures Closing(r) == Closing(p)
  {
  }

  lemma DropTrim<T>(a: seq<Event<T>>, b: seq<Event<T>>, s: State<T>, p: State<T>, r: State<T>)
    requires Quiet(a, b) && Trimmed(s, p) && Trimmed(p, r)
    ensures Quiet(a, b + [Drop]) && Trimmed(s, r)
    ensures Closing(r) ==> Closing(p)
  {
  }

  lemma TrimmedKeeps<T>(s: State<T>, r: State<T>)
    requires Trimmed(s, r)
    ensures r.cap == s.cap && r.buf == s.buf && r.out == s.out && r.closed == s.closed && r.outcome.Keys == s.outcome.Keys
    ensures s.fired <= r.fired <= s.fired + s.outcome.Keys
  {
  }

  ghost predicate Suffix<A>(xs: seq<A>, ys: seq<A>)
  {
    |xs| <= |ys| && xs == ys[|ys| - |xs|..]
  }

  /** What dropping or evicting the head waiter does, and what the waiter then observes. */
  lemma RemoveStep<T>(trace: seq<Event<T>>, s: State<T>, e: Event<T>, error: Option<Fault>, item: Wait<T>)
    requires Traced(trace, s) && s.waiters != [] && Enabled(s, e) && Matches(item, s.waiters[0], s.fired)
    requires ((e.Drop? || e == Evict(true)) && error == Some(Canceled)) ||
      (e == Evict(false) && error == if s.waiters[0].payload.Some? then Some(BrokenPipe) else None)
    ensures var r := Step(s, e);
      && Leaves(s, r, 0) && r.buf == s.buf && Trimmed(s, r) && |r.waiters| == |s.waiters| - 1
      && r.closed == s.closed && r.stopped == s.stopped && item.id in r.outcome
      && (item.active ==> Observes(item.(active := false, error := error), r.outcome[item.id]))
  {
    KnownHead(trace, s);
    RemoveKeys(trace, s, e);
  }

  lemma LeavesFlags<T>(s: State<T>, r: State<T>, k: nat)
    requires Leaves(s, r, k)
    ensures r.closed == s.closed && r.stopped == s.stopped && r.fired == s.fired
  {
  }

  lemma RemoveKeys<T>(trace: seq<Event<T>>, s: State<T>, e: Event<T>)
    requires Traced(trace, s) && Enabled(s, e) && (e.Drop? || e.Evict?)
    ensures Step(s, e).outcome.Keys == s.outcome.Keys
  {
    RunInv(s.cap, trace);
  }

  lemma Log<T>(a: seq<Event<T>>, b: seq<Event<T>>, e: Event<T>)
    requires Quiet(a, b)
    ensures Logged(a, b + [e], e)
  {
    assert (b + [e])[..|b|] == b;
  }

  /** A settled queue in which an operation of this direction finds no match. */
  ghost predicate Blocked<T>(s: State<T>, sending: bool)
  {
    && !Closing(s) && (s.waiters == [] || (Live(s, s.waiters[0]) && s.waiters[0].payload.Some? == sending))
    && (if sending then |s.buf| >= s.cap else s.buf == [])
  }

  lemma SameCouples<T>(v: Shot<T>, s: State<T>, r: State<T>)
    requires Couples(v, s) && Extends(s, r) && r.waiters == s.waiters && r.fired == s.fired
    ensures Couples(v, r)
  {
  }

  lemma StoreHolds<T>(values: seq<T>, buf: seq<Item<T>>, item: Item<T>)
    requires Holds(values, buf)
    ensures Holds(values + [item.value], buf + [item])
  {
  }

  /** Taking the oldest value and letting the head sender in behind it. */
  lemma RefillHolds<T>(values: seq<T>, s: State<T>, id: Op)
    requires Holds(values, s.buf) && s.waiters != [] && s.waiters[0].payload.Some?
    ensures var all := values + [s.waiters[0].payload.value];
      Holds(all[1..], Refill(s, id).buf) && Refill(s, id).outcome[id] == Got(all[0], |s.out|)
  {
  }

  lemma FetchHolds<T>(values: seq<T>, s: State<T>, id: Op)
    requires Holds(values, s.buf) && s.buf != []
    ensures values != [] && Holds(values[1..], Fetch(s, id).buf) && Fetch(s, id).outcome[id] == Got(values[0], |s.out|)
  {
  }

  lemma HoldsLength<T>(values: seq<T>, buf: seq<Item<T>>)
    requires Holds(values, buf)
    ensures |values| == |buf|
  {
  }

  lemma FacesReceiver<T>(item: Wait<T>, s: State<T>)
    requires s.waiters != [] && Matches(item, s.waiters[0], s.fired) && !item.sending
    ensures s.waiters[0].payload.None?
  {
  }

  lemma FacesSender<T>(item: Wait<T>, s: State<T>)
    requires s.waiters != [] && Matches(item, s.waiters[0], s.fired) && item.sending
    ensures s.waiters[0].payload.Some? && item.value == s.waiters[0].payload
  {
  }

  lemma KnownHead<T>(trace: seq<Event<T>>, s: State<T>)
    requires Traced(trace, s) && s.waiters != []
    ensures s.waiters[0].id in s.outcome
  {
    RunInv(s.cap, trace);
  }

  lemma KnownWaiter<T>(trace: seq<Event<T>>, s: State<T>, k: nat)
    requires Traced(trace, s) && k < |s.waiters|
    ensures s.waiters[k].id in s.outcome
  {
    RunInv(s.cap, trace);
  }

  lemma UnknownWaiter<T>(trace: seq<Event<T>>, s: State<T>, id: Op)
    requires Traced(trace, s) && id !in s.outcome
    ensures forall i :: 0 <= i < |s.waiters| ==> s.waiters[i].id != id
  {
    RunInv(s.cap, trace);
  }

  /** An operation that has not been called yet is on no list. */
  lemma UnknownApart<T>(links: seq<Link<Wait<T>>>, done: seq<Link<Wait<T>>>, s: State<T>, n: Link<Wait<T>>)
    requires Couples(Shot(Payloads(links), Payloads(done)), s) && n.item.id !in s.outcome
    requires forall i :: 0 <= i < |s.waiters| ==> s.waiters[i].id != n.item.id
    ensures n !in links && n !in done
  {
    PayloadsAt(links);
    PayloadsAt(done);
  }

  lemma QuietTrans<T>(a: seq<Event<T>>, b: seq<Event<T>>, c: seq<Event<T>>)
    requires Quiet(a, b) && Quiet(b, c)
    ensures Quiet(a, c)
  {
  }

  lemma QuietSelf<T>(a: seq<Event<T>>)
    ensures Quiet(a, a)
  {
  }

  lemma FindNothing<T>(s: State<T>, id: Op)
    requires Blocked(s, false) && id !in s.outcome
    ensures Enabled(s, Recv(id, false)) && Step(s, Recv(id, false)) == Settle(s, id, None, Nothing)
  {
  }

  lemma GiveUp<T>(s: State<T>, id: Op, value: T)
    requires Blocked(s, true) && !s.closed && id !in s.outcome
    ensures Enabled(s, Send(id, value, false)) && Step(s, Send(id, value, false)) == Settle(s, id, Some(value), Failed(Full))
  {
  }

  lemma LogTrans<T>(a: seq<Event<T>>, b: seq<Event<T>>, c: seq<Event<T>>, e: Event<T>)
    requires Quiet(a, b) && Logged(b, c, e)
    ensures Logged(a, c, e)
  {
  }

  lemma SameMark<T>(v: Shot<T>, s: State<T>, k: nat)
    requires Couples(v, s) && k < |v.nodes| && v.nodes[k].active
    ensures |v.nodes| == |s.waiters| && s.waiters[k].active && v.nodes[k].id == s.waiters[k].id
    ensures v.nodes[k].canceled <==> v.nodes[k].id in s.fired
  {
  }

  lemma ExpireCouples<T>(v: Shot<T>, s: State<T>, k: nat)
    requires Couples(v, s) && Enabled(s, Expire(k)) && Extends(s, Step(s, Expire(k)))
    ensures k < |v.nodes|
    ensures var item := v.nodes[k].(active := false, error := Some(Canceled));
      Couples(Shot(v.nodes[k := item], v.done + [item]), Step(s, Expire(k)))
  {
  }

  /** From this point on the run only completes the waiters of a closed queue; flags
      matter only if they are read. */
  ghost predicate Evictions<T>(trace: seq<Event<T>>, from: nat, readsFlags: bool)
  {
    forall i :: from <= i < |trace| ==>
      trace[i] == Evict(false) || (readsFlags && (trace[i] == Evict(true) || trace[i].Fire? || trace[i].Stop?))
  }
}
