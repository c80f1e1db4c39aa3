/** The abstract bounded FIFO with parked operations that both the owner-thread
    channel and the cross-thread mailbox implement.

    One run is a sequence of events. Besides the operations themselves the events
    are what the environment may do between or inside them: a stop token fires, an
    owner loop stops, an owner loop expires a marked waiter (which stays linked until
    its frame is destroyed), and the destruction of such a frame. */
module BoundedQueue {
  import opened Options

  /** An operation, resumed on its owner loop. */
  datatype Op = Op(owner: nat, serial: nat)

  datatype Fault = Canceled | BrokenPipe | Full

  /** What an operation's caller observes. `Drained` is an awaited receive that yields
      no value and no error; `Nothing` is a try-receive that found no value. A value
      got also records its place in the order of all values handed out. */
  datatype Outcome<T> = Pending | Sent | Got(value: T, place: nat) | Drained | Nothing | Failed(fault: Fault)

  datatype Item<T> = Item(id: Op, value: T)
  datatype Handoff<T> = Handoff(item: Item<T>, to: Op)

  /** A linked operation; a sender carries its payload. An inactive one has been
      completed by its owner loop but not yet unlinked. */
  datatype Waiter<T> = Waiter(id: Op, active: bool, payload: Option<T>)

  datatype State<T> = State(
    cap: nat, closed: bool, buf: seq<Item<T>>, waiters: seq<Waiter<T>>,
    outcome: map<Op, Outcome<T>>, sends: seq<Item<T>>, out: seq<Handoff<T>>,
    fired: set<Op>, stopped: set<nat>)

  datatype Event<T> =
    | Send(id: Op, value: T, wait: bool)
    | Recv(id: Op, wait: bool)
    | Refuse(id: Op, payload: Option<T>)
    | Drop
    | Close
    | Evict(canceled: bool)
    | Fire(id: Op)
    | Stop(owner: nat)
    | Expire(k: nat)
    | Unlink(k: nat)

  function Init<T>(cap: nat): State<T>
  {
    State(cap, false, [], [], map[], [], [], {}, {})
  }

  predicate Live<T>(s: State<T>, w: Waiter<T>)
  {
    w.active && w.id !in s.fired && w.id.owner !in s.stopped
  }

  /** `close` has begun and still holds waiters to complete. */
  predicate Closing<T>(s: State<T>)
  {
    s.closed && s.waiters != []
  }

  /** An operation matches only after it has dropped every dead waiter at the head, and
      never in the middle of a close. */
  predicate Enabled<T>(s: State<T>, e: Event<T>)
  {
    match e
    case Send(id, _, _) => id !in s.outcome && !Closing(s) && (s.waiters == [] || Live(s, s.waiters[0]))
    case Recv(id, _) => id !in s.outcome && !Closing(s) && (s.waiters == [] || Live(s, s.waiters[0]))
    case Refuse(id, _) => id !in s.outcome && !Closing(s) && (id in s.fired || id.owner in s.stopped)
    case Drop => s.waiters != [] && !Closing(s) && !Live(s, s.waiters[0])
    case Close => true
    case Evict(canceled) => Closing(s) && (canceled ==> !Live(s, s.waiters[0]))
    case Fire(_) => true
    case Stop(_) => true
    case Expire(k) => !Closing(s) && k < |s.waiters| && s.waiters[k].active && !Live(s, s.waiters[k])
    case Unlink(k) => !Closing(s) && k < |s.waiters| && !s.waiters[k].active
  }

  function Step<T>(s: State<T>, e: Event<T>): State<T>
    requires Enabled(s, e)
  {
    match e
    case Send(id, value, wait) => SendStep(s, id, value, wait)
    case Recv(id, wait) => RecvStep(s, id, wait)
    case Refuse(id, payload) => Settle(s, id, payload, Failed(Canceled))
    case Drop => DropHead(s, Failed(Canceled))
    case Close => s.(closed := true)
    case Evict(canceled) => DropHead(s, EvictEnd(s.waiters[0], canceled))
    case Fire(id) => s.(fired := s.fired + {id})
    case Stop(owner) => s.(stopped := s.stopped + {owner})
    case Expire(k) =>
      var w := s.waiters[k];
      s.(waiters := s.waiters[k := w.(active := false)], outcome := s.outcome[w.id := Failed(Canceled)])
    case Unlink(k) => s.(waiters := s.waiters[..k] + s.waiters[k + 1..])
  }

  /** Remove the head waiter; if it was still pending it ends as stated. */
  function DropHead<T>(s: State<T>, end: Outcome<T>): State<T>
    requires s.waiters != []
  {
    s.(waiters := s.waiters[1..],
       outcome := if s.waiters[0].active then s.outcome[s.waiters[0].id := end] else s.outcome)
  }

  function SendStep<T>(s: State<T>, id: Op, value: T, wait: bool): State<T>
  {
    if s.closed then Settle(s, id, Some(value), Failed(BrokenPipe))
    else if s.waiters != [] && s.waiters[0].payload.None? then HandOver(s, Item(id, value))
    else if |s.buf| < s.cap then Store(s, Item(id, value))
    else if wait then Park(s, Waiter(id, true, Some(value)))
    else Settle(s, id, Some(value), Failed(Full))
  }

  function RecvStep<T>(s: State<T>, id: Op, wait: bool): State<T>
  {
    if s.waiters != [] && s.waiters[0].payload.Some? then Refill(s, id)
    else if s.buf != [] then Fetch(s, id)
    else if wait && !s.closed then Park(s, Waiter(id, true, None))
    else Settle(s, id, None, if wait then Drained else Nothing)
  }

  function Record<T>(sends: seq<Item<T>>, id: Op, payload: Option<T>): seq<Item<T>>
  {
    if payload.Some? then sends + [Item(id, payload.value)] else sends
  }

  /** An operation that ends at once without moving a value. */
  function Settle<T>(s: State<T>, id: Op, payload: Option<T>, end: Outcome<T>): State<T>
  {
    s.(sends := Record(s.sends, id, payload), outcome := s.outcome[id := end])
  }

  function Park<T>(s: State<T>, w: Waiter<T>): State<T>
  {
    s.(sends := Record(s.sends, w.id, w.payload), waiters := s.waiters + [w], outcome := s.outcome[w.id := Pending])
  }

  /** A send that goes straight to the head receiver. */
  function HandOver<T>(s: State<T>, item: Item<T>): State<T>
    requires s.waiters != []
  {
    var to := s.waiters[0].id;
    s.(sends := s.sends + [item], waiters := s.waiters[1..], out := s.out + [Handoff(item, to)],
       outcome := s.outcome[item.id := Sent][to := Got(item.value, |s.out|)])
  }

  function Store<T>(s: State<T>, item: Item<T>): State<T>
  {
    s.(sends := s.sends + [item], buf := s.buf + [item], outcome := s.outcome[item.id := Sent])
  }

  /** A receive that takes the oldest value; the head sender's value enters behind it. */
  function Refill<T>(s: State<T>, id: Op): State<T>
    requires s.waiters != [] && s.waiters[0].payload.Some?
  {
    var w := s.waiters[0];
    var all := s.buf + [Item(w.id, w.payload.value)];
    s.(waiters := s.waiters[1..], buf := all[1..], out := s.out + [Handoff(all[0], id)],
       outcome := s.outcome[w.id := Sent][id := Got(all[0].value, |s.out|)])
  }

  function Fetch<T>(s: State<T>, id: Op): State<T>
    requires s.buf != []
  {
    s.(buf := s.buf[1..], out := s.out + [Handoff(s.buf[0], id)], outcome := s.outcome[id := Got(s.buf[0].value, |s.out|)])
  }

  /** How `close` ends a pending waiter. */
  function EvictEnd<T>(w: Waiter<T>, canceled: bool): Outcome<T>
  {
    if canceled then Failed(Canceled) else if w.payload.Some? then Failed(BrokenPipe) else Drained
  }

  /** A run is legal when every event is enabled where it happens. */
  ghost predicate Legal<T>(cap: nat, trace: seq<Event<T>>)
    decreases |trace|, 0
  {
    trace == [] || (Legal(cap, trace[..|trace| - 1]) &&
                    Enabled(Run(cap, trace[..|trace| - 1]), trace[|trace| - 1]))
  }

  ghost function Run<T>(cap: nat, trace: seq<Event<T>>): State<T>
    requires Legal(cap, trace)
    decreases |trace|, 1
  {
    if trace == [] then Init(cap) else Step(Run(cap, trace[..|trace| - 1]), trace[|trace| - 1])
  }

  lemma RunSnoc<T>(cap: nat, trace: seq<Event<T>>, e: Event<T>)
    requires Legal(cap, trace) && Enabled(Run(cap, trace), e)
    ensures Legal(cap, trace + [e]) && Run(cap, trace + [e]) == Step(Run(cap, trace), e)
  {
    assert (trace + [e])[..|trace|] == trace;
  }

  // ---- What every reachable state satisfies ----------------------------------

  /** The sends that have not failed, in call order. */
  ghost function Kept<T>(sends: seq<Item<T>>, outcome: map<Op, Outcome<T>>): seq<Item<T>>
  {
    if sends == [] then []
    else
      var rest := Kept(sends[..|sends| - 1], outcome);
      var last := sends[|sends| - 1];
      if last.id in outcome && outcome[last.id].Failed? then rest else rest + [last]
  }

  /** The values of the pending linked senders, in list order. */
  ghost function Parked<T>(waiters: seq<Waiter<T>>): seq<Item<T>>
  {
    if waiters == [] then []
    else
      var w := waiters[0];
      (if w.active && w.payload.Some? then [Item(w.id, w.payload.value)] else []) + Parked(waiters[1..])
  }

  ghost function Items<T>(out: seq<Handoff<T>>): (r: seq<Item<T>>)
    ensures |r| == |out|
    ensures forall i :: 0 <= i < |out| ==> r[i] == out[i].item
  {
    seq(|out|, i requires 0 <= i < |out| => out[i].item)
  }

  /** Waiters face one way, and pin the buffer: senders to full, receivers to empty. */
  ghost predicate Pinned<T>(s: State<T>)
  {
    && |s.buf| <= s.cap
    && (forall i :: 0 <= i < |s.waiters| ==> if s.waiters[i].payload.Some? then |s.buf| == s.cap else s.buf == [])
    && (forall i, j :: 0 <= i < |s.waiters| && 0 <= j < |s.waiters| ==>
          s.waiters[i].payload.Some? == s.waiters[j].payload.Some?)
  }

  /** Operation identities: each is linked at most once, and pending exactly while
      linked and active. */
  ghost predicate Identified<T>(s: State<T>)
  {
    && (forall i, j :: 0 <= i < j < |s.waiters| ==> s.waiters[i].id != s.waiters[j].id)
    && (forall i :: 0 <= i < |s.waiters| ==>
          s.waiters[i].id in s.outcome && (s.waiters[i].active <==> s.outcome[s.waiters[i].id].Pending?))
    && (forall i, j :: 0 <= i < |s.waiters| && 0 <= j < |s.sends| && s.waiters[i].payload.None? ==>
          s.sends[j].id != s.waiters[i].id)
    && (forall j :: 0 <= j < |s.sends| ==>
          && s.sends[j].id in s.outcome
          && (s.outcome[s.sends[j].id].Sent? || s.outcome[s.sends[j].id].Pending? || s.outcome[s.sends[j].id].Failed?))
    && (forall i, j :: 0 <= i < j < |s.sends| ==> s.sends[i].id != s.sends[j].id)
  }

  ghost predicate PendingIsLinked<T>(s: State<T>)
  {
    forall id :: id in s.outcome && s.outcome[id].Pending? ==>
      exists i :: 0 <= i < |s.waiters| && s.waiters[i].id == id && s.waiters[i].active
  }

  /** Nothing is lost, duplicated or reordered. */
  ghost predicate Conserved<T>(s: State<T>)
  {
    Items(s.out) + s.buf + Parked(s.waiters) == Kept(s.sends, s.outcome)
  }

  /** A closed queue with nothing left to hand out: only receivers may still wait. */
  ghost predicate Over<T>(s: State<T>)
  {
    s.closed && s.buf == [] && forall i :: 0 <= i < |s.waiters| ==> s.waiters[i].payload.None?
  }

  /** A value that entered the buffer or reached a receiver belongs to a send that
      succeeded, and every receiver got exactly what was handed to it. */
  ghost predicate Receipts<T>(s: State<T>)
  {
    && (forall i :: 0 <= i < |s.buf| ==> s.buf[i].id in s.outcome && s.outcome[s.buf[i].id].Sent?)
    && (forall i :: 0 <= i < |s.out| ==>
          && s.out[i].item.id in s.outcome && s.outcome[s.out[i].item.id].Sent?
          && s.out[i].to in s.outcome && s.outcome[s.out[i].to] == Got(s.out[i].item.value, i))
    && (forall id :: id in s.outcome && s.outcome[id].Got? ==>
          s.outcome[id].place < |s.out| && s.out[s.outcome[id].place].to == id)
    && (forall id :: id in s.outcome && s.outcome[id].Drained? ==> Over(s))
  }

  ghost predicate Inv<T>(s: State<T>)
  {
    Pinned(s) && Identified(s) && PendingIsLinked(s) && Conserved(s) && Receipts(s)
  }

  // ---- Sequence facts --------------------------------------------------------

  ghost function Without<T>(xs: seq<Item<T>>, id: Op): seq<Item<T>>
  {
    if xs == [] then []
    else
      var rest := Without(xs[..|xs| - 1], id);
      if xs[|xs| - 1].id == id then rest else rest + [xs[|xs| - 1]]
  }

  lemma {:induction false} WithoutConcat<T>(xs: seq<Item<T>>, ys: seq<Item<T>>, id: Op)
    ensures Without(xs + ys, id) == Without(xs, id) + Without(ys, id)
  {
    if ys == [] {
      assert xs + ys == xs;
    } else {
      assert (xs + ys)[..|xs + ys| - 1] == xs + ys[..|ys| - 1];
      WithoutConcat(xs, ys[..|ys| - 1], id);
    }
  }

  lemma WithoutSnoc<T>(xs: seq<Item<T>>, x: Item<T>, id: Op)
    ensures Without(xs + [x], id) == if x.id == id then Without(xs, id) else Without(xs, id) + [x]
  {
    assert (xs + [x])[..|xs|] == xs;
  }

  lemma {:induction false} WithoutAbsent<T>(xs: seq<Item<T>>, id: Op)
    requires forall i :: 0 <= i < |xs| ==> xs[i].id != id
    ensures Without(xs, id) == xs
  {
    if xs != [] { WithoutAbsent(xs[..|xs| - 1], id); }
  }

  lemma {:induction false} KeptAgree<T>(sends: seq<Item<T>>, a: map<Op, Outcome<T>>, b: map<Op, Outcome<T>>)
    requires forall i :: 0 <= i < |sends| ==>
      (sends[i].id in a && a[sends[i].id].Failed?) == (sends[i].id in b && b[sends[i].id].Failed?)
    ensures Kept(sends, a) == Kept(sends, b)
  {
    if sends != [] { KeptAgree(sends[..|sends| - 1], a, b); }
  }

  lemma {:induction false} KeptFailed<T>(sends: seq<Item<T>>, o: map<Op, Outcome<T>>, id: Op, f: Fault)
    ensures Kept(sends, o[id := Failed(f)]) == Without(Kept(sends, o), id)
  {
    if sends != [] {
      var init, last := sends[..|sends| - 1], sends[|sends| - 1];
      KeptFailed(init, o, id, f);
      WithoutSnoc(Kept(init, o), last, id);
    }
  }

  lemma KeptSnoc<T>(sends: seq<Item<T>>, o: map<Op, Outcome<T>>, item: Item<T>)
    ensures Kept(sends + [item], o) ==
      if item.id in o && o[item.id].Failed? then Kept(sends, o) else Kept(sends, o) + [item]
  {
    assert (sends + [item])[..|sends|] == sends;
  }

  lemma {:induction false} ParkedConcat<T>(a: seq<Waiter<T>>, b: seq<Waiter<T>>)
    ensures Parked(a + b) == Parked(a) + Parked(b)
  {
    if a == [] {
      assert a + b == b;
    } else {
      assert (a + b)[1..] == a[1..] + b;
      ParkedConcat(a[1..], b);
    }
  }

  lemma {:induction false} ParkedReceivers<T>(ws: seq<Waiter<T>>)
    requires forall i :: 0 <= i < |ws| ==> ws[i].payload.None?
    ensures Parked(ws) == []
  {
    if ws != [] { ParkedReceivers(ws[1..]); }
  }

  lemma {:induction false} ParkedAbsent<T>(ws: seq<Waiter<T>>, id: Op)
    requires forall i :: 0 <= i < |ws| ==> ws[i].id != id
    ensures Without(Parked(ws), id) == Parked(ws)
  {
    if ws != [] {
      var w := ws[0];
      var head := if w.active && w.payload.Some? then [Item(w.id, w.payload.value)] else [];
      ParkedAbsent(ws[1..], id);
      WithoutConcat(head, Parked(ws[1..]), id);
      WithoutAbsent(head, id);
    }
  }

  // ---- Every event keeps the invariant ---------------------------------------

  /** A pending waiter that fails takes its value out of both sides of the balance. */
  lemma FailConserves<T>(s: State<T>, k: nat, f: Fault, waiters: seq<Waiter<T>>)
    requires Inv(s) && k < |s.waiters| && s.waiters[k].active
    requires Parked(waiters) == Without(Parked(s.waiters), s.waiters[k].id)
    ensures Items(s.out) + s.buf + Parked(waiters) == Kept(s.sends, s.outcome[s.waiters[k].id := Failed(f)])
  {
    var id := s.waiters[k].id;
    KeptFailed(s.sends, s.outcome, id, f);
    WithoutAbsent(Items(s.out) + s.buf, id);
    WithoutConcat(Items(s.out) + s.buf, Parked(s.waiters), id);
  }

  lemma ParkedTail<T>(ws: seq<Waiter<T>>)
    requires ws != []
    requires forall i :: 0 < i < |ws| ==> ws[i].id != ws[0].id
    ensures Parked(ws[1..]) == Without(Parked(ws), ws[0].id)
  {
    var w := ws[0];
    var head := if w.active && w.payload.Some? then [Item(w.id, w.payload.value)] else [];
    ParkedAbsent(ws[1..], w.id);
    WithoutConcat(head, Parked(ws[1..]), w.id);
  }

  ghost predicate DropEnds<T>(s: State<T>, end: Outcome<T>)
  {
    s.waiters != [] && (end.Failed? || (end.Drained? && s.closed && s.waiters[0].payload.None?))
  }

  lemma DropConserves<T>(s: State<T>, end: Outcome<T>)
    requires Inv(s) && DropEnds(s, end)
    ensures Conserved(DropHead(s, end))
  {
    hide Kept, Parked, Items, PendingIsLinked, Receipts;
    if s.waiters[0].active {
      if end.Failed? {
        ParkedTail(s.waiters);
        FailConserves(s, 0, end.fault, s.waiters[1..]);
      } else {
        ParkedReceivers(s.waiters);
        ParkedReceivers(s.waiters[1..]);
        KeptAgree(s.sends, s.outcome, DropHead(s, end).outcome);
      }
    } else {
      ParkedInactive(s.waiters);
    }
  }

  lemma ParkedInactive<T>(ws: seq<Waiter<T>>)
    requires ws != [] && !ws[0].active
    ensures Parked(ws) == Parked(ws[1..])
  {
  }

  lemma DropPending<T>(s: State<T>, end: Outcome<T>)
    requires Identified(s) && PendingIsLinked(s) && DropEnds(s, end)
    ensures PendingIsLinked(DropHead(s, end))
  {
    var r := DropHead(s, end);
    forall id | id in r.outcome && r.outcome[id].Pending?
      ensures exists i :: 0 <= i < |r.waiters| && r.waiters[i].id == id && r.waiters[i].active
    {
      assert id in s.outcome && s.outcome[id].Pending?;
      var i :| 0 <= i < |s.waiters| && s.waiters[i].id == id && s.waiters[i].active;
      assert i != 0;
      assert r.waiters[i - 1] == s.waiters[i];
    }
  }

  lemma DropIdentified<T>(s: State<T>, end: Outcome<T>)
    requires Identified(s) && DropEnds(s, end)
    ensures Identified(DropHead(s, end))
  {
  }

  lemma DropReceipts<T>(s: State<T>, end: Outcome<T>)
    requires Pinned(s) && Identified(s) && Receipts(s) && DropEnds(s, end)
    ensures Receipts(DropHead(s, end))
  {
  }

  lemma DropInv<T>(s: State<T>, end: Outcome<T>)
    requires Inv(s) && DropEnds(s, end)
    ensures Inv(DropHead(s, end))
  {
    DropConserves(s, end);
    DropPending(s, end);
    DropIdentified(s, end);
    DropReceipts(s, end);
  }

  lemma SettleInv<T>(s: State<T>, id: Op, payload: Option<T>, end: Outcome<T>)
    requires Inv(s) && id !in s.outcome
    requires if payload.Some? then end.Failed? else end.Failed? || end.Nothing? || (end.Drained? && Over(s))
    ensures Inv(Settle(s, id, payload, end))
  {
    SettleConserves(s, id, payload, end);
    SettlePending(s, id, payload, end);
    SettleIdentified(s, id, payload, end);
    SettleReceipts(s, id, payload, end);
  }

  lemma SettleReceipts<T>(s: State<T>, id: Op, payload: Option<T>, end: Outcome<T>)
    requires Receipts(s) && id !in s.outcome
    requires end.Failed? || end.Nothing? || (end.Drained? && Over(s))
    ensures Receipts(Settle(s, id, payload, end))
  {
  }

  lemma SettleConserves<T>(s: State<T>, id: Op, payload: Option<T>, end: Outcome<T>)
    requires Identified(s) && Conserved(s) && id !in s.outcome && (payload.Some? ==> end.Failed?)
    ensures Conserved(Settle(s, id, payload, end))
  {
    var r := Settle(s, id, payload, end);
    KeptAgree(s.sends, s.outcome, r.outcome);
    if payload.Some? { KeptSnoc(s.sends, r.outcome, Item(id, payload.value)); }
  }

  lemma SettlePending<T>(s: State<T>, id: Op, payload: Option<T>, end: Outcome<T>)
    requires PendingIsLinked(s) && !end.Pending?
    ensures PendingIsLinked(Settle(s, id, payload, end))
  {
    var r := Settle(s, id, payload, end);
    forall d | d in r.outcome && r.outcome[d].Pending?
      ensures exists i :: 0 <= i < |r.waiters| && r.waiters[i].id == d && r.waiters[i].active
    {
      var i :| 0 <= i < |s.waiters| && s.waiters[i].id == d && s.waiters[i].active;
    }
  }

  lemma SettleIdentified<T>(s: State<T>, id: Op, payload: Option<T>, end: Outcome<T>)
    requires Identified(s) && id !in s.outcome && (payload.Some? ==> end.Failed?)
    ensures Identified(Settle(s, id, payload, end))
  {
  }

  ghost predicate Parkable<T>(s: State<T>, w: Waiter<T>)
  {
    && w.id !in s.outcome && w.active && !s.closed
    && (forall i :: 0 <= i < |s.waiters| ==> s.waiters[i].payload.Some? == w.payload.Some?)
    && (if w.payload.Some? then |s.buf| == s.cap else s.buf == [])
  }

  lemma ParkInv<T>(s: State<T>, w: Waiter<T>)
    requires Inv(s) && Parkable(s, w)
    ensures Inv(Park(s, w))
  {
    hide Conserved, PendingIsLinked, Identified, Receipts;
    ParkConserves(s, w);
    ParkPending(s, w);
    ParkIdentified(s, w);
    ParkReceipts(s, w);
  }

  lemma ParkReceipts<T>(s: State<T>, w: Waiter<T>)
    requires Receipts(s) && Parkable(s, w)
    ensures Receipts(Park(s, w))
  {
  }

  /** What becomes of a new operation does not concern the sends before it. */
  lemma KeptFresh<T>(s: State<T>, id: Op, end: Outcome<T>)
    requires Identified(s) && id !in s.outcome
    ensures Kept(s.sends, s.outcome[id := end]) == Kept(s.sends, s.outcome)
  {
    KeptAgree(s.sends, s.outcome, s.outcome[id := end]);
  }

  lemma ParkConserves<T>(s: State<T>, w: Waiter<T>)
    requires Identified(s) && Conserved(s) && w.id !in s.outcome && w.active
    ensures Conserved(Park(s, w))
  {
    hide Parked, Kept, Items, Identified;
    var r := Park(s, w);
    KeptFresh(s, w.id, Pending);
    if w.payload.Some? { KeptSnoc(s.sends, r.outcome, Item(w.id, w.payload.value)); }
    ParkedConcat(s.waiters, [w]);
    ParkedOne(w);
    assert Items(r.out) + r.buf + (Parked(s.waiters) + Parked([w])) == (Items(s.out) + s.buf + Parked(s.waiters)) + Parked([w]);
  }

  lemma ParkedOne<T>(w: Waiter<T>)
    requires w.active
    ensures Parked([w]) == if w.payload.Some? then [Item(w.id, w.payload.value)] else []
  {
  }

  lemma ParkPending<T>(s: State<T>, w: Waiter<T>)
    requires PendingIsLinked(s) && Parkable(s, w)
    ensures PendingIsLinked(Park(s, w))
  {
    var r := Park(s, w);
    forall id | id in r.outcome && r.outcome[id].Pending?
      ensures exists i :: 0 <= i < |r.waiters| && r.waiters[i].id == id && r.waiters[i].active
    {
      if id == w.id {
        assert r.waiters[|s.waiters|] == w;
      } else {
        var i :| 0 <= i < |s.waiters| && s.waiters[i].id == id && s.waiters[i].active;
        assert r.waiters[i] == s.waiters[i];
      }
    }
  }

  lemma ParkIdentified<T>(s: State<T>, w: Waiter<T>)
    requires Identified(s) && Parkable(s, w)
    ensures Identified(Park(s, w))
  {
  }

  lemma StoreInv<T>(s: State<T>, item: Item<T>)
    requires Inv(s) && item.id !in s.outcome && |s.buf| < s.cap && s.waiters == [] && !s.closed
    ensures Inv(Store(s, item))
  {
    hide Conserved, Receipts, Identified;
    StoreConserves(s, item);
    StoreReceipts(s, item);
    assert forall id :: id in s.outcome ==> !s.outcome[id].Pending?;
  }

  lemma StoreReceipts<T>(s: State<T>, item: Item<T>)
    requires Receipts(s) && Identified(s) && item.id !in s.outcome && s.waiters == [] && !s.closed
    ensures Receipts(Store(s, item)) && Identified(Store(s, item))
  {
  }

  lemma StoreConserves<T>(s: State<T>, item: Item<T>)
    requires Identified(s) && Conserved(s) && item.id !in s.outcome && s.waiters == []
    ensures Conserved(Store(s, item))
  {
    hide Kept, Items, Identified;
    var r := Store(s, item);
    KeptFresh(s, item.id, Sent);
    KeptSnoc(s.sends, r.outcome, item);
    assert Items(r.out) + r.buf + Parked(r.waiters) == (Items(s.out) + s.buf) + [item];
    assert Items(s.out) + s.buf + Parked(s.waiters) == Items(s.out) + s.buf;
  }

  lemma FetchInv<T>(s: State<T>, id: Op)
    requires Inv(s) && id !in s.outcome && s.buf != [] && s.waiters == []
    ensures Inv(Fetch(s, id))
  {
    hide Conserved, Receipts, Identified;
    FetchConserves(s, id);
    FetchReceipts(s, id);
    assert forall d :: d in s.outcome ==> !s.outcome[d].Pending?;
  }

  lemma FetchConserves<T>(s: State<T>, id: Op)
    requires Conserved(s) && Identified(s) && id !in s.outcome && s.buf != [] && s.waiters == []
    ensures Conserved(Fetch(s, id))
  {
    var r := Fetch(s, id);
    KeptAgree(s.sends, s.outcome, r.outcome);
    assert Items(r.out) == Items(s.out) + [s.buf[0]];
  }

  lemma FetchReceipts<T>(s: State<T>, id: Op)
    requires Receipts(s) && Identified(s) && id !in s.outcome && s.buf != [] && s.waiters == []
    ensures Receipts(Fetch(s, id)) && Identified(Fetch(s, id))
  {
  }

  lemma HandOverInv<T>(s: State<T>, item: Item<T>)
    requires Inv(s) && item.id !in s.outcome && !s.closed
    requires s.waiters != [] && s.waiters[0].payload.None? && s.waiters[0].active
    ensures Inv(HandOver(s, item))
  {
    HandOverConserves(s, item);
    HandOverReceipts(s, item);
    TailPending(s, HandOver(s, item));
    HandOverIdentified(s, item);
  }

  lemma HandOverConserves<T>(s: State<T>, item: Item<T>)
    requires Pinned(s) && Identified(s) && Conserved(s) && item.id !in s.outcome
    requires s.waiters != [] && s.waiters[0].payload.None? && s.waiters[0].active
    ensures Conserved(HandOver(s, item))
  {
    hide Kept, Parked;
    var r := HandOver(s, item);
    ParkedReceivers(s.waiters);
    ParkedReceivers(r.waiters);
    KeptAgree(s.sends, s.outcome, r.outcome);
    KeptSnoc(s.sends, r.outcome, item);
    assert Items(r.out) == Items(s.out) + [item];
  }

  lemma HandOverReceipts<T>(s: State<T>, item: Item<T>)
    requires Identified(s) && Receipts(s) && item.id !in s.outcome && !s.closed
    requires s.waiters != [] && s.waiters[0].active
    ensures Receipts(HandOver(s, item))
  {
  }

  lemma HandOverIdentified<T>(s: State<T>, item: Item<T>)
    requires Identified(s) && item.id !in s.outcome
    requires s.waiters != [] && s.waiters[0].payload.None? && s.waiters[0].active
    ensures Identified(HandOver(s, item))
  {
  }

  /** Completing the head waiter leaves the other pending operations linked. */
  lemma TailPending<T>(s: State<T>, r: State<T>)
    requires PendingIsLinked(s) && s.waiters != [] && r.waiters == s.waiters[1..]
    requires forall id :: id in r.outcome && r.outcome[id].Pending? ==>
      id in s.outcome && s.outcome[id].Pending? && id != s.waiters[0].id
    ensures PendingIsLinked(r)
  {
    forall id | id in r.outcome && r.outcome[id].Pending?
      ensures exists i :: 0 <= i < |r.waiters| && r.waiters[i].id == id && r.waiters[i].active
    {
      var i :| 0 <= i < |s.waiters| && s.waiters[i].id == id && s.waiters[i].active;
      assert r.waiters[i - 1] == s.waiters[i];
    }
  }

  lemma RefillInv<T>(s: State<T>, id: Op)
    requires Inv(s) && id !in s.outcome
    requires s.waiters != [] && s.waiters[0].payload.Some? && s.waiters[0].active && !s.closed
    ensures Inv(Refill(s, id))
  {
    RefillConserves(s, id);
    RefillReceipts(s, id);
    TailPending(s, Refill(s, id));
    RefillIdentified(s, id);
  }

  lemma RefillConserves<T>(s: State<T>, id: Op)
    requires Identified(s) && Conserved(s) && id !in s.outcome
    requires s.waiters != [] && s.waiters[0].payload.Some? && s.waiters[0].active
    ensures Conserved(Refill(s, id))
  {
    hide Kept, Parked, Identified, Items;
    var r, w := Refill(s, id), s.waiters[0];
    var x := Item(w.id, w.payload.value);
    var all := s.buf + [x];
    RefillKept(s, id);
    ItemsSnoc(s.out, Handoff(all[0], id));
    ParkedHead(s.waiters);
    Shift(Items(s.out), s.buf, x, Parked(s.waiters[1..]));
  }

  lemma RefillKept<T>(s: State<T>, id: Op)
    requires Identified(s) && id !in s.outcome && s.waiters != [] && s.waiters[0].payload.Some? && s.waiters[0].active
    ensures Kept(s.sends, Refill(s, id).outcome) == Kept(s.sends, s.outcome)
  {
    hide Kept;
    KeptAgree(s.sends, s.outcome, Refill(s, id).outcome);
  }

  lemma ItemsSnoc<T>(out: seq<Handoff<T>>, h: Handoff<T>)
    ensures Items(out + [h]) == Items(out) + [h.item]
  {
  }

  lemma ParkedHead<T>(ws: seq<Waiter<T>>)
    requires ws != [] && ws[0].active && ws[0].payload.Some?
    ensures Parked(ws) == [Item(ws[0].id, ws[0].payload.value)] + Parked(ws[1..])
  {
  }

  /** Handing out the first value while another enters behind moves nothing else. */
  lemma Shift<A>(out: seq<A>, buf: seq<A>, x: A, rest: seq<A>)
    ensures out + [(buf + [x])[0]] + (buf + [x])[1..] + rest == out + buf + ([x] + rest)
  {
  }

  lemma RefillReceipts<T>(s: State<T>, id: Op)
    requires Identified(s) && Receipts(s) && id !in s.outcome
    requires s.waiters != [] && s.waiters[0].payload.Some? && s.waiters[0].active && !s.closed
    ensures Receipts(Refill(s, id))
  {
  }

  lemma RefillIdentified<T>(s: State<T>, id: Op)
    requires Identified(s) && id !in s.outcome
    requires s.waiters != [] && s.waiters[0].payload.Some? && s.waiters[0].active
    ensures Identified(Refill(s, id))
  {
  }

  lemma SendInv<T>(s: State<T>, id: Op, value: T, wait: bool)
    requires Inv(s) && Enabled(s, Send(id, value, wait))
    ensures Inv(SendStep(s, id, value, wait))
  {
    hide Conserved, PendingIsLinked, Identified, Receipts;
    if s.closed {
      SettleInv(s, id, Some(value), Failed(BrokenPipe));
    } else if s.waiters != [] && s.waiters[0].payload.None? {
      HandOverInv(s, Item(id, value));
    } else if |s.buf| < s.cap {
      StoreInv(s, Item(id, value));
    } else if wait {
      ParkInv(s, Waiter(id, true, Some(value)));
    } else {
      SettleInv(s, id, Some(value), Failed(Full));
    }
  }

  lemma RecvInv<T>(s: State<T>, id: Op, wait: bool)
    requires Inv(s) && Enabled(s, Recv(id, wait))
    ensures Inv(RecvStep(s, id, wait))
  {
    hide Conserved, PendingIsLinked, Identified, Receipts;
    if s.waiters != [] && s.waiters[0].payload.Some? {
      RefillInv(s, id);
    } else if s.buf != [] {
      FetchInv(s, id);
    } else if wait && !s.closed {
      ParkInv(s, Waiter(id, true, None));
    } else {
      SettleInv(s, id, None, if wait then Drained else Nothing);
    }
  }

  lemma ExpireInv<T>(s: State<T>, k: nat)
    requires Inv(s) && Enabled(s, Expire(k))
    ensures Inv(Step(s, Expire(k)))
  {
    hide PendingIsLinked, Receipts, Kept, Parked, Items;
    var r, w := Step(s, Expire(k)), s.waiters[k];
    ParkedExpired(s.waiters, k);
    FailConserves(s, k, Canceled, r.waiters);
    ExpirePending(s, k);
    ExpireIdentified(s, k);
  }

  lemma ExpireIdentified<T>(s: State<T>, k: nat)
    requires Identified(s) && Receipts(s) && Enabled(s, Expire(k))
    ensures Identified(Step(s, Expire(k))) && Receipts(Step(s, Expire(k)))
  {
  }

  lemma ExpirePending<T>(s: State<T>, k: nat)
    requires PendingIsLinked(s) && Identified(s) && Enabled(s, Expire(k))
    ensures PendingIsLinked(Step(s, Expire(k)))
  {
    var r := Step(s, Expire(k));
    forall id | id in r.outcome && r.outcome[id].Pending?
      ensures exists i :: 0 <= i < |r.waiters| && r.waiters[i].id == id && r.waiters[i].active
    {
      var i :| 0 <= i < |s.waiters| && s.waiters[i].id == id && s.waiters[i].active;
      assert r.waiters[i] == s.waiters[i];
    }
  }

  lemma {:induction false} ParkedExpired<T>(ws: seq<Waiter<T>>, k: nat)
    requires k < |ws| && ws[k].active
    requires forall i, j :: 0 <= i < j < |ws| ==> ws[i].id != ws[j].id
    ensures Parked(ws[k := ws[k].(active := false)]) == Without(Parked(ws), ws[k].id)
  {
    var ws' := ws[k := ws[k].(active := false)];
    if k == 0 {
      ParkedTail(ws);
      assert ws'[1..] == ws[1..];
    } else {
      var w := ws[0];
      var head := if w.active && w.payload.Some? then [Item(w.id, w.payload.value)] else [];
      ParkedExpired(ws[1..], k - 1);
      assert ws'[1..] == ws[1..][k - 1 := ws[k].(active := false)];
      WithoutConcat(head, Parked(ws[1..]), ws[k].id);
      WithoutAbsent(head, ws[k].id);
    }
  }

  lemma UnlinkInv<T>(s: State<T>, k: nat)
    requires Inv(s) && Enabled(s, Unlink(k))
    ensures Inv(Step(s, Unlink(k)))
  {
    hide PendingIsLinked, Identified, Kept, Parked, Items, Pinned;
    ParkedUnlinked(s.waiters, k);
    UnlinkPending(s, k);
    UnlinkIdentified(s, k);
    UnlinkPinned(s, k);
  }

  lemma UnlinkPinned<T>(s: State<T>, k: nat)
    requires Pinned(s) && Enabled(s, Unlink(k))
    ensures Pinned(Step(s, Unlink(k)))
  {
  }

  lemma {:induction false} ParkedUnlinked<T>(ws: seq<Waiter<T>>, k: nat)
    requires k < |ws| && !ws[k].active
    ensures Parked(ws[..k] + ws[k + 1..]) == Parked(ws)
  {
    var head, tail := ws[..k], ws[k..];
    assert ws == head + tail;
    ParkedConcat(head, tail);
    assert tail[1..] == ws[k + 1..];
    assert Parked(tail) == Parked(tail[1..]);
    ParkedConcat(head, ws[k + 1..]);
  }

  lemma UnlinkIdentified<T>(s: State<T>, k: nat)
    requires Identified(s) && Enabled(s, Unlink(k))
    ensures Identified(Step(s, Unlink(k)))
  {
  }

  lemma UnlinkPending<T>(s: State<T>, k: nat)
    requires PendingIsLinked(s) && Enabled(s, Unlink(k))
    ensures PendingIsLinked(Step(s, Unlink(k)))
  {
    var r := Step(s, Unlink(k));
    forall id | id in r.outcome && r.outcome[id].Pending?
      ensures exists i :: 0 <= i < |r.waiters| && r.waiters[i].id == id && r.waiters[i].active
    {
      var i :| 0 <= i < |s.waiters| && s.waiters[i].id == id && s.waiters[i].active;
      assert r.waiters[if i < k then i else i - 1] == s.waiters[i];
    }
  }

  lemma FlagInv<T>(s: State<T>, closed: bool, fired: set<Op>, stopped: set<nat>)
    requires Inv(s) && (s.closed ==> closed)
    ensures Inv(s.(closed := closed, fired := fired, stopped := stopped))
  {
    hide Kept, Parked, Items;
  }

  lemma StepInv<T>(s: State<T>, e: Event<T>)
    requires Inv(s) && Enabled(s, e)
    ensures Inv(Step(s, e))
  {
    match e
    case Send(id, value, wait) => SendInv(s, id, value, wait);
    case Recv(id, wait) => RecvInv(s, id, wait);
    case Refuse(id, payload) => SettleInv(s, id, payload, Failed(Canceled));
    case Drop => DropInv(s, Failed(Canceled));
    case Close => FlagInv(s, true, s.fired, s.stopped);
    case Evict(canceled) => DropInv(s, EvictEnd(s.waiters[0], canceled));
    case Fire(id) => FlagInv(s, s.closed, s.fired + {id}, s.stopped);
    case Stop(owner) => FlagInv(s, s.closed, s.fired, s.stopped + {owner});
    case Expire(k) => ExpireInv(s, k);
    case Unlink(k) => UnlinkInv(s, k);
  }

  /** Every reachable state, at any capacity including zero. */
  lemma {:induction false} RunInv<T>(cap: nat, trace: seq<Event<T>>)
    requires Legal(cap, trace)
    ensures Inv(Run(cap, trace))
    decreases |trace|
  {
    if trace != [] {
      RunInv(cap, trace[..|trace| - 1]);
      StepInv(Run(cap, trace[..|trace| - 1]), trace[|trace| - 1]);
    }
  }

  /** In every run the linked waiters, canceled ones included, face one way; senders are
      linked only while the buffer is full, receivers only while it is empty. */
  lemma WaitersPinTheBuffer<T>(cap: nat, trace: seq<Event<T>>, i: nat, j: nat)
    requires Legal(cap, trace) && i < |Run(cap, trace).waiters| && j < |Run(cap, trace).waiters|
    ensures var s := Run(cap, trace);
      && (s.waiters[i].payload.Some? <==> s.waiters[j].payload.Some?)
      && (if s.waiters[i].payload.Some? then |s.buf| == cap else s.buf == [])
  {
    RunInv(cap, trace);
    RunCap(cap, trace);
  }

  lemma {:induction false} RunCap<T>(cap: nat, trace: seq<Event<T>>)
    requires Legal(cap, trace)
    ensures Run(cap, trace).cap == cap
    decreases |trace|
  {
    if trace != [] { RunCap(cap, trace[..|trace| - 1]); }
  }

  // ---- What callers may rely on, over whole runs -----------------------------

  /** The send calls of a run, in call order, whatever became of them. */
  ghost function SendCalls<T>(trace: seq<Event<T>>): seq<Item<T>>
  {
    if trace == [] then []
    else
      var calls, e := SendCalls(trace[..|trace| - 1]), trace[|trace| - 1];
      if e.Send? then calls + [Item(e.id, e.value)]
      else if e.Refuse? && e.payload.Some? then calls + [Item(e.id, e.payload.value)]
      else calls
  }

  lemma {:induction false} RunSends<T>(cap: nat, trace: seq<Event<T>>)
    requires Legal(cap, trace)
    ensures Run(cap, trace).sends == SendCalls(trace)
    decreases |trace|
  {
    if trace != [] {
      RunSends(cap, trace[..|trace| - 1]);
    }
  }

  /** First-in first-out: what was handed out, then what is buffered, then what pending
      senders hold, is exactly the sends in call order with the failed ones removed. */
  lemma FifoRefinement<T>(cap: nat, trace: seq<Event<T>>)
    requires Legal(cap, trace)
    ensures var s := Run(cap, trace);
      Items(s.out) + s.buf + Parked(s.waiters) == Kept(SendCalls(trace), s.outcome)
  {
    RunInv(cap, trace);
    RunSends(cap, trace);
  }

  lemma {:induction false} KeptHolds<T>(sends: seq<Item<T>>, o: map<Op, Outcome<T>>, k: nat)
    requires k < |sends| && sends[k].id in o && !o[sends[k].id].Failed?
    ensures sends[k] in Kept(sends, o)
  {
    if k < |sends| - 1 { KeptHolds(sends[..|sends| - 1], o, k); }
  }

  lemma {:induction false} KeptOnly<T>(sends: seq<Item<T>>, o: map<Op, Outcome<T>>, x: Item<T>)
    requires x in Kept(sends, o)
    ensures x in sends && !(x.id in o && o[x.id].Failed?)
  {
    if x in Kept(sends[..|sends| - 1], o) { KeptOnly(sends[..|sends| - 1], o, x); }
  }

  lemma {:induction false} ParkedOnly<T>(ws: seq<Waiter<T>>, x: Item<T>)
    requires x in Parked(ws)
    ensures exists i :: 0 <= i < |ws| && ws[i].id == x.id && ws[i].active
  {
    var w := ws[0];
    if !(w.active && w.payload.Some? && x == Item(w.id, w.payload.value)) {
      ParkedOnly(ws[1..], x);
      var i :| 0 <= i < |ws[1..]| && ws[1..][i].id == x.id && ws[1..][i].active;
      assert ws[i + 1].id == x.id;
    }
  }

  /** A send succeeded exactly when its value entered the buffer or reached a receiver;
      a failed send's value is nowhere. */
  lemma SendSucceedsIffEntered<T>(cap: nat, trace: seq<Event<T>>, k: nat)
    requires Legal(cap, trace) && k < |SendCalls(trace)|
    ensures var s, x := Run(cap, trace), SendCalls(trace)[k];
      && x.id in s.outcome
      && (s.outcome[x.id].Sent? <==> x in Items(s.out) + s.buf)
      && (s.outcome[x.id].Failed? ==> x !in Items(s.out) + s.buf + Parked(s.waiters))
  {
    RunInv(cap, trace);
    RunSends(cap, trace);
    var s := Run(cap, trace);
    var x := s.sends[k];
    if s.outcome[x.id].Sent? {
      KeptHolds(s.sends, s.outcome, k);
      if x in Parked(s.waiters) { ParkedOnly(s.waiters, x); }
    }
    if x in Items(s.out) + s.buf + Parked(s.waiters) { KeptOnly(s.sends, s.outcome, x); }
  }

  /** Values reach receivers in order, each receiver once: the receiver whose value has
      place p got exactly the p-th value of the non-failed sends. */
  lemma ReceiversGetThePrefix<T>(cap: nat, trace: seq<Event<T>>, id: Op)
    requires Legal(cap, trace) && id in Run(cap, trace).outcome && Run(cap, trace).outcome[id].Got?
    ensures var s := Run(cap, trace);
      var kept, got := Kept(SendCalls(trace), s.outcome), s.outcome[id];
      && got.place < |kept| && kept[got.place].value == got.value
      && forall d :: d in s.outcome && s.outcome[d].Got? && s.outcome[d].place == got.place ==> d == id
  {
    FifoRefinement(cap, trace);
    RunInv(cap, trace);
    var s := Run(cap, trace);
    assert Items(s.out)[s.outcome[id].place] == s.out[s.outcome[id].place].item;
  }

  /** An awaited receive reports the end of the stream only from a closed queue from
      which every value of a non-failed send has been handed out and on which, while the
      close is still evicting, only receivers wait. */
  lemma DrainedMeansOver<T>(cap: nat, trace: seq<Event<T>>, id: Op)
    requires Legal(cap, trace) && id in Run(cap, trace).outcome && Run(cap, trace).outcome[id].Drained?
    ensures var s := Run(cap, trace);
      Over(s) && Items(s.out) == Kept(SendCalls(trace), s.outcome)
  {
    RunInv(cap, trace);
    FifoRefinement(cap, trace);
    ParkedReceivers(Run(cap, trace).waiters);
  }

  /** Operations that have ended in the first state ended the same way in the second. */
  ghost predicate Extends<T>(s: State<T>, r: State<T>)
  {
    forall id :: id in s.outcome && !s.outcome[id].Pending? ==> id in r.outcome && r.outcome[id] == s.outcome[id]
  }

  /** Once an operation has ended, no later event changes how it ended. */
  lemma EndIsFinal<T>(s: State<T>, e: Event<T>)
    requires Inv(s) && Enabled(s, e)
    ensures Extends(s, Step(s, e))
  {
    match e
    case Send(id, value, wait) => SendExtends(s, id, value, wait);
    case Recv(id, wait) => RecvExtends(s, id, wait);
    case Drop => DropExtends(s, Failed(Canceled));
    case Evict(canceled) => DropExtends(s, EvictEnd(s.waiters[0], canceled));
    case Expire(k) => ExpireExtends(s, k);
    case _ =>
  }

  lemma SendExtends<T>(s: State<T>, id: Op, value: T, wait: bool)
    requires Identified(s) && Enabled(s, Send(id, value, wait))
    ensures Extends(s, SendStep(s, id, value, wait))
  {
  }

  lemma RecvExtends<T>(s: State<T>, id: Op, wait: bool)
    requires Identified(s) && Enabled(s, Recv(id, wait))
    ensures Extends(s, RecvStep(s, id, wait))
  {
  }

  lemma DropExtends<T>(s: State<T>, end: Outcome<T>)
    requires Identified(s) && s.waiters != []
    ensures Extends(s, DropHead(s, end))
  {
  }

  lemma ExpireExtends<T>(s: State<T>, k: nat)
    requires Identified(s) && Enabled(s, Expire(k))
    ensures Extends(s, Step(s, Expire(k)))
  {
  }

  /** Failures have their stated cause: cancellation needs the operation's own token or
      its own loop, a broken pipe needs a close. */
  ghost predicate Blamed<T>(s: State<T>)
  {
    forall id :: id in s.outcome && s.outcome[id].Failed? ==>
      match s.outcome[id].fault
      case Canceled => id in s.fired || id.owner in s.stopped
      case BrokenPipe => s.closed
      case Full => true
  }

  lemma {:induction false} FailuresAreBlamed<T>(cap: nat, trace: seq<Event<T>>)
    requires Legal(cap, trace)
    ensures Blamed(Run(cap, trace))
    decreases |trace|
  {
    if trace != [] {
      var s, e := Run(cap, trace[..|trace| - 1]), trace[|trace| - 1];
      FailuresAreBlamed(cap, trace[..|trace| - 1]);
      RunInv(cap, trace[..|trace| - 1]);
      StepBlamed(s, e);
    }
  }

  lemma StepBlamed<T>(s: State<T>, e: Event<T>)
    requires Inv(s) && Blamed(s) && Enabled(s, e)
    ensures Blamed(Step(s, e))
  {
    match e
    case Send(id, value, wait) => SendBlamed(s, id, value, wait);
    case Recv(id, wait) => RecvBlamed(s, id, wait);
    case Drop => DropBlamed(s, Failed(Canceled));
    case Evict(canceled) => DropBlamed(s, EvictEnd(s.waiters[0], canceled));
    case Expire(k) => ExpireBlamed(s, k);
    case _ =>
  }

  lemma SendBlamed<T>(s: State<T>, id: Op, value: T, wait: bool)
    requires Blamed(s)
    ensures Blamed(SendStep(s, id, value, wait))
  {
  }

  lemma RecvBlamed<T>(s: State<T>, id: Op, wait: bool)
    requires Blamed(s)
    ensures Blamed(RecvStep(s, id, wait))
  {
  }

  lemma DropBlamed<T>(s: State<T>, end: Outcome<T>)
    requires Blamed(s) && s.waiters != []
    requires end.Failed? && s.waiters[0].active ==>
      if end.fault.Canceled? then !Live(s, s.waiters[0]) else s.closed
    ensures Blamed(DropHead(s, end))
  {
  }

  lemma ExpireBlamed<T>(s: State<T>, k: nat)
    requires Blamed(s) && Enabled(s, Expire(k))
    ensures Blamed(Step(s, Expire(k)))
  {
  }
}
