/** Socket requests above the native ring: direction reservation and zero-copy sends.

    A request that names a socket direction reserves it while its outcome is pending. A
    plain request holds it until it is resumed or destroyed; a zero-copy send gives it up
    at its primary completion, while the kernel may still be reading the buffer. What the
    program may observe is that the bytes were accepted (`sent`) and that the buffer may
    be reused (`released`). The ring underneath is the one of module Uring. */
module Sends {

  import opened Options
  import Uring

  /** `finished` is the queued continuation of a plain request, `thrown` a failed start,
      `primary` a handled completion that is not the buffer notification. */
  datatype Request = Request(
    direction: Option<nat>, zeroCopy: bool, started: bool, thrown: bool, reserved: bool,
    primary: bool, failed: bool, sent: bool, released: bool, finished: bool)

  datatype State = State(ring: Uring.Ring, requests: map<nat, Request>, busy: set<nat>)

  /** How a start ends once the direction is found free: the token or the loop was
      already stopped, submission threw, there was nothing to transfer, or it is queued. */
  datatype Launch = Refused | Rejected | Empty | Queued

  datatype Event =
    | Create(id: nat, direction: Option<nat>, zeroCopy: bool)
    | Start(id: nat, how: Launch)
    | Native(step: Uring.Event)
    | Complete(notification: bool, negative: bool)
    | Resume(id: nat)
    | Destroy(id: nat)

  function Fresh(): State
  {
    State(Uring.Fresh(), map[], {})
  }

  /** The caller has seen the end of the request, or never started it. */
  predicate Over(q: Request)
  {
    !q.started || q.thrown || (if q.zeroCopy then q.released else q.finished)
  }

  /** The kernel posts one primary completion per zero-copy send, before its
      notification, and no notification for anything else. */
  predicate Expected(s: State, notification: bool)
  {
    s.ring.cq != [] && s.ring.cq[0].Main? && s.ring.cq[0].id in s.requests ==>
      var q := s.requests[s.ring.cq[0].id];
      notification == (q.zeroCopy && q.primary)
  }

  predicate Enabled(s: State, e: Event)
  {
    match e
    case Create(id, _, _) => id !in s.requests
    case Start(id, how) =>
      && id in s.requests && !s.requests[id].started && id !in s.ring.io
      && (how.Empty? ==> !s.requests[id].zeroCopy)
    case Native(step) => !step.Submit? && !step.Handle? && Uring.Enabled(s.ring, step)
    case Complete(notification, _) => Uring.Enabled(s.ring, Uring.Handle) && Expected(s, notification)
    case Resume(id) =>
      id in s.requests && (if s.requests[id].zeroCopy then s.requests[id].sent else s.requests[id].finished)
    case Destroy(id) => id in s.requests && Over(s.requests[id])
  }

  function Step(s: State, e: Event): State
    requires Enabled(s, e)
  {
    match e
    case Create(id, direction, zeroCopy) =>
      s.(requests := s.requests[id := Request(direction, zeroCopy, false, false, false, false, false, false, false, false)])
    case Start(id, how) => Started(s, id, how)
    case Native(step) => s.(ring := Uring.Step(s.ring, step))
    case Complete(notification, negative) => Completed(s, notification, negative)
    case Resume(id) => Yield(s, id)
    case Destroy(id) => var r := Yield(s, id); r.(requests := r.requests - {id})
  }

  /** Give up the direction, if this request holds one. */
  function Yield(s: State, id: nat): State
    requires id in s.requests
  {
    var q := s.requests[id];
    if !q.reserved then s
    else s.(busy := Freed(s.busy, q.direction), requests := s.requests[id := q.(reserved := false)])
  }

  function Freed(busy: set<nat>, direction: Option<nat>): set<nat>
  {
    if direction.Some? then busy - {direction.value} else busy
  }

  function Claimed(busy: set<nat>, direction: Option<nat>): set<nat>
  {
    if direction.Some? then busy + {direction.value} else busy
  }

  predicate Occupied(s: State, direction: Option<nat>)
  {
    direction.Some? && direction.value in s.busy
  }

  /** A start that does not reach the ring opens both barriers of a zero-copy send. */
  function Opened(q: Request): Request
  {
    q.(sent := q.sent || q.zeroCopy, released := q.released || q.zeroCopy)
  }

  function Started(s: State, id: nat, how: Launch): State
    requires id in s.requests && id !in s.ring.io
  {
    var q := s.requests[id].(started := true);
    if Occupied(s, q.direction) then s.(requests := s.requests[id := Opened(q.(thrown := true))])
    else if how.Refused? then s.(requests := s.requests[id := Opened(q.(failed := true, finished := !q.zeroCopy))])
    else
      var r := s.(busy := Claimed(s.busy, q.direction));
      var q := q.(reserved := q.direction.Some?);
      if how.Rejected? then r.(requests := s.requests[id := Opened(q.(thrown := true))])
      else if how.Empty? then r.(requests := s.requests[id := q.(finished := true)])
      else r.(requests := s.requests[id := q], ring := Uring.Step(s.ring, Uring.Submit(id, false)))
  }

  /** The result handler of a primary or plain completion. */
  function Noted(s: State, id: nat, negative: bool): State
    requires id in s.requests
  {
    var q := s.requests[id].(failed := s.requests[id].failed || negative);
    if !q.zeroCopy then s.(requests := s.requests[id := q])
    else Yield(s.(requests := s.requests[id := q.(primary := true, sent := q.sent || !negative)]), id)
  }

  /** Retirement opens both barriers, or queues the plain continuation. */
  function Retired(q: Request): Request
  {
    if q.zeroCopy then Opened(q) else q.(finished := true)
  }

  function Completed(s: State, notification: bool, negative: bool): State
    requires Uring.Enabled(s.ring, Uring.Handle)
  {
    var c, ring := s.ring.cq[0], Uring.Step(s.ring, Uring.Handle);
    if c.Wake? || c.id !in s.requests then s.(ring := ring)
    else
      var r := if c.Main? && !notification then Noted(s, c.id, negative) else s;
      if c.id in ring.io then r.(ring := ring)
      else r.(ring := ring, requests := r.requests[c.id := Retired(r.requests[c.id])])
  }

  // ---- The invariant ---------------------------------------------------------

  /** One request, given whether the ring still lists it. */
  ghost predicate Own(q: Request, listed: bool)
  {
    && (q.reserved ==> q.direction.Some? && q.started)
    && (listed ==> q.started && !q.thrown && !q.finished && !q.released)
    && (listed && q.direction.Some? && !(q.zeroCopy && q.primary) ==> q.reserved)
    && (q.zeroCopy && q.primary ==> !q.reserved)
    && (q.started && !listed ==> Over(q))
    && (q.zeroCopy ==> !q.finished && (q.released <==> q.started && !listed))
    && (q.zeroCopy && q.sent && q.failed ==> q.released)
    && (q.released ==> q.sent)
    && (q.zeroCopy && listed ==> (q.sent <==> q.primary && !q.failed) && (q.failed ==> q.primary))
    && (!q.zeroCopy ==> !q.sent && !q.released)
    && (!q.started ==> !q.sent && !q.released && !q.finished && !q.thrown && !q.failed && !q.primary)
  }

  ghost predicate Holds(requests: map<nat, Request>, id: nat, d: nat)
  {
    id in requests && requests[id].reserved && requests[id].direction == Some(d)
  }

  /** A direction is busy exactly while one request, and only one, has reserved it. */
  ghost predicate Exclusive(requests: map<nat, Request>, busy: set<nat>)
  {
    && (forall d :: d in busy ==> exists id :: Holds(requests, id, d))
    && (forall id, d :: Holds(requests, id, d) ==> d in busy)
    && (forall a, b, d :: Holds(requests, a, d) && Holds(requests, b, d) ==> a == b)
  }

  ghost predicate Listed(s: State)
  {
    && (forall id :: id in s.ring.io ==> id in s.requests)
    && (forall id :: id in s.requests ==> Own(s.requests[id], id in s.ring.io))
  }

  ghost predicate Inv(s: State)
  {
    Uring.Inv(s.ring) && Listed(s) && Exclusive(s.requests, s.busy)
  }

  // ---- Reservations ----------------------------------------------------------

  lemma Keep(requests: map<nat, Request>, busy: set<nat>, id: nat, q: Request)
    requires Exclusive(requests, busy)
    requires if id in requests then q.reserved == requests[id].reserved && q.direction == requests[id].direction
             else !q.reserved
    ensures Exclusive(requests[id := q], busy)
  {
    var r := requests[id := q];
    assert forall a, d :: Holds(r, a, d) <==> Holds(requests, a, d);
  }

  lemma Take(requests: map<nat, Request>, busy: set<nat>, id: nat, q: Request)
    requires Exclusive(requests, busy) && id in requests && !requests[id].reserved
    requires q.reserved && q.direction.Some? && q.direction.value !in busy
    ensures Exclusive(requests[id := q], busy + {q.direction.value})
  {
    var r := requests[id := q];
    assert forall a, d :: a != id ==> (Holds(r, a, d) <==> Holds(requests, a, d));
    assert forall d :: !Holds(requests, id, d);
    assert Holds(r, id, q.direction.value);
    forall d | d in busy ensures exists a :: Holds(r, a, d) {
      var a :| Holds(requests, a, d);
      assert Holds(r, a, d);
    }
  }

  lemma Give(requests: map<nat, Request>, busy: set<nat>, id: nat, q: Request)
    requires Exclusive(requests, busy) && id in requests && requests[id].reserved && requests[id].direction.Some?
    requires !q.reserved
    ensures Exclusive(requests[id := q], busy - {requests[id].direction.value})
  {
    var r, x := requests[id := q], requests[id].direction.value;
    assert Holds(requests, id, x);
    assert forall a, d :: a != id ==> (Holds(r, a, d) <==> Holds(requests, a, d));
    assert forall d :: !Holds(r, id, d);
    forall d | d in busy - {x} ensures exists a :: Holds(r, a, d) {
      var a :| Holds(requests, a, d);
      assert Holds(r, a, d);
    }
  }

  lemma Drop(requests: map<nat, Request>, busy: set<nat>, id: nat)
    requires Exclusive(requests, busy) && id in requests && !requests[id].reserved
    ensures Exclusive(requests - {id}, busy)
  {
    var r := requests - {id};
    assert forall a, d :: Holds(r, a, d) <==> Holds(requests, a, d);
  }

  lemma YieldExclusive(s: State, id: nat)
    requires Exclusive(s.requests, s.busy) && id in s.requests
    requires s.requests[id].reserved ==> s.requests[id].direction.Some?
    ensures var r := Yield(s, id);
            && Exclusive(r.requests, r.busy) && r.ring == s.ring && id in r.requests
            && r.requests == s.requests[id := s.requests[id].(reserved := false)]
  {
    if s.requests[id].reserved {
      Give(s.requests, s.busy, id, s.requests[id].(reserved := false));
    } else {
      assert s.requests == s.requests[id := s.requests[id].(reserved := false)];
    }
  }

  // ---- Every step keeps it ---------------------------------------------------

  lemma OneChanged(s: State, r: State, id: nat)
    requires Listed(s) && id in r.requests && r.requests == s.requests[id := r.requests[id]]
    requires forall d :: d != id ==> (d in r.ring.io <==> d in s.ring.io)
    requires Own(r.requests[id], id in r.ring.io)
    ensures Listed(r)
  {
  }

  lemma CreateInv(s: State, e: Event)
    requires Inv(s) && Enabled(s, e) && e.Create?
    ensures Inv(Step(s, e))
  {
    var r := Step(s, e);
    Keep(s.requests, s.busy, e.id, r.requests[e.id]);
    OneChanged(s, r, e.id);
  }

  lemma StartInv(s: State, id: nat, how: Launch)
    requires Inv(s) && Enabled(s, Start(id, how))
    ensures Inv(Step(s, Start(id, how)))
  {
    var r := Started(s, id, how);
    var q := r.requests[id];
    assert Own(s.requests[id], false);
    if q.reserved {
      Take(s.requests, s.busy, id, q);
    } else {
      Keep(s.requests, s.busy, id, q);
    }
    if id in r.ring.io { Uring.SubmitInv(s.ring, id, false); }
    OneChanged(s, r, id);
  }

  lemma NativeInv(s: State, step: Uring.Event)
    requires Inv(s) && Enabled(s, Native(step))
    ensures Inv(Step(s, Native(step)))
  {
    var r := Step(s, Native(step));
    Uring.StepInv(s.ring, step);
    assert forall id :: id in r.ring.io <==> id in s.ring.io;
  }

  lemma CompleteInv(s: State, notification: bool, negative: bool)
    requires Inv(s) && Enabled(s, Complete(notification, negative))
    ensures Inv(Step(s, Complete(notification, negative)))
  {
    var c, ring := s.ring.cq[0], Uring.Step(s.ring, Uring.Handle);
    Uring.StepInv(s.ring, Uring.Handle);
    if c.Wake? {
      assert ring.io == s.ring.io;
    } else {
      Uring.HandledIsListed(s.ring);
      CompleteOne(s, notification, negative);
    }
  }

  /** What a completion does to the request it names. */
  function Settled(q: Request, primary: bool, negative: bool, listed: bool): Request
  {
    var p := if !primary then q
             else if !q.zeroCopy then q.(failed := q.failed || negative)
             else q.(failed := q.failed || negative, primary := true, sent := q.sent || !negative, reserved := false);
    if listed then p else Retired(p)
  }

  lemma SettledOwn(q: Request, primary: bool, negative: bool, listed: bool)
    requires Own(q, true) && (primary && q.zeroCopy ==> !q.primary)
    ensures Own(Settled(q, primary, negative, listed), listed)
  {
  }

  lemma OthersListed(ring: Uring.Ring, d: nat)
    requires Uring.Enabled(ring, Uring.Handle) && !ring.cq[0].Wake? && d != ring.cq[0].id
    ensures d in Uring.Step(ring, Uring.Handle).io <==> d in ring.io
  {
  }

  lemma CompleteOne(s: State, notification: bool, negative: bool)
    requires Listed(s) && Exclusive(s.requests, s.busy) && Enabled(s, Complete(notification, negative))
    requires !s.ring.cq[0].Wake? && s.ring.cq[0].id in s.ring.io
    ensures var r := Step(s, Complete(notification, negative)); Listed(r) && Exclusive(r.requests, r.busy)
  {
    hide Own, Exclusive, Uring.Step, Settled;
    var r, c := Step(s, Complete(notification, negative)), s.ring.cq[0];
    var primary := c.Main? && !notification;
    SettledOwn(s.requests[c.id], primary, negative, c.id in r.ring.io);
    CompletedIs(s, notification, negative);
    forall d | d != c.id ensures d in r.ring.io <==> d in s.ring.io {
      OthersListed(s.ring, d);
    }
    OneChanged(s, r, c.id);
  }

  lemma CompletedIs(s: State, notification: bool, negative: bool)
    requires Exclusive(s.requests, s.busy) && Enabled(s, Complete(notification, negative))
    requires !s.ring.cq[0].Wake? && s.ring.cq[0].id in s.requests && Own(s.requests[s.ring.cq[0].id], true)
    ensures var r, id := Completed(s, notification, negative), s.ring.cq[0].id;
            && Exclusive(r.requests, r.busy) && id in r.requests
            && r.requests == s.requests[id := r.requests[id]]
            && r.requests[id] == Settled(s.requests[id], s.ring.cq[0].Main? && !notification, negative, id in r.ring.io)
  {
    hide Exclusive, Uring.Step;
    var r, id := Completed(s, notification, negative), s.ring.cq[0].id;
    var m := if s.ring.cq[0].Main? && !notification then Noted(s, id, negative) else s;
    if s.ring.cq[0].Main? && !notification { NotedExclusive(s, id, negative); }
    if id !in r.ring.io { Keep(m.requests, m.busy, id, Retired(m.requests[id])); }
  }

  lemma NotedExclusive(s: State, id: nat, negative: bool)
    requires Exclusive(s.requests, s.busy) && id in s.requests && Own(s.requests[id], true)
    ensures var r := Noted(s, id, negative);
            && Exclusive(r.requests, r.busy) && id in r.requests && r.requests == s.requests[id := r.requests[id]]
  {
    var q := s.requests[id].(failed := s.requests[id].failed || negative);
    var p := if q.zeroCopy then q.(primary := true, sent := q.sent || !negative) else q;
    Keep(s.requests, s.busy, id, p);
    if q.zeroCopy { YieldExclusive(s.(requests := s.requests[id := p]), id); }
  }

  lemma ResumeInv(s: State, id: nat)
    requires Inv(s) && Enabled(s, Resume(id))
    ensures Inv(Step(s, Resume(id)))
  {
    assert Own(s.requests[id], id in s.ring.io);
    YieldExclusive(s, id);
    OneChanged(s, Yield(s, id), id);
  }

  lemma DestroyInv(s: State, id: nat)
    requires Inv(s) && Enabled(s, Destroy(id))
    ensures Inv(Step(s, Destroy(id)))
  {
    assert Own(s.requests[id], id in s.ring.io);
    YieldExclusive(s, id);
    var r := Yield(s, id);
    Drop(r.requests, r.busy, id);
  }

  lemma StepInv(s: State, e: Event)
    requires Inv(s) && Enabled(s, e)
    ensures Inv(Step(s, e))
  {
    match e
    case Create(_, _, _) => CreateInv(s, e);
    case Start(id, how) => StartInv(s, id, how);
    case Native(step) => NativeInv(s, step);
    case Complete(notification, negative) => CompleteInv(s, notification, negative);
    case Resume(id) => ResumeInv(s, id);
    case Destroy(id) => DestroyInv(s, id);
  }

  // ---- Runs ------------------------------------------------------------------

  ghost predicate Legal(trace: seq<Event>)
    decreases |trace|, 0
  {
    trace == [] || (Legal(trace[..|trace| - 1]) && Enabled(Run(trace[..|trace| - 1]), trace[|trace| - 1]))
  }

  ghost function Run(trace: seq<Event>): State
    requires Legal(trace)
    decreases |trace|, 1
  {
    if trace == [] then Fresh() else Step(Run(trace[..|trace| - 1]), trace[|trace| - 1])
  }

  lemma {:induction false} RunInv(trace: seq<Event>)
    requires Legal(trace)
    ensures Inv(Run(trace))
  {
    if trace == [] {
      Uring.RunInv([]);
    } else {
      RunInv(trace[..|trace| - 1]);
      StepInv(Run(trace[..|trace| - 1]), trace[|trace| - 1]);
    }
  }

  /** The busy flag of a direction is raised exactly while some request has reserved it,
      and then that request is the only one. */
  lemma DirectionExclusion(trace: seq<Event>, d: nat)
    requires Legal(trace)
    ensures var s := Run(trace);
            && (d in s.busy <==> exists id :: Holds(s.requests, id, d))
            && (forall a, b :: Holds(s.requests, a, d) && Holds(s.requests, b, d) ==> a == b)
  {
    RunInv(trace);
  }

  /** The kernel may still report an outcome for the request. */
  predicate Undecided(s: State, id: nat)
  {
    id in s.ring.io && id in s.requests && !(s.requests[id].zeroCopy && s.requests[id].primary)
  }

  /** At most one request per direction is ever waiting for its outcome, although sends
      whose buffers are not released yet may be listed beside it. */
  lemma OneInFlight(trace: seq<Event>, a: nat, b: nat)
    requires Legal(trace)
    requires var s := Run(trace); Undecided(s, a) && Undecided(s, b)
    requires var s := Run(trace); s.requests[a].direction.Some? && s.requests[a].direction == s.requests[b].direction
    ensures a == b
  {
    RunInv(trace);
    var s := Run(trace);
    var d := s.requests[a].direction.value;
    assert Own(s.requests[a], true) && Own(s.requests[b], true);
    assert Holds(s.requests, a, d) && Holds(s.requests, b, d);
  }

  /** A zero-copy buffer is declared reusable exactly when the send has been started and
      nothing the kernel holds or has posted can name it any more. A failure is observable
      only from then on; a success is observable as soon as the primary completion is. */
  lemma ReleaseIsTheEnd(trace: seq<Event>, id: nat)
    requires Legal(trace) && id in Run(trace).requests && Run(trace).requests[id].zeroCopy
    ensures var s := Run(trace); var q := s.requests[id];
            && (q.released <==> q.started && !Uring.Referenced(s.ring, id))
            && (q.sent && q.failed ==> q.released)
            && (q.primary && !q.failed ==> q.sent)
  {
    RunInv(trace);
    var s := Run(trace);
    assert Own(s.requests[id], id in s.ring.io);
    Uring.ListedIffReferenced(s.ring, id);
  }

  /** Whoever has seen its request end may destroy it: it is not active, and no
      completion can reach its memory. */
  lemma SafeToDestroy(trace: seq<Event>, id: nat)
    requires Legal(trace) && id in Run(trace).requests && Over(Run(trace).requests[id])
    ensures id !in Run(trace).ring.io && !Uring.Referenced(Run(trace).ring, id)
  {
    RunInv(trace);
    var s := Run(trace);
    assert Own(s.requests[id], id in s.ring.io);
    Uring.ListedIffReferenced(s.ring, id);
  }
}
