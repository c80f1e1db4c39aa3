/** Waiters shared between threads, and the futex built on them.

    A waiter is linked under the queue's mutex, completed from any thread by unlinking
    it and posting a message to its loop, and retired on its own loop: by that message,
    or, if it is still linked, by the loop's cancellation scan. Stop marks and loop stops
    arrive at any time. Each step below is one critical section or one owner-thread
    action; the mutex is explicit only where a check and an enqueue share it. */
module RemoteWaits {

  import opened Options
  import opened Sequences
  import opened IntrusiveList

  datatype Fault = Canceled | Rejected

  /** A parked waiter. `sent` and `notified` count the messages posted for it and the
      times its continuation was queued; `verdict` is the error fixed when it was
      unlinked. */
  datatype Waiter = Waiter(
    owner: nat, seen: int, interruptible: bool,
    linked: bool, active: bool, canceled: bool, error: Option<Fault>,
    sent: nat, notified: nat, verdict: Option<Option<Fault>>)

  datatype State = State(
    ws: map<nat, Waiter>, queue: seq<nat>, messages: seq<nat>, ready: seq<nat>,
    stopped: set<nat>, value: int, storing: set<nat>, checking: Option<(nat, Waiter)>)

  datatype Event =
    // a waiter: check the value under the mutex, then park in the same section
    | Check(id: nat, owner: nat, seen: int, interruptible: bool)
    | Enqueue
    | GiveUp
    // any thread, under the mutex
    | Prune
    | Deliver(failure: Option<Fault>)
    // any thread
    | Mark(id: nat)
    | Stop(owner: nat)
    | Store(thread: nat, value: int)
    | Notified(thread: nat)
    // the owner loop
    | Interrupt(id: nat)
    | RunMessage(k: nat)
    | Resume(k: nat)

  function Start(value: int): State
  {
    State(map[], [], [], [], {}, value, {}, None)
  }

  predicate Doomed(s: State, w: Waiter)
  {
    w.interruptible && (w.canceled || w.owner in s.stopped)
  }

  predicate Enabled(s: State, e: Event)
  {
    match e
    case Check(id, _, seen, _) => id !in s.ws && s.checking.None? && s.value == seen
    case Enqueue => s.checking.Some? && s.checking.value.0 !in s.ws
    case GiveUp => s.checking.Some?
    case Prune => s.checking.None? && s.queue != [] && s.queue[0] in s.ws && Doomed(s, s.ws[s.queue[0]])
    case Deliver(_) => s.checking.None? && s.queue != [] && s.queue[0] in s.ws
    case Mark(id) => id in s.ws && s.ws[id].active
    case Stop(_) => true
    case Store(t, _) => t !in s.storing
    case Notified(t) => t in s.storing && s.checking.None? && s.queue == []
    case Interrupt(id) => s.checking.None? && id in s.ws && s.ws[id].active && Doomed(s, s.ws[id])
    case RunMessage(k) => k < |s.messages| && s.messages[k] in s.ws
    case Resume(k) => k < |s.ready| && s.ready[k] in s.ws
  }

  function Step(s: State, e: Event): State
    requires Enabled(s, e)
  {
    match e
    case Check(id, owner, seen, interruptible) =>
      s.(checking := Some((id, Waiter(owner, seen, interruptible, false, false, false, None, 0, 0, None))))
    case Enqueue =>
      var (id, w) := s.checking.value;
      s.(checking := None, queue := s.queue + [id], ws := s.ws[id := w.(linked := true, active := true)])
    case GiveUp => s.(checking := None)
    case Prune => Deliver0(s, Some(Canceled))
    case Deliver(failure) => Deliver0(s, failure)
    case Mark(id) => s.(ws := s.ws[id := s.ws[id].(canceled := true)])
    case Stop(owner) => s.(stopped := s.stopped + {owner})
    case Store(t, v) => s.(value := v, storing := s.storing + {t})
    case Notified(t) => s.(storing := s.storing - {t})
    case Interrupt(id) =>
      // one that is no longer linked has a message on its way
      if !s.ws[id].linked || id !in s.queue then s
      else Notify(s.(queue := Remove(s.queue, Place(s.queue, id)), ws := s.ws[id := Unlinked(s.ws[id], Some(Canceled))]), id)
    case RunMessage(k) =>
      var id := s.messages[k];
      Notify(s.(messages := Remove(s.messages, k)), id)
    case Resume(k) =>
      s.(ready := Remove(s.ready, k), ws := s.ws - {s.ready[k]})
  }

  function Unlinked(w: Waiter, failure: Option<Fault>): Waiter
  {
    w.(linked := false, error := failure, verdict := Some(failure))
  }

  /** Unlink the head, fix its error, post its message. */
  function Deliver0(s: State, failure: Option<Fault>): State
    requires s.queue != [] && s.queue[0] in s.ws
  {
    var id := s.queue[0];
    var w := Unlinked(s.ws[id], failure);
    s.(queue := s.queue[1..], messages := s.messages + [id], ws := s.ws[id := w.(sent := w.sent + 1)])
  }

  /** Retire a wait and queue its continuation; an already retired one is ignored. */
  function Notify(s: State, id: nat): State
    requires id in s.ws
  {
    if !s.ws[id].active then s
    else s.(ready := s.ready + [id],
            ws := s.ws[id := s.ws[id].(active := false, notified := s.ws[id].notified + 1)])
  }

  // ---- The invariant ---------------------------------------------------------

  /** Where a parked waiter is: on the shared list, in a message, or queued. */
  ghost predicate Placed(s: State, id: nat)
    requires id in s.ws
  {
    var w := s.ws[id];
    && (id in s.queue <==> w.linked)
    && (id in s.messages <==> w.active && !w.linked)
    && (id in s.ready <==> !w.active)
    && (w.linked ==> w.active && w.sent == 0 && w.notified == 0 && w.verdict.None? && w.error.None?)
    && (!w.linked ==> w.verdict == Some(w.error) && w.sent <= 1)
    && (!w.linked && w.active ==> w.sent == 1 && w.notified == 0)
    && (!w.active ==> w.notified == 1)
  }

  ghost predicate Inv(s: State)
  {
    && Distinct(s.queue) && Distinct(s.messages) && Distinct(s.ready)
    && (forall id :: id in s.queue || id in s.messages || id in s.ready ==> id in s.ws)
    && (forall id :: id in s.ws ==> Placed(s, id))
    // a value that differs from what a waiter checked has a notification coming
    && (forall id :: id in s.ws && s.ws[id].linked && s.ws[id].seen != s.value ==> s.storing != {})
    && (s.checking.Some? && s.checking.value.1.seen != s.value ==> s.storing != {})
    && (s.checking.Some? ==>
          s.checking.value.1 ==
            Waiter(s.checking.value.1.owner, s.checking.value.1.seen, s.checking.value.1.interruptible,
                   false, false, false, None, 0, 0, None))
  }

  // ---- Sequence facts --------------------------------------------------------

  lemma TailIs(xs: seq<nat>)
    requires Distinct(xs) && xs != []
    ensures Distinct(xs[1..]) && forall y :: y in xs[1..] <==> y in xs && y != xs[0]
  {
    RemoveIs(xs, 0);
    assert Remove(xs, 0) == xs[1..];
  }

  // ---- Every step keeps it ---------------------------------------------------

  lemma EnqueueInv(s: State)
    requires Inv(s) && Enabled(s, Enqueue)
    ensures Inv(Step(s, Enqueue))
  {
    var r, id := Step(s, Enqueue), s.checking.value.0;
    AppendIs(s.queue, id);
    forall d | d in r.ws ensures Placed(r, d) {
      if d != id { assert Placed(s, d); }
    }
  }

  lemma DeliverInv(s: State, failure: Option<Fault>)
    requires Inv(s) && s.checking.None? && s.queue != [] && s.queue[0] in s.ws
    ensures Inv(Deliver0(s, failure))
  {
    var r, id := Deliver0(s, failure), s.queue[0];
    assert Placed(s, id);
    TailIs(s.queue);
    AppendIs(s.messages, id);
    forall d | d in r.ws ensures Placed(r, d) {
      assert Placed(s, d);
    }
  }

  lemma MarkInv(s: State, id: nat)
    requires Inv(s) && Enabled(s, Mark(id))
    ensures Inv(Step(s, Mark(id)))
  {
    var r := Step(s, Mark(id));
    forall d | d in r.ws ensures Placed(r, d) {
      assert Placed(s, d);
    }
  }

  lemma InterruptInv(s: State, id: nat)
    requires Inv(s) && Enabled(s, Interrupt(id))
    ensures Inv(Step(s, Interrupt(id)))
  {
    var r := Step(s, Interrupt(id));
    assert Placed(s, id);
    if s.ws[id].linked {
      RemoveIs(s.queue, Place(s.queue, id));
      AppendIs(s.ready, id);
      forall d | d in r.ws ensures Placed(r, d) {
        assert Placed(s, d);
      }
    }
  }

  lemma RunMessageInv(s: State, k: nat)
    requires Inv(s) && Enabled(s, RunMessage(k))
    ensures Inv(Step(s, RunMessage(k)))
  {
    var r, id := Step(s, RunMessage(k)), s.messages[k];
    assert Placed(s, id);
    RemoveIs(s.messages, k);
    AppendIs(s.ready, id);
    forall d | d in r.ws ensures Placed(r, d) {
      assert Placed(s, d);
    }
  }

  lemma ResumeInv(s: State, k: nat)
    requires Inv(s) && Enabled(s, Resume(k))
    ensures Inv(Step(s, Resume(k)))
  {
    var r, id := Step(s, Resume(k)), s.ready[k];
    assert Placed(s, id);
    RemoveIs(s.ready, k);
    forall d | d in r.ws ensures Placed(r, d) {
      assert Placed(s, d);
    }
  }

  /** Steps that touch neither a waiter nor a place. */
  lemma FlagInv(s: State, e: Event)
    requires Inv(s) && Enabled(s, e)
    requires e.Check? || e.GiveUp? || e.Stop? || e.Store? || e.Notified?
    ensures Inv(Step(s, e))
  {
    var r := Step(s, e);
    forall d | d in r.ws ensures Placed(r, d) {
      assert Placed(s, d);
    }
  }

  lemma StepInv(s: State, e: Event)
    requires Inv(s) && Enabled(s, e)
    ensures Inv(Step(s, e))
  {
    match e
    case Enqueue => EnqueueInv(s);
    case Prune => DeliverInv(s, Some(Canceled));
    case Deliver(failure) => DeliverInv(s, failure);
    case Mark(id) => MarkInv(s, id);
    case Interrupt(id) => InterruptInv(s, id);
    case RunMessage(k) => RunMessageInv(s, k);
    case Resume(k) => ResumeInv(s, k);
    case _ => FlagInv(s, e);
  }

  // ---- Runs ------------------------------------------------------------------

  predicate Legal(s: State, trace: seq<Event>)
    decreases |trace|, 0
  {
    trace == [] || (Legal(s, Init(trace)) && Enabled(Run(s, Init(trace)), Last(trace)))
  }

  function Run(s: State, trace: seq<Event>): State
    requires Legal(s, trace)
    decreases |trace|, 1
  {
    if trace == [] then s else Step(Run(s, Init(trace)), Last(trace))
  }

  function Init(trace: seq<Event>): seq<Event>
    requires trace != []
  {
    trace[..|trace| - 1]
  }

  function Last(trace: seq<Event>): Event
    requires trace != []
  {
    trace[|trace| - 1]
  }

  lemma {:induction false} RunInv(s: State, trace: seq<Event>)
    requires Inv(s) && Legal(s, trace)
    ensures Inv(Run(s, trace))
  {
    if trace != [] {
      RunInv(s, Init(trace));
      StepInv(Run(s, Init(trace)), Last(trace));
    }
  }

  /** In every state of every run a waiter is in exactly one place, has been sent at most
      one message and queued at most once, and whoever is about to be destroyed is
      neither linked nor active. */
  lemma ExactlyOnce(value: int, trace: seq<Event>, id: nat)
    requires Legal(Start(value), trace) && id in Run(Start(value), trace).ws
    ensures var s := Run(Start(value), trace); var w := s.ws[id];
            && w.sent <= 1 && w.notified <= 1
            && (w.notified == 1 <==> id in s.ready)
            && (id in s.queue || id in s.messages || id in s.ready)
            && !(id in s.queue && id in s.messages)
            && !(id in s.queue && id in s.ready)
            && !(id in s.messages && id in s.ready)
            && (id in s.ready ==> !w.linked && !w.active && w.verdict == Some(w.error))
  {
    RunInv(Start(value), trace);
    assert Placed(Run(Start(value), trace), id);
  }

  /** A store followed by its notification reaches every waiter that could not have seen
      it: once no storer is between its store and its notification, whoever is parked
      checked the value the atomic still has. */
  lemma NoMissedNotify(value: int, trace: seq<Event>, id: nat)
    requires Legal(Start(value), trace)
    requires var s := Run(Start(value), trace); s.storing == {} && id in s.ws && s.ws[id].linked
    ensures Run(Start(value), trace).ws[id].seen == Run(Start(value), trace).value
  {
    RunInv(Start(value), trace);
  }

  // ---- The outcome is fixed when a waiter is unlinked --------------------------

  /** A step leaves an unlinked waiter's error alone; if it destroys the waiter, it
      resumed it. */
  lemma StepKeepsVerdict(s: State, e: Event, id: nat)
    requires Inv(s) && Enabled(s, e) && id in s.ws && !s.ws[id].linked
    ensures var r := Step(s, e);
            if id in r.ws then !r.ws[id].linked && r.ws[id].error == s.ws[id].error
            else id in s.ready && e.Resume?
  {
    assert Placed(s, id);
    if (e.Prune? || e.Deliver?) && s.queue[0] == id { assert false; }
  }

  ghost predicate Stays(s: State, trace: seq<Event>, id: nat)
    requires Legal(s, trace)
  {
    id in Run(s, trace).ws && (trace != [] ==> Stays(s, Init(trace), id))
  }

  /** From its unlinking to its resumption no cancellation, stop, close or other
      delivery changes what a waiter will report. */
  lemma {:induction false} VerdictIsFinal(value: int, before: seq<Event>, after: seq<Event>, id: nat)
    requires Legal(Start(value), before)
    requires var s := Run(Start(value), before);
             id in s.ws && !s.ws[id].linked && Legal(s, after) && Stays(s, after, id)
    ensures var s := Run(Start(value), before);
            !Run(s, after).ws[id].linked && Run(s, after).ws[id].error == s.ws[id].error
  {
    var s := Run(Start(value), before);
    if after != [] {
      VerdictIsFinal(value, before, Init(after), id);
      RunInv(Start(value), before);
      RunInv(s, Init(after));
      StepKeepsVerdict(Run(s, Init(after)), Last(after), id);
    }
  }

  // ---- Nobody is lost, nobody is resumed twice ---------------------------------

  function Parked(trace: seq<Event>): nat
  {
    if trace == [] then 0 else Parked(Init(trace)) + (if Last(trace).Enqueue? then 1 else 0)
  }

  function Resumed(trace: seq<Event>): nat
  {
    if trace == [] then 0 else Resumed(Init(trace)) + (if Last(trace).Resume? then 1 else 0)
  }

  /** Everyone who parked has been resumed or is in one of the three places. */
  lemma {:induction false} Accounting(value: int, trace: seq<Event>)
    requires Legal(Start(value), trace)
    ensures var s := Run(Start(value), trace);
            Parked(trace) == Resumed(trace) + |s.queue| + |s.messages| + |s.ready|
  {
    if trace != [] {
      Accounting(value, Init(trace));
      RunInv(Start(value), Init(trace));
      StepAccounts(Run(Start(value), Init(trace)), Last(trace));
    }
  }

  function Held(s: State): nat
  {
    |s.queue| + |s.messages| + |s.ready|
  }

  lemma StepAccounts(s: State, e: Event)
    requires Inv(s) && Enabled(s, e)
    ensures Held(Step(s, e)) == Held(s) + (if e.Enqueue? then 1 else 0) - (if e.Resume? then 1 else 0)
  {
    match e
    case Interrupt(id) =>
      assert Placed(s, id);
    case RunMessage(k) => assert Placed(s, s.messages[k]);
    case _ =>
  }

  // ---- Notifying ---------------------------------------------------------------

  lemma RunSnoc(s: State, trace: seq<Event>, e: Event)
    requires Legal(s, trace) && Enabled(Run(s, trace), e)
    ensures Legal(s, trace + [e]) && Run(s, trace + [e]) == Step(Run(s, trace), e)
  {
    assert Init(trace + [e]) == trace;
  }

  ghost predicate Reaches(s: State, trace: seq<Event>, r: State)
  {
    Legal(s, trace) && r == Run(s, trace) && Inv(r)
  }

  ghost predicate FailedAsDoomed(r: State, id: nat)
  {
    id in r.ws && r.ws[id].verdict == Some(Some(Canceled)) && Doomed(r, r.ws[id])
  }

  ghost predicate Succeeded(r: State, id: nat)
  {
    id in r.ws && r.ws[id].verdict == Some(None)
  }

  /** The first n waiters of s have left, in order, with a message each. */
  ghost predicate Left(s: State, r: State, n: nat)
  {
    && n <= |s.queue| && r.queue == s.queue[n..] && r.messages == s.messages + s.queue[..n]
    && r.checking.None?
  }

  /** A step taken while a notifier holds the mutex. Flags only rise, and nobody already
      unlinked changes outcome. */
  method Advance(ghost s: State, t: State, ghost trace: seq<Event>, e: Event)
      returns (r: State, ghost longer: seq<Event>)
    requires Reaches(s, trace, t) && Enabled(t, e) && t.checking.None?
    requires e.Prune? || e == Deliver(None) || e.Mark? || e.Stop?
    ensures Reaches(s, longer, r) && r == Step(t, e)
    ensures forall id :: FailedAsDoomed(t, id) ==> FailedAsDoomed(r, id)
    ensures forall id :: Succeeded(t, id) ==> Succeeded(r, id)
  {
    hide Inv, Legal, Run, FailedAsDoomed, Succeeded;
    StepInv(t, e);
    RunSnoc(s, trace, e);
    forall id
      ensures FailedAsDoomed(t, id) ==> FailedAsDoomed(Step(t, e), id)
      ensures Succeeded(t, id) ==> Succeeded(Step(t, e), id)
    {
      OutcomeStays(t, e, id);
    }
    r, longer := Step(t, e), trace + [e];
  }

  lemma OutcomeStays(t: State, e: Event, id: nat)
    requires Inv(t) && Enabled(t, e) && (e.Prune? || e == Deliver(None) || e.Mark? || e.Stop?)
    ensures FailedAsDoomed(t, id) ==> FailedAsDoomed(Step(t, e), id)
    ensures Succeeded(t, id) ==> Succeeded(Step(t, e), id)
  {
    if id in t.ws && t.ws[id].verdict.Some? { assert Placed(t, id); }
  }

  /** Tokens fire and loops stop while the mutex is held. */
  method Interfere(ghost s: State, t: State, ghost trace: seq<Event>, ghost n: nat)
      returns (r: State, ghost longer: seq<Event>)
    requires Reaches(s, trace, t) && Left(s, t, n)
    ensures Reaches(s, longer, r) && Left(s, r, n)
    ensures forall id :: FailedAsDoomed(t, id) ==> FailedAsDoomed(r, id)
    ensures forall id :: Succeeded(t, id) ==> Succeeded(r, id)
  {
    hide Inv, Run, Legal, FailedAsDoomed, Succeeded;
    r, longer := t, trace;
    var steps: nat := *;
    while steps > 0
      invariant Reaches(s, longer, r) && Left(s, r, n)
      invariant forall id :: FailedAsDoomed(t, id) ==> FailedAsDoomed(r, id)
      invariant forall id :: Succeeded(t, id) ==> Succeeded(r, id)
    {
      steps := steps - 1;
      var x: nat := *;
      if * {
        r, longer := Advance(s, r, longer, Stop(x));
      } else if x in r.ws && r.ws[x].active {
        r, longer := Advance(s, r, longer, Mark(x));
      }
    }
  }

  /** Complete the head waiter: canceled if it was found dead, otherwise notified. */
  method Pop(ghost s: State, t: State, ghost trace: seq<Event>, ghost n: nat, e: Event)
      returns (r: State, ghost longer: seq<Event>)
    requires Reaches(s, trace, t) && Left(s, t, n) && t.queue != [] && Enabled(t, e)
    requires e == Prune || e == Deliver(None)
    ensures Reaches(s, longer, r) && Left(s, r, n + 1)
    ensures forall id :: FailedAsDoomed(t, id) ==> FailedAsDoomed(r, id)
    ensures forall id :: Succeeded(t, id) ==> Succeeded(r, id)
    ensures if e == Prune then FailedAsDoomed(r, s.queue[n]) else Succeeded(r, s.queue[n])
  {
    hide Inv, Run, Legal;
    r, longer := Advance(s, t, trace, e);
  }

  lemma HeadIsKnown(s: State, trace: seq<Event>, r: State)
    requires Reaches(s, trace, r)
    ensures r.queue != [] ==> r.queue[0] in r.ws
  {
  }

  /** Drop dead waiters from the head; the next one, if any, was alive when looked at. */
  method Front(ghost s: State, t: State, ghost trace: seq<Event>, ghost n: nat)
      returns (r: State, ghost longer: seq<Event>, ghost m: nat)
    requires Reaches(s, trace, t) && Left(s, t, n)
    ensures Reaches(s, longer, r) && n <= m && Left(s, r, m)
    ensures forall id :: FailedAsDoomed(t, id) ==> FailedAsDoomed(r, id)
    ensures forall id :: Succeeded(t, id) ==> Succeeded(r, id)
    ensures forall i :: n <= i < m ==> FailedAsDoomed(r, s.queue[i])
    ensures r.queue != [] ==> r.queue[0] in r.ws
  {
    hide Reaches, Doomed, FailedAsDoomed, Succeeded;
    r, longer, m := t, trace, n;
    HeadIsKnown(s, longer, r);
    while r.queue != [] && Doomed(r, r.ws[r.queue[0]])
      invariant Reaches(s, longer, r) && n <= m && Left(s, r, m)
      invariant forall id :: FailedAsDoomed(t, id) ==> FailedAsDoomed(r, id)
      invariant forall id :: Succeeded(t, id) ==> Succeeded(r, id)
      invariant forall i :: n <= i < m ==> FailedAsDoomed(r, s.queue[i])
      invariant r.queue != [] ==> r.queue[0] in r.ws
      decreases |r.queue|
    {
      r, longer := Pop(s, r, longer, m, Prune);
      m := m + 1;
      r, longer := Interfere(s, r, longer, m);
      HeadIsKnown(s, longer, r);
    }
  }

  lemma StartsHere(s: State)
    requires Inv(s) && s.checking.None?
    ensures Reaches(s, [], s) && Left(s, s, 0)
  {
  }

  /** How many waiters have been sent a message meanwhile. */
  function Woken(s: State, r: State): nat
    requires |s.messages| <= |r.messages|
  {
    |r.messages| - |s.messages|
  }

  /** Wake one waiter. Dead ones before it are failed; the notification itself always
      goes to a waiter that reports success, unless everybody parked was dead. */
  method NotifyOne(s: State) returns (r: State, ghost trace: seq<Event>)
    requires Inv(s) && s.checking.None?
    ensures Reaches(s, trace, r)
    ensures |s.messages| <= |r.messages| && Left(s, r, Woken(s, r))
    ensures forall i :: 0 <= i < Woken(s, r) - 1 ==> FailedAsDoomed(r, s.queue[i])
    ensures s.queue != [] ==>
      && Woken(s, r) > 0
      && var last := s.queue[Woken(s, r) - 1];
         Succeeded(r, last) || (r.queue == [] && FailedAsDoomed(r, last))
  {
    hide Inv, Reaches, Doomed, FailedAsDoomed, Succeeded;
    StartsHere(s);
    ghost var n;
    r, trace, n := Front(s, s, [], 0);
    if r.queue != [] {
      r, trace := Pop(s, r, trace, n, Deliver(None));
    }
  }

  /** Wake everybody, in the order they parked; only the dead report cancellation. */
  method NotifyAll(s: State) returns (r: State, ghost trace: seq<Event>)
    requires Inv(s) && s.checking.None?
    ensures Reaches(s, trace, r) && r.queue == [] && r.messages == s.messages + s.queue
    ensures forall i :: 0 <= i < |s.queue| ==> Succeeded(r, s.queue[i]) || FailedAsDoomed(r, s.queue[i])
  {
    hide Inv, Reaches, Doomed, FailedAsDoomed, Succeeded;
    StartsHere(s);
    ghost var n;
    r, trace, n := Front(s, s, [], 0);
    while r.queue != []
      invariant Reaches(s, trace, r) && Left(s, r, n) && (r.queue != [] ==> r.queue[0] in r.ws)
      invariant forall i :: 0 <= i < n ==> Succeeded(r, s.queue[i]) || FailedAsDoomed(r, s.queue[i])
      decreases |r.queue|
    {
      r, trace := Pop(s, r, trace, n, Deliver(None));
      r, trace, n := Front(s, r, trace, n + 1);
    }
  }

  // ---- One loop's inbox ---------------------------------------------------------

  ghost predicate Mine(s: State, id: nat, loop: nat)
  {
    id in s.messages && id in s.ws && s.ws[id].owner == loop
  }

  /** Waiters keep their owners, and the messages under way are the same. */
  ghost predicate SameMail(s: State, r: State)
  {
    && (forall id :: id in r.ws ==> id in s.ws && r.ws[id].owner == s.ws[id].owner)
    && (forall id, loop :: Mine(r, id, loop) <==> Mine(s, id, loop))
  }

  lemma NoMail(s: State, e: Event)
    requires Inv(s) && Enabled(s, e) && !e.Enqueue? && !e.Prune? && !e.Deliver? && !e.RunMessage?
    ensures SameMail(s, Step(s, e))
  {
    if e.Resume? { assert Placed(s, s.ready[e.k]); }
  }

  lemma ParkMail(s: State)
    requires Inv(s) && Enabled(s, Enqueue)
    ensures var r, id := Step(s, Enqueue), s.checking.value.0;
      && (forall d :: d in r.ws ==> d == id || (d in s.ws && r.ws[d].owner == s.ws[d].owner))
      && r.ws[id].owner == s.checking.value.1.owner
      && forall d, loop :: Mine(r, d, loop) <==> Mine(s, d, loop)
  {
  }

  lemma NewMail(s: State, failure: Option<Fault>)
    requires Inv(s) && s.checking.None? && s.queue != [] && s.queue[0] in s.ws
    ensures var r, id := Deliver0(s, failure), s.queue[0];
      && (forall d :: d in r.ws ==> d in s.ws && r.ws[d].owner == s.ws[d].owner) && !Mine(s, id, s.ws[id].owner)
      && forall d, loop :: Mine(r, d, loop) <==> Mine(s, d, loop) || (d == id && s.ws[id].owner == loop)
  {
    assert Placed(s, s.queue[0]);
  }

  lemma OpenMail(s: State, k: nat)
    requires Inv(s) && Enabled(s, RunMessage(k))
    ensures var r, id := Step(s, RunMessage(k)), s.messages[k];
      && (forall d :: d in r.ws ==> d in s.ws && r.ws[d].owner == s.ws[d].owner)
      && forall d, loop :: Mine(r, d, loop) <==> Mine(s, d, loop) && d != id
  {
    RemoveIs(s.messages, k);
  }

  /** The message queue of one loop, threaded through the message hooks of its waiters,
      beside the protocol above. A hook is pushed only when it is clear and on no queue,
      because a waiter is delivered once. */
  class Inbox {
    const loop: nat
    const queue: ReadyQueue
    var hooks: map<nat, Node>
    var s: State

    ghost predicate Hooked(t: State)
      reads this`hooks, queue`head, queue`tail, queue`nodes, queue.nodes`after, hooks.Values`after
    {
      && queue.Valid()
      && (forall id :: id in hooks ==> hooks[id].id == id)
      && (forall i :: 0 <= i < |queue.nodes| ==> queue.nodes[i].id in hooks && hooks[queue.nodes[i].id] == queue.nodes[i])
      && (forall id :: id in hooks ==> (hooks[id] in queue.nodes <==> Mine(t, id, loop)))
      && (forall id :: id in hooks && hooks[id] !in queue.nodes ==> hooks[id].after == null)
    }

    ghost predicate Valid()
      reads this, queue`head, queue`tail, queue`nodes, queue.nodes`after, hooks.Values`after
    {
      Inv(s) && Hooked(s) && forall id :: id in s.ws && s.ws[id].owner == loop ==> id in hooks
    }

    constructor (loop: nat, value: int)
      ensures Valid() && s == Start(value) && this.loop == loop && fresh(queue)
    {
      this.loop := loop;
      queue := new ReadyQueue();
      hooks := map[];
      s := Start(value);
    }

    /** A waiter of this loop brings its hook. */
    method Fit(id: nat, ghost t: State)
      requires Hooked(t) && !Mine(t, id, loop)
      modifies this`hooks
      ensures Hooked(t) && hooks.Keys == old(hooks).Keys + {id}
    {
      var n := new Node(id);
      hooks := hooks[id := n];
    }

    /** A waiter parks. */
    method Park()
      requires Valid() && Enabled(s, Enqueue)
      modifies this`hooks, this`s
      ensures Valid() && s == Step(old(s), Enqueue)
    {
      hide Inv, Hooked;
      EnqueueInv(s);
      ParkMail(s);
      var id := s.checking.value.0;
      if s.checking.value.1.owner == loop { Fit(id, s); }
      SameHooks(s, Step(s, Enqueue));
      s := Step(s, Enqueue);
    }

    lemma SameHooks(t: State, r: State)
      requires Hooked(t) && forall id :: Mine(r, id, loop) <==> Mine(t, id, loop)
      ensures Hooked(r)
    {
    }

    /** Queue a message. */
    method Push(id: nat, ghost t: State, ghost r: State)
      requires Hooked(t) && id in hooks && !Mine(t, id, loop)
      requires forall d :: Mine(r, d, loop) <==> Mine(t, d, loop) || d == id
      modifies queue`head, queue`tail, queue`nodes, hooks.Values`after
      ensures Hooked(r) && queue.nodes == old(queue.nodes) + [hooks[id]]
    {
      queue.Push(hooks[id]);
    }

    /** The head waiter is delivered: if it belongs to this loop, its message is queued. */
    method Send(e: Event)
      requires Valid() && Enabled(s, e) && (e.Prune? || e.Deliver?)
      modifies this`s, queue`head, queue`tail, queue`nodes, hooks.Values`after
      ensures Valid() && s == Step(old(s), e)
      ensures queue.nodes ==
              if old(s.ws[s.queue[0]].owner) == loop then old(queue.nodes) + [hooks[old(s.queue[0])]] else old(queue.nodes)
    {
      hide Inv, Hooked, Mine;
      var id := s.queue[0];
      NewMail(s, if e.Prune? then Some(Canceled) else e.failure);
      StepInv(s, e);
      if s.ws[id].owner == loop { Push(id, s, Step(s, e)); } else { SameHooks(s, Step(s, e)); }
      s := Step(s, e);
    }

    /** Take the oldest message. */
    method Pop(ghost t: State) returns (id: nat)
      requires Hooked(t) && queue.nodes != []
      modifies queue`head, queue`tail, queue`nodes, hooks.Values`after
      ensures id == old(queue.nodes)[0].id && queue.nodes == old(queue.nodes)[1..] && Mine(t, id, loop)
      ensures forall r :: (forall d :: Mine(r, d, loop) <==> Mine(t, d, loop) && d != id) ==> Hooked(r)
    {
      assert hooks[queue.nodes[0].id] == queue.nodes[0] && Mine(t, queue.nodes[0].id, loop);
      var n := queue.Pop();
      id := n.id;
    }

    /** The loop takes its oldest message and notifies the waiter. */
    method Receive() returns (id: nat, ghost k: nat)
      requires Valid() && queue.nodes != []
      modifies this`s, queue`head, queue`tail, queue`nodes, hooks.Values`after
      ensures Valid() && id == old(queue.nodes)[0].id && queue.nodes == old(queue.nodes)[1..]
      ensures k < |old(s).messages| && old(s).messages[k] == id
      ensures Enabled(old(s), RunMessage(k)) && s == Step(old(s), RunMessage(k))
    {
      hide Inv, Hooked;
      id := Pop(s);
      var place := Place(s.messages, id);
      k := place;
      OpenMail(s, k);
      StepInv(s, RunMessage(k));
      s := Step(s, RunMessage(place));
    }

    /** Anything else, here or on other loops. */
    method Elsewhere(e: Event)
      requires Valid() && Enabled(s, e) && !e.Enqueue? && !e.Prune? && !e.Deliver?
      requires e.RunMessage? ==> s.ws[s.messages[e.k]].owner != loop
      modifies this`s
      ensures Valid() && s == Step(old(s), e)
    {
      hide Inv, Hooked;
      if e.RunMessage? { OpenMail(s, e.k); } else { NoMail(s, e); }
      StepInv(s, e);
      SameHooks(s, Step(s, e));
      s := Step(s, e);
    }
  }
}
