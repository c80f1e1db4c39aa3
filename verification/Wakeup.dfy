/** The loop's wait and its producers.

    Posts and messages are published and, only on the empty-to-nonempty edge, followed
    by a wake, all under the loop's mutex: one step each. Cancellation and keep-alive
    release publish first and wake later, without the mutex: two steps, with the thread
    in `waking` in between. The owner takes all posts but only a bounded batch of
    messages, clears the cancel flag, looks once more at both queues, and then waits;
    only the end of a poll that saw the wake poll fire resets the event counter. */
module Wakeup {

  /** Where the owner thread is in one turn of its loop. `Checked` and `Waiting` carry
      what it saw: whether it may wait without bound, whether nothing but a keep-alive
      guard holds it there, whether native requests are pending, whose completions may
      end the wait too, and whether parked waits or unfinished roots are. */
  datatype Phase =
    | Top
    | Detached
    | Expired
    | Checked(posted: bool)
    | Waiting(unbounded: bool, idle: bool, busy: bool, parked: bool)

  datatype State = State(
    phase: Phase, posts: nat, messages: nat, cancel: bool, holds: nat, stopped: bool,
    waking: set<nat>, event: bool, armed: bool, queued: bool, drains: bool)

  datatype Event =
    // producers, on any thread
    | Post
    | Send
    | RaiseCancel(thread: nat, stop: bool)
    | Hold
    | Release(thread: nat)
    | FinishWake(thread: nat)
    // the owner
    | Detach(budget: nat)
    | Expire
    | Check
    | Wait(ready: bool, timers: bool, busy: bool, parked: bool)
    | Skip(ready: bool)
    | Return(seen: bool, drains: bool)
    | Interrupted
    | Drain
    // the kernel
    | Fire

  function Start(): State
  {
    State(Top, 0, 0, false, 0, false, {}, false, true, false, false)
  }

  predicate Pending(s: State)
  {
    s.posts > 0 || s.messages > 0
  }

  predicate Enabled(s: State, e: Event)
  {
    match e
    case Post => true
    case Send => true
    case RaiseCancel(t, _) => t !in s.waking
    case Hold => true
    case Release(t) => t !in s.waking && s.holds > 0
    case FinishWake(t) => t in s.waking
    case Detach(budget) => s.phase.Top? && budget > 0
    case Expire => s.phase.Detached?
    case Check => s.phase.Expired?
    case Wait(ready, timers, busy, parked) => s.phase.Checked? && Stays(s, ready, timers, busy, parked)
    case Skip(ready) => s.phase.Checked? && (ready || s.phase.posted)
    case Return(seen, drains) =>
      s.phase.Waiting? && (if seen then s.queued else !s.phase.unbounded || s.phase.busy) && (drains ==> s.drains)
    case Interrupted => s.phase.Waiting?
    case Drain => s.phase.Detached? || s.phase.Expired?
    case Fire => s.armed && s.event
  }

  /** Work is left, or a guard keeps a loop that is not stopped; otherwise `run` exits. */
  predicate Stays(s: State, ready: bool, timers: bool, busy: bool, parked: bool)
    requires s.phase.Checked?
  {
    ready || timers || busy || parked || s.phase.posted || (s.holds > 0 && !s.stopped)
  }

  function Step(s: State, e: Event): State
    requires Enabled(s, e)
  {
    match e
    case Post => s.(posts := s.posts + 1, event := s.event || s.posts == 0)
    case Send => s.(messages := s.messages + 1, event := s.event || s.messages == 0)
    case RaiseCancel(t, stop) => s.(cancel := true, stopped := s.stopped || stop, waking := s.waking + {t})
    case Hold => s.(holds := s.holds + 1)
    case Release(t) => s.(holds := s.holds - 1, waking := s.waking + {t})
    case FinishWake(t) => s.(event := true, waking := s.waking - {t})
    case Detach(budget) =>
      s.(phase := Detached, posts := 0, messages := if s.messages <= budget then 0 else s.messages - budget)
    case Expire => s.(phase := Expired, cancel := false)
    case Check => s.(phase := Checked(Pending(s)))
    case Wait(ready, timers, busy, parked) =>
      if ready || s.phase.posted then s.(phase := Waiting(false, false, busy, parked))
      else s.(phase := Waiting(!timers && !s.drains, !timers && !busy && !parked, busy, parked))
    case Skip(_) => s.(phase := Top)
    case Return(seen, drains) => Returned(s, seen, drains)
    case Interrupted => Returned(s, false, s.drains)
    case Drain => s.(drains := true)
    case Fire => s.(armed := false, queued := true)
  }

  /** The end of a poll, with or without completions; an unbounded one ends for a
      completion, be it the wake poll's or another request's, or for a signal. A wake
      found in the batch is consumed together with the event counter, and the wake poll
      is armed again unless DRAIN requests suppress it. */
  function Returned(s: State, seen: bool, drains: bool): State
  {
    var r := if seen then s.(queued := false, event := false) else s;
    r.(phase := Top, drains := drains, armed := r.armed || (!r.queued && !drains))
  }

  // ---- The invariant ---------------------------------------------------------

  /** A wake is on its way: the counter is set, the wake poll has fired, or some thread
      is still between publishing and waking. */
  ghost predicate WakeComing(s: State)
  {
    s.event || s.waking != {}
  }

  ghost predicate Inv(s: State)
  {
    && (s.queued ==> s.event && !s.armed)
    // after the cancel flag was cleared, whoever raised it again also wakes
    && ((s.phase.Expired? || s.phase.Checked? || s.phase.Waiting?) && s.cancel ==> WakeComing(s))
    // after the queues were seen empty, whoever filled one has woken
    && (((s.phase.Checked? && !s.phase.posted) || (s.phase.Waiting? && s.phase.unbounded)) && Pending(s) ==> s.event)
    // a loop waiting only for its guards learns of the last release and of a stop
    && (s.phase.Waiting? && s.phase.unbounded && s.phase.idle && (s.holds == 0 || s.stopped) ==> WakeComing(s))
    // an unbounded wait can be ended by the kernel
    && (s.phase.Waiting? && s.phase.unbounded ==> s.armed || s.queued)
    && (s.armed || s.queued || s.drains)
  }

  lemma StepInv(s: State, e: Event)
    requires Inv(s) && Enabled(s, e)
    ensures Inv(Step(s, e))
  {
    if Produces(e) { ProducerInv(s, e); } else if Ends(e) { PollInv(s, e); } else { OwnerInv(s, e); }
  }

  /** Steps of other threads. */
  predicate Produces(e: Event)
  {
    e.Post? || e.Send? || e.RaiseCancel? || e.Hold? || e.Release? || e.FinishWake?
  }

  lemma ProducerInv(s: State, e: Event)
    requires Inv(s) && Enabled(s, e) && Produces(e)
    ensures Inv(Step(s, e))
  {
    match e
    case RaiseCancel(t, _) => assert t in Step(s, e).waking;
    case Release(t) => assert t in Step(s, e).waking;
    case FinishWake(t) => assert Step(s, e).event;
    case _ =>
  }

  /** The end of a poll. */
  predicate Ends(e: Event)
  {
    e.Return? || e.Interrupted?
  }

  lemma PollInv(s: State, e: Event)
    requires Inv(s) && Enabled(s, e) && Ends(e)
    ensures Inv(Step(s, e))
  {
  }

  lemma OwnerInv(s: State, e: Event)
    requires Inv(s) && Enabled(s, e) && !Produces(e) && !Ends(e)
    ensures Inv(Step(s, e))
  {
  }

  ghost predicate Legal(trace: seq<Event>)
    decreases |trace|, 0
  {
    trace == [] || (Legal(trace[..|trace| - 1]) && Enabled(Run(trace[..|trace| - 1]), trace[|trace| - 1]))
  }

  ghost function Run(trace: seq<Event>): State
    requires Legal(trace)
    decreases |trace|, 1
  {
    if trace == [] then Start() else Step(Run(trace[..|trace| - 1]), trace[|trace| - 1])
  }

  lemma {:induction false} RunInv(trace: seq<Event>)
    requires Legal(trace)
    ensures Inv(Run(trace))
    decreases |trace|
  {
    if trace != [] {
      RunInv(trace[..|trace| - 1]);
      StepInv(Run(trace[..|trace| - 1]), trace[|trace| - 1]);
    }
  }

  /** No lost wakeup, for any number of producers and any interleaving: a loop in an
      unbounded wait while work is published has a wake coming, and the kernel is ready
      to report it. */
  lemma NoLostWakeup(trace: seq<Event>)
    requires Legal(trace) && Run(trace).phase.Waiting? && Run(trace).phase.unbounded
    ensures var s := Run(trace);
      && (Pending(s) ==> s.event)
      && (s.cancel ==> WakeComing(s))
      && (s.phase.idle && (s.holds == 0 || s.stopped) ==> WakeComing(s))
      && (s.armed || s.queued)
  {
    RunInv(trace);
  }

  /** How far a wait is from seeing the wake: some thread has yet to wake, the wake poll
      has yet to fire, or its completion is there to be seen. */
  function Distance(s: State): nat
  {
    if s.queued then 0 else if s.event then 1 else 2
  }

  /** What was published is still there. */
  ghost predicate Retained(s: State, r: State)
  {
    s.posts <= r.posts && s.messages <= r.messages && (s.cancel ==> r.cancel) && (s.stopped ==> r.stopped)
  }

  /** A wait without bound that has a wake coming. */
  ghost predicate Woken(s: State)
  {
    Inv(s) && s.phase.Waiting? && s.phase.unbounded && WakeComing(s)
  }

  /** Nothing that happens during such a wait takes it further from its end, and nothing
      published is lost. */
  lemma WaitStep(s: State, e: Event)
    requires Woken(s) && Enabled(s, e) && !Ends(e)
    ensures var r := Step(s, e);
      Woken(r) && r.phase == s.phase && Retained(s, r) && Distance(r) <= Distance(s)
  {
    StepInv(s, e);
    if e.RaiseCancel? || e.Release? { assert e.thread in Step(s, e).waking; }
  }

  /** Before the wake can be seen, some thread or the kernel can bring it nearer. */
  lemma Progress(s: State) returns (e: Event)
    requires Woken(s) && Distance(s) > 0
    ensures (e.FinishWake? || e.Fire?) && Enabled(s, e) && Distance(Step(s, e)) == Distance(s) - 1
  {
    if s.event {
      e := Fire;
    } else {
      var t :| t in s.waking;
      e := FinishWake(t);
    }
  }

  /** No lost wakeup, as progress. Take any run into an unbounded wait during which work
      is published, and any continuation in which the wait has not ended. The work is
      still there, the distance to the end of the wait has not grown, and either the wait
      can end by seeing the wake, or a step that only a waking thread or the kernel can
      take is enabled and brings the end nearer. */
  lemma WaitEnds(trace: seq<Event>, es: seq<Event>) returns (e: Event)
    requires Legal(trace)
    requires var s := Run(trace);
      && s.phase.Waiting? && s.phase.unbounded
      && (Pending(s) || s.cancel || (s.phase.idle && (s.holds == 0 || s.stopped)))
      && Steps(s, es) && forall i :: 0 <= i < |es| ==> !Ends(es[i])
    ensures var s := Run(trace); var r := After(s, es);
      && r.phase == s.phase && Retained(s, r) && Distance(r) <= Distance(s) <= 2
      && Enabled(r, e)
      && if Distance(r) == 0 then e == Return(true, r.drains) && Step(r, e).phase.Top? && Retained(r, Step(r, e))
         else (e.FinishWake? || e.Fire?) && Distance(Step(r, e)) == Distance(r) - 1
  {
    RunInv(trace);
    var s := Run(trace);
    WaitGoesOn(s, es);
    var r := After(s, es);
    if Distance(r) == 0 {
      e := Return(true, r.drains);
    } else {
      e := Progress(r);
    }
  }

  lemma {:induction false} WaitGoesOn(s: State, es: seq<Event>)
    requires Woken(s) && Steps(s, es) && forall i :: 0 <= i < |es| ==> !Ends(es[i])
    ensures var r := After(s, es);
      Woken(r) && r.phase == s.phase && Retained(s, r) && Distance(r) <= Distance(s)
    decreases |es|
  {
    if es != [] {
      WaitStep(s, es[0]);
      WaitGoesOn(Step(s, es[0]), es[1..]);
    }
  }

  /** A finite continuation of a state. */
  ghost predicate Steps(s: State, es: seq<Event>)
    decreases |es|
  {
    es == [] || (Enabled(s, es[0]) && Steps(Step(s, es[0]), es[1..]))
  }

  ghost function After(s: State, es: seq<Event>): State
    requires Steps(s, es)
    decreases |es|
  {
    if es == [] then s else After(Step(s, es[0]), es[1..])
  }
}
