/** Lifetime of native requests on the io_uring backend.

    A request is referenced by its own submission, which may complete many times before
    its final completion, and by at most one cancel submission. Completions arrive in
    any order and are handled in batches; a request is retired, and its memory may be
    reused, only when nothing the kernel holds or has posted can still name it.

    The kernel is the environment. `main` and `cancel` are the requests for which it
    may still post something, `cq` is what it has posted and we have not handled. A
    request is named by its address, and an address may be reused once retired. The
    list of pending requests is the map `io`. */
module Uring {

  datatype Io = Io(done: bool, canceling: bool, cancelSent: bool, draining: bool)

  datatype Cqe =
    | Wake
    | Main(id: nat, more: bool)
    | Cancel(id: nat)

  datatype Ring = Ring(
    io: map<nat, Io>, drains: nat, watching: bool, waking: bool, polling: bool, wakeSeen: bool,
    main: set<nat>, cancel: set<nat>, armed: bool, cq: seq<Cqe>)

  /** What the owner thread and the kernel do. Between `Begin` and `End` a poll handles
      any number of completions; user callbacks may submit and cancel meanwhile. */
  datatype Event =
    | Submit(id: nat, drain: bool)
    | Request(id: nat)
    | PostMain(id: nat, more: bool)
    | PostCancel(id: nat)
    | PostWake
    | Begin
    | Handle
    | End

  function Fresh(): Ring
  {
    Ring(map[], 0, true, false, false, false, {}, {}, true, [])
  }

  predicate Enabled(s: Ring, e: Event)
  {
    match e
    case Submit(id, _) => id !in s.io
    case Request(id) => id in s.io && !s.io[id].cancelSent
    case PostMain(id, _) => id in s.main
    case PostCancel(id) => id in s.cancel
    case PostWake => s.armed
    case Begin => !s.polling
    case Handle => s.polling && s.cq != []
    case End => s.polling
  }

  function Step(s: Ring, e: Event): Ring
    requires Enabled(s, e)
  {
    match e
    case Submit(id, drain) =>
      s.(io := s.io[id := Io(false, false, false, drain)], main := s.main + {id},
         drains := if drain then s.drains + 1 else s.drains,
         waking := s.waking || (drain && s.watching))
    case Request(id) =>
      s.(io := s.io[id := s.io[id].(canceling := true, cancelSent := true)], cancel := s.cancel + {id})
    case PostMain(id, more) =>
      s.(cq := s.cq + [Main(id, more)], main := if more then s.main else s.main - {id})
    case PostCancel(id) => s.(cq := s.cq + [Cancel(id)], cancel := s.cancel - {id})
    case PostWake => s.(cq := s.cq + [Wake], armed := false)
    case Begin => s.(polling := true)
    case Handle => Handled(s)
    case End => Ended(s)
  }

  /** A seen wake disarms the wake poll, which is then armed again unless DRAIN
      requests suppress it. */
  function Ended(s: Ring): Ring
  {
    var r := if s.wakeSeen then s.(watching := false, waking := false, wakeSeen := false) else s;
    var r := if !r.watching && r.drains == 0 then r.(watching := true, armed := true) else r;
    r.(polling := false)
  }

  /** The request a completion names, if any, together with its new flags. */
  function Flagged(io: Io, c: Cqe): Io
    requires !c.Wake?
  {
    if c.Cancel? then io.(canceling := false) else io.(done := !c.more)
  }

  /** Take the oldest completion, update its request, and retire the request when its
      main completion is final and no cancel completion is outstanding. A completion
      that names no listed request would be an access to freed memory. */
  function Handled(s: Ring): Ring
    requires s.cq != []
  {
    var c, r := s.cq[0], s.(cq := s.cq[1..]);
    if c.Wake? then r.(wakeSeen := true)
    else if c.id !in s.io then r
    else
      var io := Flagged(s.io[c.id], c);
      if io.done && !io.canceling then
        r.(io := r.io - {c.id}, drains := if io.draining && r.drains > 0 then r.drains - 1 else r.drains)
      else r.(io := r.io[c.id := io])
  }

  // ---- The invariant ---------------------------------------------------------

  predicate Names(c: Cqe, id: nat)
  {
    !c.Wake? && c.id == id
  }

  predicate IsMain(c: Cqe, id: nat)
  {
    c.Main? && c.id == id
  }

  ghost predicate NoMain(cq: seq<Cqe>, id: nat)
  {
    forall i :: 0 <= i < |cq| ==> !IsMain(cq[i], id)
  }

  ghost predicate HasFinal(cq: seq<Cqe>, id: nat)
  {
    exists i :: 0 <= i < |cq| && IsMain(cq[i], id) && !cq[i].more
  }

  /** Nothing follows a final completion. */
  ghost predicate Proper(cq: seq<Cqe>, id: nat)
  {
    forall i, j :: 0 <= i < j < |cq| && IsMain(cq[i], id) && IsMain(cq[j], id) ==> cq[i].more
  }

  ghost predicate HasCancel(cq: seq<Cqe>, id: nat)
  {
    exists i :: 0 <= i < |cq| && cq[i] == Cancel(id)
  }

  ghost predicate OneCancel(cq: seq<Cqe>, id: nat)
  {
    forall i, j :: 0 <= i < j < |cq| ==> !(cq[i] == Cancel(id) && cq[j] == Cancel(id))
  }

  /** Something the kernel holds or has posted can still name the request. */
  ghost predicate Referenced(s: Ring, id: nat)
  {
    id in s.main || id in s.cancel || exists i :: 0 <= i < |s.cq| && Names(s.cq[i], id)
  }

  ghost predicate MainOk(s: Ring, id: nat)
    requires id in s.io
  {
    if s.io[id].done then id !in s.main && NoMain(s.cq, id) && s.io[id].canceling
    else Proper(s.cq, id) && (id in s.main <==> !HasFinal(s.cq, id))
  }

  ghost predicate CancelOk(s: Ring, id: nat)
    requires id in s.io
  {
    && OneCancel(s.cq, id) && (id in s.cancel ==> !HasCancel(s.cq, id))
    && (s.io[id].canceling <==> id in s.cancel || HasCancel(s.cq, id))
    && (s.io[id].canceling ==> s.io[id].cancelSent)
  }

  ghost function Draining(io: map<nat, Io>): set<nat>
  {
    set id | id in io && io[id].draining
  }

  ghost predicate Inv(s: Ring)
  {
    && (forall id :: id !in s.io ==> !Referenced(s, id))
    && (forall id :: id in s.io ==> MainOk(s, id) && CancelOk(s, id))
    && s.drains == |Draining(s.io)|
    && WakeOk(s)
  }

  /** The wake poll is in the kernel, in the queue or just seen, exactly while it counts
      as armed; between polls it is armed unless DRAIN requests are pending. */
  ghost predicate WakeOk(s: Ring)
  {
    && (s.watching <==> s.armed || HasWake(s.cq) || s.wakeSeen)
    && !(s.armed && HasWake(s.cq)) && !(s.armed && s.wakeSeen) && !(s.wakeSeen && HasWake(s.cq))
    && OneWake(s.cq)
    && (s.wakeSeen ==> s.polling)
    && (!s.polling ==> s.watching || s.drains > 0)
  }

  ghost predicate OneWake(cq: seq<Cqe>)
  {
    forall i, j :: 0 <= i < j < |cq| ==> !(cq[i].Wake? && cq[j].Wake?)
  }

  ghost predicate HasWake(cq: seq<Cqe>)
  {
    exists i :: 0 <= i < |cq| && cq[i].Wake?
  }

  /** A listed request is exactly one that can still be named: it is retired at the
      moment its last reference is handled, neither earlier nor later. */
  lemma ListedIffReferenced(s: Ring, id: nat)
    requires Inv(s)
    ensures id in s.io <==> Referenced(s, id)
  {
    if id in s.io {
      assert MainOk(s, id) && CancelOk(s, id);
      if s.io[id].done {
        if HasCancel(s.cq, id) {
          var i :| 0 <= i < |s.cq| && s.cq[i] == Cancel(id);
          assert Names(s.cq[i], id);
        }
      } else if id !in s.main {
        var i :| 0 <= i < |s.cq| && IsMain(s.cq[i], id) && !s.cq[i].more;
        assert Names(s.cq[i], id);
      }
    }
  }

  // ---- Every event keeps it --------------------------------------------------

  lemma SubmitInv(s: Ring, id: nat, drain: bool)
    requires Inv(s) && Enabled(s, Submit(id, drain))
    ensures Inv(Step(s, Submit(id, drain)))
  {
    var r := Step(s, Submit(id, drain));
    assert !Referenced(s, id);
    forall d | d in r.io
      ensures MainOk(r, d) && CancelOk(r, d)
    {
      if d == id {
        forall i | 0 <= i < |s.cq| ensures !IsMain(s.cq[i], id) && s.cq[i] != Cancel(id) {
          assert !Names(s.cq[i], id);
        }
      } else {
        assert MainOk(s, d) && CancelOk(s, d);
      }
    }
    forall d | d !in r.io
      ensures !Referenced(r, d)
    {
      assert !Referenced(s, d);
    }
    assert Draining(r.io) == if drain then Draining(s.io) + {id} else Draining(s.io);
  }

  lemma RequestInv(s: Ring, id: nat)
    requires Inv(s) && Enabled(s, Request(id))
    ensures Inv(Step(s, Request(id)))
  {
    var r := Step(s, Request(id));
    assert MainOk(s, id) && CancelOk(s, id);
    forall d | d in r.io
      ensures MainOk(r, d) && CancelOk(r, d)
    {
      assert MainOk(s, d) && CancelOk(s, d);
    }
    forall d | d !in r.io
      ensures !Referenced(r, d)
    {
      assert !Referenced(s, d);
    }
    assert Draining(r.io) == Draining(s.io);
  }

  lemma PostMainInv(s: Ring, id: nat, more: bool)
    requires Inv(s) && Enabled(s, PostMain(id, more))
    ensures Inv(Step(s, PostMain(id, more)))
  {
    var r := Step(s, PostMain(id, more));
    assert id in s.io by { assert Referenced(s, id); }
    forall d | d in r.io
      ensures MainOk(r, d) && CancelOk(r, d)
    {
      assert MainOk(s, d) && CancelOk(s, d);
      MainAppended(s.cq, d, Main(id, more));
      CancelAppended(s.cq, d, Main(id, more));
    }
    OthersUnnamed(s, r, Main(id, more));
    WakeAppended(s.cq, Main(id, more));
  }

  lemma PostCancelInv(s: Ring, id: nat)
    requires Inv(s) && Enabled(s, PostCancel(id))
    ensures Inv(Step(s, PostCancel(id)))
  {
    var r := Step(s, PostCancel(id));
    assert id in s.io by { assert Referenced(s, id); }
    forall d | d in r.io
      ensures MainOk(r, d) && CancelOk(r, d)
    {
      assert MainOk(s, d) && CancelOk(s, d);
      MainAppended(s.cq, d, Cancel(id));
      CancelAppended(s.cq, d, Cancel(id));
    }
    OthersUnnamed(s, r, Cancel(id));
    WakeAppended(s.cq, Cancel(id));
  }

  lemma PostWakeInv(s: Ring)
    requires Inv(s) && Enabled(s, PostWake)
    ensures Inv(Step(s, PostWake))
  {
    var r := Step(s, PostWake);
    forall d | d in r.io
      ensures MainOk(r, d) && CancelOk(r, d)
    {
      assert MainOk(s, d) && CancelOk(s, d);
      MainAppended(s.cq, d, Wake);
      CancelAppended(s.cq, d, Wake);
    }
    OthersUnnamed(s, r, Wake);
    WakeAppended(s.cq, Wake);
  }

  lemma OthersUnnamed(s: Ring, r: Ring, c: Cqe)
    requires forall id :: id !in s.io ==> !Referenced(s, id)
    requires r.io == s.io && r.cq == s.cq + [c] && r.main <= s.main && r.cancel <= s.cancel
    requires c.Wake? || c.id in s.io
    ensures forall id :: id !in r.io ==> !Referenced(r, id)
  {
    forall id | id !in r.io
      ensures !Referenced(r, id)
    {
      assert !Referenced(s, id);
      forall i | 0 <= i < |r.cq| ensures !Names(r.cq[i], id) {
        if i < |s.cq| { assert r.cq[i] == s.cq[i]; }
      }
    }
  }

  lemma MainAppended(cq: seq<Cqe>, id: nat, c: Cqe)
    ensures HasFinal(cq + [c], id) <==> HasFinal(cq, id) || (IsMain(c, id) && !c.more)
    ensures Proper(cq, id) && (IsMain(c, id) ==> !HasFinal(cq, id)) ==> Proper(cq + [c], id)
    ensures NoMain(cq, id) && !IsMain(c, id) ==> NoMain(cq + [c], id)
  {
    var r := cq + [c];
    if HasFinal(cq, id) {
      var i :| 0 <= i < |cq| && IsMain(cq[i], id) && !cq[i].more;
      assert r[i] == cq[i];
    }
    assert r[|cq|] == c;
  }

  lemma CancelAppended(cq: seq<Cqe>, id: nat, c: Cqe)
    ensures HasCancel(cq + [c], id) <==> HasCancel(cq, id) || c == Cancel(id)
    ensures OneCancel(cq, id) && !(HasCancel(cq, id) && c == Cancel(id)) ==> OneCancel(cq + [c], id)
  {
    var r := cq + [c];
    if HasCancel(cq, id) {
      var i :| 0 <= i < |cq| && cq[i] == Cancel(id);
      assert r[i] == cq[i];
    }
    assert r[|cq|] == c;
  }

  lemma WakeAppended(cq: seq<Cqe>, c: Cqe)
    ensures HasWake(cq + [c]) <==> HasWake(cq) || c.Wake?
  {
    var r := cq + [c];
    if HasWake(cq) {
      var i :| 0 <= i < |cq| && cq[i].Wake?;
      assert r[i] == cq[i];
    }
    assert r[|cq|] == c;
  }

  /** A completion taken from the queue names a request that is still listed. */
  lemma HandledIsListed(s: Ring)
    requires Inv(s) && s.cq != [] && !s.cq[0].Wake?
    ensures s.cq[0].id in s.io
  {
    assert Names(s.cq[0], s.cq[0].id);
  }

  lemma TailFacts(cq: seq<Cqe>, id: nat)
    requires cq != []
    ensures HasFinal(cq, id) <==> HasFinal(cq[1..], id) || (IsMain(cq[0], id) && !cq[0].more)
    ensures Proper(cq, id) ==> Proper(cq[1..], id)
    ensures Proper(cq, id) && IsMain(cq[0], id) && !cq[0].more ==> NoMain(cq[1..], id)
    ensures NoMain(cq, id) ==> NoMain(cq[1..], id) && !IsMain(cq[0], id)
    ensures HasCancel(cq, id) <==> HasCancel(cq[1..], id) || cq[0] == Cancel(id)
    ensures OneCancel(cq, id) ==> OneCancel(cq[1..], id)
    ensures OneCancel(cq, id) && cq[0] == Cancel(id) ==> !HasCancel(cq[1..], id)
    ensures HasWake(cq) <==> HasWake(cq[1..]) || cq[0].Wake?
  {
    var t := cq[1..];
    assert forall i :: 0 <= i < |t| ==> t[i] == cq[i + 1];
    if HasFinal(cq, id) && !(IsMain(cq[0], id) && !cq[0].more) {
      var i :| 0 <= i < |cq| && IsMain(cq[i], id) && !cq[i].more;
      assert t[i - 1] == cq[i];
    }
    if HasCancel(cq, id) && cq[0] != Cancel(id) {
      var i :| 0 <= i < |cq| && cq[i] == Cancel(id);
      assert t[i - 1] == cq[i];
    }
    if HasWake(cq) && !cq[0].Wake? {
      var i :| 0 <= i < |cq| && cq[i].Wake?;
      assert t[i - 1] == cq[i];
    }
  }

  /** The handled request satisfies its invariant, or nothing names it any more. */
  lemma HandledOne(s: Ring)
    requires Inv(s) && Enabled(s, Handle) && !s.cq[0].Wake?
    ensures var r, id := Handled(s), s.cq[0].id;
      if id in r.io then MainOk(r, id) && CancelOk(r, id) else !Referenced(r, id)
  {
    var r, id := Handled(s), s.cq[0].id;
    HandledIsListed(s);
    assert MainOk(s, id) && CancelOk(s, id);
    TailFacts(s.cq, id);
    if id !in r.io {
      assert NoMain(r.cq, id) && !HasCancel(r.cq, id) && id !in r.main && id !in r.cancel;
      forall i | 0 <= i < |r.cq| ensures !Names(r.cq[i], id) {
        assert !IsMain(r.cq[i], id) && r.cq[i] != Cancel(id);
      }
    }
  }

  lemma HandledOther(s: Ring, d: nat)
    requires Enabled(s, Handle) && (s.cq[0].Wake? || s.cq[0].id != d)
    requires if d in s.io then MainOk(s, d) && CancelOk(s, d) else !Referenced(s, d)
    ensures var r := Handled(s);
      && (d in r.io <==> d in s.io)
      && if d in r.io then MainOk(r, d) && CancelOk(r, d) else !Referenced(r, d)
  {
    hide Proper, HasFinal, NoMain, HasCancel, OneCancel;
    var r := Handled(s);
    TailFacts(s.cq, d);
    if d !in r.io {
      forall i | 0 <= i < |r.cq| ensures !Names(r.cq[i], d) {
        assert r.cq[i] == s.cq[i + 1];
      }
    }
  }

  lemma HandledDrains(s: Ring)
    requires Enabled(s, Handle) && s.drains == |Draining(s.io)| && (s.cq[0].Wake? || s.cq[0].id in s.io)
    ensures Handled(s).drains == |Draining(Handled(s).io)|
  {
    var r, c := Handled(s), s.cq[0];
    if !c.Wake? {
      DrainingAfter(s.io, c.id, Flagged(s.io[c.id], c));
    }
  }

  lemma DrainingAfter(io: map<nat, Io>, id: nat, x: Io)
    requires id in io && x.draining == io[id].draining
    ensures Draining(io[id := x]) == Draining(io)
    ensures Draining(io - {id}) == Draining(io) - {id} && (id in Draining(io) <==> x.draining)
  {
  }

  lemma HandledInv(s: Ring)
    requires Inv(s) && Enabled(s, Handle)
    ensures Inv(Handled(s))
  {
    var r := Handled(s);
    if !s.cq[0].Wake? {
      HandledIsListed(s);
      HandledOne(s);
    }
    HandledDrains(s);
    forall d | s.cq[0].Wake? || d != s.cq[0].id
      ensures (d in r.io <==> d in s.io) && if d in r.io then MainOk(r, d) && CancelOk(r, d) else !Referenced(r, d)
    {
      HandledOther(s, d);
    }
    assert WakeOk(r) by { HandledWake(s); }
  }

  lemma WakeTail(cq: seq<Cqe>)
    requires cq != [] && OneWake(cq)
    ensures OneWake(cq[1..]) && (cq[0].Wake? ==> !HasWake(cq[1..]))
  {
  }

  lemma HandledWake(s: Ring)
    requires WakeOk(s) && Enabled(s, Handle)
    ensures WakeOk(Handled(s))
  {
    hide HasWake, OneWake;
    TailFacts(s.cq, 0);
    WakeTail(s.cq);
  }

  lemma SameReferences(s: Ring, r: Ring)
    requires Inv(s) && r.io == s.io && r.main == s.main && r.cancel == s.cancel && r.cq == s.cq && r.drains == s.drains
    requires WakeOk(r)
    ensures Inv(r)
  {
    forall id ensures Referenced(r, id) <==> Referenced(s, id) {}
    forall id | id in r.io ensures MainOk(r, id) && CancelOk(r, id) {
      assert MainOk(s, id) && CancelOk(s, id);
    }
  }

  lemma StepInv(s: Ring, e: Event)
    requires Inv(s) && Enabled(s, e)
    ensures Inv(Step(s, e))
  {
    match e
    case Submit(id, drain) => SubmitInv(s, id, drain);
    case Request(id) => RequestInv(s, id);
    case PostMain(id, more) => PostMainInv(s, id, more);
    case PostCancel(id) => PostCancelInv(s, id);
    case PostWake => PostWakeInv(s);
    case Begin => SameReferences(s, Step(s, e));
    case Handle => HandledInv(s);
    case End => SameReferences(s, Step(s, e));
  }

  // ---- Whole runs ------------------------------------------------------------

  /** A run from the freshly set up ring: any interleaving of the owner and the kernel. */
  ghost predicate Legal(trace: seq<Event>)
    decreases |trace|, 0
  {
    trace == [] || (Legal(trace[..|trace| - 1]) && Enabled(Run(trace[..|trace| - 1]), trace[|trace| - 1]))
  }

  ghost function Run(trace: seq<Event>): Ring
    requires Legal(trace)
    decreases |trace|, 1
  {
    if trace == [] then Fresh() else Step(Run(trace[..|trace| - 1]), trace[|trace| - 1])
  }

  lemma {:induction false} RunInv(trace: seq<Event>)
    requires Legal(trace)
    ensures Inv(Run(trace))
    decreases |trace|
  {
    if trace == [] {
      assert Draining(Fresh().io) == {};
    } else {
      RunInv(trace[..|trace| - 1]);
      StepInv(Run(trace[..|trace| - 1]), trace[|trace| - 1]);
    }
  }

  /** This event retires the request. */
  predicate Retires(s: Ring, e: Event, id: nat)
  {
    e.Handle? && Enabled(s, e) && s.cq[0] != Wake && s.cq[0].id == id && id in s.io && id !in Step(s, e).io
  }

  /** How often a run has retired a request. */
  ghost function Retirements(trace: seq<Event>, id: nat): nat
    requires Legal(trace)
    decreases |trace|
  {
    if trace == [] then 0
    else
      var prior := trace[..|trace| - 1];
      Retirements(prior, id) + if Retires(Run(prior), trace[|trace| - 1], id) then 1 else 0
  }

  /** How often a request was submitted. */
  ghost function Submissions(trace: seq<Event>, id: nat): nat
  {
    if trace == [] then 0
    else
      var e := trace[|trace| - 1];
      Submissions(trace[..|trace| - 1], id) + if e.Submit? && e.id == id then 1 else 0
  }

  /** A request enters the list only by submission and leaves it only by retirement. */
  lemma ListChange(s: Ring, e: Event, id: nat)
    requires Inv(s) && Enabled(s, e)
    ensures id in Step(s, e).io <==> (id in s.io && !Retires(s, e, id)) || (e.Submit? && e.id == id)
    ensures Retires(s, e, id) ==> id in s.io && !Referenced(Step(s, e), id)
    ensures e.Submit? && e.id == id ==> id !in s.io
  {
    if Retires(s, e, id) { HandledOne(s); }
  }

  /** Exactly once: every submission of an address has been retired once, except the
      current one while the request is still listed. */
  lemma {:induction false} RetiredExactlyOnce(trace: seq<Event>, id: nat)
    requires Legal(trace)
    ensures Submissions(trace, id) == Retirements(trace, id) + if id in Run(trace).io then 1 else 0
    decreases |trace|
  {
    if trace != [] {
      var prior := trace[..|trace| - 1];
      RetiredExactlyOnce(prior, id);
      RunInv(prior);
      ListChange(Run(prior), trace[|trace| - 1], id);
    }
  }

  /** When a poll begins to wait, an unbounded wait has the wake poll armed or its
      completion already queued; otherwise the wait is bounded by one millisecond. */
  function Wait(drains: nat, delay: int): int
  {
    if drains > 0 && (delay < 0 || delay > 1000000) then 1000000 else delay
  }

  lemma NeverDeaf(trace: seq<Event>, delay: int)
    requires Legal(trace) && Enabled(Run(trace), Begin)
    ensures var s := Run(trace);
      0 <= Wait(s.drains, delay) <= 1000000 || s.armed || HasWake(s.cq)
  {
    RunInv(trace);
  }

  lemma DrainCount(trace: seq<Event>)
    requires Legal(trace)
    ensures Run(trace).drains == |Draining(Run(trace).io)|
  {
    RunInv(trace);
  }

  lemma DrainPositive(s: Ring, id: nat)
    requires Inv(s) && id in s.io
    ensures s.io[id].draining ==> s.drains > 0
  {
    if s.io[id].draining { assert id in Draining(s.io); }
  }

  lemma Rested(s: Ring)
    requires Inv(s) && !s.polling
    ensures !s.wakeSeen
  {
  }

  lemma Quiescent(s: Ring, ids: seq<nat>)
    requires Inv(s) && forall i :: 0 <= i < |ids| ==> ids[i] !in s.io
    ensures forall i :: 0 <= i < |ids| ==> !Referenced(s, ids[i])
    ensures !s.polling ==> s.watching || s.drains > 0
  {
  }

  /** What handling the oldest completion changes, and that the count never underflows. */
  lemma HandleEffect(s: Ring)
    requires Inv(s) && Enabled(s, Handle)
    ensures var r, c := Step(s, Handle), s.cq[0];
      && r.cq == s.cq[1..] && r.polling && r.watching == s.watching && r.waking == s.waking
      && r.wakeSeen == (s.wakeSeen || c.Wake?)
      && if c.Wake? then r.io == s.io && r.drains == s.drains && !Retires(s, Handle, 0)
         else
           && c.id in s.io
           && var io := Flagged(s.io[c.id], c);
              if io.done && !io.canceling then
                && r.io == s.io - {c.id} && (io.draining ==> s.drains > 0)
                && r.drains == (if io.draining then s.drains - 1 else s.drains)
                && Retires(s, Handle, c.id) && !Referenced(r, c.id)
              else r.io == s.io[c.id := io] && r.drains == s.drains && !Retires(s, Handle, c.id)
  {
    hide Inv, MainOk, CancelOk, Referenced, Draining;
    if !s.cq[0].Wake? {
      HandledIsListed(s);
      HandledOne(s);
      DrainPositive(s, s.cq[0].id);
    }
  }

  lemma Brackets(s: Ring)
    ensures !s.polling ==> Step(s, Begin) == s.(polling := true)
    ensures s.polling ==> Step(s, End) == Ended(s)
  {
  }

  function Asked(io: Io): Io
  {
    io.(canceling := true, cancelSent := true)
  }

  function Handles(n: nat): seq<Event>
  {
    if n == 0 then [] else Handles(n - 1) + [Handle]
  }

  // ---- The driver ------------------------------------------------------------

  class Driver {
    var io: map<nat, Io>
    var drains: nat
    var watching: bool
    var waking: bool
    var marked: set<nat>
    ghost var trace: seq<Event>
    ghost var s: Ring

    ghost predicate Coupled()
      reads this
    {
      && Legal(trace) && s == Run(trace)
      && io == s.io && drains == s.drains && watching == s.watching && waking == s.waking
    }

    ghost predicate Valid()
      reads this
    {
      Coupled() && !s.polling
    }

    constructor ()
      ensures Valid() && trace == [] && io == map[] && watching
    {
      io, drains, watching, waking, marked := map[], 0, true, false, {};
      trace, s := [], Fresh();
    }

    ghost method Note(e: Event)
      requires Legal(trace) && s == Run(trace) && Enabled(s, e)
      modifies this`trace, this`s
      ensures trace == old(trace) + [e] && Legal(trace) && s == Run(trace) && s == Step(old(s), e) && Inv(s) && Inv(old(s))
    {
      RunInv(trace);
      StepInv(s, e);
      assert (trace + [e])[..|trace|] == trace;
      trace, s := trace + [e], Step(s, e);
    }

    /** Publish a request; DRAIN first makes the armed wake poll fire, since it would
        otherwise hold the chain back. */
    method Submit(id: nat, drain: bool)
      requires Coupled() && id !in io
      modifies this
      ensures Coupled() && trace == old(trace) + [Event.Submit(id, drain)] && s.polling == old(s).polling
    {
      if drain {
        if watching && !waking { waking := true; }
        drains := drains + 1;
      }
      io := io[id := Io(false, false, false, drain)];
      Note(Event.Submit(id, drain));
    }

    /** Ask the kernel to cancel a pending request, once. */
    method Cancel(id: nat)
      requires Coupled() && id in io && !io[id].cancelSent
      modifies this`io, this`trace, this`s
      ensures Coupled() && trace == old(trace) + [Request(id)] && s.polling == old(s).polling
      ensures io == old(io)[id := Asked(old(io)[id])]
    {
      io := io[id := io[id].(canceling := true, cancelSent := true)];
      Note(Request(id));
    }

    /** Stop callbacks mark requests from any thread. */
    method Interfere()
      modifies this`marked
      ensures old(marked) <= marked
    {
      var steps: nat := *;
      while steps > 0
        invariant old(marked) <= marked
      {
        var id: nat := *;
        steps, marked := steps - 1, marked + {id};
      }
    }

    /** The cancellation scan of one expiry pass, while requests go on being marked. Every
        pending request is looked at once: one marked at the start, or any on a stopped
        loop, is asked to cancel unless it was before; whoever is asked was marked when
        looked at; the others are as they were. */
    method CancelMarked(all: bool)
      requires Coupled()
      modifies this`io, this`trace, this`s, this`marked
      ensures Coupled() && s.polling == old(s).polling && io.Keys == old(io).Keys && old(marked) <= marked
      ensures forall id :: id in io ==> io[id] == old(io)[id] || (!old(io)[id].cancelSent && io[id] == Asked(old(io)[id]))
      ensures forall id :: id in io && !old(io)[id].cancelSent && (all || id in old(marked)) ==> io[id].cancelSent
      ensures forall id :: id in io && !old(io)[id].cancelSent && io[id].cancelSent ==> all || id in marked
    {
      hide Legal, Run;
      var todo := io.Keys;
      while todo != {}
        invariant Coupled() && s.polling == old(s).polling && io.Keys == old(io).Keys && todo <= io.Keys
        invariant old(marked) <= marked && forall id :: id in todo ==> io[id] == old(io)[id]
        invariant forall id :: id in io ==> io[id] == old(io)[id] || (!old(io)[id].cancelSent && io[id] == Asked(old(io)[id]))
        invariant forall id :: id in io && id !in todo && !old(io)[id].cancelSent && (all || id in old(marked)) ==> io[id].cancelSent
        invariant forall id :: id in io && !old(io)[id].cancelSent && io[id].cancelSent ==> all || id in marked
        decreases todo
      {
        var id :| id in todo;
        todo := todo - {id};
        Interfere();
        if !io[id].cancelSent && (all || id in marked) { Cancel(id); }
      }
    }

    /** Handle one completion; report the request if this retires it. */
    method Retire(c: Cqe) returns (wake: bool, gone: bool)
      requires Coupled() && s.polling && s.cq != [] && s.cq[0] == c
      modifies this`io, this`drains, this`trace, this`s
      ensures Coupled() && s.polling && trace == old(trace) + [Handle] && s.cq == old(s).cq[1..]
      ensures wake <==> c.Wake?
      ensures gone <==> Retires(old(s), Handle, if c.Wake? then 0 else c.id)
      ensures gone ==> !c.Wake? && c.id !in io && !Referenced(s, c.id)
      ensures s.wakeSeen == (old(s).wakeSeen || wake)
      ensures io.Keys == old(io).Keys - (if gone && !c.Wake? then {c.id} else {}) && (gone ==> c.id in old(io))
    {
      hide Legal, Run, Inv, Referenced, Step, Retires;
      RunInv(trace);
      HandleEffect(s);
      wake, gone := c.Wake?, false;
      if !wake {
        var op := io[c.id];
        op := if c.Cancel? then op.(canceling := false) else op.(done := !c.more);
        if op.done && !op.canceling {
          if op.draining { drains := drains - 1; }
          io := io - {c.id};
          gone := true;
        } else {
          io := io[c.id := op];
        }
      }
      Note(Handle);
    }

    /** Handle a snapshot of the completion queue, one after the other. */
    method RetireAll(batch: seq<Cqe>) returns (retired: seq<nat>, wakeSeen: bool)
      requires Coupled() && s.polling && batch <= s.cq && !s.wakeSeen
      modifies this`io, this`drains, this`trace, this`s
      ensures Coupled() && s.polling && s.cq == old(s).cq[|batch|..] && s.wakeSeen == wakeSeen
      ensures trace == old(trace) + Handles(|batch|)
      ensures forall i :: 0 <= i < |retired| ==> retired[i] in old(io) && retired[i] !in io
      ensures forall id :: id in old(io) && id !in io ==> id in retired
      ensures forall i, j :: 0 <= i < j < |retired| ==> retired[i] != retired[j]
    {
      hide Legal, Run, Referenced, Retires;
      retired, wakeSeen := [], false;
      ghost var cq := s.cq;
      for i := 0 to |batch|
        invariant Coupled() && s.polling && s.cq == cq[i..] && s.wakeSeen == wakeSeen
        invariant trace == old(trace) + Handles(i)
        invariant io.Keys <= old(io).Keys
        invariant forall k :: 0 <= k < |retired| ==> retired[k] in old(io) && retired[k] !in io
        invariant forall id :: id in old(io) && id !in io ==> id in retired
        invariant forall k, l :: 0 <= k < l < |retired| ==> retired[k] != retired[l]
      {
        assert s.cq[0] == batch[i];
        var wake, gone := Retire(batch[i]);
        wakeSeen := wakeSeen || wake;
        if gone { retired := retired + [batch[i].id]; }
      }
    }

    /** A seen wake disarms the wake poll; arm it again unless DRAIN requests suppress it. */
    method Rearm(wakeSeen: bool)
      requires Coupled() && s.polling && s.wakeSeen == wakeSeen
      modifies this`watching, this`waking, this`trace, this`s
      ensures Valid() && Inv(s) && trace == old(trace) + [End] && s.cq == old(s).cq && (watching || drains > 0)
    {
      hide Legal, Run, Inv, Step;
      if wakeSeen { watching, waking := false, false; }
      if !watching && drains == 0 { watching := true; }
      Brackets(s);
      Note(End);
    }

    /** Handle a snapshot of the completion queue before any user code can free or
        reuse a request. */
    method Poll(batch: seq<Cqe>) returns (retired: seq<nat>)
      requires Valid() && batch <= s.cq && |batch| <= 128
      modifies this
      ensures Valid() && s.cq == old(s).cq[|batch|..]
      ensures trace == old(trace) + [Begin] + Handles(|batch|) + [End]
      ensures forall i :: 0 <= i < |retired| ==> retired[i] in old(io) && retired[i] !in io && !Referenced(s, retired[i])
      ensures forall id :: id in old(io) && id !in io ==> id in retired
      ensures forall i, j :: 0 <= i < j < |retired| ==> retired[i] != retired[j]
      ensures watching || drains > 0
    {
      hide Legal, Run, Inv, Referenced, Step;
      RunInv(trace);
      Rested(s);
      Brackets(s);
      Note(Begin);
      var wakeSeen;
      retired, wakeSeen := RetireAll(batch);
      Rearm(wakeSeen);
      Quiescent(s, retired);
    }
  }
}
