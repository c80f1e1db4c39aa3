/** Structured joins: start children, drain every one that started, then report.

    A child publishes on the owner thread after its own first suspension, so no child
    can publish while the parent is still launching. `log` is the order in which the
    children publish, with what each of them ended with. */
module Joins {

  import opened Options

  datatype End<+T, +E> = Value(value: T) | Error(error: E)
  datatype Published<+T, +E> = Published(index: nat, end: End<T, E>)

  /** The children that have published. */
  function Indices<T, E>(log: seq<Published<T, E>>): set<nat>
  {
    if log == [] then {} else Indices(log[..|log| - 1]) + {log[|log| - 1].index}
  }

  /** The first error in publication order. */
  function FirstError<T, E>(log: seq<Published<T, E>>): Option<E>
  {
    if log == [] then None
    else
      var before := FirstError(log[..|log| - 1]);
      if before.Some? then before
      else if log[|log| - 1].end.Error? then Some(log[|log| - 1].end.error) else None
  }

  /** What a child published, if it ended with a value. */
  function Slot<T, E>(log: seq<Published<T, E>>, i: nat): Option<T>
  {
    if log == [] then None
    else if log[|log| - 1].index == i && log[|log| - 1].end.Value? then Some(log[|log| - 1].end.value)
    else Slot(log[..|log| - 1], i)
  }

  lemma {:induction false} IndicesAre<T, E>(log: seq<Published<T, E>>)
    ensures forall k :: 0 <= k < |log| ==> log[k].index in Indices(log)
    ensures forall i :: i in Indices(log) ==> exists k :: 0 <= k < |log| && log[k].index == i
  {
    if log != [] {
      var init := log[..|log| - 1];
      IndicesAre(init);
      forall i | i in Indices(log)
        ensures exists k :: 0 <= k < |log| && log[k].index == i
      {
        if i in Indices(init) {
          var k :| 0 <= k < |init| && init[k].index == i;
          assert log[k].index == i;
        } else {
          assert log[|log| - 1].index == i;
        }
      }
    }
  }

  /** Without an error, whoever has published has filled its slot. */
  lemma {:induction false} SlotFilled<T, E>(log: seq<Published<T, E>>, i: nat)
    requires i in Indices(log) && FirstError(log).None?
    ensures Slot(log, i).Some?
  {
    if log[|log| - 1].index != i { SlotFilled(log[..|log| - 1], i); }
  }

  /** Every slot holds what its child published. */
  ghost predicate Slotted<T, E>(values: seq<Option<T>>, log: seq<Published<T, E>>)
  {
    forall i :: 0 <= i < |values| ==> values[i] == Slot(log, i)
  }

  class Join<T, E> {
    const count: nat
    const race: bool
    var values: seq<Option<T>>
    var pending: nat
    var winner: Option<nat>
    var error: Option<E>
    var startup: Option<E>
    var stop: bool
    var sets: nat
    ghost var started: nat
    ghost var launched: bool
    ghost var log: seq<Published<T, E>>

    ghost predicate Valid()
      reads this
    {
      && |values| == count && started <= count
      && (forall i :: i in Indices(log) ==> i < started) && |Indices(log)| == |log| && pending == started - |log|
      && Slotted(values, log)
      && (!launched ==> log == [] && startup.None?)
      && (launched ==> (startup.None? <==> started == count))
      && winner == (if race && log != [] then Some(log[0].index) else None)
      && error == (if race then RaceError() else AllError())
      && (stop <==> race && (log != [] || startup.Some?))
      && sets == (if launched && started > 0 && pending == 0 then 1 else 0)
    }

    ghost function RaceError(): Option<E>
      reads this
    {
      if log != [] && log[0].end.Error? then Some(log[0].end.error) else None
    }

    ghost function AllError(): Option<E>
      reads this
    {
      if startup.Some? then startup else FirstError(log)
    }

    constructor (count: nat, race: bool)
      ensures Valid() && this.count == count && this.race == race && !launched && started == 0
    {
      this.count, this.race := count, race;
      values := seq(count, _ => None);
      pending, winner, error, startup, stop, sets := 0, None, None, None, false, 0;
      started, launched, log := 0, false, [];
    }

    /** Start the children in order until one fails to start. */
    method Launch(failures: seq<Option<E>>)
      requires Valid() && !launched && started == 0 && |failures| == count
      modifies this
      ensures Valid() && launched && log == []
      ensures startup.None? <==> forall i :: 0 <= i < count ==> failures[i].None?
      ensures startup.Some? ==> started < count && failures[started] == startup && forall i :: 0 <= i < started ==> failures[i].None?
    {
      hide Slot, FirstError, Indices, Slotted;
      var i := 0;
      while i < count
        invariant 0 <= i <= count && started == i && Valid() && !launched && log == []
        invariant forall j :: 0 <= j < i ==> failures[j].None?
      {
        pending := pending + 1;
        if failures[i].Some? {
          pending := pending - 1;
          startup := failures[i];
          if race { stop := true; } else { error := startup; }
          launched := true;
          return;
        }
        started := started + 1;
        i := i + 1;
      }
      launched := true;
    }

    /** The first child to publish wins a race and stops the others; otherwise the first
        error is kept. */
    method Decide(i: nat, failure: Option<E>)
      modifies this`winner, this`error, this`stop
      ensures winner == if race && old(winner).None? then Some(i) else old(winner)
      ensures stop == (old(stop) || (race && old(winner).None?))
      ensures error == if race then (if old(winner).None? then failure else old(error))
                       else if old(error).None? then failure else old(error)
    {
      if race {
        if winner.None? {
          winner := Some(i);
          error := failure;
          stop := true;
        }
      } else if failure.Some? && error.None? {
        error := failure;
      }
    }

    /** A started child ends: it fills its slot, may win or fail the join, and the last
        one releases the parent. */
    method Collect(i: nat, end: End<T, E>)
      requires Valid() && launched && i < started && i !in Indices(log)
      modifies this
      ensures Valid() && launched && started == old(started) && startup == old(startup)
      ensures log == old(log) + [Published(i, end)]
      ensures sets == old(sets) + if |log| == started then 1 else 0
    {
      hide Slot, FirstError, Indices, Slotted;
      Publish(log, i, end, started);
      if end.Value? { values := values[i := Some(end.value)]; }
      Decide(i, if end.Error? then Some(end.error) else None);
      log := log + [Published(i, end)];
      pending := pending - 1;
      if pending == 0 { sets := sets + 1; }
    }

    /** The parent goes on when nothing was pending or its barrier has been set. Either
        way every child that started has published. */
    lemma BarrierDrains()
      requires Valid() && launched && (pending == 0 || sets > 0)
      ensures forall i :: 0 <= i < started ==> i in Indices(log)
      ensures |log| == started
    {
      Everyone(Indices(log), started);
    }

    /** The result of joining all children: the values in input order, or the startup
        failure, or the first error in publication order. */
    method ReportAll() returns (r: End<seq<T>, E>)
      requires Valid() && launched && !race && (pending == 0 || sets > 0)
      ensures startup.Some? ==> r == Error(startup.value)
      ensures startup.None? && FirstError(log).Some? ==> r == Error(FirstError(log).value)
      ensures startup.None? && FirstError(log).None? ==>
        r.Value? && |r.value| == count && forall i :: 0 <= i < count ==> Slot(log, i) == Some(r.value[i])
    {
      if error.Some? { return Error(error.value); }
      BarrierDrains();
      var all := [];
      for i := 0 to count
        invariant |all| == i && forall j :: 0 <= j < i ==> Slot(log, j) == Some(all[j])
      {
        SlotFilled(log, i);
        all := all + [values[i].value];
      }
      r := Value(all);
    }

    /** The result of a race: the startup failure, or what the first child to publish
        ended with. */
    method ReportAny() returns (r: End<(nat, T), E>)
      requires Valid() && launched && race && count > 0 && (pending == 0 || sets > 0)
      ensures startup.Some? ==> r == Error(startup.value)
      ensures startup.None? ==>
        && log != []
        && r == match log[0].end { case Error(e) => Error(e) case Value(v) => Value((log[0].index, v)) }
    {
      if startup.Some? { return Error(startup.value); }
      BarrierDrains();
      if error.Some? { return Error(error.value); }
      WinnerSlot(log);
      IndicesAre(log);
      r := Value((winner.value, values[winner.value].value));
    }
  }

  lemma Publish<T, E>(log: seq<Published<T, E>>, i: nat, end: End<T, E>, started: nat)
    requires i !in Indices(log) && i < started && |Indices(log)| == |log|
    requires forall j :: j in Indices(log) ==> j < started
    ensures var r := log + [Published(i, end)];
      && Indices(r) == Indices(log) + {i} && |Indices(r)| == |r|
      && FirstError(r) == (if FirstError(log).Some? then FirstError(log) else if end.Error? then Some(end.error) else None)
    ensures |log| < started
    ensures forall values :: Slotted(values, log) && i < |values| ==>
      Slotted(if end.Value? then values[i := Some(end.value)] else values, log + [Published(i, end)])
  {
    var r := log + [Published(i, end)];
    assert r[..|log|] == log;
    Everyone(Indices(log) + {i}, started);
  }

  /** A set of numbers below n has at most n members, and exactly n only if it has all. */
  lemma {:induction false} Everyone(s: set<nat>, n: nat)
    requires forall i :: i in s ==> i < n
    ensures |s| <= n
    ensures |s| == n ==> forall i :: 0 <= i < n ==> i in s
  {
    if n > 0 {
      Everyone(s - {n - 1}, n - 1);
    } else {
      assert s == {};
    }
  }

  /** Slots are filled once, so the winner's slot still holds the winner's value. */
  lemma {:induction false} WinnerSlot<T, E>(log: seq<Published<T, E>>)
    requires log != [] && |Indices(log)| == |log|
    ensures log[0].end.Value? ==> Slot(log, log[0].index) == Some(log[0].end.value)
  {
    if |log| > 1 {
      var init, last := log[..|log| - 1], log[|log| - 1];
      AtMost(init);
      assert |Indices(init)| == |init| && last.index !in Indices(init);
      IndicesAre(init);
      assert last.index != init[0].index;
      WinnerSlot(init);
    }
  }

  lemma {:induction false} AtMost<T, E>(log: seq<Published<T, E>>)
    ensures |Indices(log)| <= |log|
  {
    if log != [] { AtMost(log[..|log| - 1]); }
  }
}
