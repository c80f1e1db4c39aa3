/** Multishot receive: one request delivers many completions, and is armed again when the
    kernel ended it early or ran out of buffers. The consumer decides when it has enough
    and may fail; in both cases the request is first stopped and drained. */
module Streams {

  import opened Options

  datatype Code = NoBuffers | Canceled | Other(number: nat)
  datatype Fault = Consumer(what: nat) | MissingBuffer | System(code: Code)

  /** What the consumer answers to a chunk. */
  datatype Reply = More | Enough | Throws(what: nat)

  datatype Outcome = Data(size: nat) | Failed(code: Code)

  /** A completion: its result, whether it names a buffer, and the chunks found there. */
  datatype Cqe = Cqe(outcome: Outcome, buffer: bool, chunks: seq<nat>)

  /** One armed request until its final completion, or its refusal at the start. */
  datatype Shot = Shot(refused: bool, cqes: seq<Cqe>)

  /** How the receive ends, if it has. */
  datatype End = Waiting | Returned | Threw(fault: Fault)

  /** What a request ends up with: its last failure, and the size of its last success. */
  function Error(shot: Shot): Option<Code>
  {
    if shot.refused then Some(Canceled) else ErrorOf(shot.cqes)
  }

  function ErrorOf(cqes: seq<Cqe>): Option<Code>
  {
    if cqes == [] then None
    else
      var last := cqes[|cqes| - 1].outcome;
      if last.Failed? then Some(last.code) else ErrorOf(cqes[..|cqes| - 1])
  }

  function BytesOf(cqes: seq<Cqe>): nat
  {
    if cqes == [] then 0
    else
      var last := cqes[|cqes| - 1].outcome;
      if last.Data? then last.size else BytesOf(cqes[..|cqes| - 1])
  }

  /** The chunks of a completion that carries data. */
  function Carried(c: Cqe): seq<nat>
  {
    if HasData(c) && c.buffer then c.chunks else []
  }

  predicate HasData(c: Cqe)
  {
    c.outcome.Data? && c.outcome.size > 0
  }

  function Flow(cqes: seq<Cqe>): seq<nat>
  {
    if cqes == [] then [] else Flow(cqes[..|cqes| - 1]) + Carried(cqes[|cqes| - 1])
  }

  /** The chunks of a run of requests, in the order the kernel posted them. */
  function Stream(shots: seq<Shot>): seq<nat>
  {
    if shots == [] then [] else Stream(shots[..|shots| - 1]) + FlowOf(shots[|shots| - 1])
  }

  function FlowOf(shot: Shot): seq<nat>
  {
    if shot.refused then [] else Flow(shot.cqes)
  }

  /** A request one of whose completions had data in no buffer. */
  ghost predicate Missing(shot: Shot)
  {
    !shot.refused && Lacking(shot.cqes)
  }

  ghost predicate Lacking(cqes: seq<Cqe>)
  {
    exists i :: 0 <= i < |cqes| && HasData(cqes[i]) && !cqes[i].buffer
  }

  /** Something of what was offered was taken, in order and from the start; or all of it. */
  ghost predicate Fed(before: seq<nat>, after: seq<nat>, offered: seq<nat>, whole: bool)
  {
    before <= after <= before + offered && (whole ==> after == before + offered)
  }

  lemma FedNothing(before: seq<nat>, whole: bool)
    ensures Fed(before, before, [], whole)
  {
  }

  /** What is taken next follows what was taken first; a taker that stopped takes no more. */
  lemma FedNext(a: seq<nat>, b: seq<nat>, c: seq<nat>, first: seq<nat>, next: seq<nat>, open: bool, whole: bool)
    requires Fed(a, b, first, open) && Fed(b, c, next, whole) && (!open ==> c == b && !whole)
    ensures Fed(a, c, first + next, whole)
  {
    assert a + first + next == a + (first + next);
  }

  /** The consumer is not called again once it has had enough or has failed. */
  ghost predicate Respected(replies: seq<Reply>)
  {
    forall i :: 0 <= i < |replies| - 1 ==> replies[i].More?
  }

  ghost function Last(replies: seq<Reply>): Reply
  {
    if replies == [] then More else replies[|replies| - 1]
  }

  class Receiver {
    var stopped: bool
    var failure: Option<Fault>
    var error: Option<Code>
    var bytes: nat
    ghost var replies: seq<Reply>
    ghost var taken: seq<nat>

    /** The consumer's last word is what the request knows of it. */
    ghost predicate Valid()
      reads this
    {
      && Respected(replies) && |taken| == |replies|
      && (match Last(replies)
          case More => failure.None? || failure == Some(MissingBuffer)
          case Enough => stopped && (failure.None? || failure == Some(MissingBuffer))
          case Throws(what) => failure == Some(Consumer(what)))
      && (failure.Some? ==> stopped) && (stopped ==> failure.Some? || Last(replies).Enough?)
    }

    constructor ()
      ensures Valid() && taken == [] && !stopped && failure.None?
    {
      stopped, failure, error, bytes := false, None, None, 0;
      replies, taken := [], [];
    }

    /** The consumer looks at a chunk. */
    method Invoke(chunk: nat) returns (r: Reply)
      modifies this`replies, this`taken
      ensures replies == old(replies) + [r] && taken == old(taken) + [chunk]
    {
      r := *;
      replies, taken := replies + [r], taken + [chunk];
    }

    /** Hand one chunk over, unless there is no data or the request is being stopped. */
    method Chunk(data: bool, chunk: nat) returns (thrown: Option<Fault>)
      requires Valid()
      modifies this`stopped, this`replies, this`taken
      ensures taken == if data && !old(stopped) then old(taken) + [chunk] else old(taken)
      ensures |taken| == |replies| && Respected(replies) && (old(stopped) ==> stopped)
      ensures thrown.None? ==> Valid()
      ensures thrown.Some? ==>
        !old(stopped) && !stopped && Last(replies).Throws? && thrown == Some(Consumer(Last(replies).what))
    {
      thrown := None;
      if data && !stopped {
        var r := Invoke(chunk);
        match r
        case More =>
        case Enough => stopped := true;
        case Throws(what) => thrown := Some(Consumer(what));
      }
    }

    /** The chunks of one completion; after the consumer has failed, the others go back. */
    method Bundle(data: bool, chunks: seq<nat>) returns (thrown: Option<Fault>)
      requires Valid()
      modifies this`stopped, this`replies, this`taken
      ensures |taken| == |replies| && Respected(replies) && (old(stopped) ==> stopped && taken == old(taken))
      ensures thrown.None? ==> Valid()
      ensures thrown.Some? ==> failure.None? && Last(replies).Throws? && thrown == Some(Consumer(Last(replies).what))
      ensures Fed(old(taken), taken, if data then chunks else [], thrown.None? && !stopped)
    {
      thrown := None;
      for i := 0 to |chunks|
        invariant old(stopped) ==> stopped && thrown.None? && taken == old(taken)
        invariant thrown.None? ==> Valid()
        invariant thrown.Some? ==>
          && failure.None? && |taken| == |replies| && Respected(replies) && Last(replies).Throws?
          && thrown == Some(Consumer(Last(replies).what))
        invariant Fed(old(taken), taken, if data then chunks[..i] else [], thrown.None? && !stopped)
      {
        assert chunks[..i + 1] == chunks[..i] + [chunks[i]];
        ghost var was, open := taken, thrown.None? && !stopped;
        if thrown.None? { thrown := Chunk(data, chunks[i]); }
        if data { FedNext(old(taken), was, taken, chunks[..i], [chunks[i]], open, thrown.None? && !stopped); }
      }
      assert chunks[..|chunks|] == chunks;
    }

    /** Handle one completion; the first failure is kept and stops the request. */
    method Result(c: Cqe)
      requires Valid()
      modifies this
      ensures Valid() && (old(stopped) ==> stopped && taken == old(taken))
      ensures Fed(old(taken), taken, Carried(c), !stopped)
      ensures error == if c.outcome.Failed? then Some(c.outcome.code) else old(error)
      ensures bytes == if c.outcome.Data? then c.outcome.size else old(bytes)
      ensures HasData(c) && !c.buffer ==> failure.Some?
      ensures old(failure).Some? ==> failure == old(failure)
      ensures old(failure).None? && failure == Some(MissingBuffer) ==> HasData(c) && !c.buffer
    {
      match c.outcome
      case Failed(code) => error := Some(code);
      case Data(size) => bytes := size;
      var data := c.outcome.Data? && c.outcome.size > 0;
      var thrown := None;
      if c.buffer {
        thrown := Bundle(data, c.chunks);
      } else if data {
        thrown := Some(MissingBuffer);
      }
      if thrown.Some? {
        if failure.None? { failure := thrown; }
        stopped := true;
      }
    }

    /** Arm a new request and drain it. */
    method Await(shot: Shot)
      requires Valid() && Last(replies).More?
      modifies this
      ensures Valid() && error == Error(shot) && (!shot.refused ==> bytes == BytesOf(shot.cqes))
      ensures Fed(old(taken), taken, FlowOf(shot), !stopped)
      ensures Missing(shot) ==> failure.Some?
      ensures failure == Some(MissingBuffer) ==> Missing(shot)
    {
      stopped, failure, error, bytes := false, None, None, 0;
      if shot.refused {
        error := Some(Canceled);
        return;
      }
      for i := 0 to |shot.cqes|
        invariant Valid() && error == ErrorOf(shot.cqes[..i]) && bytes == BytesOf(shot.cqes[..i])
        invariant Fed(old(taken), taken, Flow(shot.cqes[..i]), !stopped)
        invariant Lacking(shot.cqes[..i]) ==> failure.Some?
        invariant failure == Some(MissingBuffer) ==> Lacking(shot.cqes[..i])
      {
        LackingNext(shot.cqes, i);
        ghost var was, open := taken, !stopped;
        Result(shot.cqes[i]);
        FedNext(old(taken), was, taken, Flow(shot.cqes[..i]), Carried(shot.cqes[i]), open, !stopped);
      }
      assert shot.cqes[..|shot.cqes|] == shot.cqes;
    }

    /** What to do after a request has ended: report, return, or go on. */
    method Settle() returns (end: End)
      requires Valid()
      ensures end.Waiting? ==> !stopped && (error == Some(NoBuffers) || (error.None? && bytes > 0))
      ensures end.Returned? ==> Last(replies).Enough? || (Last(replies).More? && error.None? && bytes == 0)
      ensures failure.Some? ==> end == Threw(failure.value)
      ensures end.Threw? && failure.None? ==>
        error.Some? && !error.value.NoBuffers? && (stopped ==> !error.value.Canceled?) && end.fault == System(error.value)
    {
      if error.Some? {
        if failure.Some? { return Threw(failure.value); }
        if stopped && error.value.Canceled? { return Returned; }
        if !error.value.NoBuffers? { return Threw(System(error.value)); }
      }
      if failure.Some? { return Threw(failure.value); }
      if stopped || (error.None? && bytes == 0) { return Returned; }
      return Waiting;
    }

    /** One request and what follows from it. */
    method Turn(shot: Shot) returns (end: End)
      requires Valid() && Last(replies).More?
      modifies this
      ensures Valid() && Fed(old(taken), taken, FlowOf(shot), !stopped) && Decided(end, shot, replies)
      ensures Last(replies).More? && end != Threw(MissingBuffer) ==> !stopped
    {
      hide Fed, Respected, FlowOf;
      Await(shot);
      end := Settle();
    }

    /** The whole receive over any requests the kernel ends in any way. The consumer gets
        the chunks in the order they were posted, from the first on, and all of them unless
        it had enough or failed, after which it is never called again, or a buffer was
        missing. A failure of either kind is what the receive throws. Otherwise the last
        request decides: its end of the stream returns, its error is thrown, and the receive
        goes on exactly after one that ended early with data or for want of buffers. */
    method Receive(shots: seq<Shot>) returns (end: End, used: nat)
      requires Valid() && taken == []
      modifies this
      ensures Respected(replies) && |taken| == |replies| && used <= |shots| && (end.Waiting? ==> used == |shots|)
      ensures taken <= Stream(shots[..used])
      ensures Last(replies).More? && end != Threw(MissingBuffer) ==> taken == Stream(shots[..used])
      ensures if used == 0 then end.Waiting? && taken == [] else Decided(end, shots[used - 1], replies)
      ensures forall i :: 0 <= i < used - 1 ==> Continues(shots[i]) && !Missing(shots[i])
    {
      hide Fed, FlowOf, Stream, Respected, Missing, Continues;
      used := 0;
      end := Waiting;
      StreamNone(shots);
      while used < |shots|
        invariant used <= |shots| && Valid() && Last(replies).More? && taken == Stream(shots[..used])
        invariant forall i :: 0 <= i < used ==> Continues(shots[i]) && !Missing(shots[i])
        invariant end.Waiting? && (used > 0 ==> Decided(end, shots[used - 1], replies))
      {
        ghost var was := taken;
        end := Turn(shots[used]);
        StreamNext(shots, used, was, taken, !stopped);
        used := used + 1;
        if !end.Waiting? { return; }
        if * { return Threw(System(Canceled)), used; }
      }
    }
  }

  lemma StreamNone(shots: seq<Shot>)
    ensures Stream(shots[..0]) == []
  {
  }

  lemma StreamNext(shots: seq<Shot>, i: nat, before: seq<nat>, after: seq<nat>, whole: bool)
    requires i < |shots| && before == Stream(shots[..i]) && Fed(before, after, FlowOf(shots[i]), whole)
    ensures after <= Stream(shots[..i + 1]) && (whole ==> after == Stream(shots[..i + 1]))
  {
    assert shots[..i + 1][..i] == shots[..i];
  }

  lemma LackingNext(cqes: seq<Cqe>, i: nat)
    requires i < |cqes|
    ensures cqes[..i + 1][..i] == cqes[..i]
    ensures Lacking(cqes[..i + 1]) <==> Lacking(cqes[..i]) || (HasData(cqes[i]) && !cqes[i].buffer)
  {
    var more := cqes[..i + 1];
    assert more[..i] == cqes[..i] && more[i] == cqes[i];
    if Lacking(cqes[..i]) {
      var j :| 0 <= j < i && HasData(cqes[..i][j]) && !cqes[..i][j].buffer;
      assert more[j] == cqes[..i][j];
    }
  }

  /** How a receive stands after a request. A failure of the consumer is thrown, and so is
      a missing buffer. A consumer that had enough ends it, unless something serious came up.
      Otherwise the request decides. */
  ghost predicate Decided(end: End, shot: Shot, replies: seq<Reply>)
  {
    && (end.Threw? ==> Blamed(end.fault, shot, replies))
    && match Last(replies)
       case Throws(what) => end == Threw(Consumer(what))
       case Enough => end.Returned? || (end.Threw? && Serious(end.fault))
       case More =>
         && (Missing(shot) ==> end == Threw(MissingBuffer)) && (end.Returned? ==> Exhausted(shot))
         && (end.Waiting? ==> Continues(shot))
  }

  /** Why a receive threw: its consumer, its last request, or, once that request lets it go
      on, a cancellation while it waited for a buffer. */
  ghost predicate Blamed(f: Fault, shot: Shot, replies: seq<Reply>)
  {
    match f
    case Consumer(what) => Last(replies) == Throws(what)
    case MissingBuffer => Missing(shot)
    case System(code) =>
      || (Error(shot) == Some(code) && !code.NoBuffers?)
      || (Continues(shot) && Last(replies).More? && code.Canceled?)
  }

  /** A fault that stopping a request does not explain. */
  predicate Serious(f: Fault)
  {
    f.MissingBuffer? || (f.System? && f.code.Other?)
  }

  /** A request that reported the end of the stream. */
  ghost predicate Exhausted(shot: Shot)
  {
    !shot.refused && ErrorOf(shot.cqes).None? && BytesOf(shot.cqes) == 0
  }

  /** A request after which the receive goes on. */
  ghost predicate Continues(shot: Shot)
  {
    Error(shot) == Some(NoBuffers) || (Error(shot).None? && BytesOf(shot.cqes) > 0)
  }
}
