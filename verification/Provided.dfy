/** The provided-buffer ring: the kernel consumes published buffers in publication
    order, leases come back in any order, and a bundle completion names only its first
    buffer. `next` and `tail` thread the publication order through the buffer IDs, so
    that the rest of a bundle can be found.

    The kernel is the environment: `log` lists every publication ever made, `consumed`
    is how far the kernel has got, and `undecoded` are the positions it has consumed
    whose completion has not been decoded yet. `posted` are the completions it has
    posted, each for a window of the log, and `begun` those whose decoding has begun;
    they may be decoded in any order. */
module Provided {

  datatype Error = BadBundleSize | BadBundleId | BadCompletion
  datatype Result<+R> = Ok(value: R) | Err(error: Error)

  /** A leased region: the first bytes of buffer `id`. */
  datatype Chunk = Chunk(id: nat, bytes: nat)

  /** The buffer ID occupies the upper half of the completion flags. */
  function BufferId(flags: nat): nat
  {
    flags / 65536
  }

  predicate HasBuffer(flags: nat)
  {
    flags % 2 == 1
  }

  /** The same flags naming another buffer. */
  function WithId(flags: nat, id: nat): nat
  {
    flags % 65536 + id * 65536
  }

  lemma WithIdNames(flags: nat, id: nat)
    ensures BufferId(WithId(flags, id)) == id && HasBuffer(WithId(flags, id)) == HasBuffer(flags)
  {
    var low := flags % 65536;
    UpperHalf(low, id);
    LowestBit(low, id * 32768);
    LowestBit(low, flags / 65536 * 32768);
  }

  lemma UpperHalf(low: nat, high: nat)
    requires low < 65536
    ensures (low + high * 65536) / 65536 == high
  {
  }

  /** The upper half of the flags tells nothing about their lowest bit. */
  lemma LowestBit(low: nat, half: nat)
    ensures (low + 2 * half) % 2 == low % 2
  {
  }

  /** How many buffers a completion of this size fills; an empty one still uses one. */
  function Parts(size: nat, width: nat): (parts: nat)
    requires 0 < width
    ensures parts > 0
  {
    if size > 0 then (size - 1) / width + 1 else 1
  }

  /** A bundle fills every buffer but the last one completely. */
  ghost predicate Fills(size: nat, width: nat, parts: nat)
  {
    0 < parts && size <= parts * width && (size > 0 ==> (parts - 1) * width < size) && (size == 0 ==> parts == 1)
  }

  lemma FillsIffParts(size: nat, width: nat, parts: nat)
    requires 0 < width
    ensures Fills(size, width, parts) <==> parts == Parts(size, width)
  {
    if size > 0 {
      var q := (size - 1) / width;
      assert size - 1 == q * width + (size - 1) % width;
      assert (q + 1) * width == q * width + width;
      if Fills(size, width, parts) {
        if parts - 1 < q {
          assert parts * width <= q * width by { Scale(parts, q, width); }
        } else if parts - 1 > q {
          assert (q + 1) * width <= (parts - 1) * width by { Scale(q + 1, parts - 1, width); }
        }
      }
    } else {
      assert width * 1 >= 0;
    }
  }

  lemma Scale(a: int, b: int, w: nat)
    requires a <= b
    ensures a * w <= b * w
  {
    assert (b - a) * w >= 0;
  }

  ghost function Sum(chunks: seq<Chunk>): nat
  {
    if chunks == [] then 0 else Sum(chunks[..|chunks| - 1]) + chunks[|chunks| - 1].bytes
  }

  // ---- Bookkeeping as values -------------------------------------------------

  /** What the kernel still owes us: positions of the publication log that it has not
      consumed, or has consumed without our having decoded the completion. */
  datatype Ledger = Ledger(log: seq<nat>, pos: seq<nat>, consumed: nat, undecoded: set<nat>)
  {
    ghost predicate Out(p: nat)
    {
      p < |log| && (p in undecoded || consumed <= p)
    }

    /** `pos` finds the latest publication of every buffer. */
    ghost predicate Indexed()
    {
      && 0 < |log|
      && (forall p :: 0 <= p < |log| ==> log[p] < |pos|)
      && (forall i :: 0 <= i < |pos| ==> pos[i] < |log| && log[pos[i]] == i)
      && (forall p :: 0 <= p < |log| ==> p <= pos[log[p]])
    }

    /** The chain follows publication order. */
    ghost predicate Chained(next: seq<nat>, tail: nat)
      requires Indexed()
    {
      && |next| == |pos| && tail == log[|log| - 1]
      && forall i :: 0 <= i < |pos| && pos[i] + 1 < |log| ==> next[i] == log[pos[i] + 1]
    }

    /** Every buffer is either leased or out, never both. */
    ghost predicate Partitioned(held: seq<bool>)
      requires Indexed()
    {
      && |held| == |pos| && consumed <= |log|
      && (forall p :: p in undecoded ==> p < consumed)
      && (forall p :: 0 <= p < |log| && Out(p) ==> pos[log[p]] == p)
      && (forall i :: 0 <= i < |pos| ==> (held[i] <==> !Out(pos[i])))
    }

    /** A window of the log that the kernel has delivered and nobody has decoded. */
    ghost predicate Awaits(lo: nat, hi: nat)
    {
      hi <= |log| && forall p :: lo <= p < hi ==> p in undecoded
    }

    function Publish(id: nat): Ledger
      requires id < |pos|
    {
      this.(log := log + [id], pos := pos[id := |log|])
    }

    function Decode(id: nat): Ledger
      requires id < |pos|
    {
      this.(undecoded := undecoded - {pos[id]})
    }

    function Deliver(parts: nat): Ledger
    {
      this.(undecoded := undecoded + (set p: nat {:trigger p in undecoded} | consumed <= p < consumed + parts),
            consumed := consumed + parts)
    }
  }

  datatype Decoding = Decoding(completion: nat, chunks: seq<Chunk>)

  /** One bundle: what the completion says, and where in the log its buffers are. */
  datatype Completion = Completion(flags: nat, size: nat, start: nat)

  function End(c: Completion, width: nat): nat
    requires 0 < width
  {
    c.start + Parts(c.size, width)
  }

  /** Each completion names the first of the buffers in its window, windows follow each
      other, and one whose decoding has not begun is delivered and undecoded throughout. */
  ghost predicate Booked(l: Ledger, posted: seq<Completion>, begun: set<nat>, width: nat)
    requires 0 < width
  {
    && l.consumed <= |l.log|
    && (forall j :: 0 <= j < |posted| ==> Names(l, posted[j], width))
    && (forall j, k :: 0 <= j < k < |posted| ==> End(posted[j], width) <= posted[k].start)
    && (forall j :: 0 <= j < |posted| && j !in begun ==> l.Awaits(posted[j].start, End(posted[j], width)))
  }

  ghost predicate Names(l: Ledger, c: Completion, width: nat)
    requires 0 < width
  {
    HasBuffer(c.flags) && End(c, width) <= l.consumed && c.start < |l.log| && BufferId(c.flags) == l.log[c.start]
  }

  lemma PublishBooked(l: Ledger, posted: seq<Completion>, begun: set<nat>, width: nat, id: nat)
    requires 0 < width && Booked(l, posted, begun, width) && id < |l.pos|
    ensures Booked(l.Publish(id), posted, begun, width)
  {
  }

  /** Decoding inside one window leaves the others undecoded. */
  lemma DecodeBooked(l: Ledger, posted: seq<Completion>, begun: set<nat>, width: nat, id: nat, j: nat)
    requires 0 < width && Booked(l, posted, begun, width) && id < |l.pos| && j < |posted| && j in begun
    requires posted[j].start <= l.pos[id] < End(posted[j], width)
    ensures Booked(l.Decode(id), posted, begun, width)
  {
    var r := l.Decode(id);
    forall k | 0 <= k < |posted| && k !in begun
      ensures r.Awaits(posted[k].start, End(posted[k], width))
    {
      assert k < j || j < k;
    }
  }

  lemma DeliverBooked(l: Ledger, posted: seq<Completion>, begun: set<nat>, width: nat, c: Completion)
    requires 0 < width && Booked(l, posted, begun, width) && c.start == l.consumed && End(c, width) <= |l.log|
    requires HasBuffer(c.flags) && BufferId(c.flags) == l.log[c.start] && forall j :: j in begun ==> j < |posted|
    ensures Booked(l.Deliver(Parts(c.size, width)), posted + [c], begun, width)
  {
    var r := l.Deliver(Parts(c.size, width));
    forall k | 0 <= k < |posted| + 1
      ensures Names(r, (posted + [c])[k], width)
    {
      if k < |posted| { assert Names(l, posted[k], width); }
    }
    forall k | 0 <= k < |posted| + 1 && k !in begun
      ensures r.Awaits((posted + [c])[k].start, End((posted + [c])[k], width))
    {
      if k < |posted| { assert l.Awaits(posted[k].start, End(posted[k], width)); }
    }
    assert forall k :: 0 <= k < |posted| ==> Names(l, posted[k], width) && End(posted[k], width) <= c.start;
  }

  lemma PublishIndexed(l: Ledger, id: nat)
    requires l.Indexed() && id < |l.pos|
    ensures l.Publish(id).Indexed()
  {
    var r := l.Publish(id);
    forall p | 0 <= p < |r.log|
      ensures r.log[p] < |r.pos| && p <= r.pos[r.log[p]]
    {
      if p < |l.log| { assert p <= l.pos[l.log[p]]; }
    }
  }

  /** Publishing behind the tail keeps the chain in publication order. */
  lemma PublishChained(l: Ledger, next: seq<nat>, tail: nat, id: nat)
    requires l.Indexed() && l.Chained(next, tail) && id < |l.pos|
    ensures l.Publish(id).Indexed() && tail < |next| && l.Publish(id).Chained(next[tail := id], id)
  {
    var r := l.Publish(id);
    PublishIndexed(l, id);
    assert l.log[|l.log| - 1] == tail;
    forall i | 0 <= i < |r.pos| && r.pos[i] + 1 < |r.log|
      ensures next[tail := id][i] == r.log[r.pos[i] + 1]
    {
      assert i != id && r.pos[i] == l.pos[i];
      if i == tail { assert l.pos[i] == |l.log| - 1; }
    }
  }

  lemma PublishPartitioned(l: Ledger, held: seq<bool>, id: nat)
    requires l.Indexed() && l.Partitioned(held) && id < |l.pos| && held[id] && l.Publish(id).Indexed()
    ensures l.Publish(id).Partitioned(held[id := false])
  {
    var r := l.Publish(id);
    assert r.Out(|l.log|);
    forall i | 0 <= i < |r.pos| && i != id
      ensures held[i] <==> !r.Out(r.pos[i])
    {
      assert r.pos[i] == l.pos[i];
    }
    forall p | 0 <= p < |r.log| && r.Out(p)
      ensures r.pos[r.log[p]] == p
    {
      if p < |l.log| { assert l.Out(p); assert l.log[p] != id; }
    }
  }

  lemma DecodeChained(l: Ledger, next: seq<nat>, tail: nat, id: nat)
    requires l.Indexed() && l.Chained(next, tail) && id < |l.pos|
    ensures l.Decode(id).Indexed() && l.Decode(id).Chained(next, tail)
  {
  }

  lemma DecodePartitioned(l: Ledger, held: seq<bool>, id: nat)
    requires l.Indexed() && l.Partitioned(held) && id < |l.pos| && l.pos[id] in l.undecoded
    ensures l.Decode(id).Partitioned(held[id := true])
  {
    var r := l.Decode(id);
    forall i | 0 <= i < |l.pos| && i != id
      ensures held[i] <==> !r.Out(r.pos[i])
    {
      assert l.log[l.pos[i]] == i;
    }
  }

  lemma DeliverPartitioned(l: Ledger, held: seq<bool>, parts: nat)
    requires l.Indexed() && l.Partitioned(held) && l.consumed + parts <= |l.log|
    ensures l.Deliver(parts).Partitioned(held) && l.Deliver(parts).Indexed()
  {
    var r := l.Deliver(parts);
    forall p | 0 <= p < |l.log|
      ensures r.Out(p) <==> l.Out(p)
    {
    }
  }

  lemma DeliverChained(l: Ledger, next: seq<nat>, tail: nat, parts: nat)
    requires l.Indexed() && l.Chained(next, tail) && l.Deliver(parts).Indexed()
    ensures l.Deliver(parts).Chained(next, tail)
  {
    var r := l.Deliver(parts);
    assert r.log == l.log && r.pos == l.pos;
  }

  /** All buffers published in ID order, none consumed. */
  function Unused(count: nat): Ledger
  {
    Ledger(seq(count, i => i), seq(count, i => i), 0, {})
  }

  lemma UnusedLedger(count: nat, next: seq<nat>, held: seq<bool>)
    requires 0 < count == |next| == |held|
    requires forall j :: 0 <= j < count ==> next[j] == if j + 1 == count then 0 else j + 1
    requires forall j :: 0 <= j < count ==> !held[j]
    ensures var l := Unused(count);
      && |l.pos| == |l.log| == count && l.consumed == 0 && l.undecoded == {}
      && (forall i :: 0 <= i < count ==> l.log[i] == i)
      && l.Indexed() && l.Chained(next, count - 1) && l.Partitioned(held)
  {
  }

  lemma WrapLast(a: nat, n: nat)
    requires 0 < a <= n
    ensures a % n == if a == n then 0 else a
  {
    if a == n { assert n % n == 0; }
  }

  class Table {
    const count: nat
    const width: nat
    const held: array<bool>
    const next: array<nat>
    var tail: nat
    var leases: nat
    var posted: seq<Completion>
    var begun: set<nat>
    var ledger: Ledger

    ghost function HeldIds(): set<nat>
      reads held
    {
      set i | 0 <= i < held.Length && held[i]
    }

    ghost predicate Valid()
      reads this, held, next
    {
      && 0 < count == |ledger.pos| == held.Length == next.Length && 0 < width
      && ledger.Indexed() && ledger.Chained(next[..], tail) && ledger.Partitioned(held[..])
      && leases == |HeldIds()|
      && Booked(ledger, posted, begun, width) && (forall j :: j in begun ==> j < |posted|)
    }

    constructor (count: nat, width: nat)
      requires 0 < count && 0 < width
      ensures Valid() && fresh(held) && fresh(next) && this.count == count && this.width == width
      ensures leases == 0 && ledger.consumed == 0 && ledger.undecoded == {} && posted == [] && begun == {}
      ensures |ledger.log| == count && forall i :: 0 <= i < count ==> ledger.log[i] == i
    {
      this.count, this.width := count, width;
      hide Ledger.Indexed, Ledger.Chained, Ledger.Partitioned, Unused;
      var chain := new nat[count];
      for i := 0 to count
        invariant forall j :: 0 <= j < i ==> chain[j] == if j + 1 == count then 0 else j + 1
      {
        WrapLast(i + 1, count);
        chain[i] := (i + 1) % count;
      }
      next := chain;
      held := new bool[count](_ => false);
      tail, leases := count - 1, 0;
      ledger := Unused(count);
      posted, begun := [], {};
      new;
      assert HeldIds() == {};
      UnusedLedger(count, next[..], held[..]);
    }

    // ---- Environment ---------------------------------------------------------

    /** The kernel takes the next buffers in publication order for one completion, which
        names the first of them. */
    method Consume(flags: nat, size: nat)
      requires Valid() && ledger.consumed + Parts(size, width) <= |ledger.log|
      requires HasBuffer(flags) && BufferId(flags) == ledger.log[ledger.consumed]
      modifies this`ledger, this`posted
      ensures Valid() && ledger == old(ledger).Deliver(Parts(size, width))
      ensures posted == old(posted) + [Completion(flags, size, old(ledger).consumed)]
    {
      hide Ledger.Indexed, Ledger.Chained, Ledger.Partitioned, Booked;
      var parts := Parts(size, width);
      DeliverPartitioned(ledger, held[..], parts);
      DeliverChained(ledger, next[..], tail, parts);
      DeliverBooked(ledger, posted, begun, width, Completion(flags, size, ledger.consumed));
      posted := posted + [Completion(flags, size, ledger.consumed)];
      ledger := ledger.Deliver(parts);
    }

    // ---- Leases --------------------------------------------------------------

    ghost predicate Accepts(flags: nat, size: nat)
      reads held
    {
      HasBuffer(flags) && BufferId(flags) < held.Length && !held[BufferId(flags)] && size <= width
    }

    /** A position in the window of a completion that is being decoded. */
    ghost predicate Within(p: nat, j: nat)
      requires 0 < width
      reads this
    {
      j < |posted| && j in begun && posted[j].start <= p < End(posted[j], width)
    }

    /** Lease one buffer of a completion that is being decoded. A kernel that names a free
        buffer has consumed it. */
    method Take(flags: nat, size: nat, ghost j: nat) returns (r: Result<Chunk>)
      requires Valid()
      requires Accepts(flags, size) ==>
        var p := ledger.pos[BufferId(flags)]; p in ledger.undecoded && Within(p, j)
      modifies this`leases, this`ledger, held
      ensures Valid() && (r.Ok? <==> old(Accepts(flags, size)))
      ensures r.Err? ==> ledger == old(ledger) && leases == old(leases) && held[..] == old(held[..])
      ensures r.Ok? ==>
        && r.value == Chunk(BufferId(flags), size) && leases == old(leases) + 1
        && held[..] == old(held[..])[BufferId(flags) := true]
        && ledger == old(ledger).Decode(BufferId(flags))
    {
      hide Ledger.Indexed, Ledger.Chained, Ledger.Partitioned, Booked;
      var id := BufferId(flags);
      if !HasBuffer(flags) || id >= count || held[id] || size > width { return Err(BadCompletion); }
      DecodePartitioned(ledger, held[..], id);
      DecodeChained(ledger, next[..], tail, id);
      DecodeBooked(ledger, posted, begun, width, id, j);
      ghost var before := HeldIds();
      held[id] := true;
      leases := leases + 1;
      ledger := ledger.Decode(id);
      assert held[..] == old(held[..])[id := true];
      assert HeldIds() == before + {id};
      r := Ok(Chunk(id, size));
    }

    /** Return a lease: publish the buffer behind the last one. */
    method Put(id: nat)
      requires Valid() && id < count && held[id]
      modifies this`leases, this`tail, this`ledger, held, next
      ensures Valid() && ledger == old(ledger).Publish(id)
      ensures leases == old(leases) - 1 && held[..] == old(held[..])[id := false]
    {
      hide Ledger.Indexed, Ledger.Chained, Ledger.Partitioned, Booked;
      PublishBooked(ledger, posted, begun, width, id);
      PublishChained(ledger, next[..], tail, id);
      PublishPartitioned(ledger, held[..], id);
      ghost var before := HeldIds();
      held[id] := false;
      ghost var after := HeldIds();
      assert before == after + {id} && id !in after;
      assert held[..] == old(held[..])[id := false];
      leases := leases - 1;
      next[tail] := id;
      assert next[..] == old(next[..])[tail := id];
      tail := id;
      ledger := ledger.Publish(id);
      assert HeldIds() == after;
    }

    // ---- Bundles -------------------------------------------------------------

    /** What user code and the kernel may do while a chunk is being consumed: return any
        leases, in any order, and consume any further publications. Returns whether the
        consumer threw. */
    method Callback(ghost lo: nat, ghost hi: nat) returns (threw: bool)
      requires Valid() && ledger.Awaits(lo, hi)
      modifies this`leases, this`tail, this`ledger, this`posted, held, next
      ensures Valid() && ledger.Awaits(lo, hi) && old(ledger).log <= ledger.log && old(posted) <= posted
    {
      hide Ledger.Indexed, Ledger.Chained, Ledger.Partitioned, Booked;
      var steps: nat := *;
      while steps > 0
        invariant Valid() && ledger.Awaits(lo, hi) && old(ledger).log <= ledger.log && old(posted) <= posted
      {
        steps := steps - 1;
        if * {
          var flags: int, size: int := *, *;
          if 0 <= flags && 0 <= size { Kernel(flags, size); }
        } else {
          var id: int := *;
          if 0 <= id < count && held[id] { Put(id); }
        }
      }
      threw := *;
    }

    /** The kernel posts a completion if enough buffers are published for it. */
    method Kernel(flags: nat, size: nat)
      requires Valid()
      modifies this`ledger, this`posted
      ensures Valid() && ledger.log == old(ledger).log && old(posted) <= posted
      ensures old(ledger).undecoded <= ledger.undecoded
    {
      hide Ledger.Indexed, Ledger.Chained, Ledger.Partitioned, Booked;
      if ledger.consumed + Parts(size, width) <= |ledger.log|
         && HasBuffer(flags) && BufferId(flags) == ledger.log[ledger.consumed] {
        Consume(flags, size);
      }
    }

    lemma Reached(p: nat, hi: nat)
      requires Valid() && p < hi && ledger.Awaits(p, hi)
      ensures var id := ledger.log[p];
        && id < count && !held[id] && ledger.pos[id] == p && p in ledger.undecoded
        && (p + 1 < hi ==> next[id] == ledger.log[p + 1])
        && ledger.Decode(id).Awaits(p + 1, hi)
    {
      assert ledger.Out(p);
      var id := ledger.log[p];
      assert next[..][id] == next[id] && held[..][id] == held[id];
    }

    /** Lease the buffer a bundle has reached, having read its successor first, since
        returning this lease may change it; then let the consumer have it, or return it
        if the consumer has failed before. */
    method Part(flags: nat, id: nat, bytes: nat, failed: bool, ghost p: nat, ghost hi: nat, ghost j: nat)
      returns (after: nat, chunk: Result<Chunk>, fails: bool)
      requires Valid() && HasBuffer(flags) && p < hi && ledger.Awaits(p, hi) && ledger.log[p] == id && bytes <= width
      requires Within(p, j)
      modifies this`leases, this`tail, this`ledger, this`posted, held, next
      ensures Valid() && chunk == Ok(Chunk(id, bytes)) && id < count && ledger.Awaits(p + 1, hi)
      ensures old(ledger).log <= ledger.log && (p + 1 < hi ==> after == ledger.log[p + 1])
      ensures old(posted) <= posted
      ensures failed ==> fails && held[..] == old(held[..]) && !held[id]
    {
      hide Ledger.Indexed, Ledger.Chained, Ledger.Partitioned, Booked;
      Reached(p, hi);
      WithIdNames(flags, id);
      after, chunk, fails := 0, Err(BadBundleId), failed;
      if id >= count { return; }
      after := next[id];
      chunk := Take(WithId(flags, id), bytes, j);
      if failed {
        Put(id);
      } else {
        fails := Callback(p + 1, hi);
      }
    }

    /** Decode any bundle whose decoding has not begun, in publication order, consuming or
        returning each lease. The other bundles can still be decoded afterwards: they are
        posted, not begun, and the table is valid. */
    method Each(flags: nat, size: nat, j: nat) returns (r: Result<seq<Chunk>>, failed: bool, at: nat)
      requires Valid() && j < |posted| && j !in begun && posted[j].flags == flags && posted[j].size == size
      modifies this`leases, this`tail, this`ledger, this`posted, this`begun, held, next
      ensures Valid() && old(ledger).log <= ledger.log && old(posted) <= posted && begun == old(begun) + {j}
      ensures r.Ok? && |r.value| == Parts(size, width) && Sum(r.value) == size
      ensures Follows(r.value, old(ledger).log, posted[j].start, width)
      ensures forall i, k :: 0 <= i < k < |r.value| ==> r.value[i].id != r.value[k].id
      ensures failed ==> at < |r.value| && Freed(r.value, at, held[..])
    {
      hide Ledger.Indexed, Ledger.Chained, Ledger.Partitioned, Booked, Fills, Follows, Freed, HeldIds, Sum;
      BeginBooked(ledger, posted, begun, width, j);
      begun := begun + {j};
      r, failed, at := Walk(flags, size, posted[j].start, j);
    }

    /** Any run: the kernel consumes and posts, leases come back in any order, and posted
        bundles are decoded in any order. Every decoding succeeds, yields exactly the
        buffers the kernel filled for that bundle, and happens once. */
    method Serve() returns (decodings: seq<Decoding>)
      requires Valid()
      modifies this`leases, this`tail, this`ledger, this`posted, this`begun, held, next
      ensures Valid() && old(ledger).log <= ledger.log && old(posted) <= posted && old(begun) <= begun
      ensures AllRight(decodings, old(begun), Now())
    {
      hide Ledger.Indexed, Ledger.Chained, Ledger.Partitioned, Booked, Follows, HeldIds, Sum, AllRight;
      decodings := [];
      NoneRight(begun, Now());
      var steps: nat := *;
      while steps > 0
        invariant Valid() && old(ledger).log <= ledger.log && old(posted) <= posted && old(begun) <= begun
        invariant AllRight(decodings, old(begun), Now())
      {
        steps := steps - 1;
        ghost var m := Now();
        var j: int := *;
        if 0 <= j < |posted| && j !in begun {
          var r, _, _ := Each(posted[j].flags, posted[j].size, j);
          FollowsLonger(r.value, m.log, ledger.log, posted[j].start, width);
          RightLater(decodings, old(begun), m, Now().(begun := m.begun));
          RightNext(decodings, old(begun), Now().(begun := m.begun), Decoding(j, r.value));
          decodings := decodings + [Decoding(j, r.value)];
        } else {
          var _ := Callback(0, 0);
          RightLater(decodings, old(begun), m, Now());
        }
      }
    }

    ghost function Now(): Moment
      reads this
    {
      Moment(posted, begun, ledger.log, width)
    }

    /** The part of a window from a position on, as the decoding has reached it. */
    ghost predicate Reaching(c: Completion, p: nat, j: nat)
      requires 0 < width
      reads this
    {
      j < |posted| && j in begun && posted[j] == c && c.start <= p && ledger.Awaits(p, End(c, width))
    }

    method Walk(flags: nat, size: nat, ghost start: nat, ghost j: nat)
      returns (r: Result<seq<Chunk>>, failed: bool, at: nat)
      requires Valid() && Reaching(Completion(flags, size, start), start, j)
      requires HasBuffer(flags) && BufferId(flags) == ledger.log[start]
      modifies this`leases, this`tail, this`ledger, this`posted, held, next
      ensures Valid() && old(ledger).log <= ledger.log && old(posted) <= posted
      ensures r.Ok? && |r.value| == Parts(size, width) && Sum(r.value) == size
      ensures Follows(r.value, old(ledger).log, start, width)
      ensures forall i, k :: 0 <= i < k < |r.value| ==> r.value[i].id != r.value[k].id
      ensures failed ==> at < |r.value| && Freed(r.value, at, held[..])
    {
      hide Ledger.Indexed, Ledger.Chained, Ledger.Partitioned, Booked, Fills, Follows, Freed, Apart, HeldIds, Sum, WithId;
      var parts := Parts(size, width);
      FillsIffParts(size, width, parts);
      WindowDistinct(ledger, held[..], start, parts);
      r, failed, at := Err(BadBundleSize), false, 0;
      if parts > count { return; }
      ghost var log := ledger.log;
      var id := BufferId(flags);
      var left: nat, chunks := size, [];
      FollowsNone(log, start, width);
      for i := 0 to parts
        invariant Valid() && log <= ledger.log && Reaching(Completion(flags, size, start), start + i, j)
        invariant old(posted) <= posted
        invariant i < parts ==> id == ledger.log[start + i] && Fills(left, width, parts - i)
        invariant i == parts ==> left == 0
        invariant |chunks| == i && Sum(chunks) + left == size && Follows(chunks, log, start, width)
        invariant failed ==> at < i && Freed(chunks, at, held[..])
      {
        FillsRest(left, width, parts - i);
        var bytes := if left < width then left else width;
        var after, chunk, fails := Part(flags, id, bytes, failed, start + i, start + parts, j);
        match chunk
        case Err(e) => return Err(e), failed, at;
        case Ok(c) =>
          FollowsSnoc(chunks, log, start, width, c);
          FreedSnoc(chunks, at, held[..], c);
          left := left - bytes;
          SumSnoc(chunks, c);
          chunks := chunks + [c];
          if !failed { failed, at := fails, i; }
          id := after;
      }
      Decoded(chunks, log, start, width);
      r := Ok(chunks);
    }
  }

  /** What the completions, their decoding and the publication log are at one moment. */
  datatype Moment = Moment(posted: seq<Completion>, begun: set<nat>, log: seq<nat>, width: nat)

  /** A bundle decoded as the kernel filled it. */
  ghost predicate Right(d: Decoding, m: Moment)
  {
    && 0 < m.width && d.completion < |m.posted| && d.completion in m.begun
    && var c := m.posted[d.completion];
       |d.chunks| == Parts(c.size, m.width) && Sum(d.chunks) == c.size && Follows(d.chunks, m.log, c.start, m.width)
  }

  /** Decodings of distinct completions, all right, and all that have begun since. */
  ghost predicate AllRight(ds: seq<Decoding>, begun: set<nat>, m: Moment)
  {
    && (forall i :: 0 <= i < |ds| ==> Right(ds[i], m) && ds[i].completion !in begun)
    && (forall i, k :: 0 <= i < k < |ds| ==> ds[i].completion != ds[k].completion)
    && (forall j :: j in m.begun ==> j in begun || exists i :: 0 <= i < |ds| && ds[i].completion == j)
  }

  lemma NoneRight(begun: set<nat>, m: Moment)
    requires m.begun == begun
    ensures AllRight([], begun, m)
  {
  }

  lemma RightLater(ds: seq<Decoding>, begun: set<nat>, m: Moment, r: Moment)
    requires AllRight(ds, begun, m) && r.width == m.width && m.posted <= r.posted && r.begun == m.begun && m.log <= r.log
    ensures AllRight(ds, begun, r)
  {
    forall i | 0 <= i < |ds| ensures Right(ds[i], r) {
      FollowsLonger(ds[i].chunks, m.log, r.log, m.posted[ds[i].completion].start, m.width);
    }
  }

  lemma RightNext(ds: seq<Decoding>, begun: set<nat>, m: Moment, d: Decoding)
    requires AllRight(ds, begun, m) && begun <= m.begun && d.completion !in m.begun
    requires Right(d, m.(begun := m.begun + {d.completion}))
    ensures AllRight(ds + [d], begun, m.(begun := m.begun + {d.completion}))
  {
    var r := m.(begun := m.begun + {d.completion});
    forall j | j in r.begun && j !in begun
      ensures exists i :: 0 <= i < |ds + [d]| && (ds + [d])[i].completion == j
    {
      if j == d.completion {
        assert (ds + [d])[|ds|].completion == j;
      } else {
        var i :| 0 <= i < |ds| && ds[i].completion == j;
        assert (ds + [d])[i].completion == j;
      }
    }
  }

  lemma FollowsLonger(chunks: seq<Chunk>, log: seq<nat>, longer: seq<nat>, start: nat, width: nat)
    requires Follows(chunks, log, start, width) && log <= longer
    ensures Follows(chunks, longer, start, width)
  {
  }

  lemma BeginBooked(l: Ledger, posted: seq<Completion>, begun: set<nat>, width: nat, j: nat)
    requires 0 < width && Booked(l, posted, begun, width) && j < |posted| && j !in begun
    ensures l.Awaits(posted[j].start, End(posted[j], width)) && Names(l, posted[j], width)
    ensures Booked(l, posted, begun + {j}, width)
  {
  }

  /** The chunks are the publications from `start` on, each within one buffer. */
  ghost predicate Follows(chunks: seq<Chunk>, log: seq<nat>, start: nat, width: nat)
  {
    start + |chunks| <= |log| &&
    forall j :: 0 <= j < |chunks| ==> chunks[j].id == log[start + j] && chunks[j].bytes <= width
  }

  /** Every chunk after a point has been returned. */
  ghost predicate Freed(chunks: seq<Chunk>, at: nat, held: seq<bool>)
  {
    forall j :: at < j < |chunks| ==> chunks[j].id < |held| && !held[chunks[j].id]
  }

  ghost predicate Apart(log: seq<nat>, lo: nat, hi: nat)
  {
    hi <= |log| && forall a, b :: lo <= a < b < hi ==> log[a] != log[b]
  }

  lemma FollowsNone(log: seq<nat>, start: nat, width: nat)
    requires start <= |log|
    ensures Follows([], log, start, width) && Sum([]) == 0
  {
  }

  lemma FollowsSnoc(chunks: seq<Chunk>, log: seq<nat>, start: nat, width: nat, c: Chunk)
    requires Follows(chunks, log, start, width) && start + |chunks| < |log|
    requires c.id == log[start + |chunks|] && c.bytes <= width
    ensures Follows(chunks + [c], log, start, width)
  {
  }

  lemma FreedSnoc(chunks: seq<Chunk>, at: nat, held: seq<bool>, c: Chunk)
    ensures Freed(chunks, at, held) && c.id < |held| && !held[c.id] ==> Freed(chunks + [c], at, held)
    ensures Freed(chunks + [c], |chunks|, held)
  {
  }

  lemma Decoded(chunks: seq<Chunk>, log: seq<nat>, start: nat, width: nat)
    requires Follows(chunks, log, start, width)
    requires Apart(log, start, start + |chunks|)
    ensures forall i, j :: 0 <= i < j < |chunks| ==> chunks[i].id != chunks[j].id
  {
  }

  /** Distinct publications in a window name distinct buffers, so it is no longer than
      the table. */
  lemma WindowDistinct(l: Ledger, held: seq<bool>, start: nat, parts: nat)
    requires l.Indexed() && l.Partitioned(held) && l.Awaits(start, start + parts)
    ensures Apart(l.log, start, start + parts)
    ensures parts <= |l.pos|
  {
    forall p | start <= p < start + parts
      ensures l.pos[l.log[p]] == p
    {
      assert l.Out(p);
    }
    Pigeonhole(l.log[start..start + parts], |l.pos|);
  }

  lemma {:induction false} Pigeonhole(xs: seq<nat>, n: nat)
    requires forall i :: 0 <= i < |xs| ==> xs[i] < n
    requires forall i, j :: 0 <= i < j < |xs| ==> xs[i] != xs[j]
    ensures |xs| <= n
    decreases n
  {
    if xs != [] {
      assert xs[0] < n;
      if k :| 0 <= k < |xs| && xs[k] == n - 1 {
        Pigeonhole(xs[..k] + xs[k + 1..], n - 1);
      } else {
        Pigeonhole(xs, n - 1);
      }
    }
  }

  /** The remaining bytes after a full buffer still fill the remaining buffers. */
  lemma FillsRest(size: nat, width: nat, parts: nat)
    requires 0 < width && Fills(size, width, parts)
    ensures parts > 1 ==> width < size && Fills(size - width, width, parts - 1)
    ensures parts == 1 ==> size <= width
  {
    if parts > 1 {
      assert (parts - 1) * width == (parts - 2) * width + width;
      assert parts * width == (parts - 1) * width + width;
      assert (parts - 2) * width >= 0;
    } else {
      assert parts * width == width;
    }
  }

  lemma SumSnoc(chunks: seq<Chunk>, c: Chunk)
    ensures Sum(chunks + [c]) == Sum(chunks) + c.bytes
  {
    assert (chunks + [c])[..|chunks|] == chunks;
  }

  // ---- Conservation ----------------------------------------------------------

  /** The positions below a bound. */
  ghost function Upto(n: nat): (r: set<nat>)
    ensures forall x :: x in r <==> 0 <= x < n
    ensures |r| == n
  {
    if n == 0 then {} else
      var below := Upto(n - 1);
      assert n - 1 !in below;
      below + {n - 1}
  }

  lemma {:induction false} ImageSize(ids: set<nat>, pos: seq<nat>, image: set<nat>)
    requires forall i :: i in ids ==> i < |pos|
    requires forall i, j :: i in ids && j in ids && i != j ==> pos[i] != pos[j]
    requires forall i :: i in ids ==> pos[i] in image
    requires forall p :: p in image ==> exists i :: i in ids && pos[i] == p
    ensures |image| == |ids|
  {
    if ids != {} {
      var i :| i in ids;
      forall p | p in image - {pos[i]}
        ensures exists j :: j in ids - {i} && pos[j] == p
      {
        var j :| j in ids && pos[j] == p;
      }
      ImageSize(ids - {i}, pos, image - {pos[i]});
    } else {
      assert image == {};
    }
  }

  /** Leased, delivered but undecoded, and available buffers add up to the table, in
      every state that leases, returns and the kernel can reach. */
  lemma LeaseConservation(t: Table)
    requires t.Valid()
    ensures t.leases + |t.ledger.undecoded| + (|t.ledger.log| - t.ledger.consumed) == t.count
  {
    var l := t.ledger;
    var available := Upto(|l.log|) - Upto(l.consumed);
    var out, free := l.undecoded + available, Upto(t.count) - t.HeldIds();
    assert t.HeldIds() <= Upto(t.count);
    assert Upto(l.consumed) <= Upto(|l.log|);
    assert l.undecoded !! available;
    forall p | p in out
      ensures exists i :: i in free && l.pos[i] == p
    {
      assert l.Out(p);
      assert t.held[..][l.log[p]] == t.held[l.log[p]];
      assert l.log[p] in free;
    }
    forall i | i in free
      ensures l.pos[i] in out
    {
      assert t.held[..][i] == t.held[i];
      assert l.Out(l.pos[i]);
    }
    ImageSize(free, l.pos, out);
  }

  // ---- Waiting for a lease ----------------------------------------------------

  /** Coroutines waiting for a returned lease: those asleep on the event, and those it has
      queued, which will check again. All of it happens on the owner thread, so a check
      and the sleep that follows it are one step. */
  datatype Gate = Gate(count: nat, leases: nat, raised: bool, asleep: set<nat>, queued: set<nat>)

  datatype GateEvent = Lease | Return | Check(id: nat) | Resume(id: nat) | Cancel(id: nat)

  predicate Allowed(g: Gate, e: GateEvent)
  {
    match e
    case Lease => g.leases < g.count
    case Return => g.leases > 0
    case Check(id) => id !in g.asleep && id !in g.queued
    case Resume(id) => id in g.queued
    case Cancel(id) => id in g.asleep
  }

  /** With every buffer leased, reset the event and sleep; otherwise go on. */
  function Checked(g: Gate, id: nat): Gate
  {
    if g.leases == g.count then g.(raised := false, asleep := g.asleep + {id}) else g
  }

  function Passed(g: Gate, e: GateEvent): Gate
    requires Allowed(g, e)
  {
    match e
    case Lease => g.(leases := g.leases + 1)
    case Return => g.(leases := g.leases - 1, raised := true, asleep := {}, queued := g.queued + g.asleep)
    case Check(id) => Checked(g, id)
    case Resume(id) => Checked(g.(queued := g.queued - {id}), id)
    case Cancel(id) => g.(asleep := g.asleep - {id})
  }

  ghost predicate Gated(g: Gate, es: seq<GateEvent>)
    decreases |es|
  {
    es == [] || (Allowed(g, es[0]) && Gated(Passed(g, es[0]), es[1..]))
  }

  ghost function Later(g: Gate, es: seq<GateEvent>): Gate
    requires Gated(g, es)
    decreases |es|
  {
    if es == [] then g else Later(Passed(g, es[0]), es[1..])
  }

  /** No returned lease is missed: in every run, whoever is asleep went to sleep after the
      last return, and every buffer has been leased ever since. */
  lemma {:induction false} NoMissedReturn(g: Gate, es: seq<GateEvent>)
    requires g.leases <= g.count && (g.asleep != {} ==> g.leases == g.count && !g.raised) && Gated(g, es)
    ensures var r := Later(g, es);
      r.leases <= r.count && (r.asleep != {} ==> r.leases == r.count && !r.raised)
    decreases |es|
  {
    if es != [] { NoMissedReturn(Passed(g, es[0]), es[1..]); }
  }
}
