/** The loop's bounded turns: fairness of the ready and message queues, and what a turn
    decides about waiting. A queue is the sequence its intrusive list holds. */
module Loops {

  import opened Options

  /** One turn resumes at most `budget` continuations from the front; each resumption
      may queue any number of others behind. Returns what was resumed and what is left. */
  function Turn<A>(queue: seq<A>, budget: nat, pushes: nat -> seq<A>): (r: (seq<A>, seq<A>))
    decreases budget
  {
    if budget == 0 || queue == [] then ([], queue)
    else
      var (ran, left) := Turn(queue[1..] + pushes(budget), budget - 1, pushes);
      ([queue[0]] + ran, left)
  }

  /** However much is pushed, a turn runs exactly the first items within its budget and
      moves the others forward by the whole budget. */
  lemma {:induction false} TurnAdvances<A>(queue: seq<A>, budget: nat, pushes: nat -> seq<A>, p: nat)
    requires p < |queue|
    ensures var (ran, left) := Turn(queue, budget, pushes);
      if p < budget then p < |ran| && ran[p] == queue[p]
      else |ran| == budget && p - budget < |left| && left[p - budget] == queue[p]
    decreases budget
  {
    if budget > 0 && p > 0 {
      TurnAdvances(queue[1..] + pushes(budget), budget - 1, pushes, p - 1);
    } else if budget > 0 {
      if |queue| > 1 { TurnAdvances(queue[1..] + pushes(budget), budget - 1, pushes, 0); }
      TurnLength(queue[1..] + pushes(budget), budget - 1, pushes);
    }
  }

  lemma {:induction false} TurnLength<A>(queue: seq<A>, budget: nat, pushes: nat -> seq<A>)
    ensures |Turn(queue, budget, pushes).0| <= budget
    decreases budget
  {
    if budget > 0 && queue != [] { TurnLength(queue[1..] + pushes(budget), budget - 1, pushes); }
  }

  /** The queue after some turns, with arbitrary work pushed during each and after it. */
  ghost function Turns<A>(queue: seq<A>, budget: nat, pushes: nat -> (nat -> seq<A>), between: nat -> seq<A>, n: nat): seq<A>
  {
    if n == 0 then queue
    else Turn(Turns(queue, budget, pushes, between, n - 1), budget, pushes(n)).1 + between(n)
  }

  /** Until its turn comes, an item is still queued, and it
      has moved forward by one budget per turn. */
  lemma {:induction false} StaysQueued<A>(
    queue: seq<A>, budget: nat, pushes: nat -> (nat -> seq<A>), between: nat -> seq<A>, p: nat, n: nat)
    requires p < |queue| && n * budget <= p
    ensures var q := Turns(queue, budget, pushes, between, n);
      p - n * budget < |q| && q[p - n * budget] == queue[p]
  {
    if n > 0 {
      assert (n - 1) * budget == n * budget - budget;
      StaysQueued(queue, budget, pushes, between, p, n - 1);
      TurnAdvances(Turns(queue, budget, pushes, between, n - 1), budget, pushes(n), p - (n - 1) * budget);
    }
  }

  /** What is left in the queue when a turn decides whether to wait: after its own items
      have run, before anything that arrives during the wait. */
  ghost function Left<A>(queue: seq<A>, budget: nat, pushes: nat -> (nat -> seq<A>), between: nat -> seq<A>, n: nat): seq<A>
    requires n > 0
  {
    Turn(Turns(queue, budget, pushes, between, n - 1), budget, pushes(n)).1
  }

  /** Fairness: an item at position p is resumed in turn p / budget + 1, whatever work is
      pushed meanwhile, and every turn before that one decides about waiting while the
      item is still queued. */
  lemma RunsWithin<A>(queue: seq<A>, budget: nat, pushes: nat -> (nat -> seq<A>), between: nat -> seq<A>, p: nat)
    requires 0 < budget && p < |queue|
    ensures var k := p / budget;
      var ran := Turn(Turns(queue, budget, pushes, between, k), budget, pushes(k + 1)).0;
      p % budget < |ran| && ran[p % budget] == queue[p]
    ensures forall n: nat :: 1 <= n <= p / budget ==> queue[p] in Left(queue, budget, pushes, between, n)
  {
    hide Turn, Turns;
    var k := p / budget;
    DivBound(p, budget);
    StaysQueued(queue, budget, pushes, between, p, k);
    TurnAdvances(Turns(queue, budget, pushes, between, k), budget, pushes(k + 1), p % budget);
    forall n: nat | 1 <= n <= k
      ensures queue[p] in Left(queue, budget, pushes, between, n)
    {
      Below(p, budget, n);
      assert (n - 1) * budget == n * budget - budget;
      StaysQueued(queue, budget, pushes, between, p, n - 1);
      TurnAdvances(Turns(queue, budget, pushes, between, n - 1), budget, pushes(n), p - (n - 1) * budget);
    }
  }

  lemma Below(p: nat, budget: nat, n: nat)
    requires 0 < budget && n <= p / budget
    ensures n * budget <= p
  {
    DivBound(p, budget);
    assert (p / budget - n) * budget >= 0;
  }

  lemma DivBound(p: nat, budget: nat)
    requires 0 < budget
    ensures (p / budget) * budget <= p && p - (p / budget) * budget == p % budget
  {
  }

  // ---- Waiting ---------------------------------------------------------------

  /** How a turn ends: no poll at all, or a poll for at most so long, without bound if
      negative. */
  datatype Pause = Skip | Poll(delay: int)

  /** The decision at the end of a turn, from whether native requests are pending, work is
      ready or posted, and how far the next deadline is. */
  function NextPause(io: bool, ready: bool, posted: bool, deadline: Option<int>): Pause
  {
    if !io && (ready || posted) then Skip
    else if ready || posted then Poll(0)
    else match deadline
      case Some(left) => Poll(if left < 0 then 0 else left)
      case None => Poll(-1)
  }

  predicate Blocks(p: Pause)
  {
    p.Poll? && p.delay != 0
  }

  /** No turn before a ready item's own blocks: it skips the poll or polls without waiting. */
  lemma ReadyNeverWaits<A>(
    queue: seq<A>, budget: nat, pushes: nat -> (nat -> seq<A>), between: nat -> seq<A>, p: nat, n: nat,
    io: bool, posted: bool, deadline: Option<int>)
    requires 0 < budget && p < |queue| && 1 <= n <= p / budget
    ensures !Blocks(NextPause(io, Left(queue, budget, pushes, between, n) != [], posted, deadline))
  {
    RunsWithin(queue, budget, pushes, between, p);
  }

  /** A turn detaches at most `budget` messages under the lock, and nothing is pushed in
      between; what arrives later is behind. A message left behind makes the turn see
      posted work when it decides, so it does not block either. */
  lemma MessagesNeverWait<A>(
    queue: seq<A>, budget: nat, arriving: nat -> seq<A>, since: seq<A>, p: nat, n: nat,
    io: bool, ready: bool, posts: bool, deadline: Option<int>)
    requires 0 < budget && p < |queue| && 1 <= n <= p / budget
    ensures var detached := Left(queue, budget, _ => _ => [], arriving, n);
      !Blocks(NextPause(io, ready, posts || detached + since != [], deadline))
  {
    RunsWithin(queue, budget, _ => _ => [], arriving, p);
  }
}
