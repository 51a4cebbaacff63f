/**
 * SharedBlockingQueueMediator: hands CSV lines from the reader to the workers through one
 * shared bounded queue and, when duplicate-key routing is on, hands records between workers
 * through one bounded router queue per worker ("partition").
 *
 * End of input is detected by counting. The reader puts one terminal line on the shared queue;
 * every worker that takes it puts it back. Without routing the worker then stops. With routing
 * it counts itself in its own `deadRouterProducers` entry, puts a terminal token on every other
 * partition's router queue, and from then on reads only its own router queue, counting tokens,
 * until it has counted one per partition.
 *
 * A blocking put or take on a full or empty queue is not modelled as waiting: a put requires
 * room, and a `take` that would park its thread mid-way is excluded by its precondition. The
 * one exception is the router take of the terminal phase: parking there and being woken later
 * resumes exactly the same loop, so it is returned as `Waiting` with the progress made so far.
 */
module Mediation {
  import opened Wrappers
  import opened Records
  import opened JavaLang
  import Config

  /** A CSV line: the `String[]` of its columns. */
  type Line = seq<string>

  /** What a router queue holds: a record rerouted by another worker, or the terminal token. */
  datatype Item = Rec(rec: Record) | Token

  /** What `take` hands a worker: a line, a rerouted record, or nothing yet. */
  datatype Taken = TakenLine(line: Line) | TakenRecord(rec: Record) | Waiting

  /** The fixed parameters of one mediator. */
  datatype Setup = Setup(threads: nat, terminal: string, routing: bool, capacity: nat)

  /** The mediator's contents: shared queue, router queues (none without routing), counters. */
  datatype MState = MState(queue: seq<Line>, router: seq<seq<Item>>, dead: seq<int>)

  /** The result of one `take`: what it returns and the state after, or a thread that parks. */
  datatype Outcome = Step(taken: Taken, next: MState) | Blocked

  /** The router queue was drained up to a record (`found`), or until it was empty. */
  datatype Served = Served(found: Option<Record>, after: MState)

  ghost predicate WellFormed(s: MState, k: Setup) {
    && k.capacity >= 1
    && |s.dead| == k.threads
    && |s.queue| <= k.capacity
    && (forall i | 0 <= i < |s.dead| :: s.dead[i] >= 0)
    && (k.routing ==> |s.router| == k.threads && forall i | 0 <= i < |s.router| :: |s.router[i]| <= k.capacity)
    && (!k.routing ==> s.router == [] && forall i | 0 <= i < |s.dead| :: s.dead[i] == 0)
  }

  /** isTerminalLine: an empty line, or one whose first column is the run's terminal message. */
  predicate IsTerminalLine(line: Line, terminal: string) {
    |line| == 0 || line[0] == terminal
  }

  /** The line producerDone puts on the shared queue. */
  function ProducerDoneLine(terminal: string): (line: Line)
    ensures IsTerminalLine(line, terminal) && |line| == 1
  {
    [terminal]
  }

  /** The line consumerDone puts on the shared queue: terminal too, as it starts with the message. */
  function ConsumerDoneLine(terminal: string, threadId: int): (line: Line)
    ensures IsTerminalLine(line, terminal) && |line| == 2
  {
    [terminal, IntToString(threadId)]
  }

  /** isInTerminalPhase. */
  predicate IsInTerminalPhase(s: MState, p: nat)
    requires p < |s.dead|
  {
    s.dead[p] > 0
  }

  /** routerQueueHasData. */
  predicate RouterQueueHasData(s: MState, k: Setup, p: nat)
    requires WellFormed(s, k) && p < k.threads
  {
    k.routing && s.router[p] != []
  }

  /** `queue` with its first item removed, counting a token. */
  function PopRouter(s: MState, k: Setup, p: nat): (r: MState)
    requires WellFormed(s, k) && p < k.threads && RouterQueueHasData(s, k, p)
    ensures WellFormed(r, k) && r.queue == s.queue
    ensures r.router == s.router[p := s.router[p][1..]]
    ensures r.dead == if s.router[p][0].Token? then s.dead[p := s.dead[p] + 1] else s.dead
  {
    var s' := s.(router := s.router[p := s.router[p][1..]]);
    if s.router[p][0].Token? then s'.(dead := s.dead[p := s.dead[p] + 1]) else s'
  }

  /** How many terminal tokens a router queue holds. */
  function Tokens(q: seq<Item>): nat {
    if q == [] then 0 else (if q[0].Token? then 1 else 0) + Tokens(q[1..])
  }

  predicate IsSuffix<T(==)>(a: seq<T>, b: seq<T>) {
    |a| <= |b| && a == b[|b| - |a|..]
  }

  /** The drain loop at the start of take (lines 144-156): count tokens until a record or empty. */
  function ServeRouter(s: MState, k: Setup, p: nat): (r: Served)
    requires WellFormed(s, k) && p < k.threads
    ensures WellFormed(r.after, k)
    ensures r.after.queue == s.queue
    ensures |r.after.dead| == |s.dead| && r.after.dead[p] >= s.dead[p]
    ensures forall i | 0 <= i < |s.dead| && i != p :: r.after.dead[i] == s.dead[i]
    ensures k.routing ==> forall i | 0 <= i < |s.router| && i != p :: r.after.router[i] == s.router[i]
    ensures k.routing ==> IsSuffix(r.after.router[p], s.router[p])
    ensures k.routing ==> r.after.dead[p] - s.dead[p] == Tokens(s.router[p]) - Tokens(r.after.router[p])
    ensures r.found.Some? ==> k.routing && Rec(r.found.value) in s.router[p]
    ensures r.found.None? ==> !RouterQueueHasData(r.after, k, p)
    decreases if k.routing then |s.router[p]| else 0
  {
    if !RouterQueueHasData(s, k, p) then Served(None, s)
    else match s.router[p][0]
      case Token => ServeRouter(PopRouter(s, k, p), k, p)
      case Rec(rec) => Served(Some(rec), PopRouter(s, k, p))
  }

  /**
   * terminalPhaseTake (lines 219-236): read only the own router queue, count tokens, and return
   * the empty line once the counter reaches the number of partitions.
   */
  function TerminalPhase(s: MState, k: Setup, p: nat): (r: Outcome)
    requires WellFormed(s, k) && p < k.threads && k.routing
    ensures r.Step? && WellFormed(r.next, k)
    ensures r.next.queue == s.queue
    ensures |r.next.dead| == |s.dead| && r.next.dead[p] >= s.dead[p]
    ensures forall i | 0 <= i < |s.dead| && i != p :: r.next.dead[i] == s.dead[i]
    ensures forall i | 0 <= i < |s.router| && i != p :: r.next.router[i] == s.router[i]
    ensures IsSuffix(r.next.router[p], s.router[p])
    ensures r.next.dead[p] - s.dead[p] == Tokens(s.router[p]) - Tokens(r.next.router[p])
    ensures r.taken.TakenLine? ==> r.taken.line == [] && r.next.dead[p] >= k.threads
    ensures r.taken.TakenRecord? ==> Rec(r.taken.rec) in s.router[p]
    ensures s.dead[p] >= k.threads ==> r == Step(TakenLine([]), s)
    decreases |s.router[p]|
  {
    if s.dead[p] >= k.threads then Step(TakenLine([]), s)
    else if s.router[p] == [] then Step(Waiting, s)
    else match s.router[p][0]
      case Token => TerminalPhase(PopRouter(s, k, p), k, p)
      case Rec(rec) => Step(TakenRecord(rec), PopRouter(s, k, p))
  }

  /** Every partition except `p` gets one terminal token at the end of its router queue. */
  function Broadcast(router: seq<seq<Item>>, p: nat): (r: seq<seq<Item>>)
  {
    seq(|router|, j requires 0 <= j < |router| => if j == p then router[j] else router[j] + [Token])
  }

  /** The broadcast puts do not block: every other router queue has room. */
  predicate BroadcastFits(router: seq<seq<Item>>, k: Setup, p: nat) {
    forall j | 0 <= j < |router| && j != p :: |router[j]| < k.capacity
  }

  /**
   * What take does after dequeuing a terminal line (lines 174-195): put the terminal line back
   * and, with routing, count itself, broadcast the token and enter the terminal phase.
   */
  function TerminalLineTaken(s: MState, k: Setup, p: nat): (r: Outcome)
    requires WellFormed(s, k) && p < k.threads && |s.queue| < k.capacity
    ensures r.Step? ==> WellFormed(r.next, k)
    ensures r.Blocked? <==> k.routing && !BroadcastFits(s.router, k, p)
  {
    var s2 := s.(queue := s.queue + [ProducerDoneLine(k.terminal)]);
    if !k.routing then Step(TakenLine([]), s2)
    else if !BroadcastFits(s2.router, k, p) then Blocked
    else TerminalPhase(EnterTerminalPhase(s2, k, p), k, p)
  }

  /** Lines 178-189: count the own end of input and send a token to every other partition. */
  function EnterTerminalPhase(s: MState, k: Setup, p: nat): (r: MState)
    requires WellFormed(s, k) && p < k.threads && k.routing && BroadcastFits(s.router, k, p)
    ensures WellFormed(r, k) && r.queue == s.queue
    ensures r.dead == s.dead[p := s.dead[p] + 1]
    ensures r.router == Broadcast(s.router, p)
  {
    s.(dead := s.dead[p := s.dead[p] + 1], router := Broadcast(s.router, p))
  }

  /**
   * The rest of take once the router queue has nothing to hand out (lines 158-170): a line from
   * the shared queue, returned as it is unless it is terminal.
   */
  function SharedTake(s: MState, k: Setup, p: nat): (r: Outcome)
    requires WellFormed(s, k) && p < k.threads
    ensures r.Step? ==> WellFormed(r.next, k)
    ensures r.Blocked? <==> s.queue == [] || (IsTerminalLine(s.queue[0], k.terminal) && k.routing && !BroadcastFits(s.router, k, p))
  {
    if s.queue == [] then Blocked
    else
      var line := s.queue[0];
      var s1 := s.(queue := s.queue[1..]);
      if !IsTerminalLine(line, k.terminal) then Step(TakenLine(line), s1)
      else TerminalLineTaken(s1, k, p)
  }

  /** take(forThreadId): the whole call, from the state before to what it returns and leaves. */
  function TakeSpec(s: MState, k: Setup, p: nat): (r: Outcome)
    requires WellFormed(s, k) && p < k.threads
    ensures r.Step? ==> WellFormed(r.next, k)
  {
    if IsInTerminalPhase(s, p) then TerminalPhase(s, k, p)
    else
      var served := ServeRouter(s, k, p);
      if served.found.Some? then Step(TakenRecord(served.found.value), served.after)
      else SharedTake(served.after, k, p)
  }

  class SharedBlockingQueueMediator {
    var queue: seq<Line>
    var routerQueues: seq<seq<Item>>
    const deadRouterProducers: array<int>
    const threads: nat
    const terminalMessage: string
    const routing: bool
    const capacity: nat

    function Params(): Setup {
      Setup(threads, terminalMessage, routing, capacity)
    }

    function State(): MState
      reads this, deadRouterProducers
    {
      MState(queue, routerQueues, deadRouterProducers[..])
    }

    ghost predicate Valid()
      reads this, deadRouterProducers
    {
      deadRouterProducers.Length == threads && WellFormed(State(), Params())
    }

    /**
     * Both queues hold batchSize × numberOfThreads entries; router queues exist only when
     * duplicate primary keys are routed. `terminal` stands for the random UUID of the run.
     */
    constructor (config: Config.Settings, numberOfThreads: nat, terminal: string)
      requires numberOfThreads >= 1
      ensures Valid() && fresh(deadRouterProducers)
      ensures threads == numberOfThreads && terminalMessage == terminal
      ensures routing == config.ignoreDuplicatePK
      ensures capacity == config.BatchSize() * numberOfThreads
      ensures queue == []
      ensures routerQueues == if routing then seq(numberOfThreads, _ => []) else []
      ensures forall i | 0 <= i < numberOfThreads :: deadRouterProducers[i] == 0
    {
      threads := numberOfThreads;
      terminalMessage := terminal;
      routing := config.ignoreDuplicatePK;
      capacity := config.BatchSize() * numberOfThreads;
      queue := [];
      deadRouterProducers := new int[numberOfThreads](_ => 0);
      routerQueues := if config.ignoreDuplicatePK then seq(numberOfThreads, _ => []) else [];
    }

    /** dispatch(String[]): the reader appends a line to the shared queue. */
    method Dispatch(line: Line)
      requires Valid() && |queue| < capacity
      modifies this
      ensures Valid()
      ensures queue == old(queue) + [line] && routerQueues == old(routerQueues)
    {
      queue := queue + [line];
    }

    /** producerDone: the terminal line goes on the shared queue. */
    method ProducerDone()
      requires Valid() && |queue| < capacity
      modifies this
      ensures Valid()
      ensures queue == old(queue) + [ProducerDoneLine(terminalMessage)]
      ensures routerQueues == old(routerQueues)
    {
      Dispatch([terminalMessage]);
    }

    /** consumerDone: a two-column terminal line naming the worker. */
    method ConsumerDone(threadId: int)
      requires Valid() && |queue| < capacity
      modifies this
      ensures Valid()
      ensures queue == old(queue) + [ConsumerDoneLine(terminalMessage, threadId)]
      ensures routerQueues == old(routerQueues)
    {
      Dispatch([terminalMessage, IntToString(threadId)]);
    }

    /** dispatch(Map, forThreadId): append to that partition's router queue. */
    method Route(item: Item, forThreadId: nat)
      requires Valid() && routing && forThreadId < threads
      requires |routerQueues[forThreadId]| < capacity
      modifies this
      ensures Valid()
      ensures routerQueues == old(routerQueues)[forThreadId := old(routerQueues)[forThreadId] + [item]]
      ensures queue == old(queue)
    {
      routerQueues := routerQueues[forThreadId := routerQueues[forThreadId] + [item]];
    }

    /** `deadRouterProducers[forThreadId]++`. */
    method CountTerminal(forThreadId: nat)
      requires Valid() && routing && forThreadId < threads
      modifies deadRouterProducers
      ensures Valid()
      ensures State() == old(State()).(dead := old(State()).dead[forThreadId := old(deadRouterProducers[forThreadId]) + 1])
    {
      deadRouterProducers[forThreadId] := deadRouterProducers[forThreadId] + 1;
    }

    /** Takes the head of the own router queue, counting it if it is the token. */
    method TakeFromRouter(forThreadId: nat) returns (item: Item)
      requires Valid() && forThreadId < threads && RouterQueueHasData(State(), Params(), forThreadId)
      modifies this, deadRouterProducers
      ensures Valid()
      ensures State() == PopRouter(old(State()), Params(), forThreadId)
      ensures item == old(routerQueues[forThreadId][0])
    {
      item := routerQueues[forThreadId][0];
      routerQueues := routerQueues[forThreadId := routerQueues[forThreadId][1..]];
      if item.Token? {
        CountTerminal(forThreadId);
      }
    }

    method TerminalPhaseTake(forThreadId: nat) returns (r: Taken)
      requires Valid() && forThreadId < threads && routing
      modifies this, deadRouterProducers
      ensures Valid()
      ensures Step(r, State()) == TerminalPhase(old(State()), Params(), forThreadId)
    {
      while deadRouterProducers[forThreadId] < deadRouterProducers.Length
        invariant Valid()
        invariant TerminalPhase(State(), Params(), forThreadId) == TerminalPhase(old(State()), Params(), forThreadId)
        decreases |routerQueues[forThreadId]|
      {
        if routerQueues[forThreadId] == [] {
          return Waiting;
        }
        var item := TakeFromRouter(forThreadId);
        if item.Rec? {
          return TakenRecord(item.rec);
        }
      }
      r := TakenLine([]);
    }

    /** The drain loop at the start of take: hand out the first rerouted record, counting tokens. */
    method DrainRouter(forThreadId: nat) returns (found: Option<Record>)
      requires Valid() && forThreadId < threads
      modifies this, deadRouterProducers
      ensures Valid()
      ensures Served(found, State()) == ServeRouter(old(State()), Params(), forThreadId)
    {
      while RouterQueueHasData(State(), Params(), forThreadId)
        invariant Valid()
        invariant ServeRouter(State(), Params(), forThreadId) == ServeRouter(old(State()), Params(), forThreadId)
        decreases if routing then |routerQueues[forThreadId]| else 0
      {
        var item := TakeFromRouter(forThreadId);
        if item.Rec? {
          return Some(item.rec);
        }
      }
      found := None;
    }

    /** The terminal token goes to every router queue but the own one. */
    method BroadcastToken(forThreadId: nat)
      requires Valid() && routing && forThreadId < threads
      requires BroadcastFits(routerQueues, Params(), forThreadId)
      modifies this
      ensures Valid()
      ensures State() == old(State()).(router := Broadcast(old(routerQueues), forThreadId))
    {
      var i := 0;
      while i < |routerQueues|
        invariant Valid() && 0 <= i <= |old(routerQueues)| && |routerQueues| == |old(routerQueues)|
        invariant forall j | 0 <= j < |routerQueues| ::
          routerQueues[j] == if j < i && j != forThreadId then old(routerQueues)[j] + [Token] else old(routerQueues)[j]
        invariant queue == old(queue)
      {
        if i != forThreadId {
          Route(Token, i);
        }
        i := i + 1;
      }
    }

    /** The part of take after a terminal line was dequeued (lines 174-195). */
    method AfterTerminalLine(forThreadId: nat) returns (r: Taken)
      requires Valid() && forThreadId < threads && |queue| < capacity
      requires !TerminalLineTaken(State(), Params(), forThreadId).Blocked?
      modifies this, deadRouterProducers
      ensures Valid()
      ensures Step(r, State()) == TerminalLineTaken(old(State()), Params(), forThreadId)
    {
      ProducerDone();
      if routing {
        ghost var s2 := State();
        CountTerminal(forThreadId);
        BroadcastToken(forThreadId);
        assert State() == EnterTerminalPhase(s2, Params(), forThreadId);
        r := TerminalPhaseTake(forThreadId);
        return;
      }
      r := TakenLine([]);
    }

    /** The part of take that reads the shared queue (lines 158-170). */
    method TakeShared(forThreadId: nat) returns (r: Taken)
      requires Valid() && forThreadId < threads
      requires !SharedTake(State(), Params(), forThreadId).Blocked?
      modifies this, deadRouterProducers
      ensures Valid()
      ensures Step(r, State()) == SharedTake(old(State()), Params(), forThreadId)
    {
      var line := queue[0];
      queue := queue[1..];
      if !IsTerminalLine(line, terminalMessage) {
        return TakenLine(line);
      }
      r := AfterTerminalLine(forThreadId);
    }

    method Take(forThreadId: nat) returns (r: Taken)
      requires Valid() && forThreadId < threads
      requires !TakeSpec(State(), Params(), forThreadId).Blocked?
      modifies this, deadRouterProducers
      ensures Valid()
      ensures Step(r, State()) == TakeSpec(old(State()), Params(), forThreadId)
    {
      if deadRouterProducers[forThreadId] > 0 {
        r := TerminalPhaseTake(forThreadId);
        return;
      }
      var found := DrainRouter(forThreadId);
      if found.Some? {
        return TakenRecord(found.value);
      }
      r := TakeShared(forThreadId);
    }
  }
}
