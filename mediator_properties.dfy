/**
 * What one `take` does to the mediator, stated over the pure description `TakeSpec` that the
 * SharedBlockingQueueMediator class is proved to follow.
 */
module MediationProperties {
  import opened Wrappers
  import opened Records
  import opened Mediation

  /** How many terminal lines a queue of lines holds. */
  function CountTerminal(q: seq<Line>, terminal: string): nat {
    if q == [] then 0 else (if IsTerminalLine(q[0], terminal) then 1 else 0) + CountTerminal(q[1..], terminal)
  }

  lemma {:induction false} CountTerminalAppend(a: seq<Line>, b: seq<Line>, terminal: string)
    ensures CountTerminal(a + b, terminal) == CountTerminal(a, terminal) + CountTerminal(b, terminal)
  {
    if a != [] {
      assert (a + b)[1..] == a[1..] + b;
      CountTerminalAppend(a[1..], b, terminal);
    } else {
      assert a + b == b;
    }
  }

  /**
   * A line that is not terminal comes back from take unchanged, from the head of the shared
   * queue, once the partition is not in its terminal phase and has no rerouted record waiting.
   */
  lemma NonTerminalLineTaken(s: MState, k: Setup, p: nat)
    requires WellFormed(s, k) && p < k.threads && s.dead[p] == 0
    requires k.routing ==> forall j | 0 <= j < |s.router[p]| :: s.router[p][j].Token?
    requires s.queue != [] && !IsTerminalLine(s.queue[0], k.terminal)
    ensures TakeSpec(s, k, p).Step?
    ensures TakeSpec(s, k, p).taken == TakenLine(s.queue[0])
    ensures TakeSpec(s, k, p).next.queue == s.queue[1..]
  {
  }

  /** take never changes how many terminal lines the shared queue holds. */
  lemma TakePreservesTerminalCount(s: MState, k: Setup, p: nat)
    requires WellFormed(s, k) && p < k.threads
    requires TakeSpec(s, k, p).Step?
    ensures CountTerminal(TakeSpec(s, k, p).next.queue, k.terminal) == CountTerminal(s.queue, k.terminal)
  {
    if !IsInTerminalPhase(s, p) {
      var served := ServeRouter(s, k, p);
      if served.found.None? {
        var q := served.after.queue;
        assert q == [q[0]] + q[1..];
        if IsTerminalLine(q[0], k.terminal) {
          CountTerminalAppend(q[1..], [ProducerDoneLine(k.terminal)], k.terminal);
        }
      }
    }
  }

  /**
   * With routing, a partition outside its terminal phase that dequeues the terminal line counts
   * itself exactly once, puts one token on every other router queue and none on its own; any
   * further count comes from tokens it then takes off its own queue.
   */
  lemma TerminalLineBroadcast(s: MState, k: Setup, p: nat)
    requires WellFormed(s, k) && p < k.threads && k.routing && s.dead[p] == 0
    requires ServeRouter(s, k, p).found.None?
    requires var s1 := ServeRouter(s, k, p).after;
      s1.queue != [] && IsTerminalLine(s1.queue[0], k.terminal) && BroadcastFits(s1.router, k, p)
    ensures var s1 := ServeRouter(s, k, p).after;
      var r := TakeSpec(s, k, p);
      && r.Step?
      && r.next.queue == s1.queue[1..] + [ProducerDoneLine(k.terminal)]
      && (forall i | 0 <= i < k.threads && i != p :: r.next.router[i] == s1.router[i] + [Token])
      && IsSuffix(r.next.router[p], s1.router[p])
      && r.next.dead[p] == s1.dead[p] + 1 + (Tokens(s1.router[p]) - Tokens(r.next.router[p]))
  {
  }

  /**
   * Outside the terminal phase, the first record on the own router queue is handed out before
   * anything else; the tokens in front of it are counted, not returned.
   */
  lemma {:induction false} RouterServedFirst(s: MState, k: Setup, p: nat, j: nat)
    requires WellFormed(s, k) && p < k.threads && k.routing && s.dead[p] == 0
    requires j < |s.router[p]| && s.router[p][j].Rec?
    requires forall i | 0 <= i < j :: s.router[p][i].Token?
    ensures TakeSpec(s, k, p) == Step(TakenRecord(s.router[p][j].rec),
      s.(router := s.router[p := s.router[p][j + 1..]], dead := s.dead[p := j]))
  {
    ServeRouterSkipsTokens(s, k, p, j);
  }

  lemma {:induction false} ServeRouterSkipsTokens(s: MState, k: Setup, p: nat, j: nat)
    requires WellFormed(s, k) && p < k.threads && k.routing
    requires j < |s.router[p]| && s.router[p][j].Rec?
    requires forall i | 0 <= i < j :: s.router[p][i].Token?
    ensures ServeRouter(s, k, p) == Served(Some(s.router[p][j].rec),
      s.(router := s.router[p := s.router[p][j + 1..]], dead := s.dead[p := s.dead[p] + j]))
    decreases j
  {
    var rest := s.router[p][j + 1..];
    if j == 0 {
      assert s.dead[p := s.dead[p] + 0] == s.dead;
    } else {
      assert s.router[p][0].Token?;
      var s' := PopRouter(s, k, p);
      assert ServeRouter(s, k, p) == ServeRouter(s', k, p);
      assert s'.router[p][j - 1] == s.router[p][j];
      ServeRouterSkipsTokens(s', k, p, j - 1);
      assert s'.router[p][j - 1 + 1..] == rest;
      UpdateTwice(s.router, p, s.router[p][1..], rest);
      UpdateTwice(s.dead, p, s.dead[p] + 1, s.dead[p] + j);
    }
  }

  /** A second update of the same position overrides the first. */
  lemma UpdateTwice<T>(a: seq<T>, p: nat, x: T, y: T)
    requires p < |a|
    ensures a[p := x][p := y] == a[p := y]
  {
  }

  /** A record that take hands out was put on the own router queue; a token never is. */
  lemma RecordsComeFromRouter(s: MState, k: Setup, p: nat)
    requires WellFormed(s, k) && p < k.threads
    requires TakeSpec(s, k, p).Step? && TakeSpec(s, k, p).taken.TakenRecord?
    ensures k.routing && Rec(TakeSpec(s, k, p).taken.rec) in s.router[p]
  {
  }

  /**
   * In the terminal phase take leaves the shared queue and every other partition alone, and
   * returns the empty line only once the counter has reached the number of partitions.
   */
  lemma TerminalPhaseReadsOnlyOwnQueue(s: MState, k: Setup, p: nat)
    requires WellFormed(s, k) && p < k.threads && IsInTerminalPhase(s, p)
    ensures k.routing && TakeSpec(s, k, p).Step?
    ensures var r := TakeSpec(s, k, p);
      && r.next.queue == s.queue
      && (forall i | 0 <= i < k.threads && i != p :: r.next.router[i] == s.router[i] && r.next.dead[i] == s.dead[i])
      && (r.taken.TakenLine? ==> r.taken.line == [] && r.next.dead[p] >= k.threads)
  {
  }

  /** Counters never decrease, and take(p) changes no counter but p's. */
  lemma CountersMonotone(s: MState, k: Setup, p: nat)
    requires WellFormed(s, k) && p < k.threads && TakeSpec(s, k, p).Step?
    ensures forall i | 0 <= i < k.threads :: TakeSpec(s, k, p).next.dead[i] >= s.dead[i]
    ensures forall i | 0 <= i < k.threads && i != p :: TakeSpec(s, k, p).next.dead[i] == s.dead[i]
  {
  }

  /**
   * With routing, once take(p) has returned the empty line, every later take(p) returns it again
   * and changes nothing, whatever the other partitions did in between (they cannot lower p's
   * counter).
   */
  lemma MarkerIsFinal(s: MState, k: Setup, p: nat)
    requires WellFormed(s, k) && p < k.threads && k.routing
    requires TakeSpec(s, k, p).Step? && TakeSpec(s, k, p).taken == TakenLine([])
    ensures var next := TakeSpec(s, k, p).next;
      next.dead[p] >= k.threads && TakeSpec(next, k, p) == Step(TakenLine([]), next)
  {
  }

  lemma MarkerRepeats(s: MState, k: Setup, p: nat)
    requires WellFormed(s, k) && p < k.threads && s.dead[p] >= k.threads
    ensures TakeSpec(s, k, p) == Step(TakenLine([]), s)
  {
  }

  /** Without routing, a terminal line is put back and answered with the empty line at once. */
  lemma RoutingOffTerminal(s: MState, k: Setup, p: nat)
    requires WellFormed(s, k) && p < k.threads && !k.routing
    requires s.queue != [] && IsTerminalLine(s.queue[0], k.terminal)
    ensures TakeSpec(s, k, p) ==
      Step(TakenLine([]), s.(queue := s.queue[1..] + [ProducerDoneLine(k.terminal)]))
    ensures TakeSpec(s, k, p).next.router == []
  {
  }

  /**
   * Termination under an explicit hypothesis: a partition in its terminal phase whose router
   * queue starts with enough tokens to bring its counter to the number of partitions gets the
   * empty line.
   */
  lemma {:induction false} TerminalPhaseEndsWithEnoughTokens(s: MState, k: Setup, p: nat, m: nat)
    requires WellFormed(s, k) && p < k.threads && k.routing
    requires m <= |s.router[p]| && s.dead[p] + m >= k.threads
    requires forall j | 0 <= j < m :: s.router[p][j].Token?
    ensures TerminalPhase(s, k, p).taken == TakenLine([])
    decreases m
  {
    if s.dead[p] < k.threads {
      var s' := PopRouter(s, k, p);
      assert forall j | 0 <= j < m - 1 :: s'.router[p][j] == s.router[p][j + 1];
      TerminalPhaseEndsWithEnoughTokens(s', k, p, m - 1);
    }
  }

  lemma TakeEndsWithEnoughTokens(s: MState, k: Setup, p: nat, m: nat)
    requires WellFormed(s, k) && p < k.threads && IsInTerminalPhase(s, p)
    requires m <= |s.router[p]| && s.dead[p] + m >= k.threads
    requires forall j | 0 <= j < m :: s.router[p][j].Token?
    ensures TakeSpec(s, k, p).taken == TakenLine([])
  {
    TerminalPhaseEndsWithEnoughTokens(s, k, p, m);
  }
}
