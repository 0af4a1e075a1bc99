/** An event-by-event stepper for a single-server (M/M/1) queue.

    Each step draws an event kind ("entry" or "service") with weights that
    depend on the arrival rate lambda, the service rate mu and whether the
    system is empty, and, on a service, an exponentially distributed service
    time. Both draws are supplied by the caller here; everything else is the
    deterministic bookkeeping on a customer counter, a FIFO queue of
    accumulated waits, a log of finished customers' waits and a log of the
    occupancy after every event.
 */
module QueueSimulation {

  /** The two outcomes of the event draw. */
  datatype EventKind = Entry | Service

  /** The randomness one step consumes: the event kind and, for a service,
      the service time (ignored by an entry). */
  datatype Draw = Draw(kind: EventKind, serviceTime: real)

  /** The weights handed to the event draw. */
  datatype Weights = Weights(entry: real, exit: real)

  /** The bookkeeping of the stepper: the customer counter, the waits of the
      customers still in the system (front first), the waits of finished
      customers (in the order they left) and the occupancy after each event. */
  datatype State = State(customers: int, queue: seq<real>, finished: seq<real>, log: seq<int>)

  /** The two figures reported by a run. */
  datatype Metrics = Metrics(averageQueueSize: real, averageWaitingTime: real)

  /** The divisions of a run that can have a zero divisor. */
  datatype MetricsError = NoIterations | NoFinishedCustomers

  datatype Result<T, E> = Ok(value: T) | Err(error: E)

  // ---------------------------------------------------------------------------
  // Event weights
  // ---------------------------------------------------------------------------

  /** The weights of a non-empty system: lambda/(lambda+mu) for an arrival and
      mu/(lambda+mu) for a departure. */
  function Rates(lambda: real, mu: real): (w: Weights)
    requires lambda + mu != 0.0
    ensures w.entry * (lambda + mu) == lambda
    ensures w.exit * (lambda + mu) == mu
    ensures w.entry + w.exit == 1.0
  {
    var total := lambda + mu;
    assert lambda / total + mu / total == (lambda + mu) / total;
    Weights(lambda / total, mu / total)
  }

  /** The weights in force for a system holding `customers` customers: an
      empty system forces an arrival. */
  function WeightsFor(lambda: real, mu: real, customers: int): (w: Weights)
    requires lambda + mu != 0.0
    ensures w.entry + w.exit == 1.0
    ensures customers == 0 ==> w.entry == 1.0 && w.exit == 0.0
    ensures customers != 0 ==> w.entry * (lambda + mu) == lambda && w.exit * (lambda + mu) == mu
  {
    if customers == 0 then Weights(1.0, 0.0) else Rates(lambda, mu)
  }

  /** A weighted draw only yields an outcome whose weight is positive. */
  predicate Allowed(w: Weights, kind: EventKind)
  {
    match kind
    case Entry => w.entry > 0.0
    case Service => w.exit > 0.0
  }

  /** With positive rates both weights are genuine probabilities strictly
      between 0 and 1. */
  lemma RatesAreProbabilities(lambda: real, mu: real)
    requires lambda > 0.0 && mu > 0.0
    ensures 0.0 < Rates(lambda, mu).entry < 1.0
    ensures 0.0 < Rates(lambda, mu).exit < 1.0
  {
  }

  /** With positive rates an arrival can always be drawn, and a departure can
      be drawn exactly when the system is not empty. */
  lemma DrawableKinds(lambda: real, mu: real, customers: int)
    requires lambda > 0.0 && mu > 0.0
    ensures Allowed(WeightsFor(lambda, mu, customers), Entry)
    ensures Allowed(WeightsFor(lambda, mu, customers), Service) <==> customers != 0
  {
    if customers != 0 {
      RatesAreProbabilities(lambda, mu);
    }
  }

  // ---------------------------------------------------------------------------
  // One event on the bookkeeping
  // ---------------------------------------------------------------------------

  /** The counter agrees with the queue (and so is never negative). */
  predicate Consistent(s: State)
  {
    s.customers == |s.queue|
  }

  predicate NonNegative(waits: seq<real>)
  {
    forall i :: 0 <= i < |waits| ==> waits[i] >= 0.0
  }

  /** Nearer the front of the queue means waited at least as long. */
  predicate Seniority(waits: seq<real>)
  {
    forall i, j :: 0 <= i <= j < |waits| ==> waits[i] >= waits[j]
  }

  /** Every wait and every logged occupancy is non-negative, and the queue is
      ordered by seniority. */
  predicate Sound(s: State)
  {
    Consistent(s) && NonNegative(s.queue) && NonNegative(s.finished) && Seniority(s.queue)
    && forall i :: 0 <= i < |s.log| ==> s.log[i] >= 0
  }

  /** Adds the same service time to every wait. */
  function Shift(waits: seq<real>, t: real): (r: seq<real>)
    ensures |r| == |waits|
    ensures forall i :: 0 <= i < |waits| ==> r[i] == waits[i] + t
  {
    if waits == [] then [] else [waits[0] + t] + Shift(waits[1..], t)
  }

  /** One event: an entry enqueues a zero wait; a service moves the front wait
      to the finished log and charges the service time to everyone left. The
      occupancy after the event is logged either way. */
  function Step(s: State, d: Draw): (r: State)
    requires Consistent(s)
    requires d.kind == Service ==> s.customers != 0
    ensures Consistent(r)
    ensures r.log == s.log + [r.customers]
  {
    match d.kind
    case Entry =>
      State(s.customers + 1, s.queue + [0.0], s.finished, s.log + [s.customers + 1])
    case Service =>
      State(s.customers - 1, Shift(s.queue[1..], d.serviceTime), s.finished + [s.queue[0]],
            s.log + [s.customers - 1])
  }

  /** An entry adds exactly one customer, with a zero wait, behind the others. */
  lemma EntryEffect(s: State, t: real)
    requires Consistent(s)
    ensures var r := Step(s, Draw(Entry, t));
      r.customers == s.customers + 1 && r.queue == s.queue + [0.0]
      && r.finished == s.finished && r.log == s.log + [s.customers + 1]
  {
  }

  /** A service removes the front customer, logs exactly its wait, and every
      customer left keeps its place with its wait grown by the service time. */
  lemma ServiceEffect(s: State, t: real)
    requires Consistent(s) && s.customers != 0
    ensures var r := Step(s, Draw(Service, t));
      r.customers == s.customers - 1 && r.finished == s.finished + [s.queue[0]]
      && |r.queue| == |s.queue| - 1
      && (forall i :: 0 <= i < |r.queue| ==> r.queue[i] == s.queue[i + 1] + t)
      && r.log == s.log + [s.customers - 1]
  {
  }

  /** Soundness survives an event whose service time is non-negative. */
  lemma StepSound(s: State, d: Draw)
    requires Sound(s) && d.serviceTime >= 0.0
    requires d.kind == Service ==> s.customers != 0
    ensures Sound(Step(s, d))
  {
  }

  // ---------------------------------------------------------------------------
  // A sequence of events
  // ---------------------------------------------------------------------------

  /** Every service in `draws` meets a non-empty system. */
  predicate Serviceable(s: State, draws: seq<Draw>)
    requires Consistent(s)
    decreases |draws|
  {
    draws == []
    || ((draws[0].kind == Service ==> s.customers != 0)
        && Serviceable(Step(s, draws[0]), draws[1..]))
  }

  /** Every draw in `draws` has positive weight in the state it is drawn in. */
  predicate Feasible(lambda: real, mu: real, s: State, draws: seq<Draw>)
    requires lambda + mu != 0.0 && Consistent(s)
    decreases |draws|
  {
    draws == []
    || (Allowed(WeightsFor(lambda, mu, s.customers), draws[0].kind)
        && Feasible(lambda, mu, Step(s, draws[0]), draws[1..]))
  }

  /** The events of `draws`, one after another. */
  function Replay(s: State, draws: seq<Draw>): (r: State)
    requires Consistent(s) && Serviceable(s, draws)
    ensures Consistent(r)
    decreases |draws|
  {
    if draws == [] then s else Replay(Step(s, draws[0]), draws[1..])
  }

  /** Replaying a prefix one draw longer is one more step after the shorter
      prefix. */
  lemma {:induction false} ReplaySnoc(s: State, draws: seq<Draw>, k: nat)
    requires Consistent(s) && Serviceable(s, draws) && k < |draws|
    ensures Serviceable(s, draws[..k]) && Serviceable(s, draws[..k + 1])
    ensures draws[k].kind == Service ==> Replay(s, draws[..k]).customers != 0
    ensures Replay(s, draws[..k + 1]) == Step(Replay(s, draws[..k]), draws[k])
    decreases k
  {
    if k == 0 {
      assert draws[..0] == [] && draws[..1] == [draws[0]] && draws[..1][1..] == [];
    } else {
      var next := Step(s, draws[0]);
      ReplaySnoc(next, draws[1..], k - 1);
      assert draws[..k][0] == draws[0] && draws[..k][1..] == draws[1..][..k - 1];
      assert draws[..k + 1][0] == draws[0] && draws[..k + 1][1..] == draws[1..][..k];
    }
  }

  /** A draw sequence the weights can produce never serves an empty system;
      with positive rates the converse holds too, so the weights rule out
      exactly the services of an empty system. */
  lemma {:induction false} FeasibleIsServiceable(lambda: real, mu: real, s: State, draws: seq<Draw>)
    requires lambda + mu != 0.0 && Consistent(s)
    ensures Feasible(lambda, mu, s, draws) ==> Serviceable(s, draws)
    ensures lambda > 0.0 && mu > 0.0 && Serviceable(s, draws) ==> Feasible(lambda, mu, s, draws)
    decreases |draws|
  {
    if draws != [] {
      if lambda > 0.0 && mu > 0.0 {
        DrawableKinds(lambda, mu, s.customers);
      }
      if draws[0].kind == Service ==> s.customers != 0 {
        FeasibleIsServiceable(lambda, mu, Step(s, draws[0]), draws[1..]);
      }
    }
  }

  /** The number of draws of one kind. */
  function Count(draws: seq<Draw>, kind: EventKind): (n: nat)
    ensures n <= |draws|
  {
    if draws == [] then 0 else (if draws[0].kind == kind then 1 else 0) + Count(draws[1..], kind)
  }

  /** n events append exactly n occupancies to the log and one finished wait
      per service; the counter moves by arrivals minus services; nothing
      already logged changes. */
  lemma {:induction false} ReplayBookkeeping(s: State, draws: seq<Draw>)
    requires Consistent(s) && Serviceable(s, draws)
    ensures var r := Replay(s, draws);
      |r.log| == |s.log| + |draws| && r.log[..|s.log|] == s.log
      && |r.finished| == |s.finished| + Count(draws, Service) && r.finished[..|s.finished|] == s.finished
      && r.customers == s.customers + Count(draws, Entry) - Count(draws, Service)
    decreases |draws|
  {
    if draws != [] {
      var next := Step(s, draws[0]);
      ReplayBookkeeping(next, draws[1..]);
      var r := Replay(s, draws);
      assert r == Replay(next, draws[1..]);
      assert r.log[..|s.log|] == r.log[..|next.log|][..|s.log|];
      assert r.finished[..|s.finished|] == r.finished[..|next.finished|][..|s.finished|];
    }
  }

  /** With non-negative service times soundness holds after any number of events. */
  lemma {:induction false} ReplaySound(s: State, draws: seq<Draw>)
    requires Sound(s) && Serviceable(s, draws)
    requires forall i :: 0 <= i < |draws| ==> draws[i].serviceTime >= 0.0
    ensures Sound(Replay(s, draws))
    decreases |draws|
  {
    if draws != [] {
      StepSound(s, draws[0]);
      assert forall i :: 0 <= i < |draws[1..]| ==> draws[1..][i] == draws[i + 1];
      ReplaySound(Step(s, draws[0]), draws[1..]);
    }
  }

  // ---------------------------------------------------------------------------
  // Reported averages
  // ---------------------------------------------------------------------------

  function Sum(xs: seq<real>): real
  {
    if xs == [] then 0.0 else xs[0] + Sum(xs[1..])
  }

  function SumInts(xs: seq<int>): int
  {
    if xs == [] then 0 else xs[0] + SumInts(xs[1..])
  }

  lemma {:induction false} SumNonNegative(xs: seq<real>)
    requires NonNegative(xs)
    ensures Sum(xs) >= 0.0
    decreases |xs|
  {
    if xs != [] {
      assert NonNegative(xs[1..]) by {
        forall i | 0 <= i < |xs[1..]| ensures xs[1..][i] >= 0.0 { assert xs[1..][i] == xs[i + 1]; }
      }
      SumNonNegative(xs[1..]);
    }
  }

  lemma {:induction false} SumIntsNonNegative(xs: seq<int>)
    requires forall i :: 0 <= i < |xs| ==> xs[i] >= 0
    ensures SumInts(xs) >= 0
    decreases |xs|
  {
    if xs != [] {
      assert forall i :: 0 <= i < |xs[1..]| ==> xs[1..][i] == xs[i + 1];
      SumIntsNonNegative(xs[1..]);
    }
  }

  /** The two figures a run reports: the occupancy log's total over this
      run's iteration count, and the mean wait of the finished customers.
      Each division fails on a zero divisor, the iteration count first. The
      count is not checked for sign: a negative one is divided by as given. */
  function Averages(log: seq<int>, finished: seq<real>, iterations: int): (r: Result<Metrics, MetricsError>)
    ensures iterations == 0 <==> r == Err(NoIterations)
    ensures r == Err(NoFinishedCustomers) <==> iterations != 0 && finished == []
    ensures r.Ok? ==> r.value.averageQueueSize * iterations as real == SumInts(log) as real
    ensures r.Ok? ==> r.value.averageWaitingTime * |finished| as real == Sum(finished)
  {
    if iterations == 0 then Err(NoIterations)
    else if finished == [] then Err(NoFinishedCustomers)
    else Ok(Metrics(SumInts(log) as real / iterations as real, Sum(finished) / |finished| as real))
  }

  /** Reported averages of a sound state are non-negative. */
  lemma AveragesNonNegative(s: State, iterations: nat)
    requires Sound(s)
    requires Averages(s.log, s.finished, iterations).Ok?
    ensures Averages(s.log, s.finished, iterations).value.averageQueueSize >= 0.0
    ensures Averages(s.log, s.finished, iterations).value.averageWaitingTime >= 0.0
  {
    SumIntsNonNegative(s.log);
    SumNonNegative(s.finished);
  }

  /** The starting bookkeeping of a new stepper. */
  function Initial(): (s: State)
    ensures Sound(s) && s.customers == 0
  {
    State(0, [], [], [])
  }

  /** From a new stepper, n events leave exactly n logged occupancies, so the
      reported queue size is the mean occupancy over the events, and the
      reported wait is undefined exactly when no service has happened. */
  lemma FirstRunAverages(draws: seq<Draw>)
    requires Serviceable(Initial(), draws)
    ensures var r := Replay(Initial(), draws);
      |r.log| == |draws| && |r.finished| == Count(draws, Service)
      && (Averages(r.log, r.finished, |draws|).Ok?
          <==> |draws| != 0 && Count(draws, Service) != 0)
  {
    ReplayBookkeeping(Initial(), draws);
  }

  // ---------------------------------------------------------------------------
  // The stepper object
  // ---------------------------------------------------------------------------

  class Markovian {
    const lambda: real
    const mu: real

    var currentCustomers: int
    var entryProbability: real
    var exitProbability: real
    var customersPerEvent: seq<int>
    var waitingTimePerCustomer: seq<real>
    var waitingTimeQueue: seq<real>

    /** The bookkeeping held by the fields. */
    function View(): State
      reads this
    {
      State(currentCustomers, waitingTimeQueue, waitingTimePerCustomer, customersPerEvent)
    }

    /** The counter matches the queue, and the stored weights are one of the
        two sets the stepper ever installs. */
    predicate Valid()
      reads this
    {
      lambda + mu != 0.0 && Consistent(View())
      && (Weights(entryProbability, exitProbability) == Rates(lambda, mu)
          || Weights(entryProbability, exitProbability) == Weights(1.0, 0.0))
    }

    constructor (lmbda: real, mu: real)
      requires lmbda + mu != 0.0
      ensures Valid() && lambda == lmbda && this.mu == mu
      ensures View() == Initial()
      ensures Weights(entryProbability, exitProbability) == Rates(lmbda, mu)
    {
      lambda := lmbda;
      this.mu := mu;
      currentCustomers := 0;
      entryProbability := lmbda / (lmbda + mu);
      exitProbability := mu / (lmbda + mu);
      customersPerEvent := [];
      waitingTimePerCustomer := [];
      waitingTimeQueue := [];
    }

    /** Installs the weights for the current number of customers. */
    method UpdateProb()
      requires Valid()
      modifies this`entryProbability, this`exitProbability
      ensures Valid()
      ensures Weights(entryProbability, exitProbability) == WeightsFor(lambda, mu, currentCustomers)
    {
      if currentCustomers == 0 {
        entryProbability := 1.0;
        exitProbability := 0.0;
      } else {
        entryProbability := lambda / (lambda + mu);
        exitProbability := mu / (lambda + mu);
      }
    }

    /** One event, with the drawn kind and service time supplied; the kind must
        have positive weight under the weights this event installs. */
    method Event(kind: EventKind, serviceTime: real)
      requires Valid()
      requires Allowed(WeightsFor(lambda, mu, currentCustomers), kind)
      modifies this
      ensures Valid()
      ensures Weights(entryProbability, exitProbability) == WeightsFor(lambda, mu, old(currentCustomers))
      ensures View() == Step(old(View()), Draw(kind, serviceTime))
    {
      UpdateProb();
      if kind == Entry {
        currentCustomers := currentCustomers + 1;
        waitingTimeQueue := waitingTimeQueue + [0.0];
      } else {
        currentCustomers := currentCustomers - 1;
        waitingTimePerCustomer := waitingTimePerCustomer + [waitingTimeQueue[0]];
        waitingTimeQueue := waitingTimeQueue[1..];
        if |waitingTimeQueue| > 0 {
          ghost var settled := View().(queue := []);
          ghost var weights := Weights(entryProbability, exitProbability);
          var i := 0;
          while i < |waitingTimeQueue|
            invariant View().(queue := []) == settled
            invariant Weights(entryProbability, exitProbability) == weights
            invariant 0 <= i <= |waitingTimeQueue| == |old(waitingTimeQueue)| - 1
            invariant forall k :: 0 <= k < i ==> waitingTimeQueue[k] == old(waitingTimeQueue)[k + 1] + serviceTime
            invariant forall k :: i <= k < |waitingTimeQueue| ==> waitingTimeQueue[k] == old(waitingTimeQueue)[k + 1]
          {
            waitingTimeQueue := waitingTimeQueue[i := waitingTimeQueue[i] + serviceTime];
            i := i + 1;
          }
        }
        assert waitingTimeQueue == Shift(old(waitingTimeQueue)[1..], serviceTime);
      }
      customersPerEvent := customersPerEvent + [currentCustomers];
    }

    /** Applies `iterations` events, one per draw, then reports the averages.
        A negative count runs no event, as an empty range does. */
    method Run(draws: seq<Draw>, iterations: int) returns (r: Result<Metrics, MetricsError>)
      requires |draws| == if iterations < 0 then 0 else iterations
      requires Valid() && Feasible(lambda, mu, View(), draws)
      modifies this
      ensures Valid()
      ensures Serviceable(old(View()), draws) && View() == Replay(old(View()), draws)
      ensures draws == [] ==>
        Weights(entryProbability, exitProbability) == old(Weights(entryProbability, exitProbability))
      ensures draws != [] ==>
        (Serviceable(old(View()), draws[..|draws| - 1])
         && Weights(entryProbability, exitProbability)
            == WeightsFor(lambda, mu, Replay(old(View()), draws[..|draws| - 1]).customers))
      ensures r == Averages(customersPerEvent, waitingTimePerCustomer, iterations)
    {
      FeasibleIsServiceable(lambda, mu, View(), draws);
      assert draws[..0] == [];
      var i := 0;
      while i < |draws|
        invariant 0 <= i <= |draws| && Valid()
        invariant Serviceable(old(View()), draws)
        invariant Serviceable(old(View()), draws[..i]) && View() == Replay(old(View()), draws[..i])
        invariant Feasible(lambda, mu, View(), draws[i..])
        invariant i == 0 ==>
          Weights(entryProbability, exitProbability) == old(Weights(entryProbability, exitProbability))
        invariant i > 0 ==>
          (Serviceable(old(View()), draws[..i - 1])
           && Weights(entryProbability, exitProbability)
              == WeightsFor(lambda, mu, Replay(old(View()), draws[..i - 1]).customers))
      {
        assert draws[i..][0] == draws[i] && draws[i..][1..] == draws[i + 1..];
        ReplaySnoc(old(View()), draws, i);
        Event(draws[i].kind, draws[i].serviceTime);
        i := i + 1;
      }
      assert draws[..|draws|] == draws;
      r := Averages(customersPerEvent, waitingTimePerCustomer, iterations);
    }
  }
}
