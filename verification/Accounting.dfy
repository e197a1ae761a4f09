/** The Prometheus counters add up, over all interleavings of notifiers and retries. */
module Accounting {
  import opened Prelude
  import opened Storage
  import opened Auth
  import opened Engine
  import opened Delivery

  /** Responses the notifiers of merchant `m` have received. */
  function Attempts(m: int): Notifier -> int {
    (n: Notifier) => if n.merchant.id == m then |n.responses| else 0
  }

  /** Notifiers of `m` whose last attempt has failed and whose EnqueueDLQ is still to come. */
  function AboutToEnqueue(m: int): Notifier -> bool {
    (n: Notifier) => n.merchant.id == m && (n.stage.Enqueueing? || n.stage.Logging?) && n.stage.log.status == Failed
  }

  function GotThrough(m: int): Notifier -> bool {
    (n: Notifier) => n.merchant.id == m && n.responses != [] && Delivered(n.responses[|n.responses| - 1])
  }

  function RetryInFlight(m: int): Retry -> bool {
    (r: Retry) => (r.stage.Running? || r.stage.Resolving?) && r.stage.m.id == m
  }

  /** Deliveries counted for `m`, whatever their label. */
  function Deliveries(c: Counters, m: int): nat {
    Read(c.deliveries, (m, Success)) + Read(c.deliveries, (m, Failed)) + Read(c.deliveries, (m, Retrying))
  }

  ghost predicate DeliveryBooks(c: Counters, ns: seq<Notifier>, m: int) {
    && Deliveries(c, m) == Sum(ns, Attempts(m))
    && Read(c.deliveries, (m, Success)) == Count(ns, GotThrough(m))
    && Read(c.deliveries, (m, Failed)) == Read(c.enqueues, m) + Count(ns, AboutToEnqueue(m))
  }

  ghost predicate RetryBooks(c: Counters, rs: seq<Retry>, m: int) {
    Read(c.retries, m) == Read(c.resolved, m) + Read(c.failures, m) + Count(rs, RetryInFlight(m))
  }

  ghost predicate Books(s: State, m: int) {
    DeliveryBooks(s.ctr, s.notifiers, m) && RetryBooks(s.ctr, s.retries, m)
  }

  /** One notifier goes from `n` to `n'` and the counters from `c` to `c'`: the books balance if they did. */
  ghost predicate Balances(c: Counters, n: Notifier, c': Counters, n': Notifier, m: int) {
    && Deliveries(c', m) - Attempts(m)(n') == Deliveries(c, m) - Attempts(m)(n)
    && Read(c'.deliveries, (m, Success)) - Bit(GotThrough(m)(n'))
       == Read(c.deliveries, (m, Success)) - Bit(GotThrough(m)(n))
    && Read(c'.deliveries, (m, Failed)) - Read(c'.enqueues, m) - Bit(AboutToEnqueue(m)(n'))
       == Read(c.deliveries, (m, Failed)) - Read(c.enqueues, m) - Bit(AboutToEnqueue(m)(n))
    && c'.retries == c.retries && c'.failures == c.failures && c'.resolved == c.resolved
  }

  lemma PostBalances(db: Tables, n: Notifier, ctr: Counters, clock: nat, r: Response, fault: bool, m: int)
    requires TraceOk(n) && n.stage.Posting?
    ensures var (_, n', ctr') := NotifierStep(db, n, ctr, clock, r, fault); Balances(ctr, n, ctr', n', m)
  {
    var n' := NotifierStep(db, n, ctr, clock, r, fault).1;
    assert n'.responses == n.responses + [r];
    assert !GotThrough(m)(n);
  }

  lemma LogBalances(db: Tables, n: Notifier, ctr: Counters, clock: nat, r: Response, fault: bool, m: int)
    requires TraceOk(n) && n.stage.Logging?
    ensures var (_, n', ctr') := NotifierStep(db, n, ctr, clock, r, fault); Balances(ctr, n, ctr', n', m)
  {
  }

  lemma EnqueueBalances(db: Tables, n: Notifier, ctr: Counters, clock: nat, r: Response, fault: bool, m: int)
    requires TraceOk(n) && n.stage.Enqueueing?
    ensures var (_, n', ctr') := NotifierStep(db, n, ctr, clock, r, fault); Balances(ctr, n, ctr', n', m)
  {
    assert n.stage.log == RecordOf(n.merchant, n.tx, MAX_ATTEMPTS - 1, n.responses[MAX_ATTEMPTS - 1], MAX_ATTEMPTS);
  }

  lemma NotifierBooks(db: Tables, n: Notifier, ctr: Counters, clock: nat, r: Response, fault: bool, m: int)
    requires TraceOk(n)
    ensures var (_, n', ctr') := NotifierStep(db, n, ctr, clock, r, fault); Balances(ctr, n, ctr', n', m)
  {
    match n.stage {
      case Posting(_) => PostBalances(db, n, ctr, clock, r, fault, m);
      case Logging(_) => LogBalances(db, n, ctr, clock, r, fault, m);
      case Enqueueing(_) => EnqueueBalances(db, n, ctr, clock, r, fault, m);
      case Ended(_) =>
    }
  }

  lemma StartBooks(ctr: Counters, ns: seq<Notifier>, origin: Origin, who: Merchant, tx: Transaction, clock: nat, m: int)
    requires DeliveryBooks(ctr, ns, m)
    ensures DeliveryBooks(ctr, ns + [StartNotifier(origin, who, tx, clock)], m)
  {
  }

  lemma DeliverBooks(env: Env, s: State, i: nat, r: Response, fault: bool, m: int)
    requires DInv(env, s) && Books(s, m) && i < |s.notifiers|
    ensures Books(DeliverStep(s, i, r, fault), m)
  {
    var n := s.notifiers[i];
    assert n in s.notifiers && NotifierOk(s.db, n, s.clock);
    NotifierBooks(s.db, n, s.ctr, s.clock, r, fault, m);
    var n' := NotifierStep(s.db, n, s.ctr, s.clock, r, fault).1;
    SumUpdate(s.notifiers, i, n', Attempts(m));
    CountUpdate(s.notifiers, i, n', GotThrough(m));
    CountUpdate(s.notifiers, i, n', AboutToEnqueue(m));
  }

  /** Launches not yet accounted for as resolved or failed. */
  function Outstanding(c: Counters, m: int): int {
    Read(c.retries, m) - Read(c.resolved, m) - Read(c.failures, m)
  }

  lemma RetryCounters(s: State, i: nat, now: int, fault: bool, m: int)
    requires i < |s.retries|
    ensures var s' := RetryStep(s, i, now, fault);
            && |s'.retries| == |s.retries| && s'.retries == s.retries[i := s'.retries[i]]
            && Outstanding(s'.ctr, m) - Bit(RetryInFlight(m)(s'.retries[i]))
               == Outstanding(s.ctr, m) - Bit(RetryInFlight(m)(s.retries[i]))
  {
    match s.retries[i].stage {
      case Launched(_, _, _) =>
      case Running(_, _, _) =>
      case Resolving(_, _) =>
      case _ => assert RetryStep(s, i, now, fault).ctr == s.ctr;
    }
  }

  lemma RetryStarts(s: State, i: nat, now: int, fault: bool)
    requires i < |s.retries|
    ensures var s', st := RetryStep(s, i, now, fault), s.retries[i].stage;
            s'.notifiers == if st.Launched? then s.notifiers + [StartNotifier(FromRetry(i), st.m, st.tx, s.clock)]
                            else s.notifiers
  {
  }

  lemma RetryDeliversNothing(s: State, i: nat, now: int, fault: bool)
    requires i < |s.retries|
    ensures var c := RetryStep(s, i, now, fault).ctr; c.deliveries == s.ctr.deliveries && c.enqueues == s.ctr.enqueues
  {
  }

  lemma RetryStepBooks(s: State, i: nat, now: int, fault: bool, m: int)
    requires Books(s, m) && i < |s.retries|
    ensures Books(RetryStep(s, i, now, fault), m)
  {
    var st := s.retries[i].stage;
    RetryCounters(s, i, now, fault, m);
    CountUpdate(s.retries, i, RetryStep(s, i, now, fault).retries[i], RetryInFlight(m));
    RetryStarts(s, i, now, fault);
    RetryDeliversNothing(s, i, now, fault);
    if st.Launched? {
      StartBooks(s.ctr, s.notifiers, FromRetry(i), st.m, st.tx, s.clock, m);
    }
  }

  lemma HandleBooks(env: Env, s: State, i: nat, now: int, fault: bool, m: int)
    requires DInv(env, s) && Books(s, m) && i < |s.handlers|
    requires s.handlers[i].stage.Admitted? ==> s.handlers[i].merchant.Some?
    ensures Books(HandleStep(env, s, i, now, fault), m)
  {
    var h := s.handlers[i];
    assert h in s.handlers;
    if h.stage.Counted? && h.merchant.Some? {
      StartBooks(s.ctr, s.notifiers, FromWebhookHandler(i), h.merchant.value, h.stage.tx, s.clock, m);
    }
  }

  lemma CallBooks(env: Env, s: State, id: int, d: int, m: int)
    requires Books(s, m)
    ensures Books(Step(env, s, CallRetry(id, d)), m)
  {
    CountAppend(s.retries, Retry(id, d, Called, 0), RetryInFlight(m));
  }

  lemma StepBooks(env: Env, s: State, a: Action, m: int)
    requires DInv(env, s) && Books(s, m)
    ensures Books(Step(env, s, a), m)
  {
    match a {
      case Handle(i, now, fault) =>
        if i < |s.handlers| {
          assert s.handlers[i] in s.handlers;
          HandleBooks(env, s, i, now, fault, m);
        }
      case Deliver(i, r, fault) =>
        if i < |s.notifiers| {
          DeliverBooks(env, s, i, r, fault, m);
        }
      case CallRetry(id, d) => CallBooks(env, s, id, d, m);
      case Redeliver(i, now, fault) =>
        if i < |s.retries| {
          RetryStepBooks(s, i, now, fault, m);
        }
      case _ =>
    }
  }

  /**
   Counter conservation, per merchant, in every reachable state: deliveries counted SUCCESS, FAILED and
   RETRYING are the responses received; those counted SUCCESS are the notifiers that got a 2xx; FAILED
   exceeds the enqueues by the enqueues still to come; and retries labelled "success", which counts
   launches, are the resolved ones, the failed ones and those in flight.
   */
  lemma {:induction false} CounterConservation(env: Env, db: Tables, acts: seq<Action>, m: int)
    requires db.Sound()
    ensures var s := Run(env, Boot(db), acts);
            DeliveryBooks(s.ctr, s.notifiers, m) && RetryBooks(s.ctr, s.retries, m)
  {
    if acts != [] {
      var before := acts[..|acts| - 1];
      CounterConservation(env, db, before, m);
      RunKeepsDelivery(env, Boot(db), before);
      StepBooks(env, Run(env, Boot(db), before), acts[|acts| - 1], m);
    }
  }
}
