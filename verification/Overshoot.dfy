/**
 The overshoot bound is attained: from any tables on which a merchant is one call below its limit, any
 number of well-formed requests that arrive together are all admitted, stored and counted.
 */
module Overshoot {
  import opened Prelude
  import opened Storage
  import opened Auth
  import opened Engine
  import opened Quota

  /** A program, its tables, and webhook bodies sent to one merchant and checked at `now`. */
  datatype Setup = Setup(env: Env, db: Tables, m: int, bodies: seq<bytes>, now: int)

  /** A webhook body that MTN could send: complete, in time, signed, and with values its columns take. */
  ghost predicate WellFormed(env: Env, body: bytes, now: int) {
    && env.hmacHex(env.secret, body) != "" && env.decode(body).Some?
    && var p := env.decode(body).value;
    && p.transactionID != "" && p.externalID != "" && p.amount != "" && env.numeric(p.amount)
    && |p.currency| <= 3 && IsTxStatus(p.status) && TimestampOk(env, p.timestamp, now)
  }

  function IdOf(env: Env, body: bytes): string {
    match env.decode(body) case None => "" case Some(p) => p.transactionID
  }

  /** The merchant is active and below its limit; the bodies are well-formed, about distinct new payments. */
  ghost predicate Ready(w: Setup) {
    && w.db.TxOk() && w.m in w.db.merchants && w.db.merchants[w.m].active
    && Calls(w.db, w.m) < Limit(w.db, w.m)
    && (forall j :: 0 <= j < |w.bodies| ==>
          WellFormed(w.env, w.bodies[j], w.now) && !w.db.Exists(IdOf(w.env, w.bodies[j])))
    && (forall i, j :: 0 <= i < j < |w.bodies| ==> IdOf(w.env, w.bodies[i]) != IdOf(w.env, w.bodies[j]))
  }

  function RequestOf(w: Setup, body: bytes): Request {
    Request(Some(w.m), Some(body), w.env.hmacHex(w.env.secret, body))
  }

  /** What the parser and the handler make of a well-formed body. */
  function PaymentOf(w: Setup, body: bytes): Transaction
    requires w.env.decode(body).Some?
  {
    match FromWebhook(w.env, w.env.decode(body).value, body)
    case Err => Transaction(0, w.m, "", "", "", "", "", "", [], 0)
    case Ok(tx) => tx.(merchantID := w.m)
  }

  lemma CheckPasses(w: Setup, db: Tables, body: bytes, m: Merchant)
    requires WellFormed(w.env, body, w.now) && !db.Exists(IdOf(w.env, body)) && m.id == w.m
    ensures CheckRequest(w.env, db, RequestOf(w, body), m, w.now, false) == Parsed(PaymentOf(w, body))
    ensures PaymentOf(w, body).providerTxID == IdOf(w.env, body) && PaymentOf(w, body).id == 0
    ensures w.m in db.merchants ==> db.Storable(PaymentOf(w, body)) && Save(w.env, db, PaymentOf(w, body), false).Ok?
  {
  }

  /** All have passed the tier check; the first `done` of them are counted. */
  ghost predicate Drained(w: Setup, s: State, done: nat)
    requires w.m in w.db.merchants
  {
    && done <= |w.bodies| == |s.handlers|
    && (forall j :: done <= j < |w.bodies| ==>
          s.handlers[j] == AdmittedHandler(RequestOf(w, w.bodies[j]), w.db.merchants[w.m]))
    && (forall j :: done <= j < |w.bodies| ==> !s.db.Exists(IdOf(w.env, w.bodies[j])))
    && s.db.merchants
       == w.db.merchants[w.m := w.db.merchants[w.m].(currentMonthCalls := Calls(w.db, w.m) + done)]
  }

  ghost predicate NoQuotaChange(acts: seq<Action>) {
    forall a :: a in acts ==> !a.SetQuota?
  }

  lemma AdmitOne(w: Setup, s: State, body: bytes)
    requires Ready(w.(bodies := w.bodies + [body])) && Ready(w) && Drained(w, s, 0)
    requires forall j :: 0 <= j < |w.bodies| ==> !s.db.Exists(IdOf(w.env, w.bodies[j]))
    requires s.db.transactions == w.db.transactions
    ensures var s' := Step(w.env, Step(w.env, s, Arrive(RequestOf(w, body))), Handle(|w.bodies|, w.now, false));
            Drained(w.(bodies := w.bodies + [body]), s', 0) && s'.db.transactions == w.db.transactions
  {
    var w' := w.(bodies := w.bodies + [body]);
    var s1 := Step(w.env, s, Arrive(RequestOf(w, body)));
    assert s1.handlers == s.handlers + [NewHandler(RequestOf(w, body))];
    assert s1.db.merchants[w.m] == w.db.merchants[w.m];
    var s' := Step(w.env, s1, Handle(|w.bodies|, w.now, false));
    assert s'.handlers[|w.bodies|] == AdmittedHandler(RequestOf(w, body), w.db.merchants[w.m]);
    forall j | 0 <= j < |w'.bodies|
      ensures s'.handlers[j] == AdmittedHandler(RequestOf(w', w'.bodies[j]), w.db.merchants[w.m])
    {
    }
    assert w'.bodies[|w.bodies|] == body;
    assert forall j :: 0 <= j < |w'.bodies| ==> !w.db.Exists(IdOf(w.env, w'.bodies[j]));
  }

  lemma {:induction false} AdmitAll(w: Setup) returns (acts: seq<Action>)
    requires Ready(w)
    ensures NoQuotaChange(acts) && Drained(w, Run(w.env, Boot(w.db), acts), 0)
    ensures Run(w.env, Boot(w.db), acts).db.transactions == w.db.transactions
    decreases |w.bodies|
  {
    var s := Boot(w.db);
    if w.bodies == [] {
      acts := [];
      var m := w.db.merchants[w.m];
      assert m.(currentMonthCalls := Calls(w.db, w.m) + 0) == m;
    } else {
      var n := |w.bodies| - 1;
      var w0 := w.(bodies := w.bodies[..n]);
      assert w.bodies[..n] + [w.bodies[n]] == w.bodies;
      assert w == w0.(bodies := w0.bodies + [w.bodies[n]]);
      acts := AdmitAll(w0);
      AdmitOne(w0, Run(w.env, s, acts), w.bodies[n]);
      var a, b := Arrive(RequestOf(w, w.bodies[n])), Handle(n, w.now, false);
      RunSnoc(w.env, s, acts, a);
      RunSnoc(w.env, s, acts + [a], b);
      acts := acts + [a] + [b];
    }
  }

  lemma ServeOne(w: Setup, s: State, done: nat)
    requires Ready(w) && Drained(w, s, done) && done < |w.bodies|
    ensures var a := Handle(done, w.now, false);
            Drained(w, Step(w.env, Step(w.env, Step(w.env, s, a), a), a), done + 1)
  {
    var a, body := Handle(done, w.now, false), w.bodies[done];
    var tx := PaymentOf(w, body);
    CheckPasses(w, s.db, body, w.db.merchants[w.m]);
    var s1 := Step(w.env, s, a);
    assert s1.handlers[done].stage == Parsed(tx) && s1.db == s.db;
    var s2 := Step(w.env, s1, a);
    assert s2.handlers[done].stage == Inserted(tx);
    assert s2.db.transactions == s.db.transactions + [tx.(id := s.db.nextTx)];
  }

  lemma ServeFrom(w: Setup, acts: seq<Action>, done: nat) returns (more: seq<Action>)
    requires Ready(w) && done < |w.bodies| && NoQuotaChange(acts)
    requires Drained(w, Run(w.env, Boot(w.db), acts), done)
    ensures NoQuotaChange(more) && Drained(w, Run(w.env, Boot(w.db), more), done + 1)
  {
    var s, a := Boot(w.db), Handle(done, w.now, false);
    ServeOne(w, Run(w.env, s, acts), done);
    RunThree(w.env, s, acts, a, a, a);
    more := acts + [a] + [a] + [a];
  }

  lemma ServeAll(w: Setup) returns (acts: seq<Action>)
    requires Ready(w)
    ensures NoQuotaChange(acts) && Drained(w, Run(w.env, Boot(w.db), acts), |w.bodies|)
  {
    acts := AdmitAll(w);
    for done := 0 to |w.bodies|
      invariant NoQuotaChange(acts) && Drained(w, Run(w.env, Boot(w.db), acts), done)
    {
      acts := ServeFrom(w, acts, done);
    }
  }

  lemma DrainedCalls(w: Setup, s: State, done: nat)
    requires w.m in w.db.merchants && Drained(w, s, done)
    ensures |s.handlers| == |w.bodies| && Calls(s.db, w.m) == Calls(w.db, w.m) + done
  {
  }

  lemma CountAtMost<T>(xs: seq<T>, p: T -> bool)
    ensures Count(xs, p) <= |xs|
  {
  }

  ghost predicate Steady(x: State, m: int, limit: int, k: nat) {
    m in x.db.merchants && Limit(x.db, m) == limit && |x.handlers| <= k
  }

  lemma {:induction false} WithoutQuotaChange(env: Env, s: State, acts: seq<Action>, m: int, xs: seq<State>, k: nat)
    requires NoQuotaChange(acts) && m in s.db.merchants && xs == States(env, s, acts)
    requires |Run(env, s, acts).handlers| <= k
    ensures forall i :: 0 <= i < |xs| ==> Steady(xs[i], m, Limit(s.db, m), k)
  {
    if acts != [] {
      var before := acts[..|acts| - 1];
      LimitUnchanged(env, Run(env, s, before), acts[|acts| - 1], m);
      WithoutQuotaChange(env, s, before, m, States(env, s, before), k);
      assert States(env, s, before)[|before|] == Run(env, s, before);
      assert Steady(Run(env, s, before), m, Limit(s.db, m), k);
    }
  }

  lemma LimitUnchanged(env: Env, s: State, a: Action, m: int)
    requires !a.SetQuota?
    ensures var s' := Step(env, s, a);
            && (m in s.db.merchants ==> m in s'.db.merchants && Limit(s'.db, m) == Limit(s.db, m))
            && |s.handlers| <= |s'.handlers|
  {
  }

  lemma TraceReaches(xs: seq<State>, m: int, k: nat)
    requires xs != [] && FlightsOf(m)(xs[0]) == 0 && k >= 1
    requires AllAdmit(xs, m)
    requires forall i :: 0 <= i < |xs| ==> Steady(xs[i], m, Limit(xs[0].db, m), k)
    requires Calls(xs[0].db, m) == Limit(xs[0].db, m) - 1
    requires Calls(xs[|xs| - 1].db, m) == Limit(xs[0].db, m) + k - 1
    ensures Peak(xs, LimitOf(m)) == Limit(xs[0].db, m) && Peak(xs, FlightsOf(m)) == k
  {
    forall i | 0 <= i < |xs|
      ensures LimitOf(m)(xs[i]) <= Limit(xs[0].db, m) && FlightsOf(m)(xs[i]) <= k
    {
      assert Steady(xs[i], m, Limit(xs[0].db, m), k);
      CountAtMost(xs[i].handlers, InFlight(m));
    }
    PeakWithin(xs, LimitOf(m), Limit(xs[0].db, m));
    PeakCovers(xs, LimitOf(m), 0);
    PeakWithin(xs, FlightsOf(m), k);
    TraceBound(xs, m);
  }

  lemma ReachesBound(env: Env, db: Tables, acts: seq<Action>, m: int, k: nat, xs: seq<State>)
    requires db.TxOk() && m in db.merchants && Calls(db, m) == Limit(db, m) - 1 && NoQuotaChange(acts) && k >= 1
    requires xs == States(env, Boot(db), acts)
    requires |Run(env, Boot(db), acts).handlers| == k
    requires Calls(Run(env, Boot(db), acts).db, m) == Limit(db, m) + k - 1
    ensures Peak(xs, LimitOf(m)) == Limit(db, m) && Peak(xs, FlightsOf(m)) == k
  {
    RunAdmits(env, Boot(db), acts, m, xs);
    WithoutQuotaChange(env, Boot(db), acts, m, xs, k);
    TraceReaches(xs, m, k);
  }

  /**
   The bound is tight: from any tables on which the merchant is one call below its limit, and for every
   K >= 1 well-formed bodies about distinct new payments, some run with K requests in flight, and without
   a change of quota, takes the count to the limit + K - 1.
   */
  lemma OvershootAttained(w: Setup) returns (acts: seq<Action>)
    requires Ready(w) && |w.bodies| >= 1 && Calls(w.db, w.m) == Limit(w.db, w.m) - 1
    ensures var xs := States(w.env, Boot(w.db), acts);
            && Peak(xs, LimitOf(w.m)) == Limit(w.db, w.m) && Peak(xs, FlightsOf(w.m)) == |w.bodies|
            && Calls(xs[|acts|].db, w.m) == Limit(w.db, w.m) + |w.bodies| - 1
  {
    acts := ServeAll(w);
    DrainedCalls(w, Run(w.env, Boot(w.db), acts), |w.bodies|);
    ReachesBound(w.env, w.db, acts, w.m, |w.bodies|, States(w.env, Boot(w.db), acts));
  }

  // ---------------------------------------------------------------- there are such setups

  function Name(n: nat): string {
    seq(n, _ => 'x')
  }

  function SamplePayload(n: nat): Payload {
    Payload(Name(n), "o", "1", "RWF", SUCCESSFUL, "", "t")
  }

  function SampleEnv(): Env {
    Env([], body => Some(SamplePayload(|body|)), (_, _) => "s", x => x, _ => Some(0), _ => true, None, true)
  }

  function SampleTables(limit: int): Tables {
    Tables(map[1 := Merchant(1, "u", true, limit, limit - 1)], [], [], [], 1, 1)
  }

  lemma SampleIsWellFormed(body: bytes)
    requires body != []
    ensures WellFormed(SampleEnv(), body, 0) && |IdOf(SampleEnv(), body)| == |body|
  {
    assert |Name(|body|)| == |body|;
    assert WithinSkew64(0, 0, 300);
  }

  /** For every limit from 1 and every number of requests. */
  lemma SomeSetupIsReady(k: nat, limit: nat) returns (w: Setup)
    requires limit >= 1
    ensures Ready(w) && w.db.Sound() && w.env.heedReplay && |w.bodies| == k
    ensures 0 <= Calls(w.db, w.m) == limit - 1 && Limit(w.db, w.m) == limit
    ensures w.db.merchants[w.m].webhookURL != "" && w.db.dlq == []
    ensures forall j :: 0 <= j < k ==> PaymentOf(w, w.bodies[j]).status == SUCCESSFUL
  {
    var bodies: seq<bytes> := seq(k, j requires 0 <= j < k => seq(j + 1, _ => 0));
    w := Setup(SampleEnv(), SampleTables(limit), 1, bodies, 0);
    forall j | 0 <= j < k
      ensures |IdOf(w.env, bodies[j])| == j + 1 && WellFormed(w.env, bodies[j], 0)
      ensures PaymentOf(w, bodies[j]).status == SUCCESSFUL
    {
      assert |bodies[j]| == j + 1;
      SampleIsWellFormed(bodies[j]);
    }
  }
}
