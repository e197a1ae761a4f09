/**
 The monthly quota is checked before a request is processed and counted after its row is stored. This
 module proves what that leaves: no call is lost or counted twice, and how far the count can pass the
 limit.
 */
module Quota {
  import opened Prelude
  import opened Storage
  import opened Auth
  import opened Engine
  import opened Ingestion

  function Calls(db: Tables, m: int): int {
    if m in db.merchants then db.merchants[m].currentMonthCalls else 0
  }

  function Limit(db: Tables, m: int): int {
    if m in db.merchants then db.merchants[m].maxMonthlyCalls else 0
  }

  /** Past the tier check, and neither counted nor turned away. */
  function InFlight(m: int): Handler -> bool {
    (h: Handler) => (h.stage.Admitted? || h.stage.Parsed? || h.stage.Inserted?) && h.req.merchantID == Some(m)
  }

  function Pending(m: int): Handler -> bool {
    (h: Handler) => h.stage.Inserted? && h.stage.tx.merchantID == m
  }

  function Uncounted(m: int): Handler -> bool {
    (h: Handler) => h.uncounted && h.req.merchantID == Some(m)
  }

  function RowOf(m: int): Transaction -> bool {
    (t: Transaction) => t.merchantID == m
  }

  function Balance(s: State, m: int): int {
    Calls(s.db, m) + Count(s.handlers, Pending(m)) + Count(s.handlers, Uncounted(m))
    - Count(s.db.transactions, RowOf(m))
  }

  lemma HandlerBalances(env: Env, db: Tables, h: Handler, now: int, fault: bool, m: int)
    requires db.TxOk() && HandlerOk(env, db, h) && m in db.merchants
    ensures var (db', h') := HandlerStep(env, db, h, now, fault);
            Calls(db', m) + Bit(Pending(m)(h')) + Bit(Uncounted(m)(h')) - Count(db'.transactions, RowOf(m))
            == Calls(db, m) + Bit(Pending(m)(h)) + Bit(Uncounted(m)(h)) - Count(db.transactions, RowOf(m))
  {
    if h.stage.Parsed? {
      CountAppend(db.transactions, h.stage.tx.(id := db.nextTx), RowOf(m));
    } else if h.stage.Admitted? {
      var st := CheckRequest(env, db, h.req, h.merchant.value, now, fault);
      assert st.Answered? || st.Parsed?;
    }
  }

  lemma HandleBalances(env: Env, s: State, i: nat, now: int, fault: bool, m: int)
    requires Inv(env, s) && m in s.db.merchants && i < |s.handlers|
    requires s.handlers[i].stage.Admitted? ==> s.handlers[i].merchant.Some?
    ensures Balance(HandleStep(env, s, i, now, fault), m) == Balance(s, m)
  {
    var h := s.handlers[i];
    assert h in s.handlers;
    HandlerBalances(env, s.db, h, now, fault, m);
    var h' := HandlerStep(env, s.db, h, now, fault).1;
    CountUpdate(s.handlers, i, h', Pending(m));
    CountUpdate(s.handlers, i, h', Uncounted(m));
  }

  lemma OthersUncounted(env: Env, s: State, a: Action, m: int)
    requires !a.Arrive? && !a.Handle?
    ensures Step(env, s, a).handlers == s.handlers && Calls(Step(env, s, a).db, m) == Calls(s.db, m)
  {
    if a.Redeliver? && a.r < |s.retries| {
      RetryUncounted(s, a.r, a.now, a.fault);
    }
  }

  lemma RetryUncounted(s: State, i: nat, now: int, fault: bool)
    requires i < |s.retries|
    ensures RetryStep(s, i, now, fault).handlers == s.handlers
    ensures RetryStep(s, i, now, fault).db.merchants == s.db.merchants
  {
  }

  lemma StepBalances(env: Env, s: State, a: Action, m: int)
    requires Inv(env, s) && m in s.db.merchants
    ensures Balance(Step(env, s, a), m) == Balance(s, m)
  {
    if a.Arrive? {
      CountAppend(s.handlers, NewHandler(a.req), Pending(m));
      CountAppend(s.handlers, NewHandler(a.req), Uncounted(m));
    } else if a.Handle? {
      if a.h < |s.handlers| {
        assert s.handlers[a.h] in s.handlers;
        HandleBalances(env, s, a.h, a.now, a.fault, m);
      }
    } else {
      OthersUncounted(env, s, a, m);
      OthersInvisible(env, s, a);
    }
  }

  lemma {:induction false} RunBalances(env: Env, s: State, acts: seq<Action>, m: int)
    requires Inv(env, s) && m in s.db.merchants
    ensures Balance(Run(env, s, acts), m) == Balance(s, m)
  {
    if acts != [] {
      var before := acts[..|acts| - 1];
      RunBalances(env, s, before, m);
      RunKeeps(env, s, before);
      StepBalances(env, Run(env, s, before), acts[|acts| - 1], m);
    }
  }

  /**
   Call-count conservation: in every reachable state the calls counted for a merchant, plus its handlers
   between Insert and the increment, plus its failed increments, are the initial count plus the rows
   stored for it since.
   */
  lemma CallCountConservation(env: Env, db: Tables, acts: seq<Action>, m: int)
    requires db.TxOk() && m in db.merchants
    ensures var s := Run(env, Boot(db), acts);
            Calls(s.db, m) + Count(s.handlers, Pending(m)) + Count(s.handlers, Uncounted(m))
            == Calls(db, m) + Count(s.db.transactions, RowOf(m)) - Count(db.transactions, RowOf(m))
  {
    RunBalances(env, Boot(db), acts, m);
  }

  /**
   The next request for the merchant sees what an operator has set: the limit it is held to, whether it is
   found at all, and the webhook its notifier will call.
   */
  lemma UpdatesTakeEffect(env: Env, s: State, id: int, req: Request, maxCalls: int, active: bool, url: string)
    requires s.db.TxOk() && id in s.db.merchants && req.merchantID == Some(id)
    ensures var m := s.db.merchants[id];
            var quota := EnforceTier(Step(env, s, SetQuota(id, maxCalls)).db, NewHandler(req), false);
            var flag := EnforceTier(Step(env, s, SetActive(id, active)).db, NewHandler(req), false);
            var hook := EnforceTier(Step(env, s, SetWebhookURL(id, url)).db, NewHandler(req), false);
            && (quota.stage.Admitted? <==> m.active && m.currentMonthCalls < maxCalls)
            && (flag.stage.Admitted? <==> active && m.currentMonthCalls < m.maxMonthlyCalls)
            && (flag.stage == Answered(404) <==> !active)
            && (hook.stage.Admitted? <==> m.active && m.currentMonthCalls < m.maxMonthlyCalls)
            && (hook.stage.Admitted? ==> hook.merchant == Some(m.(webhookURL := url)))
  {
  }

  // ---------------------------------------------------------------- overshoot

  /** Every state of a run, first to last. */
  function States(env: Env, s: State, acts: seq<Action>): (r: seq<State>)
    ensures |r| == |acts| + 1 && r[0] == s && r[|acts|] == Run(env, s, acts)
  {
    if acts == [] then [s] else States(env, s, acts[..|acts| - 1]) + [Run(env, s, acts)]
  }

  /** The largest value a quantity takes in a run. */
  function Peak(xs: seq<State>, f: State -> int): int
    requires xs != []
  {
    if |xs| == 1 then f(xs[0]) else Max(Peak(xs[..|xs| - 1], f), f(xs[|xs| - 1]))
  }

  function CallsOf(m: int): State -> int {
    (s: State) => Calls(s.db, m)
  }

  function LimitOf(m: int): State -> int {
    (s: State) => Limit(s.db, m)
  }

  function FlightsOf(m: int): State -> int {
    (s: State) => Count(s.handlers, InFlight(m))
  }

  lemma {:induction false} PeakCovers(xs: seq<State>, f: State -> int, i: nat)
    requires i < |xs|
    ensures f(xs[i]) <= Peak(xs, f)
  {
    if i < |xs| - 1 {
      PeakCovers(xs[..|xs| - 1], f, i);
    }
  }

  lemma {:induction false} PeakWithin(xs: seq<State>, f: State -> int, bound: int)
    requires xs != [] && forall i :: 0 <= i < |xs| ==> f(xs[i]) <= bound
    ensures Peak(xs, f) <= bound
  {
    if |xs| > 1 {
      PeakWithin(xs[..|xs| - 1], f, bound);
    }
  }

  lemma HandlerOvershoot(env: Env, db: Tables, h: Handler, now: int, fault: bool, m: int)
    requires db.TxOk() && HandlerOk(env, db, h) && m in db.merchants
    ensures var (db', h') := HandlerStep(env, db, h, now, fault);
            || Calls(db', m) + Bit(InFlight(m)(h')) <= Calls(db, m) + Bit(InFlight(m)(h))
            || (Calls(db', m) == Calls(db, m) < Limit(db, m) && !InFlight(m)(h))
  {
  }

  /** A step either admits a request under the limit, or does not raise calls plus requests in flight. */
  lemma StepOvershoot(env: Env, s: State, a: Action, m: int)
    requires Inv(env, s) && m in s.db.merchants
    ensures var s' := Step(env, s, a);
            || Calls(s'.db, m) + Count(s'.handlers, InFlight(m)) <= Calls(s.db, m) + Count(s.handlers, InFlight(m))
            || Calls(s'.db, m) == Calls(s.db, m) < Limit(s.db, m)
  {
    if a.Arrive? {
      CountAppend(s.handlers, NewHandler(a.req), InFlight(m));
    } else if a.Handle? {
      if a.h < |s.handlers| {
        var h := s.handlers[a.h];
        assert h in s.handlers;
        HandlerOvershoot(env, s.db, h, a.now, a.fault, m);
        var h' := HandlerStep(env, s.db, h, a.now, a.fault).1;
        CountUpdate(s.handlers, a.h, h', InFlight(m));
        assert Step(env, s, a).handlers == s.handlers[a.h := h'];
      }
    } else {
      OthersUncounted(env, s, a, m);
    }
  }

  /** From `x` to `y`, either a request is admitted under the limit or nothing rises. */
  ghost predicate Admits(x: State, y: State, m: int) {
    || CallsOf(m)(y) + FlightsOf(m)(y) <= CallsOf(m)(x) + FlightsOf(m)(x)
    || CallsOf(m)(y) == CallsOf(m)(x) < LimitOf(m)(x)
  }

  ghost predicate AllAdmit(xs: seq<State>, m: int) {
    |xs| > 1 ==> AllAdmit(xs[..|xs| - 1], m) && Admits(xs[|xs| - 2], xs[|xs| - 1], m)
  }

  lemma {:induction false} TraceOvershoot(xs: seq<State>, m: int)
    requires xs != [] && FlightsOf(m)(xs[0]) == 0 && AllAdmit(xs, m)
    ensures var last := xs[|xs| - 1];
            CallsOf(m)(last) + FlightsOf(m)(last)
            <= Max(CallsOf(m)(xs[0]), Peak(xs, LimitOf(m)) + Peak(xs, FlightsOf(m)) - 1)
  {
    var n := |xs| - 1;
    if n > 0 {
      TraceOvershoot(xs[..n], m);
      PeakCovers(xs, LimitOf(m), n - 1);
    }
  }

  lemma {:induction false} RunAdmits(env: Env, s: State, acts: seq<Action>, m: int, xs: seq<State>)
    requires Inv(env, s) && m in s.db.merchants && xs == States(env, s, acts)
    ensures AllAdmit(xs, m)
  {
    if acts != [] {
      var before := acts[..|acts| - 1];
      var xs0 := States(env, s, before);
      RunAdmits(env, s, before, m, xs0);
      LastAdmits(env, s, acts, m);
      assert xs[..|acts|] == xs0 && xs[|acts| - 1] == Run(env, s, before);
    }
  }

  lemma LastAdmits(env: Env, s: State, acts: seq<Action>, m: int)
    requires Inv(env, s) && m in s.db.merchants && acts != []
    ensures Admits(Run(env, s, acts[..|acts| - 1]), Run(env, s, acts), m)
  {
    var before := acts[..|acts| - 1];
    RunKeeps(env, s, before);
    StepOvershoot(env, Run(env, s, before), acts[|acts| - 1], m);
  }

  /**
   Quota overshoot bound: whatever it starts from, a run takes the count no further than the largest
   limit in force so far plus the most requests ever in flight at once, less one. Started within the
   limit, with at most one request in flight at a time, it never passes the limit.
   */
  lemma OvershootBound(env: Env, db: Tables, acts: seq<Action>, m: int, xs: seq<State>)
    requires db.TxOk() && m in db.merchants && xs == States(env, Boot(db), acts)
    ensures var calls := Calls(xs[|acts|].db, m);
            && calls <= Max(Calls(db, m), Peak(xs, LimitOf(m)) + Peak(xs, FlightsOf(m)) - 1)
            && (Calls(db, m) <= Limit(db, m) && Peak(xs, FlightsOf(m)) <= 1 ==> calls <= Peak(xs, LimitOf(m)))
  {
    RunAdmits(env, Boot(db), acts, m, xs);
    TraceBound(xs, m);
  }

  lemma TraceBound(xs: seq<State>, m: int)
    requires xs != [] && FlightsOf(m)(xs[0]) == 0
    requires AllAdmit(xs, m)
    ensures var first, last := xs[0], xs[|xs| - 1];
            && Calls(last.db, m) <= Max(Calls(first.db, m), Peak(xs, LimitOf(m)) + Peak(xs, FlightsOf(m)) - 1)
            && (Calls(first.db, m) <= Limit(first.db, m) && Peak(xs, FlightsOf(m)) <= 1 ==>
                  Calls(last.db, m) <= Peak(xs, LimitOf(m)))
  {
    TraceOvershoot(xs, m);
    PeakCovers(xs, LimitOf(m), 0);
    assert CallsOf(m)(xs[|xs| - 1]) == Calls(xs[|xs| - 1].db, m);
  }
}
