/**
 Concurrent ingestion has the effect of serving the same requests one at a time, and the replay
 pre-check changes nothing but response codes.
 */
module Linearization {
  import opened Prelude
  import opened Storage
  import opened Auth
  import opened Engine
  import opened Ingestion
  import opened Quota

  /** A request that reached Insert: the merchant it was admitted for, and the clock it was checked at. */
  datatype Submission = Submission(req: Request, merchant: Merchant, now: int, fault: bool)

  /**
   HandleMoMoWebhook after the tier check, with nothing else running: check, store, count, answer. The
   INSERT fares as it did in the concurrent run, and no other statement fails.
   */
  function Alone(env: Env, db: Tables, sub: Submission): Tables {
    Uninterrupted(env, db, AdmittedHandler(sub.req, sub.merchant), sub.now, [false, sub.fault, false, false]).0
  }

  /** The same requests, one after the other. */
  function Serial(env: Env, db: Tables, subs: seq<Submission>): Tables {
    if subs == [] then db else Alone(env, Serial(env, db, subs[..|subs| - 1]), subs[|subs| - 1])
  }

  function SubmissionOf(s: State, a: Action): seq<Submission> {
    if a.Handle? && a.h < |s.handlers| && s.handlers[a.h].stage.Parsed? && s.handlers[a.h].merchant.Some? then
      var h := s.handlers[a.h];
      [Submission(h.req, h.merchant.value, h.checkedAt, a.fault)]
    else []
  }

  /** The requests that reached Insert in a run, in the order in which they did. */
  function Submissions(env: Env, s: State, acts: seq<Action>): seq<Submission> {
    if acts == [] then []
    else
      var before := acts[..|acts| - 1];
      Submissions(env, s, before) + SubmissionOf(Run(env, s, before), acts[|acts| - 1])
  }

  /** First wins: store the row unless its provider id is taken, and count the call. */
  function StoreAndCount(env: Env, db: Tables, tx: Transaction, fault: bool): Tables {
    match Save(env, db, tx, fault)
    case Err => db
    case Ok(db') => db'.IncrementMerchantCallCount(tx.merchantID, false).value
  }

  /** Served alone, an admissible request does what an unchecked insert does. */
  lemma AloneIsFirstWins(env: Env, db: Tables, h: Handler, fault: bool)
    requires h.stage.Parsed? && h.stage.tx.id == 0 && Admissible(env, h, h.stage.tx)
    ensures Alone(env, db, Submission(h.req, h.merchant.value, h.checkedAt, fault))
            == StoreAndCount(env, db, h.stage.tx, fault)
  {
    var tx := h.stage.tx;
    var h0 := AdmittedHandler(h.req, h.merchant.value);
    var st := CheckRequest(env, db, h.req, h.merchant.value, h.checkedAt, false);
    assert st == if env.heedReplay && db.Exists(tx.providerTxID) then Answered(200) else Parsed(tx);
    FourSteps(env, db, h0, h.checkedAt, false, fault, false, false);
  }

  /** The serial tables agree with the concurrent ones, up to calls not counted yet. */
  ghost predicate Agrees(s: State, t: Tables) {
    && t.transactions == s.db.transactions && t.nextTx == s.db.nextTx
    && t.merchants.Keys == s.db.merchants.Keys
    && forall m :: m in t.merchants ==> Owes(s, t, m)
  }

  ghost predicate Owes(s: State, t: Tables, m: int) {
    Calls(t, m) == Calls(s.db, m) + Count(s.handlers, Pending(m)) + Count(s.handlers, Uncounted(m))
  }

  lemma HandlerAgrees(env: Env, db: Tables, t: Tables, h: Handler, now: int, fault: bool, m: int)
    requires db.TxOk() && HandlerOk(env, db, h) && m in t.merchants
    requires t.transactions == db.transactions && t.nextTx == db.nextTx && t.merchants.Keys == db.merchants.Keys
    ensures var (db', h') := HandlerStep(env, db, h, now, fault);
            var t' := if h.stage.Parsed? then StoreAndCount(env, t, h.stage.tx, fault) else t;
            && t'.transactions == db'.transactions && t'.nextTx == db'.nextTx && t'.merchants.Keys == db'.merchants.Keys
            && Calls(t', m) - Calls(t, m)
               == Calls(db', m) + Bit(Pending(m)(h')) + Bit(Uncounted(m)(h'))
                  - Calls(db, m) - Bit(Pending(m)(h)) - Bit(Uncounted(m)(h))
  {
  }

  lemma HandleAgrees(env: Env, s: State, t: Tables, i: nat, now: int, fault: bool)
    requires Inv(env, s) && Agrees(s, t) && i < |s.handlers|
    requires s.handlers[i].stage.Admitted? ==> s.handlers[i].merchant.Some?
    ensures var h := s.handlers[i];
            Agrees(HandleStep(env, s, i, now, fault),
                   if h.stage.Parsed? then StoreAndCount(env, t, h.stage.tx, fault) else t)
  {
    var h := s.handlers[i];
    assert h in s.handlers;
    var (db, h') := HandlerStep(env, s.db, h, now, fault);
    var t' := if h.stage.Parsed? then StoreAndCount(env, t, h.stage.tx, fault) else t;
    forall m | m in t.merchants
      ensures t'.transactions == db.transactions && t'.nextTx == db.nextTx && t'.merchants.Keys == db.merchants.Keys
      ensures Owes(HandleStep(env, s, i, now, fault), t', m)
    {
      assert Owes(s, t, m);
      HandlerAgrees(env, s.db, t, h, now, fault, m);
      CountUpdate(s.handlers, i, h', Pending(m));
      CountUpdate(s.handlers, i, h', Uncounted(m));
    }
  }

  lemma OthersAgree(env: Env, s: State, t: Tables, a: Action)
    requires Agrees(s, t) && !a.Handle?
    ensures Agrees(Step(env, s, a), t)
  {
    if !a.Arrive? {
      OthersInvisible(env, s, a);
    }
    forall m | m in t.merchants
      ensures Owes(Step(env, s, a), t, m)
    {
      assert Owes(s, t, m);
      if a.Arrive? {
        CountAppend(s.handlers, NewHandler(a.req), Pending(m));
        CountAppend(s.handlers, NewHandler(a.req), Uncounted(m));
      } else {
        OthersUncounted(env, s, a, m);
      }
    }
  }

  lemma ClockAgrees(s: State, t: Tables, clock: nat)
    requires Agrees(s, t)
    ensures Agrees(s.(clock := clock), t)
  {
  }

  lemma StepAgrees(env: Env, s: State, t: Tables, a: Action)
    requires Inv(env, s) && Agrees(s, t)
    ensures var subs := SubmissionOf(s, a);
            Agrees(Step(env, s, a), if subs == [] then t else Alone(env, t, subs[0]))
  {
    if !a.Handle? {
      OthersAgree(env, s, t, a);
    } else if a.h < |s.handlers| {
      var h := s.handlers[a.h];
      assert h in s.handlers;
      HandleAgrees(env, s, t, a.h, a.now, a.fault);
      if h.stage.Parsed? {
        AloneIsFirstWins(env, t, h, a.fault);
        ClockAgrees(HandleStep(env, s, a.h, a.now, a.fault), StoreAndCount(env, t, h.stage.tx, a.fault), s.clock + 1);
      } else {
        ClockAgrees(HandleStep(env, s, a.h, a.now, a.fault), t, s.clock + 1);
      }
    } else {
      ClockAgrees(s, t, s.clock + 1);
    }
  }

  lemma {:induction false} RunAgrees(env: Env, s: State, acts: seq<Action>)
    requires Inv(env, s) && s.handlers == []
    ensures Agrees(Run(env, s, acts), Serial(env, s.db, Submissions(env, s, acts)))
  {
    if acts != [] {
      var before := acts[..|acts| - 1];
      var a := acts[|acts| - 1];
      RunAgrees(env, s, before);
      RunKeeps(env, s, before);
      var s1, subs1 := Run(env, s, before), Submissions(env, s, before);
      StepAgrees(env, s1, Serial(env, s.db, subs1), a);
      SerialSnoc(env, s.db, subs1, SubmissionOf(s1, a));
    } else {
      assert forall m :: m in s.db.merchants ==> Owes(s, s.db, m);
    }
  }

  lemma SerialSnoc(env: Env, db: Tables, subs: seq<Submission>, more: seq<Submission>)
    requires |more| <= 1
    ensures Serial(env, db, subs + more)
            == if more == [] then Serial(env, db, subs) else Alone(env, Serial(env, db, subs), more[0])
  {
    if more == [] {
      assert subs + more == subs;
    } else {
      assert (subs + more)[..|subs|] == subs;
    }
  }

  lemma NothingToCount<T>(xs: seq<T>, p: T -> bool)
    requires forall x :: x in xs ==> !p(x)
    ensures Count(xs, p) == 0
  {
  }

  /**
   First-wins linearization: any interleaving of handlers leaves the transactions table that serving the
   requests that reached Insert one at a time, in Insert order, leaves; and once every stored call has
   been counted, the same call counts.
   */
  lemma FirstWinsLinearization(env: Env, db: Tables, acts: seq<Action>)
    requires db.TxOk()
    ensures var s := Run(env, Boot(db), acts);
            var t := Serial(env, db, Submissions(env, Boot(db), acts));
            && s.db.transactions == t.transactions
            && ((forall h :: h in s.handlers ==> !h.stage.Inserted? && !h.uncounted) ==>
                  forall m :: m in db.merchants ==> Calls(s.db, m) == Calls(t, m))
  {
    RunAgrees(env, Boot(db), acts);
    RunKeeps(env, Boot(db), acts);
    var s := Run(env, Boot(db), acts);
    var t := Serial(env, db, Submissions(env, Boot(db), acts));
    if forall h :: h in s.handlers ==> !h.stage.Inserted? && !h.uncounted {
      forall m | m in db.merchants
        ensures Calls(s.db, m) == Calls(t, m)
      {
        assert Owes(s, t, m);
        NothingToCount(s.handlers, Pending(m));
        NothingToCount(s.handlers, Uncounted(m));
      }
    }
  }

  // ---------------------------------------------------------------- the replay pre-check

  /**
   `h` ran with the pre-check and `h'` without: they are the same, or `h` was answered as a replay, and
   `h'` is on its way to being refused by the UNIQUE constraint, or has been refused.
   */
  ghost predicate SameButAnswer(db: Tables, h: Handler, h': Handler) {
    || h == h'
    || (&& h.stage == Answered(200) && h.stored.None? && h'.stored.None?
        && h' == h.(stage := h'.stage)
        && (h'.stage.Answered? || (h'.stage.Parsed? && db.Exists(h'.stage.tx.providerTxID))))
  }

  ghost predicate Alike(s: State, s': State) {
    && s'.(handlers := s.handlers) == s
    && |s.handlers| == |s'.handlers|
    && forall i :: 0 <= i < |s.handlers| ==> SameButAnswer(s.db, s.handlers[i], s'.handlers[i])
  }

  lemma HandlersAlike(env: Env, db: Tables, h: Handler, h': Handler, now: int, fault: bool)
    requires env.heedReplay && HandlerOk(env, db, h) && SameButAnswer(db, h, h')
    ensures var (db1, h1) := HandlerStep(env, db, h, now, fault);
            var (db2, h2) := HandlerStep(env.(heedReplay := false), db, h', now, fault);
            db1 == db2 && SameButAnswer(db1, h1, h2)
  {
  }

  lemma OthersIgnoreHandlers(env: Env, env': Env, s: State, hs: seq<Handler>, a: Action)
    requires !a.Handle?
    ensures Step(env', s.(handlers := hs), a)
            == Step(env, s, a).(handlers := if a.Arrive? then hs + [NewHandler(a.req)] else hs)
  {
    match a {
      case Redeliver(i, now, fault) =>
        if i < |s.retries| {
          RetryIgnoresHandlers(s, hs, i, now, fault);
        }
      case _ =>
    }
  }

  lemma RetryIgnoresHandlers(s: State, hs: seq<Handler>, i: nat, now: int, fault: bool)
    requires i < |s.retries|
    ensures RetryStep(s.(handlers := hs), i, now, fault) == RetryStep(s, i, now, fault).(handlers := hs)
  {
    var s' := s.(handlers := hs);
    assert s'.retries == s.retries && s'.notifiers == s.notifiers && s'.db == s.db && s'.ctr == s.ctr;
    match s.retries[i].stage {
      case Called =>
      case HasRow(_) =>
      case Requeued(_) =>
      case HasMerchant(_, _) =>
      case Launched(_, _, _) =>
      case Running(_, _, _) =>
      case _ =>
    }
  }

  lemma AlikeGrows(db: Tables, db': Tables, h: Handler, h': Handler)
    requires SameButAnswer(db, h, h') && Grows(db, db')
    ensures SameButAnswer(db', h, h')
  {
  }

  lemma StepsAlike(env: Env, s: State, s': State, a: Action)
    requires env.heedReplay && Inv(env, s) && Alike(s, s')
    ensures Alike(Step(env, s, a), Step(env.(heedReplay := false), s', a))
  {
    if a.Handle? {
      if a.h < |s.handlers| {
        HandleAlike(env, s, s', a.h, a.now, a.fault);
      }
    } else {
      OthersAlike(env, s, s', a);
    }
  }

  lemma OthersAlike(env: Env, s: State, s': State, a: Action)
    requires Inv(env, s) && Alike(s, s') && !a.Handle?
    ensures Alike(Step(env, s, a), Step(env.(heedReplay := false), s', a))
  {
    StepKeeps(env, s, a);
    OthersIgnoreHandlers(env, env.(heedReplay := false), s, s'.handlers, a);
    OthersIgnoreHandlers(env, env, s, s.handlers, a);
    var t, t' := Step(env, s, a), Step(env.(heedReplay := false), s', a);
    assert s' == s.(handlers := s'.handlers);
    forall i | 0 <= i < |t.handlers|
      ensures SameButAnswer(t.db, t.handlers[i], t'.handlers[i])
    {
      if i < |s.handlers| {
        AlikeGrows(s.db, t.db, s.handlers[i], s'.handlers[i]);
      }
    }
  }

  lemma HandleAlike(env: Env, s: State, s': State, i: nat, now: int, fault: bool)
    requires env.heedReplay && Inv(env, s) && Alike(s, s') && i < |s.handlers|
    ensures var a := Handle(i, now, fault);
            Alike(Step(env, s, a), Step(env.(heedReplay := false), s', a))
  {
    var env' := env.(heedReplay := false);
    RestAlike(env, s, s', i, now, fault);
    var t, t' := HandleStep(env, s, i, now, fault), HandleStep(env', s', i, now, fault);
    forall j | 0 <= j < |t.handlers|
      ensures SameButAnswer(t.db, t.handlers[j], t'.handlers[j])
    {
      OneAlike(env, s, s', i, now, fault, j);
    }
    AlikeClock(t, t', s.clock + 1);
  }

  /** Handler `i` steps, and handler `j`, the same or another, stays alike. */
  lemma OneAlike(env: Env, s: State, s': State, i: nat, now: int, fault: bool, j: nat)
    requires env.heedReplay && Inv(env, s) && Alike(s, s') && i < |s.handlers| && j < |s.handlers|
    requires s.handlers[i].stage.Admitted? ==> s.handlers[i].merchant.Some?
    requires s'.handlers[i].stage.Admitted? ==> s'.handlers[i].merchant.Some?
    ensures var t, t' := HandleStep(env, s, i, now, fault), HandleStep(env.(heedReplay := false), s', i, now, fault);
            SameButAnswer(t.db, t.handlers[j], t'.handlers[j])
  {
    assert s.handlers[i] in s.handlers && SameButAnswer(s.db, s.handlers[i], s'.handlers[i]);
    if j != i {
      HandleGrows(env, s, i, now, fault);
      AlikeGrows(s.db, HandleStep(env, s, i, now, fault).db, s.handlers[j], s'.handlers[j]);
    } else {
      HandlersAlike(env, s.db, s.handlers[i], s'.handlers[i], now, fault);
    }
  }

  lemma HandleGrows(env: Env, s: State, i: nat, now: int, fault: bool)
    requires Inv(env, s) && i < |s.handlers|
    requires s.handlers[i].stage.Admitted? ==> s.handlers[i].merchant.Some?
    ensures Grows(s.db, HandleStep(env, s, i, now, fault).db)
  {
    assert s.handlers[i] in s.handlers;
    HandlerKeeps(env, s.db, s.handlers[i], now, fault);
  }

  /** Apart from the handlers, one step of alike handlers does the same. */
  lemma RestAlike(env: Env, s: State, s': State, i: nat, now: int, fault: bool)
    requires env.heedReplay && Inv(env, s) && Alike(s, s') && i < |s.handlers|
    ensures var h, h' := s.handlers[i], s'.handlers[i];
            && (h.stage.Admitted? ==> h.merchant.Some?) && (h'.stage.Admitted? ==> h'.merchant.Some?)
            && var t, t' := HandleStep(env, s, i, now, fault), HandleStep(env.(heedReplay := false), s', i, now, fault);
            t'.(handlers := t.handlers) == t
  {
    var h, h' := s.handlers[i], s'.handlers[i];
    assert h in s.handlers && SameButAnswer(s.db, h, h');
    HandlersAlike(env, s.db, h, h', now, fault);
  }

  lemma AlikeClock(s: State, s': State, clock: nat)
    requires Alike(s, s')
    ensures Alike(s.(clock := clock), s'.(clock := clock))
  {
  }

  lemma {:induction false} RunsAlike(env: Env, s: State, acts: seq<Action>)
    requires env.heedReplay && Inv(env, s)
    ensures Alike(Run(env, s, acts), Run(env.(heedReplay := false), s, acts))
  {
    if acts != [] {
      var before := acts[..|acts| - 1];
      RunsAlike(env, s, before);
      RunKeeps(env, s, before);
      StepsAlike(env, Run(env, s, before), Run(env.(heedReplay := false), s, before), acts[|acts| - 1]);
    }
  }

  /**
   The replay pre-check is only about the answer: under the same schedule the program and one that
   ignores the answer of Exists have the same tables, notifiers, retries and counters in every state, and
   their handlers differ in nothing but the stage of requests answered 200 as replays.
   */
  lemma PrecheckOnlyChangesAnswers(env: Env, db: Tables, acts: seq<Action>)
    requires db.TxOk() && env.heedReplay
    ensures var s, s' := Run(env, Boot(db), acts), Run(env.(heedReplay := false), Boot(db), acts);
            && s'.db == s.db && s'.notifiers == s.notifiers && s'.retries == s.retries && s'.ctr == s.ctr
            && |s'.handlers| == |s.handlers|
            && forall i :: 0 <= i < |s.handlers| && s.handlers[i] != s'.handlers[i] ==>
                 && s.handlers[i].stage == Answered(200) && s.handlers[i].stored.None?
                 && s'.handlers[i] == s.handlers[i].(stage := s'.handlers[i].stage)
  {
    RunsAlike(env, Boot(db), acts);
    var s, s' := Run(env, Boot(db), acts), Run(env.(heedReplay := false), Boot(db), acts);
    assert Alike(s, s');
    forall i | 0 <= i < |s.handlers| && s.handlers[i] != s'.handlers[i]
      ensures && s.handlers[i].stage == Answered(200) && s.handlers[i].stored.None?
              && s'.handlers[i] == s.handlers[i].(stage := s'.handlers[i].stage)
    {
      assert SameButAnswer(s.db, s.handlers[i], s'.handlers[i]);
    }
  }
}
