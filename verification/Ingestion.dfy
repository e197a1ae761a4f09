/**
 What every interleaving of webhook handlers keeps: one row and one notifier per provider transaction
 id, acknowledgements that stay true, and the origin of every stored row.
 */
module Ingestion {
  import opened Prelude
  import opened Storage
  import opened Auth
  import opened Engine

  /** Rows are only ever appended, and merchants neither come nor go. */
  ghost predicate Grows(db: Tables, db': Tables) {
    && db.transactions <= db'.transactions
    && db.merchants.Keys == db'.merchants.Keys
  }

  /** The request carried by `h` passed every check, at `h.checkedAt`, and reads as `tx`. */
  ghost predicate Admissible(env: Env, h: Handler, tx: Transaction) {
    && h.merchant.Some? && h.merchant.value.active
    && h.req.merchantID == Some(h.merchant.value.id) && tx.merchantID == h.merchant.value.id
    && h.req.body.Some?
    && h.req.signature != "" && h.req.signature == env.hmacHex(env.secret, h.req.body.value)
    && var p := env.decode(h.req.body.value);
    && p.Some? && p.value.transactionID != "" && p.value.externalID != "" && p.value.amount != ""
    && TimestampOk(env, p.value.timestamp, h.checkedAt)
    && Carries(env, p.value, h.req.body.value, tx)
  }

  ghost predicate HandlerOk(env: Env, db: Tables, h: Handler) {
    && (h.stage.Admitted? || h.stage.Parsed? || h.stage.Inserted? || h.stage.Counted? ==> h.merchant.Some?)
    && (h.merchant.Some? ==>
          && h.merchant.value.active && h.merchant.value.id in db.merchants
          && h.req.merchantID == Some(h.merchant.value.id))
    && (h.stage.Parsed? ==> h.stage.tx.id == 0 && Admissible(env, h, h.stage.tx))
    && (h.stage.Inserted? || h.stage.Counted? ==>
          && h.stored.Some? && h.stage.tx == h.stored.value.(id := 0))
    && (h.stored.Some? ==>
          && h.stored.value in db.transactions && env.numeric(h.stored.value.amount)
          && Admissible(env, h, h.stored.value)
          && (h.stage.Inserted? || h.stage.Counted? || h.stage == Answered(200)))
    && (h.uncounted ==> h.stored.Some? && !h.stage.Inserted?)
    && (h.stage == Answered(200) ==> Acknowledges(env, db, h))
  }

  /** The request was signed, and in time when it was checked; the transaction id it names has a row. */
  ghost predicate Acknowledges(env: Env, db: Tables, h: Handler) {
    && h.req.body.Some? && env.decode(h.req.body.value).Some?
    && h.req.signature != "" && h.req.signature == env.hmacHex(env.secret, h.req.body.value)
    && TimestampOk(env, env.decode(h.req.body.value).value.timestamp, h.checkedAt)
    && db.Exists(env.decode(h.req.body.value).value.transactionID)
  }

  ghost predicate StoredApart(hs: seq<Handler>) {
    forall i, j :: 0 <= i < j < |hs| && hs[i].stored.Some? && hs[j].stored.Some? ==>
      hs[i].stored.value.providerTxID != hs[j].stored.value.providerTxID
  }

  /** A webhook notifier belongs to one handler, which stored the transaction it carries. */
  ghost predicate NotifierFromHandler(hs: seq<Handler>, n: Notifier) {
    n.origin.FromWebhookHandler? ==>
      && n.origin.handler < |hs|
      && var h := hs[n.origin.handler];
      && h.stage == Answered(200) && h.stored.Some? && h.merchant.Some?
      && n.tx == h.stored.value.(id := 0) && n.merchant == h.merchant.value
  }

  ghost predicate OriginsApart(ns: seq<Notifier>) {
    forall i, j :: 0 <= i < j < |ns| && ns[i].origin.FromWebhookHandler? ==> ns[i].origin != ns[j].origin
  }

  ghost predicate HasNotifier(ns: seq<Notifier>, h: nat) {
    exists j :: 0 <= j < |ns| && ns[j].origin == FromWebhookHandler(h)
  }

  /** The handler stored a row and has answered. */
  predicate AcceptedBy(h: Handler) {
    h.stage == Answered(200) && h.stored.Some?
  }

  ghost predicate AllNotified(s: State) {
    forall i :: 0 <= i < |s.handlers| && AcceptedBy(s.handlers[i]) ==> HasNotifier(s.notifiers, i)
  }

  ghost predicate Inv(env: Env, s: State) {
    && s.db.TxOk()
    && (forall h :: h in s.handlers ==> HandlerOk(env, s.db, h))
    && StoredApart(s.handlers)
    && (forall n :: n in s.notifiers ==> NotifierFromHandler(s.handlers, n))
    && OriginsApart(s.notifiers)
    && AllNotified(s)
  }

  lemma HandlerOkGrows(env: Env, db: Tables, db': Tables, h: Handler)
    requires HandlerOk(env, db, h) && Grows(db, db')
    ensures HandlerOk(env, db', h)
  {
  }

  lemma InsertKeeps(env: Env, db: Tables, h: Handler, now: int, fault: bool)
    requires db.TxOk() && HandlerOk(env, db, h) && h.stage.Parsed?
    ensures var (db', h') := HandlerStep(env, db, h, now, fault);
            && db'.TxOk() && Grows(db, db') && HandlerOk(env, db', h')
            && (h'.stored.Some? ==> !db.Exists(h'.stored.value.providerTxID))
  {
  }

  lemma CheckKeeps(env: Env, db: Tables, h: Handler, now: int, fault: bool)
    requires db.TxOk() && HandlerOk(env, db, h) && h.stage.Admitted?
    ensures var (db', h') := HandlerStep(env, db, h, now, fault);
            db' == db && HandlerOk(env, db, h') && h'.stored == h.stored
  {
  }

  /** One step of one handler, seen alone. */
  lemma HandlerKeeps(env: Env, db: Tables, h: Handler, now: int, fault: bool)
    requires db.TxOk() && HandlerOk(env, db, h)
    ensures var (db', h') := HandlerStep(env, db, h, now, fault);
            && db'.TxOk() && Grows(db, db') && HandlerOk(env, db', h')
            && (h.stored.Some? ==> h'.stored == h.stored)
            && (h.stored.None? && h'.stored.Some? ==> !db.Exists(h'.stored.value.providerTxID))
  {
    match h.stage {
      case Admitted => CheckKeeps(env, db, h, now, fault);
      case Parsed(tx) => InsertKeeps(env, db, h, now, fault);
      case _ =>
    }
  }

  lemma {:induction false} HandleKeeps(env: Env, s: State, i: nat, now: int, fault: bool)
    requires Inv(env, s) && i < |s.handlers|
    requires s.handlers[i].stage.Admitted? ==> s.handlers[i].merchant.Some?
    ensures Inv(env, HandleStep(env, s, i, now, fault))
    ensures Grows(s.db, HandleStep(env, s, i, now, fault).db)
  {
    var h := s.handlers[i];
    assert h in s.handlers;
    HandlerKeeps(env, s.db, h, now, fault);
    var (db, h') := HandlerStep(env, s.db, h, now, fault);
    var s' := HandleStep(env, s, i, now, fault);
    forall x | x in s'.handlers
      ensures HandlerOk(env, db, x)
    {
      if x != h' {
        assert x in s.handlers;
        HandlerOkGrows(env, s.db, db, x);
      }
    }
    forall j | 0 <= j < |s.handlers| && j != i && s.handlers[j].stored.Some? && h'.stored.Some?
      ensures s.handlers[j].stored.value.providerTxID != h'.stored.value.providerTxID
    {
      assert s.handlers[j] in s.handlers;
    }
    NotifiersKept(env, s, i, now, fault);
  }

  lemma NotifiersKept(env: Env, s: State, i: nat, now: int, fault: bool)
    requires Inv(env, s) && i < |s.handlers|
    requires s.handlers[i].stage.Admitted? ==> s.handlers[i].merchant.Some?
    ensures var s' := HandleStep(env, s, i, now, fault);
            && (forall n :: n in s'.notifiers ==> NotifierFromHandler(s'.handlers, n))
            && OriginsApart(s'.notifiers)
            && AllNotified(s')
  {
    var h := s.handlers[i];
    assert h in s.handlers;
    var s' := HandleStep(env, s, i, now, fault);
    assert s'.handlers == s.handlers[i := s'.handlers[i]];
    forall n | n in s.notifiers
      ensures NotifierFromHandler(s'.handlers, n)
    {
      assert NotifierFromHandler(s.handlers, n);
    }
    forall k | 0 <= k < |s.notifiers| && h.stage.Counted?
      ensures s.notifiers[k].origin != FromWebhookHandler(i)
    {
      assert s.notifiers[k] in s.notifiers;
    }
    StillNotified(env, s, i, now, fault);
  }

  lemma StillNotified(env: Env, s: State, i: nat, now: int, fault: bool)
    requires AllNotified(s) && i < |s.handlers| && HandlerOk(env, s.db, s.handlers[i])
    requires s.handlers[i].stage.Admitted? ==> s.handlers[i].merchant.Some?
    ensures AllNotified(HandleStep(env, s, i, now, fault))
  {
    var h := s.handlers[i];
    var s' := HandleStep(env, s, i, now, fault);
    forall j | 0 <= j < |s'.handlers| && AcceptedBy(s'.handlers[j])
      ensures HasNotifier(s'.notifiers, j)
    {
      if j == i && h.stage.Counted? {
        assert s'.notifiers[|s.notifiers|].origin == FromWebhookHandler(j);
      } else {
        assert HasNotifier(s.notifiers, j);
        var k :| 0 <= k < |s.notifiers| && s.notifiers[k].origin == FromWebhookHandler(j);
        assert s'.notifiers[k].origin == FromWebhookHandler(j);
      }
    }
  }

  /** Steps of the other processes, as far as handlers can see them. */
  ghost predicate Invisible(s: State, s': State) {
    && s'.handlers == s.handlers && s'.db.nextTx == s.db.nextTx
    && s'.db.transactions == s.db.transactions && s'.db.merchants.Keys == s.db.merchants.Keys
    && (forall m :: m in s.db.merchants ==> s'.db.merchants[m].id == s.db.merchants[m].id)
    && |s.notifiers| <= |s'.notifiers|
    && (forall j :: 0 <= j < |s.notifiers| ==>
          && s'.notifiers[j].origin == s.notifiers[j].origin
          && s'.notifiers[j].tx == s.notifiers[j].tx && s'.notifiers[j].merchant == s.notifiers[j].merchant)
    && (forall j :: |s.notifiers| <= j < |s'.notifiers| ==> s'.notifiers[j].origin.FromRetry?)
  }

  lemma DeliverInvisible(s: State, i: nat, r: Response, fault: bool)
    requires i < |s.notifiers|
    ensures Invisible(s, DeliverStep(s, i, r, fault))
  {
  }

  lemma RetryInvisible(s: State, i: nat, now: int, fault: bool)
    requires i < |s.retries|
    ensures Invisible(s, RetryStep(s, i, now, fault))
  {
  }

  lemma OthersInvisible(env: Env, s: State, a: Action)
    requires !a.Handle? && !a.Arrive?
    ensures Invisible(s, Step(env, s, a))
  {
    if a.Deliver? && a.n < |s.notifiers| {
      DeliverInvisible(s, a.n, a.response, a.fault);
    } else if a.Redeliver? && a.r < |s.retries| {
      RetryInvisible(s, a.r, a.now, a.fault);
    }
  }

  lemma InvisibleKeeps(env: Env, s: State, s': State)
    requires Inv(env, s) && Invisible(s, s')
    ensures Inv(env, s')
  {
    forall h | h in s'.handlers
      ensures HandlerOk(env, s'.db, h)
    {
      HandlerOkGrows(env, s.db, s'.db, h);
    }
    forall n | n in s'.notifiers
      ensures NotifierFromHandler(s'.handlers, n)
    {
      var j :| 0 <= j < |s'.notifiers| && s'.notifiers[j] == n;
      if j < |s.notifiers| {
        assert NotifierFromHandler(s.handlers, s.notifiers[j]);
      }
    }
    forall i | 0 <= i < |s'.handlers| && AcceptedBy(s'.handlers[i])
      ensures HasNotifier(s'.notifiers, i)
    {
      assert HasNotifier(s.notifiers, i);
      var k :| 0 <= k < |s.notifiers| && s.notifiers[k].origin == FromWebhookHandler(i);
      assert s'.notifiers[k].origin == FromWebhookHandler(i);
    }
  }

  lemma ArriveKeeps(env: Env, s: State, req: Request)
    requires Inv(env, s)
    ensures Inv(env, Step(env, s, Arrive(req)))
  {
  }

  lemma StepKeeps(env: Env, s: State, a: Action)
    requires Inv(env, s)
    ensures Inv(env, Step(env, s, a)) && Grows(s.db, Step(env, s, a).db)
  {
    if a.Arrive? {
      ArriveKeeps(env, s, a.req);
    } else if a.Handle? {
      var s0 := s.(clock := s.clock + 1);
      if a.h < |s.handlers| && (s.handlers[a.h].stage.Admitted? ==> s.handlers[a.h].merchant.Some?) {
        HandleKeeps(env, s, a.h, a.now, a.fault);
        InvisibleKeeps(env, HandleStep(env, s, a.h, a.now, a.fault), Step(env, s, a));
      } else {
        InvisibleKeeps(env, s, s0);
      }
    } else {
      OthersInvisible(env, s, a);
      InvisibleKeeps(env, s, Step(env, s, a));
    }
  }

  lemma {:induction false} RunKeeps(env: Env, s: State, acts: seq<Action>)
    requires Inv(env, s)
    ensures Inv(env, Run(env, s, acts)) && Grows(s.db, Run(env, s, acts).db)
  {
    if acts != [] {
      RunKeeps(env, s, acts[..|acts| - 1]);
      StepKeeps(env, Run(env, s, acts[..|acts| - 1]), acts[|acts| - 1]);
    }
  }

  // ---------------------------------------------------------------- main results

  /** Two notifiers started by webhooks for the same provider transaction id. */
  predicate SameStart(a: Notifier, b: Notifier) {
    a.origin.FromWebhookHandler? && b.origin.FromWebhookHandler? && a.tx.providerTxID == b.tx.providerTxID
  }

  /**
   Exactly once, in every interleaving: a provider transaction id has at most one row, at most one
   webhook notifier is ever started for it, and whoever stored the row and answered has started it.
   */
  lemma ExactlyOnce(env: Env, db: Tables, acts: seq<Action>)
    requires db.TxOk()
    ensures var s := Run(env, Boot(db), acts);
            && s.db.UniqueProviderIDs()
            && (forall i, j :: 0 <= i < j < |s.notifiers| ==> !SameStart(s.notifiers[i], s.notifiers[j]))
            && (forall n :: n in s.notifiers && n.origin.FromWebhookHandler? ==> s.db.Exists(n.tx.providerTxID))
            && AllNotified(s)
  {
    RunKeeps(env, Boot(db), acts);
    var s := Run(env, Boot(db), acts);
    forall n | n in s.notifiers && n.origin.FromWebhookHandler?
      ensures s.db.Exists(n.tx.providerTxID)
    {
      assert NotifierFromHandler(s.handlers, n);
      assert s.handlers[n.origin.handler] in s.handlers;
      assert s.handlers[n.origin.handler].stored.value in s.db.transactions;
    }
    forall i, j | 0 <= i < j < |s.notifiers|
                  && s.notifiers[i].origin.FromWebhookHandler? && s.notifiers[j].origin.FromWebhookHandler?
      ensures !SameStart(s.notifiers[i], s.notifiers[j])
    {
      assert s.notifiers[i] in s.notifiers && s.notifiers[j] in s.notifiers;
      var a, b := s.notifiers[i].origin.handler, s.notifiers[j].origin.handler;
      assert a != b;
      if b < a {
        assert s.handlers[b].stored.value.providerTxID != s.handlers[a].stored.value.providerTxID;
      }
    }
  }

  /**
   Durable acknowledgement: when any handler has answered 200, by either path, the id it was asked about
   has exactly one row, which no continuation of the run changes.
   */
  lemma DurableAcknowledgement(env: Env, db: Tables, acts: seq<Action>, i: nat, later: seq<Action>)
    returns (row: Transaction)
    requires db.TxOk()
    requires i < |Run(env, Boot(db), acts).handlers| && Run(env, Boot(db), acts).handlers[i].stage == Answered(200)
    ensures var s := Run(env, Boot(db), acts);
            var body := s.handlers[i].req.body;
            && body.Some? && env.decode(body.value).Some?
            && row.providerTxID == env.decode(body.value).value.transactionID
            && IsTheRow(s.db, row) && IsTheRow(Run(env, s, later).db, row)
  {
    RunKeeps(env, Boot(db), acts);
    var s := Run(env, Boot(db), acts);
    RunKeeps(env, s, later);
    row := AcknowledgedRow(env, s, s.handlers[i], Run(env, s, later).db);
  }

  /** `row` is stored, and is all there is under its provider id: any answer about that id is about `row`. */
  ghost predicate IsTheRow(db: Tables, row: Transaction) {
    && row in db.transactions
    && forall t :: t in db.transactions && t.providerTxID == row.providerTxID ==> t == row
  }

  lemma AcknowledgedRow(env: Env, s: State, h: Handler, later: Tables) returns (row: Transaction)
    requires Inv(env, s) && h in s.handlers && h.stage == Answered(200)
    requires later.TxOk() && Grows(s.db, later)
    ensures Acknowledges(env, s.db, h) && row.providerTxID == env.decode(h.req.body.value).value.transactionID
    ensures IsTheRow(s.db, row) && IsTheRow(later, row)
  {
    assert HandlerOk(env, s.db, h);
    row :| row in s.db.transactions && row.providerTxID == env.decode(h.req.body.value).value.transactionID;
    RowStays(s.db, later, row);
  }

  lemma RowStays(db: Tables, later: Tables, row: Transaction)
    requires row in db.transactions && db.TxOk() && later.TxOk() && Grows(db, later)
    ensures IsTheRow(db, row) && IsTheRow(later, row)
  {
    var k :| 0 <= k < |db.transactions| && db.transactions[k] == row;
    assert later.transactions[k] == row;
  }

  /**
   Admission provenance: a row that was not there at the start was stored by exactly one request, which
   passed every check; within the range of the clock arithmetic its timestamp was within the skew.
   */
  lemma AdmissionProvenance(env: Env, db: Tables, acts: seq<Action>, row: Transaction) returns (i: nat)
    requires db.TxOk()
    requires row in Run(env, Boot(db), acts).db.transactions && row !in db.transactions
    ensures var hs := Run(env, Boot(db), acts).handlers;
            && i < |hs| && hs[i].stored == Some(row) && Admissible(env, hs[i], row) && env.numeric(row.amount)
            && (forall j :: 0 <= j < |hs| && j != i ==> hs[j].stored != Some(row))
            && var skew := if env.maxSkew.Some? && env.maxSkew.value >= 0 then env.maxSkew.value else 300;
            && (skew <= MAX_SAFE_SKEW && row.receivedAt - hs[i].checkedAt < TWO_63 ==>
                  WithinSkew(hs[i].checkedAt, row.receivedAt, skew))
  {
    RunKeeps(env, Boot(db), acts);
    var s := Run(env, Boot(db), acts);
    RowsHaveHandlers(env, db, acts);
    assert HasHandler(s.handlers, row);
    i :| i < |s.handlers| && s.handlers[i].stored == Some(row);
    assert s.handlers[i] in s.handlers;
    if SkewSeconds(env.maxSkew) <= MAX_SAFE_SKEW {
      TimestampCheckIsExact(s.handlers[i].checkedAt, row.receivedAt, SkewSeconds(env.maxSkew));
    }
  }

  /**
   Nothing is acknowledged without authentication: a handler that has answered 200, by either path, was
   sent a matching signature, and a timestamp that was within the skew when it was checked.
   */
  lemma AcknowledgedOnlyWhenAuthentic(env: Env, db: Tables, acts: seq<Action>, i: nat)
    requires db.TxOk()
    requires i < |Run(env, Boot(db), acts).handlers| && Run(env, Boot(db), acts).handlers[i].stage == Answered(200)
    ensures var h := Run(env, Boot(db), acts).handlers[i];
            && h.req.body.Some? && env.decode(h.req.body.value).Some?
            && h.req.signature != "" && h.req.signature == env.hmacHex(env.secret, h.req.body.value)
            && var text := env.decode(h.req.body.value).value.timestamp;
            && text != "" && env.parseRFC3339(text).Some?
            && var ts := env.parseRFC3339(text).value;
            && var skew := if env.maxSkew.Some? && env.maxSkew.value >= 0 then env.maxSkew.value else 300;
            && (skew <= MAX_SAFE_SKEW && ts - h.checkedAt < TWO_63 ==> WithinSkew(h.checkedAt, ts, skew))
  {
    RunKeeps(env, Boot(db), acts);
    var h := Run(env, Boot(db), acts).handlers[i];
    assert HandlerOk(env, Run(env, Boot(db), acts).db, h);
    var ts := env.parseRFC3339(env.decode(h.req.body.value).value.timestamp).value;
    if SkewSeconds(env.maxSkew) <= MAX_SAFE_SKEW {
      TimestampCheckIsExact(h.checkedAt, ts, SkewSeconds(env.maxSkew));
    }
  }

  ghost predicate HasHandler(hs: seq<Handler>, row: Transaction) {
    exists i: nat :: i < |hs| && hs[i].stored == Some(row)
  }

  lemma {:induction false} RowsHaveHandlers(env: Env, db: Tables, acts: seq<Action>)
    requires db.TxOk()
    ensures var s := Run(env, Boot(db), acts);
            forall t :: t in s.db.transactions && t !in db.transactions ==> HasHandler(s.handlers, t)
  {
    if acts != [] {
      var before := acts[..|acts| - 1];
      var a := acts[|acts| - 1];
      RowsHaveHandlers(env, db, before);
      RunKeeps(env, Boot(db), before);
      var s := Run(env, Boot(db), before);
      var s' := Step(env, s, a);
      forall t | t in s'.db.transactions && t !in db.transactions
        ensures HasHandler(s'.handlers, t)
      {
        RowHasHandler(env, s, a, t);
      }
    }
  }

  lemma RowHasHandler(env: Env, s: State, a: Action, t: Transaction)
    requires Inv(env, s) && t in Step(env, s, a).db.transactions
    requires t in s.db.transactions ==> HasHandler(s.handlers, t)
    ensures HasHandler(Step(env, s, a).handlers, t)
  {
    var s' := Step(env, s, a);
    if a.Arrive? {
      var i: nat :| i < |s.handlers| && s.handlers[i].stored == Some(t);
      assert s'.handlers[i].stored == Some(t);
    } else if !a.Handle? {
      OthersInvisible(env, s, a);
    } else if a.h < |s.handlers| {
      assert s.handlers[a.h] in s.handlers;
      RowAfterHandle(env, s, a.h, a.now, a.fault, t);
    }
  }

  /** A new row is the one the handler stored. */
  lemma RowStored(env: Env, db: Tables, h: Handler, now: int, fault: bool, t: Transaction)
    requires h.stage.Admitted? ==> h.merchant.Some?
    requires t in HandlerStep(env, db, h, now, fault).0.transactions && t !in db.transactions
    ensures HandlerStep(env, db, h, now, fault).1.stored == Some(t)
  {
  }

  lemma RowAfterHandle(env: Env, s: State, i: nat, now: int, fault: bool, t: Transaction)
    requires Inv(env, s) && i < |s.handlers|
    requires s.handlers[i].stage.Admitted? ==> s.handlers[i].merchant.Some?
    requires t in HandleStep(env, s, i, now, fault).db.transactions
    requires t in s.db.transactions ==> HasHandler(s.handlers, t)
    ensures HasHandler(HandleStep(env, s, i, now, fault).handlers, t)
  {
    var hs := HandleStep(env, s, i, now, fault).handlers;
    if t in s.db.transactions {
      assert s.handlers[i] in s.handlers;
      HandlerKeeps(env, s.db, s.handlers[i], now, fault);
      var j: nat :| j < |s.handlers| && s.handlers[j].stored == Some(t);
      assert hs[j].stored == Some(t);
    } else {
      RowStored(env, s.db, s.handlers[i], now, fault, t);
      assert hs[i].stored == Some(t);
    }
  }
}
