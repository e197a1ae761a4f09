/**
 HandleMoMoWebhook and the middleware before it as they are written, run by one goroutine on the shared
 store. They are proved to do what the handler of the transition system does when nothing interleaves.
 */
module Webhook {
  import opened Prelude
  import opened Storage
  import opened Auth
  import opened Engine

  /** Some(code) aborts the request; otherwise the merchant goes into the context. */
  method TierEnforcement(store: Store, req: Request, fault: bool)
    returns (abort: Option<nat>, merchant: Option<Merchant>)
    ensures var h := EnforceTier(store.View(), NewHandler(req), fault);
            match abort
            case Some(code) => merchant.None? && h == NewHandler(req).(stage := Answered(code))
            case None => merchant.Some? && h == AdmittedHandler(req, merchant.value)
    ensures abort == Some(400) <==> req.merchantID.None?
    ensures req.merchantID.Some? ==>
              var id := req.merchantID.value;
              var found := !fault && id in store.merchants && store.merchants[id].active;
              && (abort == Some(404) <==> !found)
              && (abort == Some(429) <==>
                    found && store.merchants[id].currentMonthCalls >= store.merchants[id].maxMonthlyCalls)
              && (abort == None <==>
                    found && store.merchants[id].currentMonthCalls < store.merchants[id].maxMonthlyCalls)
              && (abort == None ==> merchant == Some(store.merchants[id]))
  {
    if req.merchantID.None? {
      return Some(400), None;
    }
    var found := store.GetMerchantByID(req.merchantID.value, fault);
    if found.Err? {
      return Some(404), None;
    }
    var m := found.value;
    if m.currentMonthCalls >= m.maxMonthlyCalls {
      return Some(429), None;
    }
    return None, Some(m);
  }

  /** Which answer the checks give, in the order in which they are made, and what they pass on. */
  lemma CheckRequestExactly(env: Env, db: Tables, req: Request, m: Merchant, now: int, fault: bool)
    ensures var stage := CheckRequest(env, db, req, m, now, fault);
            var readable := req.body.Some? && env.decode(req.body.value).Some?;
            && (stage == Answered(400) <==> !readable)
            && (readable ==>
                  var body := req.body.value;
                  var p := env.decode(body).value;
                  var genuine :=
                    && TimestampOk(env, p.timestamp, now)
                    && req.signature != "" && req.signature == env.hmacHex(env.secret, body);
                  var seen := env.heedReplay && exists t :: t in db.transactions && t.providerTxID == p.transactionID;
                  var checked := genuine && p.transactionID != "" && !fault;
                  && (stage == Answered(401) <==> !genuine)
                  && (stage == Answered(500) <==> genuine && (p.transactionID == "" || fault))
                  && (stage == Answered(200) <==> checked && seen)
                  && (stage == Answered(422) <==> checked && !seen && (p.externalID == "" || p.amount == ""))
                  && (stage.Parsed? <==> checked && !seen && p.externalID != "" && p.amount != "")
                  && (stage.Parsed? ==>
                        stage.tx.id == 0 && stage.tx.merchantID == m.id && Carries(env, p, body, stage.tx)))
  {
  }

  /** Read, decode, verify and parse: steps 1 to 4 of the handler, up to the transaction to be stored. */
  method ReadPayment(env: Env, store: Store, req: Request, merchant: Merchant, now: int, existsFault: bool)
    returns (stage: Stage)
    ensures stage == CheckRequest(env, store.View(), req, merchant, now, existsFault)
    ensures stage.Answered? || (stage.Parsed? && stage.tx.id == 0)
  {
    if req.body.None? {
      return Answered(400);
    }
    var raw := env.decode(req.body.value);
    if raw.None? {
      return Answered(400);
    }
    var fresh' := CheckTimestamp(env, raw.value.timestamp, now);
    if !fresh' {
      return Answered(401);
    }
    var e := Verify(env, store, req.body.value, req.signature, raw.value.transactionID, existsFault);
    match e {
      case MissingSignature => return Answered(401);
      case InvalidSignature => return Answered(401);
      case Replay => return Answered(200);
      case MissingProviderTxID => return Answered(500);
      case ReplayFailure => return Answered(500);
      case Pass =>
    }
    var parsed := FromWebhook(env, raw.value, req.body.value);
    if parsed.Err? {
      return Answered(422);
    }
    return Parsed(parsed.value.(merchantID := merchant.id));
  }

  /** Why an INSERT fails. */
  ghost predicate Unstorable(env: Env, db: Tables, tx: Transaction, fault: bool) {
    || fault || !env.numeric(tx.amount) || tx.status !in {"PENDING", "SUCCESSFUL", "FAILED"} || |tx.currency| > 3
    || tx.merchantID !in db.merchants || exists t :: t in db.transactions && t.providerTxID == tx.providerTxID
  }

  /** `notify` is what the spawned NotifyMerchant is given. */
  method HandleMoMoWebhook(
    env: Env, store: Store, req: Request, merchant: Merchant, now: int,
    existsFault: bool, insertFault: bool, countFault: bool)
    returns (code: nat, notify: Option<Transaction>)
    modifies store
    ensures var (db, h) := Uninterrupted(env, old(store.View()), AdmittedHandler(req, merchant), now,
                                         [existsFault, insertFault, countFault, false]);
            && store.View() == db && h.stage == Answered(code)
            && (notify.Some? <==> h.stored.Some?)
            && (notify.Some? ==> code == 200 && notify.value == h.stored.value.(id := 0))
    ensures notify.None? ==>
              && store.View() == old(store.View())
              && var stage := CheckRequest(env, store.View(), req, merchant, now, existsFault);
              && code == (if stage.Answered? then stage.code else 500)
              && (stage.Parsed? ==> Unstorable(env, store.View(), stage.tx, insertFault))
    ensures notify.None? && code == 200 ==>
              && req.body.Some? && env.decode(req.body.value).Some?
              && exists t :: t in store.transactions
                          && t.providerTxID == env.decode(req.body.value).value.transactionID
    ensures notify.Some? ==>
              && req.body.Some? && env.decode(req.body.value).Some?
              && Carries(env, env.decode(req.body.value).value, req.body.value, notify.value)
              && notify.value.merchantID == merchant.id
              && !Unstorable(env, old(store.View()), notify.value, insertFault)
              && store.transactions == old(store.transactions) + [notify.value.(id := old(store.nextTx))]
              && (countFault ==> store.merchants == old(store.merchants))
              && (!countFault && merchant.id in old(store.merchants) ==>
                    var m := old(store.merchants)[merchant.id];
                    store.merchants == old(store.merchants)[
                      merchant.id := m.(currentMonthCalls := m.currentMonthCalls + 1)])
  {
    FourSteps(env, store.View(), AdmittedHandler(req, merchant), now, existsFault, insertFault, countFault, false);
    var stage := ReadPayment(env, store, req, merchant, now, existsFault);
    CheckRequestExactly(env, store.View(), req, merchant, now, existsFault);
    if stage.Answered? {
      return stage.code, None;
    }
    var transaction := stage.tx;
    var failed := store.Insert(transaction, insertFault || !env.numeric(transaction.amount));
    if failed {
      return 500, None;
    }
    var _ := store.IncrementMerchantCallCount(merchant.id, countFault);
    return 200, Some(transaction);
  }
}
