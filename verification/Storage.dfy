/**
 The tables of internal/storage/migrate.sql and the statements of internal/storage/store.go.

 Each statement is one atomic function on `Tables`; `fault` says that the statement reported an error
 for a reason outside the tables (a lost connection, an amount that is no NUMERIC, an out-of-range column).
 `Store` is the object the handlers share: its methods change its tables in place and are proved
 against those functions.
 */
module Storage {
  import opened Prelude

  const PENDING := "PENDING"
  const SUCCESSFUL := "SUCCESSFUL"
  const FAILED := "FAILED"

  predicate IsTxStatus(text: string) {
    text == PENDING || text == SUCCESSFUL || text == FAILED
  }

  datatype Merchant = Merchant(
    id: int, webhookURL: string, active: bool, maxMonthlyCalls: int, currentMonthCalls: int)

  datatype Transaction = Transaction(
    id: int, merchantID: int, providerTxID: string, externalID: string, amount: string,
    currency: string, status: string, payerMSISDN: string, rawPayload: bytes, receivedAt: int)

  datatype DeliveryStatus = Success | Failed | Retrying

  datatype DeliveryLog = DeliveryLog(
    transactionID: int, merchantID: int, webhookURL: string, attempt: nat, status: DeliveryStatus,
    responseCode: int)

  datatype DLQStatus = DLQPending | DLQRequeued | DLQResolved | DLQFailed

  datatype DeliveryDLQ = DeliveryDLQ(
    id: int, transactionID: int, merchantID: int, webhookURL: string, attemptCount: nat,
    lastResponseCode: int, status: DLQStatus, resolvedAt: Option<int>)
  {
    /** Two versions of one row: everything an UPDATE of the status leaves alone. */
    predicate SameEntry(d: DeliveryDLQ) {
      this.(status := d.status, resolvedAt := d.resolvedAt) == d
    }
  }

  function TxWithID(id: int): Transaction -> bool {
    (t: Transaction) => t.id == id
  }

  function DLQWithID(id: int, merchantID: int): DeliveryDLQ -> bool {
    (d: DeliveryDLQ) => d.id == id && d.merchantID == merchantID
  }

  /** UPDATE delivery_dlq SET status, resolved_at WHERE id. */
  function UpdateDLQ(rows: seq<DeliveryDLQ>, id: int, status: DLQStatus, at: Option<int>)
    : (r: seq<DeliveryDLQ>)
    ensures |r| == |rows|
    ensures forall j :: 0 <= j < |r| ==>
              r[j] == if rows[j].id == id then rows[j].(status := status, resolvedAt := at) else rows[j]
  {
    seq(|rows|, j requires 0 <= j < |rows| =>
      if rows[j].id == id then rows[j].(status := status, resolvedAt := at) else rows[j])
  }

  datatype Tables = Tables(
    merchants: map<int, Merchant>, transactions: seq<Transaction>, logs: seq<DeliveryLog>,
    dlq: seq<DeliveryDLQ>, nextTx: int, nextDLQ: int)
  {
    predicate Exists(providerTxID: string) {
      exists t :: t in transactions && t.providerTxID == providerTxID
    }

    predicate HasTx(id: int) {
      exists t :: t in transactions && t.id == id
    }

    /** tx_status, VARCHAR(3), REFERENCES merchants(id) and UNIQUE (provider_tx_id). */
    predicate Storable(tx: Transaction) {
      && IsTxStatus(tx.status)
      && |tx.currency| <= 3
      && tx.merchantID in merchants
      && !Exists(tx.providerTxID)
    }

    function Insert(tx: Transaction, fault: bool): Result<Tables> {
      if fault || !Storable(tx) then Err
      else Ok(this.(transactions := transactions + [tx.(id := nextTx)], nextTx := nextTx + 1))
    }

    function GetMerchantByID(id: int, fault: bool): Result<Merchant> {
      if fault || id !in merchants || !merchants[id].active then Err else Ok(merchants[id])
    }

    /** An UPDATE that matches no row is not an error. */
    function IncrementMerchantCallCount(id: int, fault: bool): Result<Tables> {
      if fault then Err
      else if id !in merchants then Ok(this)
      else
        var m := merchants[id];
        Ok(this.(merchants := merchants[id := m.(currentMonthCalls := m.currentMonthCalls + 1)]))
    }

    function UpdateMerchantQuota(id: int, maxCalls: int): Tables {
      if id !in merchants then this
      else this.(merchants := merchants[id := merchants[id].(maxMonthlyCalls := maxCalls)])
    }

    function SetMerchantActive(id: int, active: bool): Tables {
      if id !in merchants then this
      else this.(merchants := merchants[id := merchants[id].(active := active)])
    }

    function UpdateMerchantWebhookURL(id: int, url: string): Tables {
      if id !in merchants then this
      else this.(merchants := merchants[id := merchants[id].(webhookURL := url)])
    }

    function InsertDeliveryLog(log: DeliveryLog, fault: bool): Result<Tables> {
      if fault || !HasTx(log.transactionID) || log.merchantID !in merchants then Err
      else Ok(this.(logs := logs + [log]))
    }

    function EnqueueDLQ(d: DeliveryDLQ, fault: bool): Result<Tables> {
      if fault || !HasTx(d.transactionID) || d.merchantID !in merchants then Err
      else Ok(this.(dlq := dlq + [d.(id := nextDLQ)], nextDLQ := nextDLQ + 1))
    }

    function GetDLQ(id: int, merchantID: int, fault: bool): Result<DeliveryDLQ> {
      if fault then Err
      else match Find(dlq, DLQWithID(id, merchantID)) case None => Err case Some(d) => Ok(d)
    }

    function GetTransactionInternal(id: int, fault: bool): Result<Transaction> {
      if fault then Err
      else match Find(transactions, TxWithID(id)) case None => Err case Some(t) => Ok(t)
    }

    function MarkDLQRequeued(id: int, fault: bool): Result<Tables> {
      if fault then Err else Ok(this.(dlq := UpdateDLQ(dlq, id, DLQRequeued, None)))
    }

    function ResolveDLQ(id: int, at: int, fault: bool): Result<Tables> {
      if fault then Err else Ok(this.(dlq := UpdateDLQ(dlq, id, DLQResolved, Some(at))))
    }

    /** What a database that honours its constraints holds: BIGSERIAL ids start at 1. */
    ghost predicate TxOk() {
      && 0 !in merchants && 0 < nextTx
      && (forall m :: m in merchants ==> merchants[m].id == m)
      && (forall t :: t in transactions ==> 0 < t.id < nextTx && t.merchantID in merchants)
      && (forall i, j :: 0 <= i < j < |transactions| ==> transactions[i].id != transactions[j].id)
      && UniqueProviderIDs()
    }

    ghost predicate UniqueProviderIDs() {
      forall i, j :: 0 <= i < j < |transactions| ==>
        transactions[i].providerTxID != transactions[j].providerTxID
    }

    ghost predicate DLQOk() {
      && 0 < nextDLQ
      && (forall d :: d in dlq ==> 0 < d.id < nextDLQ)
      && (forall i, j :: 0 <= i < j < |dlq| ==> dlq[i].id != dlq[j].id)
    }

    /** A dead-letter row points at a successful payment of the merchant that owns the row. */
    ghost predicate Owned(d: DeliveryDLQ) {
      exists t :: t in transactions && t.id == d.transactionID && t.merchantID == d.merchantID && t.status == SUCCESSFUL
    }

    ghost predicate Sound() {
      && TxOk() && DLQOk()
      && forall d :: d in dlq ==> Owned(d) && (d.status == DLQResolved <==> d.resolvedAt.Some?)
    }
  }

  /** GetDLQ finds exactly the row with that id and that owner. */
  lemma GetDLQExactlyWhen(db: Tables, id: int, merchantID: int, d: DeliveryDLQ)
    requires db.DLQOk()
    ensures db.GetDLQ(id, merchantID, false) == Ok(d) <==> d in db.dlq && d.id == id && d.merchantID == merchantID
  {
  }

  /** GetTransactionInternal finds exactly the row with that id, whoever owns it. */
  lemma GetTransactionInternalExactlyWhen(db: Tables, id: int, t: Transaction)
    requires db.TxOk()
    ensures db.GetTransactionInternal(id, false) == Ok(t) <==> t in db.transactions && t.id == id
  {
  }

  /** The shared handle on the database. */
  class Store {
    var merchants: map<int, Merchant>
    var transactions: seq<Transaction>
    var logs: seq<DeliveryLog>
    var dlq: seq<DeliveryDLQ>
    var nextTx: int
    var nextDLQ: int

    function View(): Tables
      reads this
    {
      Tables(merchants, transactions, logs, dlq, nextTx, nextDLQ)
    }

    constructor (db: Tables)
      ensures View() == db
    {
      merchants, transactions, logs, dlq := db.merchants, db.transactions, db.logs, db.dlq;
      nextTx, nextDLQ := db.nextTx, db.nextDLQ;
    }

    method Exists(providerTxID: string, fault: bool) returns (r: Result<bool>)
      ensures r == if fault then Err else Ok(View().Exists(providerTxID))
    {
      if fault {
        return Err;
      }
      r := Ok(exists t :: t in transactions && t.providerTxID == providerTxID);
    }

    method Insert(tx: Transaction, fault: bool) returns (failed: bool)
      modifies this
      ensures var r := old(View()).Insert(tx, fault);
              failed == r.Err? && View() == if failed then old(View()) else r.value
      ensures failed <==>
                || fault || tx.status !in {"PENDING", "SUCCESSFUL", "FAILED"} || |tx.currency| > 3
                || tx.merchantID !in old(merchants)
                || exists t :: t in old(transactions) && t.providerTxID == tx.providerTxID
      ensures !failed ==> transactions == old(transactions) + [tx.(id := old(nextTx))] && nextTx == old(nextTx) + 1
    {
      failed := fault || !View().Storable(tx);
      if !failed {
        transactions := transactions + [tx.(id := nextTx)];
        nextTx := nextTx + 1;
      }
    }

    method GetMerchantByID(id: int, fault: bool) returns (r: Result<Merchant>)
      ensures r == View().GetMerchantByID(id, fault)
      ensures r.Ok? <==> !fault && id in merchants && merchants[id].active
      ensures r.Ok? ==> r.value == merchants[id]
    {
      if fault || id !in merchants || !merchants[id].active {
        return Err;
      }
      r := Ok(merchants[id]);
    }

    method IncrementMerchantCallCount(id: int, fault: bool) returns (failed: bool)
      modifies this
      ensures var r := old(View()).IncrementMerchantCallCount(id, fault);
              failed == r.Err? && View() == if failed then old(View()) else r.value
      ensures failed == fault && merchants.Keys == old(merchants.Keys)
      ensures !failed && id in merchants ==>
                merchants[id].currentMonthCalls == old(merchants[id].currentMonthCalls) + 1
    {
      failed := fault;
      if !failed && id in merchants {
        var m := merchants[id];
        merchants := merchants[id := m.(currentMonthCalls := m.currentMonthCalls + 1)];
      }
    }

    method UpdateMerchantQuota(id: int, maxCalls: int)
      modifies this
      ensures View() == old(View()).UpdateMerchantQuota(id, maxCalls)
      ensures id in old(merchants) ==>
                merchants == old(merchants)[id := old(merchants)[id].(maxMonthlyCalls := maxCalls)]
    {
      if id in merchants {
        merchants := merchants[id := merchants[id].(maxMonthlyCalls := maxCalls)];
      }
    }

    method SetMerchantActive(id: int, active: bool)
      modifies this
      ensures View() == old(View()).SetMerchantActive(id, active)
      ensures id in old(merchants) ==>
                merchants == old(merchants)[id := old(merchants)[id].(active := active)]
    {
      if id in merchants {
        merchants := merchants[id := merchants[id].(active := active)];
      }
    }

    method UpdateMerchantWebhookURL(id: int, url: string)
      modifies this
      ensures View() == old(View()).UpdateMerchantWebhookURL(id, url)
      ensures id in old(merchants) ==>
                merchants == old(merchants)[id := old(merchants)[id].(webhookURL := url)]
    {
      if id in merchants {
        merchants := merchants[id := merchants[id].(webhookURL := url)];
      }
    }

    method InsertDeliveryLog(log: DeliveryLog, fault: bool) returns (failed: bool)
      modifies this
      ensures var r := old(View()).InsertDeliveryLog(log, fault);
              failed == r.Err? && View() == if failed then old(View()) else r.value
      ensures !failed <==>
                && !fault && log.merchantID in merchants
                && exists t :: t in transactions && t.id == log.transactionID
      ensures !failed ==> logs == old(logs) + [log]
    {
      failed := fault || !View().HasTx(log.transactionID) || log.merchantID !in merchants;
      if !failed {
        logs := logs + [log];
      }
    }

    method EnqueueDLQ(d: DeliveryDLQ, fault: bool) returns (failed: bool)
      modifies this
      ensures var r := old(View()).EnqueueDLQ(d, fault);
              failed == r.Err? && View() == if failed then old(View()) else r.value
      ensures !failed <==>
                && !fault && d.merchantID in merchants
                && exists t :: t in transactions && t.id == d.transactionID
      ensures !failed ==> dlq == old(dlq) + [d.(id := old(nextDLQ))] && nextDLQ == old(nextDLQ) + 1
    {
      failed := fault || !View().HasTx(d.transactionID) || d.merchantID !in merchants;
      if !failed {
        dlq := dlq + [d.(id := nextDLQ)];
        nextDLQ := nextDLQ + 1;
      }
    }

    method GetDLQ(id: int, merchantID: int, fault: bool) returns (r: Result<DeliveryDLQ>)
      ensures r == View().GetDLQ(id, merchantID, fault)
      ensures r.Ok? ==> r.value in dlq && r.value.id == id && r.value.merchantID == merchantID
      ensures r.Err? && !fault ==> forall d :: d in dlq && d.id == id ==> d.merchantID != merchantID
    {
      r := View().GetDLQ(id, merchantID, fault);
    }

    method GetTransactionInternal(id: int, fault: bool) returns (r: Result<Transaction>)
      ensures r == View().GetTransactionInternal(id, fault)
      ensures r.Ok? ==> r.value in transactions && r.value.id == id
      ensures r.Err? && !fault ==> forall t :: t in transactions ==> t.id != id
    {
      r := View().GetTransactionInternal(id, fault);
    }

    method MarkDLQRequeued(id: int, fault: bool) returns (failed: bool)
      modifies this
      ensures var r := old(View()).MarkDLQRequeued(id, fault);
              failed == r.Err? && View() == if failed then old(View()) else r.value
      ensures failed == fault && |dlq| == |old(dlq)|
      ensures !failed ==>
                forall j :: 0 <= j < |dlq| ==>
                  var was := old(dlq)[j];
                  dlq[j] == if was.id == id then was.(status := DLQRequeued, resolvedAt := None) else was
    {
      failed := fault;
      if !failed {
        dlq := UpdateDLQ(dlq, id, DLQRequeued, None);
      }
    }

    method ResolveDLQ(id: int, at: int, fault: bool) returns (failed: bool)
      modifies this
      ensures var r := old(View()).ResolveDLQ(id, at, fault);
              failed == r.Err? && View() == if failed then old(View()) else r.value
      ensures failed == fault && |dlq| == |old(dlq)|
      ensures !failed ==>
                forall j :: 0 <= j < |dlq| ==>
                  var was := old(dlq)[j];
                  dlq[j] == if was.id == id then was.(status := DLQResolved, resolvedAt := Some(at)) else was
    {
      failed := fault;
      if !failed {
        dlq := UpdateDLQ(dlq, id, DLQResolved, Some(at));
      }
    }
  }
}
