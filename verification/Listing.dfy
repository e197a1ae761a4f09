/**
 Listing transactions and dead letters page by page, and looking one transaction up
 (internal/webhook/handler.go, internal/webhook/dlq_admin.go, internal/storage/store.go). Rows are kept
 in the order of created_at, which is assumed to be total, so a listing reads them from the last.
 */
module Listing {
  import opened Prelude
  import opened Storage

  /** WHERE p ORDER BY created_at DESC. */
  function Newest<T>(rows: seq<T>, p: T -> bool): seq<T> {
    if rows == [] then []
    else
      var last := rows[|rows| - 1];
      (if p(last) then [last] else []) + Newest(rows[..|rows| - 1], p)
  }

  /** `x` is a row that satisfies `p`, and exactly `k` such rows are newer. */
  ghost predicate NthNewest<T(!new)>(rows: seq<T>, p: T -> bool, k: nat, x: T) {
    exists i :: 0 <= i < |rows| && rows[i] == x && p(x) && Count(rows[i + 1..], p) == k
  }

  function Least(a: int, b: int): int {
    if a < b then a else b
  }

  /** LIMIT and OFFSET, which the database refuses when negative. */
  function Slice<T>(rows: seq<T>, limit: int, offset: int): Result<seq<T>> {
    if limit < 0 || offset < 0 then Err
    else if offset >= |rows| then Ok([])
    else Ok(rows[offset..Least(offset + limit, |rows|)])
  }

  function Wanted(merchantID: int, status: string): Transaction -> bool {
    (t: Transaction) => t.merchantID == merchantID && (status == "" || t.status == status)
  }

  function OwnedBy(merchantID: int): DeliveryDLQ -> bool {
    (d: DeliveryDLQ) => d.merchantID == merchantID
  }

  /** (page - 1) * limit, in int64. */
  function PageOffset(page: int, limit: int): int {
    Wrap64(Wrap64(page - 1) * limit)
  }

  function PageServed<T>(rows: seq<T>, page: int, limit: int): Result<seq<T>> {
    Slice(rows, limit, PageOffset(page, limit))
  }

  /** The columns a listing selects. */
  function Selected(t: Transaction): Transaction {
    t.(payerMSISDN := "", rawPayload := [])
  }

  /** Row `i` is one of the merchant's, of that status if one is given, with exactly `k` newer ones like it. */
  ghost predicate OwnTransaction(rows: seq<Transaction>, merchantID: int, status: string, k: nat, i: int) {
    && 0 <= i < |rows| && rows[i].merchantID == merchantID && (status == "" || rows[i].status == status)
    && CountOwn(rows[i + 1..], merchantID, status) == k
  }

  /** `x` is the merchant's row with `k` newer ones like it. */
  ghost predicate Ranked(rows: seq<Transaction>, merchantID: int, status: string, k: nat, x: Transaction) {
    exists i :: OwnTransaction(rows, merchantID, status, k, i) && rows[i] == x
  }

  /** `x` is what the listing query selects of that row. */
  ghost predicate Listed(rows: seq<Transaction>, merchantID: int, status: string, k: nat, x: Transaction) {
    exists i ::
      && OwnTransaction(rows, merchantID, status, k, i)
      && x == rows[i].(payerMSISDN := "", rawPayload := [])
  }

  /** `x` is what the handler shows of that row. */
  ghost predicate ListedAs(rows: seq<Transaction>, merchantID: int, status: string, k: nat, x: Shown) {
    exists i :: OwnTransaction(rows, merchantID, status, k, i) && Shows(x, rows[i])
  }

  /** The merchant's transactions, of that status if one is given. */
  function CountOwn(rows: seq<Transaction>, merchantID: int, status: string): nat {
    if rows == [] then 0
    else
      var t := rows[|rows| - 1];
      CountOwn(rows[..|rows| - 1], merchantID, status)
      + if t.merchantID == merchantID && (status == "" || t.status == status) then 1 else 0
  }

  lemma {:induction false} CountWanted(rows: seq<Transaction>, merchantID: int, status: string)
    ensures Count(rows, Wanted(merchantID, status)) == CountOwn(rows, merchantID, status)
  {
    if rows != [] {
      CountWanted(rows[..|rows| - 1], merchantID, status);
    }
  }

  lemma NthWanted(rows: seq<Transaction>, merchantID: int, status: string, k: nat, x: Transaction)
    requires NthNewest(rows, Wanted(merchantID, status), k, x)
    ensures Ranked(rows, merchantID, status, k, x)
  {
    var p := Wanted(merchantID, status);
    var i :| 0 <= i < |rows| && rows[i] == x && p(x) && Count(rows[i + 1..], p) == k;
    CountWanted(rows[i + 1..], merchantID, status);
    assert OwnTransaction(rows, merchantID, status, k, i);
  }

  /** Row `i` is one of the merchant's dead letters, with exactly `k` newer ones. */
  ghost predicate OwnDeadLetter(rows: seq<DeliveryDLQ>, merchantID: int, k: nat, i: int) {
    0 <= i < |rows| && rows[i].merchantID == merchantID && CountOwnDLQ(rows[i + 1..], merchantID) == k
  }

  /** `d` is the merchant's dead letter with `k` newer ones. */
  ghost predicate RankedDLQ(rows: seq<DeliveryDLQ>, merchantID: int, k: nat, d: DeliveryDLQ) {
    exists i :: OwnDeadLetter(rows, merchantID, k, i) && rows[i] == d
  }

  function CountOwnDLQ(rows: seq<DeliveryDLQ>, merchantID: int): nat {
    if rows == [] then 0
    else CountOwnDLQ(rows[..|rows| - 1], merchantID) + if rows[|rows| - 1].merchantID == merchantID then 1 else 0
  }

  lemma {:induction false} CountOwned(rows: seq<DeliveryDLQ>, merchantID: int)
    ensures Count(rows, OwnedBy(merchantID)) == CountOwnDLQ(rows, merchantID)
  {
    if rows != [] {
      CountOwned(rows[..|rows| - 1], merchantID);
    }
  }

  lemma NthOwned(rows: seq<DeliveryDLQ>, merchantID: int, k: nat, x: DeliveryDLQ)
    requires NthNewest(rows, OwnedBy(merchantID), k, x)
    ensures RankedDLQ(rows, merchantID, k, x)
  {
    var p := OwnedBy(merchantID);
    var i :| 0 <= i < |rows| && rows[i] == x && p(x) && Count(rows[i + 1..], p) == k;
    CountOwned(rows[i + 1..], merchantID);
    assert OwnDeadLetter(rows, merchantID, k, i);
  }

  /** The rows a query yields are the merchant's, ranked from `offset`. */
  lemma SliceOfWanted(rows: seq<Transaction>, merchantID: int, status: string, limit: nat, offset: nat)
    ensures var page := Slice(Newest(rows, Wanted(merchantID, status)), limit, offset);
            && page.Ok? && |page.value| == Max(0, Least(limit, CountOwn(rows, merchantID, status) - offset))
            && forall k :: 0 <= k < |page.value| ==>
                 Ranked(rows, merchantID, status, offset + k, page.value[k])
  {
    PageIsRanked(rows, Wanted(merchantID, status), limit, offset);
    CountWanted(rows, merchantID, status);
    var page := Slice(Newest(rows, Wanted(merchantID, status)), limit, offset).value;
    forall k | 0 <= k < |page|
      ensures Ranked(rows, merchantID, status, offset + k, page[k])
    {
      NthWanted(rows, merchantID, status, offset + k, page[k]);
    }
  }

  lemma SliceOfOwned(rows: seq<DeliveryDLQ>, merchantID: int, limit: nat, offset: nat)
    ensures var page := Slice(Newest(rows, OwnedBy(merchantID)), limit, offset);
            && page.Ok? && |page.value| == Max(0, Least(limit, CountOwnDLQ(rows, merchantID) - offset))
            && forall k :: 0 <= k < |page.value| ==>
                 RankedDLQ(rows, merchantID, offset + k, page.value[k])
  {
    PageIsRanked(rows, OwnedBy(merchantID), limit, offset);
    CountOwned(rows, merchantID);
    var page := Slice(Newest(rows, OwnedBy(merchantID)), limit, offset).value;
    forall k | 0 <= k < |page|
      ensures RankedDLQ(rows, merchantID, offset + k, page[k])
    {
      NthOwned(rows, merchantID, offset + k, page[k]);
    }
  }

  /**
   Store.ListTransactions: row `k` of the answer is the merchant's row with `offset + k` newer ones, without
   the columns it does not select. A status outside tx_status makes the query fail.
   */
  method QueryTransactions(store: Store, merchantID: int, status: string, limit: int, offset: int)
    returns (r: Result<seq<Transaction>>)
    ensures var rows := Slice(Newest(store.transactions, Wanted(merchantID, status)), limit, offset);
            if rows.Err? || (status != "" && !IsTxStatus(status)) then r.Err?
            else
              && r.Ok? && |r.value| == |rows.value|
              && forall i :: 0 <= i < |r.value| ==> r.value[i] == Selected(rows.value[i])
    ensures r.Err? <==>
              limit < 0 || offset < 0 || (status != "" && status !in {"PENDING", "SUCCESSFUL", "FAILED"})
    ensures r.Ok? ==>
              && |r.value| == Max(0, Least(limit, CountOwn(store.transactions, merchantID, status) - offset))
              && forall k :: 0 <= k < |r.value| ==>
                   Listed(store.transactions, merchantID, status, offset + k, r.value[k])
  {
    var rows := Slice(Newest(store.transactions, Wanted(merchantID, status)), limit, offset);
    if rows.Err? || (status != "" && !IsTxStatus(status)) {
      return Err;
    }
    var transactions: seq<Transaction> := [];
    for i := 0 to |rows.value|
      invariant |transactions| == i
      invariant forall j :: 0 <= j < i ==> transactions[j] == Selected(rows.value[j])
    {
      transactions := transactions + [Selected(rows.value[i])];
    }
    SliceOfWanted(store.transactions, merchantID, status, limit, offset);
    forall k | 0 <= k < |transactions|
      ensures Listed(store.transactions, merchantID, status, offset + k, transactions[k])
    {
      assert Ranked(store.transactions, merchantID, status, offset + k, rows.value[k]);
    }
    return Ok(transactions);
  }

  /** Store.ListDLQ: row `k` of the answer is the owner's row with `offset + k` newer ones. */
  method QueryDLQ(store: Store, merchantID: int, limit: int, offset: int) returns (r: Result<seq<DeliveryDLQ>>)
    ensures r.Err? <==> limit < 0 || offset < 0
    ensures r.Ok? ==>
              && |r.value| == Max(0, Least(limit, CountOwnDLQ(store.dlq, merchantID) - offset))
              && forall k :: 0 <= k < |r.value| ==>
                   RankedDLQ(store.dlq, merchantID, offset + k, r.value[k])
    ensures r == Slice(Newest(store.dlq, OwnedBy(merchantID)), limit, offset)
  {
    var rows := Slice(Newest(store.dlq, OwnedBy(merchantID)), limit, offset);
    if rows.Err? {
      return Err;
    }
    var out: seq<DeliveryDLQ> := [];
    for i := 0 to |rows.value|
      invariant out == rows.value[..i]
    {
      out := out + [rows.value[i]];
    }
    assert out == rows.value;
    SliceOfOwned(store.dlq, merchantID, limit, offset);
    return Ok(out);
  }

  /** What a listing shows of a transaction. */
  datatype Shown = Shown(
    paid: bool, status: string, providerTxID: string, externalID: string, amount: string, currency: string,
    receivedAt: int)

  function Normalize(tx: Transaction): Shown {
    Shown(tx.status == SUCCESSFUL, tx.status, tx.providerTxID, tx.externalID, tx.amount, tx.currency, tx.receivedAt)
  }

  /** The fields shown of a stored transaction; it is paid exactly if it was successful. */
  ghost predicate Shows(x: Shown, t: Transaction) {
    && x.paid == (t.status == "SUCCESSFUL") && x.status == t.status
    && x.providerTxID == t.providerTxID && x.externalID == t.externalID
    && x.amount == t.amount && x.currency == t.currency && x.receivedAt == t.receivedAt
  }

  lemma NormalizedIsListed(
    rows: seq<Transaction>, merchantID: int, status: string, offset: nat, txs: seq<Transaction>, results: seq<Shown>)
    requires |results| == |txs| && forall k :: 0 <= k < |txs| ==> results[k] == Normalize(txs[k])
    requires forall k :: 0 <= k < |txs| ==> Listed(rows, merchantID, status, offset + k, txs[k])
    ensures forall k :: 0 <= k < |results| ==> ListedAs(rows, merchantID, status, offset + k, results[k])
  {
    forall k | 0 <= k < |results|
      ensures ListedAs(rows, merchantID, status, offset + k, results[k])
    {
      assert Listed(rows, merchantID, status, offset + k, txs[k]);
    }
  }

  /** The page from `offset`, as the handler shows it. */
  method ShowTransactions(store: Store, merchantID: int, status: string, limit: int, offset: int)
    returns (code: nat, results: seq<Shown>)
    ensures if limit < 0 || offset < 0 || (status != "" && status !in {"PENDING", "SUCCESSFUL", "FAILED"}) then
              code == 500 && results == []
            else
              && code == 200
              && |results| == Max(0, Least(limit, CountOwn(store.transactions, merchantID, status) - offset))
              && forall k :: 0 <= k < |results| ==>
                   ListedAs(store.transactions, merchantID, status, offset + k, results[k])
  {
    var transactions := QueryTransactions(store, merchantID, status, limit, offset);
    if transactions.Err? {
      return 500, [];
    }
    results := [];
    for i := 0 to |transactions.value|
      invariant |results| == i
      invariant forall j :: 0 <= j < i ==> results[j] == Normalize(transactions.value[j])
    {
      results := results + [Normalize(transactions.value[i])];
    }
    NormalizedIsListed(store.transactions, merchantID, status, offset, transactions.value, results);
    code := 200;
  }

  /** Handler.ListTransactions: a parameter that does not parse keeps its default, and none is range-checked. */
  method ListTransactions(store: Store, merchantID: int, status: string, pageText: Option<int>, limitText: Option<int>)
    returns (code: nat, results: seq<Shown>)
    ensures var limit := if limitText.Some? then limitText.value else 20;
            var offset := PageOffset(if pageText.Some? then pageText.value else 1, limit);
            if limit < 0 || offset < 0 || (status != "" && status !in {"PENDING", "SUCCESSFUL", "FAILED"}) then
              code == 500 && results == []
            else
              && code == 200
              && |results| == Max(0, Least(limit, CountOwn(store.transactions, merchantID, status) - offset))
              && forall k :: 0 <= k < |results| ==>
                   ListedAs(store.transactions, merchantID, status, offset + k, results[k])
  {
    var page, limit := 1, 20;
    if pageText.Some? {
      page := pageText.value;
    }
    if limitText.Some? {
      limit := limitText.value;
    }
    code, results := ShowTransactions(store, merchantID, status, limit, PageOffset(page, limit));
  }

  /** Handler.ListDLQ: a parameter that is not positive keeps its default. */
  method ListDLQ(store: Store, merchantID: int, pageText: Option<int>, limitText: Option<int>)
    returns (code: nat, items: seq<DeliveryDLQ>)
    ensures var page := if pageText.Some? && pageText.value > 0 then pageText.value else 1;
            var limit := if limitText.Some? && limitText.value > 0 then limitText.value else 20;
            var offset := PageOffset(page, limit);
            if offset < 0 then code == 500 && items == []
            else
              && code == 200
              && |items| == Max(0, Least(limit, CountOwnDLQ(store.dlq, merchantID) - offset))
              && forall k :: 0 <= k < |items| ==>
                   RankedDLQ(store.dlq, merchantID, offset + k, items[k])
  {
    var page, limit := 1, 20;
    if pageText.Some? && pageText.value > 0 {
      page := pageText.value;
    }
    if limitText.Some? && limitText.value > 0 {
      limit := limitText.value;
    }
    var rows := QueryDLQ(store, merchantID, limit, PageOffset(page, limit));
    if rows.Err? {
      return 500, [];
    }
    return 200, rows.value;
  }

  // ---------------------------------------------------------------- pages

  /** Pages 1 to `n`, one after the other. */
  function Pages<T>(rows: seq<T>, limit: int, n: nat): seq<T> {
    if n == 0 then []
    else
      Pages(rows, limit, n - 1)
      + match PageServed(rows, n, limit) case Err => [] case Ok(page) => page
  }

  function PageCount(rows: nat, limit: int): nat
    requires limit > 0
  {
    (rows + limit - 1) / limit
  }

  lemma OffsetFits(page: int, limit: int)
    requires 1 <= page && 0 < limit && (page - 1) * limit < TWO_63
    ensures PageOffset(page, limit) == (page - 1) * limit && page - 1 <= (page - 1) * limit
  {
    PageTimes(page - 1, limit);
  }

  lemma {:induction false} PagesAreAPrefix<T>(rows: seq<T>, limit: int, n: nat, before: int)
    requires limit > 0 && |rows| < TWO_63
    requires before == (n - 1) * limit && (n > 0 ==> before < |rows|)
    ensures Pages(rows, limit, n) == rows[..Least(before + limit, |rows|)]
    ensures n > 0 ==> PageServed(rows, n, limit).Ok?
  {
    if n > 0 {
      OffsetFits(n, limit);
      assert (n - 1 - 1) * limit == before - limit;
      PagesAreAPrefix(rows, limit, n - 1, before - limit);
      assert PageServed(rows, n, limit) == Slice(rows, limit, before);
      assert rows[..before] + rows[before..Least(before + limit, |rows|)] == rows[..Least(before + limit, |rows|)];
    } else {
      assert before + limit == 0;
    }
  }

  lemma PageTimes(n: nat, limit: int)
    requires limit > 0
    ensures n <= n * limit
  {
  }

  /**
   Paging partition: for every positive limit, the pages 1 to the last one put together are exactly the
   merchant's filtered list, no row lost or repeated, and none is refused.
   */
  lemma PagingPartition<T>(rows: seq<T>, limit: int)
    requires limit > 0 && |rows| < TWO_63
    ensures Pages(rows, limit, PageCount(|rows|, limit)) == rows
    ensures forall n: nat :: 1 <= n <= PageCount(|rows|, limit) ==> PageServed(rows, n, limit).Ok?
  {
    var count := PageCount(|rows|, limit);
    LastPage(|rows|, limit);
    PagesAreAPrefix(rows, limit, count, (count - 1) * limit);
    forall n: nat | 1 <= n <= count
      ensures PageServed(rows, n, limit).Ok?
    {
      EarlierPage(n, count, limit);
      PagesAreAPrefix(rows, limit, n, (n - 1) * limit);
    }
  }

  /** For one merchant: what its pages show together is each of its transactions as often as it is stored. */
  lemma MerchantPaging(rows: seq<Transaction>, merchantID: int, limit: int, t: Transaction)
    requires limit > 0 && |rows| < TWO_63
    ensures var list := Newest(rows, Wanted(merchantID, ""));
            && |list| == CountOwn(rows, merchantID, "") && Pages(list, limit, PageCount(|list|, limit)) == list
            && multiset(list)[t] == if t.merchantID == merchantID then multiset(rows)[t] else 0
  {
    var list := Newest(rows, Wanted(merchantID, ""));
    NewestIsExact(rows, Wanted(merchantID, ""));
    CountWanted(rows, merchantID, "");
    CountWithin(rows, Wanted(merchantID, ""));
    PagingPartition(list, limit);
  }

  lemma CountWithin<T>(rows: seq<T>, p: T -> bool)
    ensures Count(rows, p) <= |rows|
  {
  }

  lemma EarlierPage(n: int, count: int, limit: int)
    requires n <= count && limit > 0
    ensures (n - 1) * limit <= (count - 1) * limit
  {
  }

  lemma LastPage(rows: nat, limit: int)
    requires limit > 0
    ensures var count := PageCount(rows, limit);
            rows <= (count - 1) * limit + limit && (count > 0 ==> (count - 1) * limit < rows)
  {
    var count := PageCount(rows, limit);
    assert rows + limit - 1 == count * limit + (rows + limit - 1) % limit;
    assert (count - 1) * limit == count * limit - limit;
  }

  lemma OneNewer<T(!new)>(rows: seq<T>, last: T, p: T -> bool, k: nat, x: T)
    requires NthNewest(rows, p, k, x)
    ensures NthNewest(rows + [last], p, k + Bit(p(last)), x)
  {
    var i :| 0 <= i < |rows| && rows[i] == x && p(x) && Count(rows[i + 1..], p) == k;
    assert (rows + [last])[i + 1..] == rows[i + 1..] + [last];
    CountAppend(rows[i + 1..], last, p);
    assert (rows + [last])[i] == x;
  }

  /** Newest first: item `k` of the filtered list has `k` newer ones. */
  lemma {:induction false} NewestInOrder<T(!new)>(rows: seq<T>, p: T -> bool, k: nat)
    requires k < |Newest(rows, p)|
    ensures NthNewest(rows, p, k, Newest(rows, p)[k])
    decreases rows
  {
    var n := |rows| - 1;
    var older, last := rows[..n], rows[n];
    if k == 0 && p(last) {
      assert rows[n + 1..] == [];
    } else {
      var j := k - Bit(p(last));
      assert Newest(rows, p)[k] == Newest(older, p)[j];
      NewestInOrder(older, p, j);
      OneNewer(older, last, p, j, Newest(older, p)[j]);
      assert older + [last] == rows;
    }
  }

  lemma {:induction false} NewestKeepsEach<T>(rows: seq<T>, p: T -> bool, x: T)
    ensures multiset(Newest(rows, p))[x] == if p(x) then multiset(rows)[x] else 0
  {
    if rows != [] {
      var n := |rows| - 1;
      NewestKeepsEach(rows[..n], p, x);
      assert rows == rows[..n] + [rows[n]];
    }
  }

  lemma {:induction false} NewestHasAll<T>(rows: seq<T>, p: T -> bool)
    ensures |Newest(rows, p)| == Count(rows, p)
  {
    if rows != [] {
      NewestHasAll(rows[..|rows| - 1], p);
    }
  }

  /** The filter keeps every matching row as often as it is stored, and nothing else, newest first. */
  lemma NewestIsExact<T(!new)>(rows: seq<T>, p: T -> bool)
    ensures |Newest(rows, p)| == Count(rows, p)
    ensures forall x :: multiset(Newest(rows, p))[x] == if p(x) then multiset(rows)[x] else 0
    ensures forall k :: 0 <= k < |Newest(rows, p)| ==> NthNewest(rows, p, k, Newest(rows, p)[k])
  {
    NewestHasAll(rows, p);
    forall x
      ensures multiset(Newest(rows, p))[x] == if p(x) then multiset(rows)[x] else 0
    {
      NewestKeepsEach(rows, p, x);
    }
    forall k | 0 <= k < |Newest(rows, p)|
      ensures NthNewest(rows, p, k, Newest(rows, p)[k])
    {
      NewestInOrder(rows, p, k);
    }
  }

  /**
   The database is sent the offset of the page asked for exactly when that offset is an int64; otherwise
   a page far past the end can repeat rows.
   */
  lemma PageOffsetExactlyWhen(page: int, limit: int)
    requires 1 <= page < TWO_63 && 0 < limit < TWO_63
    ensures PageOffset(page, limit) == (page - 1) * limit <==> (page - 1) * limit < TWO_63
  {
    var offset := (page - 1) * limit;
    PageTimes(page - 1, limit);
    assert Wrap64(page - 1) == page - 1;
    assert PageOffset(page, limit) == Wrap64(offset);
  }

  lemma WrapFromModulus(x: nat)
    ensures Wrap64(x) == if x % TWO_64 < TWO_63 then x % TWO_64 else x % TWO_64 - TWO_64
  {
  }

  /**
   The page served is the page asked for exactly when the offset fits an int64, or wraps to one that is
   past the end: every other page is refused or repeats rows, where the page asked for is empty.
   */
  lemma PageServedExactlyWhen<T>(rows: seq<T>, page: int, limit: int)
    requires 1 <= page < TWO_63 && 0 < limit < TWO_63 && |rows| < TWO_63
    ensures var offset := (page - 1) * limit;
            PageServed(rows, page, limit) == Slice(rows, limit, offset)
            <==> offset < TWO_63 || |rows| <= offset % TWO_64 < TWO_63
  {
    var offset := (page - 1) * limit;
    PageTimes(page - 1, limit);
    WrapFromModulus(offset);
    var sent := Wrap64(offset);
    assert PageServed(rows, page, limit) == Slice(rows, limit, sent);
    if offset >= TWO_63 {
      assert Slice(rows, limit, offset) == Ok([]);
      if 0 <= sent < |rows| {
        assert |Slice(rows, limit, sent).value| > 0;
      }
    }
  }

  lemma FarPageRepeats<T>(rows: seq<T>)
    requires |rows| >= 4
    ensures PageServed(rows, TWO_63 / 2 + 1, 4) == PageServed(rows, 1, 4) == Ok(rows[..4])
  {
  }

  /** A page holds the matching rows with `offset`, `offset` + 1, ... newer ones, as far as there are any. */
  lemma PageIsRanked<T(!new)>(rows: seq<T>, p: T -> bool, limit: nat, offset: nat)
    ensures var page := Slice(Newest(rows, p), limit, offset);
            && page.Ok? && |page.value| == Max(0, Least(limit, Count(rows, p) - offset))
            && forall k :: 0 <= k < |page.value| ==> NthNewest(rows, p, offset + k, page.value[k])
  {
    NewestHasAll(rows, p);
    var all := Newest(rows, p);
    var page := Slice(all, limit, offset).value;
    SliceAt(all, limit, offset);
    forall k | 0 <= k < |page|
      ensures NthNewest(rows, p, offset + k, page[k])
    {
      NewestInOrder(rows, p, offset + k);
    }
  }

  lemma SliceAt<T>(rows: seq<T>, limit: nat, offset: nat)
    ensures var page := Slice(rows, limit, offset);
            && page.Ok? && |page.value| == Max(0, Least(limit, |rows| - offset))
            && forall k :: 0 <= k < |page.value| ==> offset + k < |rows| && page.value[k] == rows[offset + k]
  {
  }

  // ---------------------------------------------------------------- one transaction

  function WithProviderID(providerTxID: string): Transaction -> bool {
    (t: Transaction) => t.providerTxID == providerTxID
  }

  /** GetByID does not select the owner, the payer or the payload, which keep their zero values. */
  function GetByID(db: Tables, providerTxID: string): Result<Transaction> {
    match Find(db.transactions, WithProviderID(providerTxID))
    case None => Err
    case Some(t) => Ok(t.(merchantID := 0, payerMSISDN := "", rawPayload := []))
  }

  /** Handler.GetTransaction. */
  function GetTransaction(db: Tables, merchantID: int, providerTxID: string): Result<Shown> {
    match GetByID(db, providerTxID)
    case Err => Err
    case Ok(t) => if t.merchantID != merchantID then Err else Ok(Normalize(t))
  }

  /**
   GET /transactions/:id finds a transaction exactly when it is stored and the caller's id is 0, so no
   merchant is ever shown one of its own.
   */
  lemma GetTransactionFindsExactlyWhen(db: Tables, merchantID: int, providerTxID: string)
    requires db.TxOk()
    ensures GetTransaction(db, merchantID, providerTxID).Ok? <==> db.Exists(providerTxID) && merchantID == 0
    ensures merchantID in db.merchants ==> GetTransaction(db, merchantID, providerTxID).Err?
    ensures var r := GetTransaction(db, merchantID, providerTxID);
            r.Ok? ==> exists t :: t in db.transactions && t.providerTxID == providerTxID && Shows(r.value, t)
  {
  }
}
