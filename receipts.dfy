/**
 * The receipt routes of the server: bulk ingestion of offline sales, online
 * checkout, and the pending -> approved / rejected decision on staff receipts.
 * The database is a product stock map and a receipt store (a sequence whose
 * index is the receipt id); each handler runs to completion before the next.
 */
module Receipts {
  import opened Options
  import opened Inventory

  type UserId = string
  type CustomerId = string

  datatype Role = Admin | Cashier | Helper
  datatype User = User(id: UserId, role: Role)
  datatype PaymentMethod = Cash | Card
  datatype Status = Completed | Pending | Approved | Rejected

  datatype Receipt = Receipt(
    items: seq<LineItem>,
    total: int,
    paymentMethod: Option<PaymentMethod>,
    customer: Option<CustomerId>,
    status: Status,
    isReturn: bool,
    createdBy: UserId,
    processedBy: Option<UserId>,
    offlineId: Option<string>)

  // ---------------------------------------------------------------------------
  // Stock accounting: what each stored receipt has done to the stock.

  /**
   * The stock change a stored receipt stands for, by its status: a completed
   * receipt moved stock when it was stored, an approved one when it was
   * approved (always as a sale), pending and rejected ones never.
   */
  function Effect(rc: Receipt, p: ProductId): (r: int)
    ensures rc.status == Pending || rc.status == Rejected ==> r == 0
    ensures rc.status == Approved ==> r == -Qty(rc.items, p)
  {
    match rc.status
    case Completed => Delta(rc.isReturn, Qty(rc.items, p))
    case Approved => Delta(false, Qty(rc.items, p))
    case Pending => 0
    case Rejected => 0
  }

  /** The summed effect of all stored receipts on product `p`, each counted once. */
  function Net(rs: seq<Receipt>, p: ProductId): (r: int)
    decreases |rs|
  {
    if rs == [] then 0 else Net(rs[..|rs| - 1], p) + Effect(rs[|rs| - 1], p)
  }

  lemma NetAppend(rs: seq<Receipt>, r: Receipt, p: ProductId)
    ensures Net(rs + [r], p) == Net(rs, p) + Effect(r, p)
  {
    assert (rs + [r])[..|rs|] == rs;
  }

  /** Replacing one stored receipt changes the total by the difference of the two effects only. */
  lemma {:induction false} NetUpdate(rs: seq<Receipt>, i: nat, r: Receipt, p: ProductId)
    requires i < |rs|
    ensures Net(rs[i := r], p) == Net(rs, p) - Effect(rs[i], p) + Effect(r, p)
    decreases |rs|
  {
    var n := |rs| - 1;
    if i == n {
      assert rs[i := r][..n] == rs[..n];
    } else {
      NetUpdate(rs[..n], i, r, p);
      assert rs[i := r][..n] == rs[..n][i := r];
    }
  }

  // ---------------------------------------------------------------------------
  // The staff-receipt state machine.

  /** `after` is the pending receipt `before` with a decision and the deciding user recorded. */
  predicate Decided(before: Receipt, after: Receipt)
  {
    && before.status == Pending
    && (after.status == Approved || after.status == Rejected)
    && after.processedBy.Some?
    && after == before.(status := after.status, processedBy := after.processedBy)
  }

  /** The store only grows, and a stored receipt changes only by a decision on it while pending. */
  predicate Evolves(before: seq<Receipt>, after: seq<Receipt>)
  {
    && |before| <= |after|
    && forall i :: 0 <= i < |before| ==> after[i] == before[i] || Decided(before[i], after[i])
  }

  lemma EvolvesTransitive(a: seq<Receipt>, b: seq<Receipt>, c: seq<Receipt>)
    requires Evolves(a, b) && Evolves(b, c)
    ensures Evolves(a, c)
  {
  }

  /** Completed, approved and rejected receipts never change again; a pending one can only be decided. */
  lemma DecisionsAreFinal(a: seq<Receipt>, b: seq<Receipt>, i: nat)
    requires Evolves(a, b) && i < |a|
    ensures a[i].status != Pending ==> b[i] == a[i]
    ensures a[i].status == Pending ==> b[i].status != Completed
  {
  }

  // ---------------------------------------------------------------------------
  // Bulk ingestion of offline sales (`POST /bulk`).

  /** One offline sale as the point of sale sends it; `offlineId` is its idempotency key. */
  datatype Sale = Sale(
    offlineId: string,
    items: seq<LineItem>,
    total: int,
    paymentMethod: Option<PaymentMethod>,
    customer: Option<CustomerId>,
    isReturn: bool)

  datatype SyncResult = AlreadySynced(offlineId: string) | Synced(offlineId: string, receiptId: nat)
  datatype SyncError = SyncError(offlineId: string)

  /** The database and the two reply lists while the batch is processed. */
  datatype BulkState = BulkState(stock: Stock, receipts: seq<Receipt>, results: seq<SyncResult>, errors: seq<SyncError>)

  /** `Receipt.findOne({'metadata.offlineId': id})` finds something. */
  predicate HasOfflineId(rs: seq<Receipt>, id: string)
    ensures rs == [] ==> !HasOfflineId(rs, id)
  {
    exists i :: 0 <= i < |rs| && rs[i].offlineId == Some(id)
  }

  /** Storing one more receipt makes its key, and only its key, newly found. */
  lemma HasOfflineIdAppend(rs: seq<Receipt>, r: Receipt, id: string)
    ensures HasOfflineId(rs + [r], id) <==> HasOfflineId(rs, id) || r.offlineId == Some(id)
  {
    if HasOfflineId(rs + [r], id) && r.offlineId != Some(id) {
      var i :| 0 <= i < |rs + [r]| && (rs + [r])[i].offlineId == Some(id);
      assert rs[i] == (rs + [r])[i];
    }
    if HasOfflineId(rs, id) {
      var i :| 0 <= i < |rs| && rs[i].offlineId == Some(id);
      assert (rs + [r])[i] == rs[i];
    }
    if r.offlineId == Some(id) {
      assert (rs + [r])[|rs|] == r;
    }
  }

  /** No two stored receipts carry the same offline id: each offline sale is stored at most once. */
  predicate UniqueOfflineIds(rs: seq<Receipt>)
  {
    forall i, j :: 0 <= i < j < |rs| && rs[i].offlineId.Some? ==> rs[i].offlineId != rs[j].offlineId
  }

  /** The receipt built for a new offline sale. */
  function OfflineReceipt(sale: Sale, user: UserId): (r: Receipt)
    ensures r.status == Completed && r.offlineId == Some(sale.offlineId) && r.processedBy.None?
    ensures r.paymentMethod.Some? && (sale.paymentMethod.None? ==> r.paymentMethod == Some(Cash))
    ensures forall p :: Effect(r, p) == Delta(sale.isReturn, Qty(sale.items, p))
  {
    Receipt(sale.items, sale.total,
            Some(if sale.paymentMethod.Some? then sale.paymentMethod.value else Cash),
            sale.customer, Completed, sale.isReturn, user, None, Some(sale.offlineId))
  }

  /**
   * One turn of the bulk loop. A known key is reported and skipped. Otherwise
   * the stock is moved first (no availability check) and the receipt saved
   * after; when the save fails the sale is reported as an error and the stock
   * change stays applied.
   */
  function BulkStep(st: BulkState, sale: Sale, user: UserId, saveFails: bool): (r: BulkState)
    ensures st.receipts <= r.receipts && st.results <= r.results && st.errors <= r.errors
    ensures |r.results| + |r.errors| == |st.results| + |st.errors| + 1
    ensures HasOfflineId(st.receipts, sale.offlineId) ==> r.stock == st.stock && r.receipts == st.receipts
    ensures !HasOfflineId(st.receipts, sale.offlineId) ==> r.stock == ApplyLines(st.stock, sale.items, sale.isReturn)
    ensures !saveFails ==> HasOfflineId(r.receipts, sale.offlineId)
  {
    if HasOfflineId(st.receipts, sale.offlineId) then
      st.(results := st.results + [AlreadySynced(sale.offlineId)])
    else
      var stock := ApplyLines(st.stock, sale.items, sale.isReturn);
      if saveFails then
        BulkState(stock, st.receipts, st.results, st.errors + [SyncError(sale.offlineId)])
      else
        HasOfflineIdAppend(st.receipts, OfflineReceipt(sale, user), sale.offlineId);
        BulkState(stock, st.receipts + [OfflineReceipt(sale, user)],
                  st.results + [Synced(sale.offlineId, |st.receipts|)], st.errors)
  }

  /** The whole loop over the batch; `saveFails` holds the positions whose `receipt.save()` throws. */
  function BulkRun(st: BulkState, sales: seq<Sale>, user: UserId, saveFails: set<nat>): (r: BulkState)
    ensures st.receipts <= r.receipts && st.results <= r.results && st.errors <= r.errors
    ensures |r.results| + |r.errors| == |st.results| + |st.errors| + |sales|
    decreases |sales|
  {
    if sales == [] then st
    else
      var n := |sales| - 1;
      BulkStep(BulkRun(st, sales[..n], user, saveFails), sales[n], user, n in saveFails)
  }

  /** One turn of the loop stores a new receipt only for a key not yet stored, so stored keys stay distinct. */
  lemma BulkStepKeepsUnique(st: BulkState, sale: Sale, user: UserId, saveFails: bool)
    requires UniqueOfflineIds(st.receipts)
    ensures UniqueOfflineIds(BulkStep(st, sale, user, saveFails).receipts)
  {
    var rs := BulkStep(st, sale, user, saveFails).receipts;
    if rs != st.receipts {
      assert rs == st.receipts + [OfflineReceipt(sale, user)];
      assert forall k :: 0 <= k < |st.receipts| ==> rs[k] == st.receipts[k];
    }
  }

  /** No batch ever stores two receipts with the same key. */
  lemma {:induction false} BulkRunKeepsUnique(st: BulkState, sales: seq<Sale>, user: UserId, saveFails: set<nat>)
    requires UniqueOfflineIds(st.receipts)
    ensures UniqueOfflineIds(BulkRun(st, sales, user, saveFails).receipts)
    decreases |sales|
  {
    if sales != [] {
      var n := |sales| - 1;
      BulkRunKeepsUnique(st, sales[..n], user, saveFails);
      BulkStepKeepsUnique(BulkRun(st, sales[..n], user, saveFails), sales[n], user, n in saveFails);
    }
  }

  /** Later turns of the loop only append receipts to what earlier turns stored. */
  lemma {:induction false} BulkRunPrefix(st: BulkState, sales: seq<Sale>, user: UserId, saveFails: set<nat>, m: nat)
    requires m <= |sales|
    ensures BulkRun(st, sales[..m], user, saveFails).receipts <= BulkRun(st, sales, user, saveFails).receipts
    decreases |sales|
  {
    if m < |sales| {
      var n := |sales| - 1;
      assert sales[..n][..m] == sales[..m];
      BulkRunPrefix(st, sales[..n], user, saveFails, m);
    } else {
      assert sales[..m] == sales;
    }
  }

  /** A decision keeps the receipt's key, so the stored keys stay distinct. */
  lemma UniqueAfterDecision(rs: seq<Receipt>, i: nat, r: Receipt)
    requires UniqueOfflineIds(rs) && i < |rs| && r.offlineId == rs[i].offlineId
    ensures UniqueOfflineIds(rs[i := r])
  {
    assert forall k :: 0 <= k < |rs| ==> rs[i := r][k].offlineId == rs[k].offlineId;
  }

  lemma PrefixKeepsOfflineId(a: seq<Receipt>, b: seq<Receipt>, id: string)
    requires a <= b && HasOfflineId(a, id)
    ensures HasOfflineId(b, id)
  {
    var i :| 0 <= i < |a| && a[i].offlineId == Some(id);
    assert b[i] == a[i];
  }

  /** A sale whose key is already stored is reported `already_synced` and changes no stock and no receipt. */
  lemma AlreadySyncedIsNoOp(st: BulkState, sale: Sale, user: UserId, saveFails: bool)
    requires HasOfflineId(st.receipts, sale.offlineId)
    ensures BulkStep(st, sale, user, saveFails) == st.(results := st.results + [AlreadySynced(sale.offlineId)])
  {
  }

  /** As written, a failed save still leaves the sale's stock change applied, with no receipt for it. */
  lemma FailedSaveKeepsStockChange(st: BulkState, sale: Sale, user: UserId)
    requires !HasOfflineId(st.receipts, sale.offlineId)
    ensures var next := BulkStep(st, sale, user, true);
      next.stock == ApplyLines(st.stock, sale.items, sale.isReturn)
      && next.receipts == st.receipts && next.results == st.results
      && next.errors == st.errors + [SyncError(sale.offlineId)]
  {
  }

  /**
   * The client retries a sale whose save failed; the retry finds no receipt
   * for its key, so its stock change is applied a second time.
   */
  lemma RetryAfterFailedSaveAppliesTwice(st: BulkState, sale: Sale, user: UserId)
    requires !HasOfflineId(st.receipts, sale.offlineId)
    ensures var retried := BulkStep(BulkStep(st, sale, user, true), sale, user, false);
      && HasOfflineId(retried.receipts, sale.offlineId)
      && forall p :: p in st.stock ==>
           retried.stock[p] == st.stock[p] + 2 * Delta(sale.isReturn, Qty(sale.items, p))
  {
    var failed := BulkStep(st, sale, user, true);
    ApplyLinesAt(st.stock, sale.items, sale.isReturn);
    ApplyLinesAt(failed.stock, sale.items, sale.isReturn);
  }

  /**
   * Two sales with the same key in one batch: once the earlier one was saved,
   * the later one is skipped, so its stock change happens only once.
   */
  lemma DuplicateInBatchAppliedOnce(st: BulkState, sales: seq<Sale>, user: UserId, saveFails: set<nat>, i: nat, j: nat)
    requires i < j < |sales| && sales[i].offlineId == sales[j].offlineId && i !in saveFails
    ensures var before := BulkRun(st, sales[..j], user, saveFails);
      BulkRun(st, sales[..j + 1], user, saveFails)
        == before.(results := before.results + [AlreadySynced(sales[j].offlineId)])
  {
    var id := sales[i].offlineId;
    var before := BulkRun(st, sales[..j], user, saveFails);
    assert HasOfflineId(before.receipts, id) by {
      var upToI := BulkRun(st, sales[..i], user, saveFails);
      assert sales[..i + 1][..i] == sales[..i];
      var afterI := BulkRun(st, sales[..i + 1], user, saveFails);
      assert afterI == BulkStep(upToI, sales[i], user, false);
      assert sales[..j][..i + 1] == sales[..i + 1];
      BulkRunPrefix(st, sales[..j], user, saveFails, i + 1);
      PrefixKeepsOfflineId(afterI.receipts, before.receipts, id);
    }
    assert sales[..j + 1][..j] == sales[..j];
    assert BulkRun(st, sales[..j + 1], user, saveFails) == BulkStep(before, sales[j], user, j in saveFails);
    AlreadySyncedIsNoOp(before, sales[j], user, j in saveFails);
  }

  /** A batch whose keys are all stored already changes neither stock nor receipts. */
  lemma {:induction false} ReplayChangesNothing(st: BulkState, sales: seq<Sale>, user: UserId, saveFails: set<nat>)
    requires forall k :: 0 <= k < |sales| ==> HasOfflineId(st.receipts, sales[k].offlineId)
    ensures var end := BulkRun(st, sales, user, saveFails);
      end.stock == st.stock && end.receipts == st.receipts && end.errors == st.errors
      && |end.results| == |st.results| + |sales|
    decreases |sales|
  {
    if sales != [] {
      var n := |sales| - 1;
      ReplayChangesNothing(st, sales[..n], user, saveFails);
    }
  }

  /**
   * Each sale is handled on its own: a sale whose own save succeeds ends up
   * with a stored receipt carrying its key, whatever happens to the others.
   */
  lemma {:induction false} BulkRunStoresEveryKey(st: BulkState, sales: seq<Sale>, user: UserId, saveFails: set<nat>)
    ensures forall k :: 0 <= k < |sales| && k !in saveFails ==>
      HasOfflineId(BulkRun(st, sales, user, saveFails).receipts, sales[k].offlineId)
    decreases |sales|
  {
    if sales != [] {
      var n := |sales| - 1;
      var mid := BulkRun(st, sales[..n], user, saveFails);
      BulkRunStoresEveryKey(st, sales[..n], user, saveFails);
      var end := BulkRun(st, sales, user, saveFails);
      assert mid.receipts <= end.receipts;
      forall k | 0 <= k < |sales| && k !in saveFails
        ensures HasOfflineId(end.receipts, sales[k].offlineId)
      {
        if k < n {
          assert sales[..n][k] == sales[k];
          PrefixKeepsOfflineId(mid.receipts, end.receipts, sales[k].offlineId);
        }
      }
    }
  }

  /**
   * Exactly once: sending a batch again after it was fully saved changes
   * neither stock nor receipts, whatever happens to the second send's saves.
   */
  lemma BulkIsIdempotent(st: BulkState, sales: seq<Sale>, user: UserId, saveFails: set<nat>, again: set<nat>)
    requires forall k :: 0 <= k < |sales| ==> k !in saveFails
    ensures var once := BulkRun(st, sales, user, saveFails);
      var twice := BulkRun(once, sales, user, again);
      twice.stock == once.stock && twice.receipts == once.receipts
  {
    BulkRunStoresEveryKey(st, sales, user, saveFails);
    ReplayChangesNothing(BulkRun(st, sales, user, saveFails), sales, user, again);
  }

  // ---------------------------------------------------------------------------
  // The server.

  datatype BulkReply =
    | BulkForbidden
    | NoSales
    | BulkDone(synced: nat, failed: nat, results: seq<SyncResult>, errors: seq<SyncError>)

  datatype Reply =
    | Forbidden
    | ReceiptNotFound
    | AlreadyProcessed
    | Shortfall(shortage: Shortage)
    | Created(receiptId: nat)
    | Processed(receiptId: nat)
    | ServerError

  /** The receipt built by the online checkout: a helper's waits for review. */
  function OnlineReceipt(user: User, items: seq<LineItem>, total: int, paymentMethod: Option<PaymentMethod>,
                         customer: Option<CustomerId>, isReturn: bool): (r: Receipt)
    ensures r.status == (if user.role == Helper then Pending else Completed)
    ensures r.offlineId.None? && r.processedBy.None?
    ensures user.role == Helper ==> forall p :: Effect(r, p) == 0
    ensures user.role != Helper ==> forall p :: Effect(r, p) == Delta(isReturn, Qty(items, p))
  {
    Receipt(items, total, paymentMethod, customer,
            if user.role == Helper then Pending else Completed, isReturn, user.id, None, None)
  }

  class ReceiptServer {
    var stock: Stock
    var receipts: seq<Receipt>
    /** The stock before any receipt was stored. */
    ghost var base: Stock
    /** Stock changes made by handlers whose receipt save then failed. */
    ghost var unrecorded: Stock

    /** Stock is the initial stock plus each stored receipt's effect, once, plus the unrecorded changes. */
    ghost predicate Valid()
      reads this
    {
      && stock.Keys == base.Keys
      && unrecorded.Keys == base.Keys
      && UniqueOfflineIds(receipts)
      && forall p :: p in stock ==> stock[p] == base[p] + Net(receipts, p) + unrecorded[p]
    }

    constructor (initial: Stock)
      ensures Valid()
      ensures stock == initial && receipts == [] && base == initial
      ensures forall p :: p in unrecorded ==> unrecorded[p] == 0
    {
      stock := initial;
      receipts := [];
      base := initial;
      unrecorded := map p | p in initial :: 0;
    }

    /** `POST /bulk`: admins and cashiers only; refuses a missing or empty `sales`. */
    method BulkSync(user: User, sales: Option<seq<Sale>>, saveFails: set<nat>) returns (reply: BulkReply)
      requires Valid()
      modifies this
      ensures Valid() && Evolves(old(receipts), receipts) && base == old(base)
      ensures user.role == Helper ==> reply == BulkForbidden && unchanged(this)
      ensures user.role != Helper && (sales.None? || sales.value == []) ==> reply == NoSales && unchanged(this)
      ensures user.role != Helper && sales.Some? && sales.value != [] ==>
        var end := BulkRun(BulkState(old(stock), old(receipts), [], []), sales.value, user.id, saveFails);
        && stock == end.stock && receipts == end.receipts
        && reply == BulkDone(|end.results|, |end.errors|, end.results, end.errors)
      ensures saveFails == {} ==> unrecorded == old(unrecorded)
    {
      if user.role == Helper {
        return BulkForbidden;
      }
      if sales.None? || sales.value == [] {
        return NoSales;
      }
      var batch := sales.value;
      ghost var init := BulkState(stock, receipts, [], []);
      var results: seq<SyncResult> := [];
      var errors: seq<SyncError> := [];
      var i := 0;
      while i < |batch|
        invariant 0 <= i <= |batch|
        invariant BulkState(stock, receipts, results, errors) == BulkRun(init, batch[..i], user.id, saveFails)
        invariant Valid() && Evolves(old(receipts), receipts) && base == old(base)
        invariant saveFails == {} ==> unrecorded == old(unrecorded)
      {
        assert batch[..i + 1][..i] == batch[..i];
        results, errors := IngestSale(user, batch[i], i in saveFails, results, errors);
        i := i + 1;
      }
      assert batch[..i] == batch;
      reply := BulkDone(|results|, |errors|, results, errors);
    }

    /** One turn of the bulk loop, on the database and the two reply lists. */
    method IngestSale(user: User, sale: Sale, saveFails: bool, results0: seq<SyncResult>, errors0: seq<SyncError>)
      returns (results: seq<SyncResult>, errors: seq<SyncError>)
      requires Valid()
      modifies this
      ensures Valid() && Evolves(old(receipts), receipts) && base == old(base)
      ensures BulkState(stock, receipts, results, errors)
        == BulkStep(BulkState(old(stock), old(receipts), results0, errors0), sale, user.id, saveFails)
      ensures !saveFails ==> unrecorded == old(unrecorded)
    {
      results, errors := results0, errors0;
      if HasOfflineId(receipts, sale.offlineId) {
        results := results + [AlreadySynced(sale.offlineId)];
        return;
      }
      var receipt := OfflineReceipt(sale, user.id);
      stock := IncLines(stock, sale.items, sale.isReturn);
      if saveFails {
        ApplyLinesAt(unrecorded, sale.items, sale.isReturn);
        unrecorded := ApplyLines(unrecorded, sale.items, sale.isReturn);
        errors := errors + [SyncError(sale.offlineId)];
        return;
      }
      results := results + [Synced(sale.offlineId, |receipts|)];
      BulkStepKeepsUnique(BulkState(old(stock), receipts, results0, errors0), sale, user.id, false);
      forall p | p in stock
        ensures Net(receipts + [receipt], p) == Net(receipts, p) + Effect(receipt, p)
      {
        NetAppend(receipts, receipt, p);
      }
      receipts := receipts + [receipt];
    }

    /**
     * `POST /`: a non-return sale by a non-helper is checked line by line
     * first; a helper's receipt is stored pending and moves no stock.
     */
    method Checkout(user: User, items: seq<LineItem>, total: int, paymentMethod: Option<PaymentMethod>,
                    customer: Option<CustomerId>, isReturn: bool, saveFails: bool) returns (reply: Reply)
      requires Valid()
      modifies this
      ensures Valid() && Evolves(old(receipts), receipts) && base == old(base)
      ensures !isReturn && user.role != Helper && FirstShortage(old(stock), items).Some? ==>
        reply == Shortfall(FirstShortage(old(stock), items).value) && unchanged(this)
      ensures (isReturn || user.role == Helper || FirstShortage(old(stock), items).None?) ==>
        && stock == (if user.role == Helper then old(stock) else ApplyLines(old(stock), items, isReturn))
        && (saveFails ==> reply == ServerError && receipts == old(receipts))
        && (!saveFails ==>
              reply == Created(|old(receipts)|)
              && receipts == old(receipts) + [OnlineReceipt(user, items, total, paymentMethod, customer, isReturn)])
      ensures !saveFails || user.role == Helper ==> unrecorded == old(unrecorded)
    {
      var isHelper := user.role == Helper;
      if !isReturn && !isHelper {
        var shortage := CheckStock(stock, items);
        if shortage.Some? {
          return Shortfall(shortage.value);
        }
      }
      var receipt := OnlineReceipt(user, items, total, paymentMethod, customer, isReturn);
      if !isHelper {
        stock := IncLines(stock, items, isReturn);
      }
      if saveFails {
        if !isHelper {
          ApplyLinesAt(unrecorded, items, isReturn);
          unrecorded := ApplyLines(unrecorded, items, isReturn);
        }
        return ServerError;
      }
      forall p | p in stock
        ensures Net(receipts + [receipt], p) == Net(receipts, p) + Effect(receipt, p)
      {
        NetAppend(receipts, receipt, p);
      }
      reply := Created(|receipts|);
      receipts := receipts + [receipt];
    }

    /**
     * `PUT /:id/approve`: only a pending receipt, and only when every line is
     * covered by the current stock; then each line's product is decremented.
     */
    method Approve(user: User, id: nat, saveFails: bool) returns (reply: Reply)
      requires Valid()
      modifies this
      ensures Valid() && Evolves(old(receipts), receipts) && base == old(base)
      ensures user.role == Helper ==> reply == Forbidden && unchanged(this)
      ensures user.role != Helper && id >= |old(receipts)| ==> reply == ReceiptNotFound && unchanged(this)
      ensures user.role != Helper && id < |old(receipts)| && old(receipts)[id].status != Pending ==>
        reply == AlreadyProcessed && unchanged(this)
      ensures user.role != Helper && id < |old(receipts)| && old(receipts)[id].status == Pending ==>
        var r := old(receipts)[id];
        var shortage := FirstShortage(old(stock), r.items);
        && (shortage.Some? ==> reply == Shortfall(shortage.value) && unchanged(this))
        && (shortage.None? ==> stock == ApplyLines(old(stock), r.items, false))
        && (shortage.None? && saveFails ==> reply == ServerError && receipts == old(receipts))
        && (shortage.None? && !saveFails ==>
              reply == Processed(id)
              && receipts == old(receipts)[id := r.(status := Approved, processedBy := Some(user.id))])
      ensures !saveFails ==> unrecorded == old(unrecorded)
    {
      if user.role == Helper {
        return Forbidden;
      }
      if id >= |receipts| {
        return ReceiptNotFound;
      }
      var receipt := receipts[id];
      if receipt.status != Pending {
        return AlreadyProcessed;
      }
      var shortage := CheckStock(stock, receipt.items);
      if shortage.Some? {
        return Shortfall(shortage.value);
      }
      var approved := receipt.(status := Approved, processedBy := Some(user.id));
      stock := IncLines(stock, receipt.items, false);
      if saveFails {
        ApplyLinesAt(unrecorded, receipt.items, false);
        unrecorded := ApplyLines(unrecorded, receipt.items, false);
        return ServerError;
      }
      forall p | p in stock
        ensures Net(receipts[id := approved], p) == Net(receipts, p) - Effect(receipt, p) + Effect(approved, p)
      {
        NetUpdate(receipts, id, approved, p);
      }
      UniqueAfterDecision(receipts, id, approved);
      receipts := receipts[id := approved];
      reply := Processed(id);
    }

    /** `PUT /:id/reject`: only a pending receipt; no stock effect. */
    method Reject(user: User, id: nat, saveFails: bool) returns (reply: Reply)
      requires Valid()
      modifies this
      ensures Valid() && Evolves(old(receipts), receipts)
      ensures stock == old(stock) && base == old(base) && unrecorded == old(unrecorded)
      ensures user.role == Helper ==> reply == Forbidden && receipts == old(receipts)
      ensures user.role != Helper && id >= |old(receipts)| ==> reply == ReceiptNotFound && receipts == old(receipts)
      ensures user.role != Helper && id < |old(receipts)| && old(receipts)[id].status != Pending ==>
        reply == AlreadyProcessed && receipts == old(receipts)
      ensures user.role != Helper && id < |old(receipts)| && old(receipts)[id].status == Pending ==>
        && (saveFails ==> reply == ServerError && receipts == old(receipts))
        && (!saveFails ==>
              reply == Processed(id)
              && receipts == old(receipts)[id := old(receipts)[id].(status := Rejected, processedBy := Some(user.id))])
    {
      if user.role == Helper {
        return Forbidden;
      }
      if id >= |receipts| {
        return ReceiptNotFound;
      }
      var receipt := receipts[id];
      if receipt.status != Pending {
        return AlreadyProcessed;
      }
      if saveFails {
        return ServerError;
      }
      var rejected := receipt.(status := Rejected, processedBy := Some(user.id));
      forall p | p in stock
        ensures Net(receipts[id := rejected], p) == Net(receipts, p)
      {
        NetUpdate(receipts, id, rejected, p);
      }
      UniqueAfterDecision(receipts, id, rejected);
      receipts := receipts[id := rejected];
      reply := Processed(id);
    }
  }

  /**
   * Single fire: approving the same receipt twice is refused the second time,
   * and the stock is decremented by the receipt's lines only once.
   */
  method ApproveTwice(server: ReceiptServer, user: User, id: nat) returns (first: Reply, second: Reply)
    requires server.Valid()
    modifies server
    ensures server.Valid()
    ensures first.Processed? ==>
      id < |old(server.receipts)| && second == AlreadyProcessed
      && server.stock == ApplyLines(old(server.stock), old(server.receipts)[id].items, false)
  {
    first := server.Approve(user, id, false);
    second := server.Approve(user, id, false);
  }
}
