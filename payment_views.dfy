/**
  The payment views: opening a transaction with the gateway, the gateway's callback that
  settles it, and the partner's payment listings.
*/
module PaymentViews {
  import opened Common
  import opened Listing
  import opened Store

  // ---------------------------------------------------------------------------
  // CreateTransaction
  // ---------------------------------------------------------------------------

  /** `CreateTransaction.get_order`: order `code`, looked up only among the user's own orders. */
  function GetOrder(db: Db, user: UserId, code: string): (r: Option<Order>)
    reads db
    requires db.Valid()
    ensures r.Some? <==> code in db.orders && db.packages[db.orders[code].package].user == user
    ensures r.Some? ==> r.value == db.orders[code] && r.value.trackingCode == code
  {
    if code in db.orders && db.packages[db.orders[code].package].user == user then
      Some(db.orders[code])
    else
      None
  }

  datatype CreateTxResponse =
    | OrderNotFound
    | PaymentUnavailable(message: string)
    | Opened(authorizationUrl: string, transaction: Transaction)
  {
    function Status(): int {
      match this
      case OrderNotFound => 404
      case PaymentUnavailable(_) => 400
      case Opened(_, _) => 200
    }
  }

  const UnableToCompletePayment := "Unable to complete payment, try again."

  /**
    `CreateTransaction.post`. `callback` is the request's `callback` value (`None` when absent:
    the view does not validate its input), `callbackApiUrl` the URL built from the current site,
    `reference` the fresh `uuid4().hex`, `now` the creation time, and `initTransaction` stands for
    the gateway's `create_init_transaction(email, amount, callback_url, reference)`.
  */
  method CreateTransaction(db: Db, user: UserId, code: string, callback: Option<string>,
                           callbackApiUrl: string, reference: string, now: Timestamp,
                           initTransaction: (string, int, string, string) -> Option<string>)
    returns (r: CreateTxResponse)
    requires db.Valid() && reference !in db.transactions
    modifies db
    ensures db.Valid()
    ensures old(GetOrder(db, user, code)).None? ==> r == OrderNotFound && r.Status() == 404 && unchanged(db)
    ensures old(GetOrder(db, user, code)).Some? ==>
              var order := old(GetOrder(db, user, code)).value;
              var email := old(db.userEmails[db.packages[order.package].user]);
              var link := initTransaction(email, order.price, callbackApiUrl, reference);
              && (link.None? ==>
                    r == PaymentUnavailable(UnableToCompletePayment) && r.Status() == 400 && unchanged(db))
              && (link.Some? ==>
                    && r == Opened(link.value,
                                   Transaction(reference, order.price, Pending, None, callback, code, None, now))
                    && db.transactions == old(db.transactions)[reference := r.transaction]
                    && db.userEmails == old(db.userEmails) && db.packages == old(db.packages)
                    && db.pricePackages == old(db.pricePackages) && db.orders == old(db.orders))
  {
    var found := GetOrder(db, user, code);
    if found.None? {
      return OrderNotFound;
    }
    var order := found.value;
    var email := db.userEmails[db.packages[order.package].user];
    var link := initTransaction(email, order.price, callbackApiUrl, reference);
    if link.None? {
      return PaymentUnavailable(UnableToCompletePayment);
    }
    var transaction := Transaction(reference, order.price, Pending, None, callback, order.trackingCode, None, now);
    db.transactions := db.transactions[reference := transaction];
    r := Opened(link.value, transaction);
  }

  // ---------------------------------------------------------------------------
  // CallbackTransaction
  // ---------------------------------------------------------------------------

  /** `Redirect` is the browser redirect to `url_with_params(url, params)`. */
  datatype CallbackResponse =
    | NotFound
    | BadRequest(params: map<string, string>)
    | Redirect(url: string, params: map<string, string>)
  {
    function Status(): int {
      match this
      case NotFound => 404
      case BadRequest(_) => 400
      case Redirect(_, _) => 302
    }
  }

  /** The transaction was stored with a non-empty redirect URL. */
  predicate HasRedirectUrl(tx: Transaction) {
    tx.redirectUrl.Some? && tx.redirectUrl.value != ""
  }

  /**
    `CallbackTransaction.redirect_response`: the parameters as a 400 body when the transaction
    has no redirect URL, otherwise a redirect to that URL carrying the parameters.
  */
  function RedirectResponse(tx: Transaction, params: map<string, string>): (r: CallbackResponse)
    ensures r.BadRequest? <==> !HasRedirectUrl(tx)
    ensures r.Redirect? <==> HasRedirectUrl(tx)
    ensures r.Redirect? ==> tx.redirectUrl == Some(r.url) && r.url != ""
    ensures !r.NotFound? && r.params == params
  {
    if tx.redirectUrl.None? || tx.redirectUrl.value == "" then
      BadRequest(params)
    else
      Redirect(tx.redirectUrl.value, params)
  }

  const UnableToVerify := "Unable to verify transaction"

  /**
    The transaction after a definite gateway verdict: `success` with `paidAt` stamped, or
    `failed` with `paidAt` as it was; whatever the prior status, nothing else changes.
  */
  function Settled(tx: Transaction, verified: bool, now: Timestamp): (t: Transaction)
    ensures t.status == (if verified then Success else Failed)
    ensures t.paidAt == (if verified then Some(now) else tx.paidAt)
    ensures t.(status := tx.status, paidAt := tx.paidAt) == tx
  {
    if verified then tx.(status := Success, paidAt := Some(now)) else tx.(status := Failed)
  }

  /**
    The callback does not look at the prior status: a replayed callback settles again, and
    the result is what the later callback alone would have produced (a paid transaction can
    be turned `failed`, keeping its `paidAt`).
  */
  lemma SettledReplay(tx: Transaction, first: bool, second: bool, t1: Timestamp, t2: Timestamp)
    ensures Settled(Settled(tx, first, t1), second, t2)
            == (if second || !first then Settled(tx, second, t2) else Settled(tx, false, t2).(paidAt := Some(t1)))
  {
  }

  /** The parameters the callback hands to `redirect_response`. */
  function CallbackParams(message: string, trackingCode: string): (r: map<string, string>)
    ensures r.Keys == {"message", "status", "tracking_code"}
    ensures r["message"] == message && r["status"] == "error" && r["tracking_code"] == trackingCode
  {
    map["message" := message, "status" := "error", "tracking_code" := trackingCode]
  }

  /**
    `CallbackTransaction.get`. `reference` and `transactionId` are the `tx_ref` and
    `transaction_id` query parameters, `now` stands for `timezone.now()`, `verify` for the
    gateway's `verify_transaction(transaction_id, amount)` and `trackingCodeOf` for
    `get_tx_tracking_code`. `successHook` reports whether `update_success` was invoked.
  */
  method CallbackTransaction(db: Db, reference: Option<string>, transactionId: Option<string>,
                             now: Timestamp, verify: (Option<string>, int) -> Option<bool>,
                             trackingCodeOf: Transaction -> string)
    returns (r: CallbackResponse, successHook: bool)
    requires db.Valid()
    modifies db
    ensures db.Valid()
    ensures reference.None? || reference.value !in old(db.transactions) ==>
              r == NotFound && r.Status() == 404 && !successHook && unchanged(db)
    ensures !r.NotFound? ==> "status" in r.params && r.params["status"] == "error"
    ensures reference.Some? && reference.value in old(db.transactions) ==>
              var tx := old(db.transactions[reference.value]);
              var verdict := verify(transactionId, tx.amount);
              && db.userEmails == old(db.userEmails) && db.packages == old(db.packages)
              && db.pricePackages == old(db.pricePackages) && db.orders == old(db.orders)
              && (verdict.None? ==>
                    && r == RedirectResponse(tx, CallbackParams(UnableToVerify, trackingCodeOf(tx)))
                    && !successHook && unchanged(db))
              && (verdict.Some? ==>
                    var settled := Settled(tx, verdict.value, now);
                    && db.transactions == old(db.transactions)[reference.value := settled]
                    && r == RedirectResponse(settled, CallbackParams("", trackingCodeOf(tx)))
                    && successHook == verdict.value)
  {
    var params := map["message" := "", "status" := "error"];
    successHook := false;

    if reference.None? || reference.value !in db.transactions {
      return NotFound, false;
    }
    var tx := db.transactions[reference.value];
    params := params["tracking_code" := trackingCodeOf(tx)];

    var verdict := verify(transactionId, tx.amount);
    if verdict.None? {
      params := params["message" := UnableToVerify];
      r := RedirectResponse(tx, params);
      return;
    }

    if verdict.value {
      tx := tx.(status := Success);
      tx := tx.(paidAt := Some(now));
    } else {
      tx := tx.(status := Failed);
    }
    // trans_obj.save()
    db.transactions := db.transactions[reference.value := tx];

    if verdict.value {
      // trans_obj.update_success()
      successHook := true;
    }
    r := RedirectResponse(tx, params);
  }

  // ---------------------------------------------------------------------------
  // PaymentViewSet
  // ---------------------------------------------------------------------------

  /** `PaymentViewSet.get_queryset`: the transactions paid into the partner's bank account. */
  function PaymentQueryset(rows: seq<Transaction>, account: nat): (r: seq<Transaction>)
    ensures forall t :: t in r <==> t in rows && t.bankAccount == Some(account)
    ensures forall t :: multiset(r)[t] == if t.bankAccount == Some(account) then multiset(rows)[t] else 0
  {
    Filter(rows, (t: Transaction) => t.bankAccount == Some(account))
  }

  /** `get_transaction_filter`: the partner's transactions with the given status, in table order. */
  function GetTransactionFilter(rows: seq<Transaction>, account: nat, status: TxStatus)
    : (r: seq<Transaction>)
    ensures forall t :: t in r <==> t in rows && t.bankAccount == Some(account) && t.status == status
    ensures forall t :: multiset(r)[t] ==
              if t.bankAccount == Some(account) && t.status == status then multiset(rows)[t] else 0
    ensures |r| <= |rows|
  {
    Filter(PaymentQueryset(rows, account), (t: Transaction) => t.status == status)
  }

  /** `pending_payments`. */
  function PendingPayments(rows: seq<Transaction>, account: nat): (r: seq<Transaction>)
    ensures forall t :: t in r <==> t in rows && t.bankAccount == Some(account) && t.status == Pending
    ensures forall t :: multiset(r)[t] ==
              if t.bankAccount == Some(account) && t.status == Pending then multiset(rows)[t] else 0
  {
    GetTransactionFilter(rows, account, Pending)
  }

  /** `successful_payments`. */
  function SuccessfulPayments(rows: seq<Transaction>, account: nat): (r: seq<Transaction>)
    ensures forall t :: t in r <==> t in rows && t.bankAccount == Some(account) && t.status == Success
    ensures forall t :: multiset(r)[t] ==
              if t.bankAccount == Some(account) && t.status == Success then multiset(rows)[t] else 0
  {
    GetTransactionFilter(rows, account, Success)
  }

  /** `failed_payments`. */
  function FailedPayments(rows: seq<Transaction>, account: nat): (r: seq<Transaction>)
    ensures forall t :: t in r <==> t in rows && t.bankAccount == Some(account) && t.status == Failed
    ensures forall t :: multiset(r)[t] ==
              if t.bankAccount == Some(account) && t.status == Failed then multiset(rows)[t] else 0
  {
    GetTransactionFilter(rows, account, Failed)
  }
}
