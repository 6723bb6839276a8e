/**
 * The transaction table and the signal handlers that write to it: a PayPal
 * `pay` creates a row, a PayPal `pay-check` advances a pending row to
 * checked, and a Bango `create-billing` creates a row.
 *
 * The table is a sequence of rows owned by a `TransactionTable` object. Its
 * unique indexes on `uid_support`, `uid_pay` and `uuid` are the invariant
 * `UniqueKeys`; an insert that would break it is rejected, as the database
 * rejects it with an integrity error. Amounts are integer cents.
 */
module Transactions {
  import opened Wrappers

  datatype Provider = SourcePaypal | SourceBango | OtherSource(code: nat)

  datatype Status = StatusPending | StatusChecked | StatusCompleted | OtherStatus(code: nat)

  datatype TransactionType = TypePayment | OtherType(code: nat)

  /** The column default of `status`; the PayPal tests read it back as pending. */
  const StatusDefault: Status := StatusPending

  /** The column default of `currency`. */
  const CurrencyDefault: string := "USD"

  /** One row. `uidSupport` is `None` for SQL NULL, which a unique index never compares equal. */
  datatype Transaction = Transaction(
    amount: int,
    buyer: Option<string>,
    currency: string,
    provider: Provider,
    related: Option<nat>,
    seller: string,
    status: Status,
    source: string,
    transactionType: TransactionType,
    uidSupport: Option<string>,
    uidPay: string,
    uuid: string)

  /** Two rows that the three unique indexes cannot both hold. */
  predicate Collides(a: Transaction, b: Transaction) {
    || a.uidPay == b.uidPay
    || a.uuid == b.uuid
    || (a.uidSupport.Some? && a.uidSupport == b.uidSupport)
  }

  ghost predicate UniqueKeys(rows: seq<Transaction>) {
    forall i, j | 0 <= i < j < |rows| :: !Collides(rows[i], rows[j])
  }

  predicate CanInsert(rows: seq<Transaction>, row: Transaction) {
    forall i | 0 <= i < |rows| :: !Collides(rows[i], row)
  }

  lemma InsertKeepsUnique(rows: seq<Transaction>, row: Transaction)
    requires UniqueKeys(rows) && CanInsert(rows, row)
    ensures UniqueKeys(rows + [row])
  {
  }

  // ---------------------------------------------------------------------
  // The handlers' inputs and the rows they create.
  // ---------------------------------------------------------------------

  /** `bundle.data` of the PayPal `pay` resource, as the gateway answered. */
  datatype PayData = PayData(payKey: string, correlationId: string, uuid: string, status: string)

  /** The cleaned PayPal form; `source` may be absent. */
  datatype PayForm = PayForm(amount: int, currency: string, seller: string, source: Option<string>)

  /** `bundle.data` of the PayPal `pay-check` resource. */
  datatype CheckData = CheckData(payKey: string, status: string)

  /** `bundle.data` of Bango `create-billing`, the `data` it sent, and its cleaned form. */
  datatype BangoBundle = BangoBundle(billingConfigurationId: string)
  datatype BangoData = BangoData(externalTransactionId: string, source: Option<string>)
  datatype BangoForm = BangoForm(priceAmount: int, seller: string)

  /** The row `create_paypal_transaction` asks the table to create. */
  function PaypalRow(data: PayData, form: PayForm): Transaction {
    Transaction(
      amount := form.amount,
      buyer := None,
      currency := form.currency,
      provider := SourcePaypal,
      related := None,
      seller := form.seller,
      status := StatusDefault,
      source := form.source.GetOr(""),
      transactionType := TypePayment,
      uidSupport := Some(data.correlationId),
      uidPay := data.payKey,
      uuid := data.uuid)
  }

  /**
   * The row `create_bango_transaction` creates as written: `uid_support` is
   * not given, so the column takes the empty string, like every other Bango row.
   */
  function BangoRowAsWritten(bundle: BangoBundle, data: BangoData, form: BangoForm): Transaction {
    Transaction(
      amount := form.priceAmount,
      buyer := None,
      currency := CurrencyDefault,
      provider := SourceBango,
      related := None,
      seller := form.seller,
      status := StatusDefault,
      source := data.source.GetOr(""),
      transactionType := TypePayment,
      uidSupport := Some(""),
      uidPay := bundle.billingConfigurationId,
      uuid := data.externalTransactionId)
  }

  /** As written, any two Bango rows collide on `uid_support`, so a second Bango purchase is rejected. */
  lemma SecondBangoRowRejectedAsWritten(b1: BangoBundle, d1: BangoData, f1: BangoForm,
                                        b2: BangoBundle, d2: BangoData, f2: BangoForm)
    ensures !CanInsert([BangoRowAsWritten(b1, d1, f1)], BangoRowAsWritten(b2, d2, f2))
  {
    assert Collides([BangoRowAsWritten(b1, d1, f1)][0], BangoRowAsWritten(b2, d2, f2));
  }

  /** The Bango row with `uid_support` left NULL, as the unique index needs. */
  function BangoRow(bundle: BangoBundle, data: BangoData, form: BangoForm): Transaction {
    BangoRowAsWritten(bundle, data, form).(uidSupport := None)
  }

  /** A corrected Bango row is rejected only for a clash on `uid_pay` or `uuid`. */
  lemma BangoRowInsertable(rows: seq<Transaction>, bundle: BangoBundle, data: BangoData, form: BangoForm)
    ensures CanInsert(rows, BangoRow(bundle, data, form))
        <==> forall i | 0 <= i < |rows| ::
               rows[i].uidPay != bundle.billingConfigurationId && rows[i].uuid != data.externalTransactionId
  {
  }

  // ---------------------------------------------------------------------
  // Completion of a PayPal payment.
  // ---------------------------------------------------------------------

  /** The 404 of `get_object_or_404`. */
  datatype HttpError = NotFound

  /** The row index `get_object_or_404(Transaction, uid_pay=payKey)` finds. */
  function FindByUidPay(rows: seq<Transaction>, payKey: string): (r: Option<nat>)
    ensures r.Some? ==> r.value < |rows| && rows[r.value].uidPay == payKey
    ensures r.None? <==> forall i | 0 <= i < |rows| :: rows[i].uidPay != payKey
  {
    if rows == [] then None
    else if rows[0].uidPay == payKey then Some(0)
    else match FindByUidPay(rows[1..], payKey)
      case None => None
      case Some(i) => Some(i + 1)
  }

  /** The status a completion leaves: a pending row reported `COMPLETED` becomes checked. */
  function Advance(status: Status, reported: string): (r: Status)
    ensures r != status <==> status == StatusPending && reported == "COMPLETED"
    ensures r != status ==> r == StatusChecked
  {
    if status == StatusPending && reported == "COMPLETED" then StatusChecked else status
  }

  /** The table after `completed_paypal_transaction`, or the 404. */
  function CompleteRows(rows: seq<Transaction>, payKey: string, reported: string): Result<seq<Transaction>, HttpError> {
    match FindByUidPay(rows, payKey)
    case None => Err(NotFound)
    case Some(i) => Ok(rows[i := rows[i].(status := Advance(rows[i].status, reported))])
  }

  /** The 404 happens exactly when no row has the pay key. */
  lemma NotFoundIffNoRow(rows: seq<Transaction>, payKey: string, reported: string)
    ensures CompleteRows(rows, payKey, reported).Err?
        <==> forall i | 0 <= i < |rows| :: rows[i].uidPay != payKey
  {
  }

  /** Completion changes the status of the row with the pay key, as `Advance` says, and nothing else. */
  lemma CompleteChangesOnlyStatus(rows: seq<Transaction>, payKey: string, reported: string)
    requires UniqueKeys(rows)
    requires CompleteRows(rows, payKey, reported).Ok?
    ensures var after := CompleteRows(rows, payKey, reported).value;
      && |after| == |rows|
      && forall i | 0 <= i < |rows| ::
           after[i] == if rows[i].uidPay == payKey
                       then rows[i].(status := Advance(rows[i].status, reported))
                       else rows[i]
  {
    var k := FindByUidPay(rows, payKey).value;
    forall i | 0 <= i < |rows| && i != k
      ensures rows[i].uidPay != payKey
    {
      if rows[i].uidPay == payKey {
        if i < k {
          assert Collides(rows[i], rows[k]);
        } else {
          assert Collides(rows[k], rows[i]);
        }
      }
    }
  }

  /** Completion keeps the three keys of every row, hence their uniqueness. */
  lemma CompleteKeepsUnique(rows: seq<Transaction>, payKey: string, reported: string)
    requires UniqueKeys(rows)
    requires CompleteRows(rows, payKey, reported).Ok?
    ensures UniqueKeys(CompleteRows(rows, payKey, reported).value)
  {
    var after := CompleteRows(rows, payKey, reported).value;
    forall i, j | 0 <= i < j < |after| ensures !Collides(after[i], after[j]) {
      assert !Collides(rows[i], rows[j]);
    }
  }

  /** Lookup by pay key only looks at the pay keys. */
  lemma {:induction false} FindSeesOnlyPayKeys(rows: seq<Transaction>, other: seq<Transaction>, payKey: string)
    requires |rows| == |other|
    requires forall i | 0 <= i < |rows| :: rows[i].uidPay == other[i].uidPay
    ensures FindByUidPay(rows, payKey) == FindByUidPay(other, payKey)
  {
    if rows != [] {
      FindSeesOnlyPayKeys(rows[1..], other[1..], payKey);
    }
  }

  /** Completing twice is completing once: a replayed callback changes nothing. */
  lemma CompleteIdempotent(rows: seq<Transaction>, payKey: string, reported: string)
    requires CompleteRows(rows, payKey, reported).Ok?
    ensures CompleteRows(CompleteRows(rows, payKey, reported).value, payKey, reported)
         == CompleteRows(rows, payKey, reported)
  {
    var k := FindByUidPay(rows, payKey).value;
    var after := CompleteRows(rows, payKey, reported).value;
    FindSeesOnlyPayKeys(rows, after, payKey);
    assert Advance(after[k].status, reported) == after[k].status;
    assert after[k := after[k].(status := after[k].status)] == after;
  }

  // ---------------------------------------------------------------------
  // The table and the three handlers.
  // ---------------------------------------------------------------------

  /** What a create handler did: nothing (another sender), a new row, or an integrity error. */
  datatype CreateResult = CreateSkipped | Created(index: nat) | IntegrityError

  /** What the completion handler did: nothing (another sender), a 404, or its lookup and update. */
  datatype CompleteResult = CompleteSkipped | CompleteNotFound | Completed

  class TransactionTable {
    var rows: seq<Transaction>

    ghost predicate Valid()
      reads this
    {
      UniqueKeys(rows)
    }

    constructor ()
      ensures Valid() && rows == []
    {
      rows := [];
    }

    /** `Transaction.objects.create(...)`: appends the row unless a unique index rejects it. */
    method Create(row: Transaction) returns (r: CreateResult)
      requires Valid()
      modifies this
      ensures Valid()
      ensures CanInsert(old(rows), row) ==> r == Created(|old(rows)|) && rows == old(rows) + [row]
      ensures !CanInsert(old(rows), row) ==> r == IntegrityError && rows == old(rows)
    {
      if CanInsert(rows, row) {
        InsertKeepsUnique(rows, row);
        r := Created(|rows|);
        rows := rows + [row];
      } else {
        r := IntegrityError;
      }
    }

    /** `create_paypal_transaction`: only for the `pay` resource, one new row from the gateway's answer. */
    method CreatePaypalTransaction(sender: string, data: PayData, form: PayForm) returns (r: CreateResult)
      requires Valid()
      modifies this
      ensures Valid()
      ensures sender != "pay" ==> r == CreateSkipped && rows == old(rows)
      ensures sender == "pay" && CanInsert(old(rows), PaypalRow(data, form)) ==>
        r == Created(|old(rows)|) && rows == old(rows) + [PaypalRow(data, form)]
      ensures sender == "pay" && !CanInsert(old(rows), PaypalRow(data, form)) ==>
        r == IntegrityError && rows == old(rows)
      ensures r.Created? ==> var row := rows[r.index];
        && row.provider == SourcePaypal && row.transactionType == TypePayment && row.status == StatusPending
        && row.uidPay == data.payKey && row.uidSupport == Some(data.correlationId) && row.uuid == data.uuid
        && row.amount == form.amount && row.currency == form.currency && row.seller == form.seller
        && row.source == (if form.source.Some? then form.source.value else "")
    {
      if sender != "pay" {
        return CreateSkipped;
      }
      r := Create(PaypalRow(data, form));
    }

    /**
     * `completed_paypal_transaction`: only for the `pay-check` resource; a 404
     * for an unknown pay key, otherwise a pending row reported `COMPLETED`
     * becomes checked.
     */
    method CompletedPaypalTransaction(sender: string, data: CheckData) returns (r: CompleteResult)
      requires Valid()
      modifies this
      ensures Valid()
      ensures sender != "pay-check" ==> r == CompleteSkipped && rows == old(rows)
      ensures sender == "pay-check" ==> match CompleteRows(old(rows), data.payKey, data.status)
        case Err(_) => r == CompleteNotFound && rows == old(rows)
        case Ok(after) => r == Completed && rows == after
    {
      if sender != "pay-check" {
        return CompleteSkipped;
      }
      var found := FindByUidPay(rows, data.payKey);
      if found.None? {
        return CompleteNotFound;
      }
      var i := found.value;
      CompleteKeepsUnique(rows, data.payKey, data.status);
      if rows[i].status == StatusPending {
        if data.status == "COMPLETED" {
          rows := rows[i := rows[i].(status := StatusChecked)];
        }
      }
      r := Completed;
    }

    /** `create_bango_transaction`: only for the `create-billing` resource, one new row. */
    method CreateBangoTransaction(sender: string, bundle: BangoBundle, data: BangoData, form: BangoForm)
      returns (r: CreateResult)
      requires Valid()
      modifies this
      ensures Valid()
      ensures sender != "create-billing" ==> r == CreateSkipped && rows == old(rows)
      ensures sender == "create-billing" && CanInsert(old(rows), BangoRowAsWritten(bundle, data, form)) ==>
        r == Created(|old(rows)|) && rows == old(rows) + [BangoRowAsWritten(bundle, data, form)]
      ensures sender == "create-billing" && !CanInsert(old(rows), BangoRowAsWritten(bundle, data, form)) ==>
        r == IntegrityError && rows == old(rows)
      ensures r.Created? ==> var row := rows[r.index];
        && row.provider == SourceBango && row.transactionType == TypePayment && row.status == StatusPending
        && row.uuid == data.externalTransactionId && row.uidPay == bundle.billingConfigurationId
        && row.amount == form.priceAmount && row.currency == "USD" && row.seller == form.seller
        && row.uidSupport == Some("")
    {
      if sender != "create-billing" {
        return CreateSkipped;
      }
      r := Create(BangoRowAsWritten(bundle, data, form));
    }
  }

  /**
   * Two Bango purchases on an empty table, as the handler is written: the
   * first is stored, the second clashes with it on the empty `uid_support`.
   */
  method TwoBangoPurchases(b1: BangoBundle, d1: BangoData, f1: BangoForm,
                           b2: BangoBundle, d2: BangoData, f2: BangoForm)
    returns (first: CreateResult, second: CreateResult, count: nat)
    ensures first == Created(0) && second == IntegrityError && count == 1
  {
    var table := new TransactionTable();
    first := table.CreateBangoTransaction("create-billing", b1, d1, f1);
    SecondBangoRowRejectedAsWritten(b1, d1, f1, b2, d2, f2);
    second := table.CreateBangoTransaction("create-billing", b2, d2, f2);
    count := |table.rows|;
  }

  /**
   * The PayPal flow of the tests: a `pay` on an empty table stores one
   * pending row; a `pay-check` reported `COMPLETED` makes it checked; once
   * the row is set to completed, a replayed check leaves it completed; an
   * unknown pay key is a 404.
   */
  method PayThenCheck(data: PayData, form: PayForm, unknownKey: string)
    returns (created: CreateResult, count: nat, before: Status, checked: Status, replayed: Status,
             missing: CompleteResult)
    requires unknownKey != data.payKey
    ensures created == Created(0) && count == 1
    ensures before == StatusPending && checked == StatusChecked && replayed == StatusCompleted
    ensures missing == CompleteNotFound
  {
    var table := new TransactionTable();
    created := table.CreatePaypalTransaction("pay", data, form);
    count := |table.rows|;
    before := table.rows[0].status;
    var done := table.CompletedPaypalTransaction("pay-check", CheckData(data.payKey, "COMPLETED"));
    checked := table.rows[0].status;
    table.rows := table.rows[0 := table.rows[0].(status := StatusCompleted)];
    done := table.CompletedPaypalTransaction("pay-check", CheckData(data.payKey, "COMPLETED"));
    replayed := table.rows[0].status;
    missing := table.CompletedPaypalTransaction("pay-check", CheckData(unknownKey, "COMPLETED"));
  }
}
