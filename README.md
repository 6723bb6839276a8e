# solitude payment core, modelled in Dafny

This project models three small pieces of the solitude payment backend.

- **Billing** (`billing.dfy`). This is the Bango billing-configuration endpoint. `prepare` turns a validated request into the payload of the vendor's `CreateBillingConfiguration` call:
  - it builds a price list, dropping each price whose currency is already listed and keeping the first one;
  - it picks a payment-type filter, the reduced `MICRO_PAYMENT_TYPES` only when every price is operator-billed;
  - it assembles the named configuration options;
  - it rewrites the `bango_data` dictionary: some keys are popped and the payload keys are set.

  The `billing` view validates the request, calls `prepare`, calls the vendor and shapes the JSON response.
- **Transactions** (`transactions.dfy`). A `TransactionTable` object owns the rows of the transaction table. The table keeps its unique indexes on `uid_support`, `uid_pay` and `uuid` as an invariant. Signal handlers write to it:
  - PayPal `pay` creates a row;
  - PayPal `pay-check` looks a row up by pay key (404 when absent) and moves a pending row to checked when the gateway reports `COMPLETED`;
  - Bango `create-billing` creates a row.
- **Buyers** (`buyers.dfy`). A `Buyer` object holds the PIN-lockout state: a failure counter, a lockout timestamp that expires and a sticky "was locked out" flag. It also supports `close`, which anonymises the buyer and cannot be repeated. The implementation file is not part of this model. The behaviour follows what the buyer model tests assert, and each lockout and close test except `test_clear` and `test_signal` (see "## Left out") has a scenario method that replays it on a fresh buyer.

Settings (`TRANSACTION_EXPIRY`, `SEND_USER_ID_TO_BANGO`, `BANGO_ICON_URLS`, `PIN_FAILURES`, `PIN_FAILURE_LENGTH`) are explicit parameters. So are the constants that are not shown (`PAYMENT_TYPES`, `MICRO_PAYMENT_TYPES`, `PAYMENT_METHOD_OPERATOR`, `ANONYMISED`). The clock is a parameter `now`, in integer seconds. The random part of an anonymised uuid, `sign`, and the vendor client are parameters too. Amounts are integer cents. `wrappers.dfy` holds the shared `Option` and `Result` types.

Two points are settled by the code and the tests:
- The value of `STATUS_DEFAULT` is not shown. The PayPal tests read a freshly created row back as `STATUS_PENDING`, so the model takes the default status to be pending.
- A PayPal completion moves a row to checked only when the row is pending and the gateway reports `'COMPLETED'` (lib/transactions/models.py:70-75).

## Model

| member | source | states |
|---|---|---|
| Billing.DedupCurrencies | lib/bango/views/billing.py:30-50 | A currency is in the output price list iff some input item has it: deduplication loses no currency and invents none |
| Billing.DedupDistinct | lib/bango/views/billing.py:38-50 | The output price list has pairwise-distinct currencies |
| Billing.DedupIsFirstOccurrences | lib/bango/views/billing.py:30-50 | The output equals the input filtered to the items that come first with their currency, in input order; later duplicates are dropped |
| Billing.DedupEntryIsFirst | lib/bango/views/billing.py:40-50 | Every output price is the amount and currency of the first input item with that currency |
| Billing.BuildPriceList | lib/bango/views/billing.py:28-50 | The loop with its inner search and `append` flag yields exactly the deduplicated price list, and `price_types` is the set of every item's method, skipped duplicates included |
| Billing.AllOperatorIff | lib/bango/views/billing.py:57-59 | `price_types == {operator}` holds iff the list is non-empty and every item is operator-billed |
| Billing.TypeFilterChoice | lib/bango/views/billing.py:57-64 | The reduced filter list is chosen iff the list is non-empty and every item is operator-billed; otherwise, an empty price list included, it is `PAYMENT_TYPES` |
| Billing.RequiredPresentIff | lib/bango/views/billing.py:67-78 | The precondition of `Configs` and `Prepare` holds exactly when every key `prepare` reads without a default is in `bango_data` |
| Billing.Configs | lib/bango/views/billing.py:66-86 | The option keys are the six fixed names, plus `MOZ_USER_ID` iff `SEND_USER_ID_TO_BANGO`, plus `APPLICATION_LOGO_URL` iff `BANGO_ICON_URLS` and a truthy `icon_url`; the category is `'18'`, the timeout is `TRANSACTION_EXPIRY + 60`, the signature signs `externalTransactionId`, and the other values are copied from the request |
| Billing.EmitOptions | lib/bango/views/billing.py:88-92 | Exactly one option per entry of `configs`, with its name and value copied and no name repeated (the order is left open) |
| Billing.TakeOptions | lib/bango/views/billing.py:67-86 | Fails with a `KeyError` iff a required key is missing, naming the first one in the order the source reads them; otherwise returns the data with the popped keys removed, and `configs` |
| Billing.Prepare | lib/bango/views/billing.py:19-95 | Fails exactly for a missing required key (the first in reading order). Otherwise the result's keys are the input's minus the popped ones, plus `bango`, `priceList`, `typeFilter` and `configurationOptions`. These hold the Bango number, the deduplicated prices, the chosen filter copied in order, and one option per config entry. Every other key is kept unchanged |
| Billing.ResponseData | lib/bango/views/billing.py:138-142 | The JSON body has exactly the keys `responseCode`, `responseMessage` and `billingConfigurationId`, each copied from the vendor's answer |
| Billing.Billing | lib/bango/views/billing.py:118-147 | A validation failure returns its error response. A missing `externalTransactionId` or other required key raises before any vendor call. Otherwise the prepared payload is sent, and the view either returns the shaped vendor answer or re-raises the vendor's error |
| Transactions.InsertKeepsUnique | lib/transactions/models.py:31-33 | Appending a row that collides with no stored row on `uid_support`, `uid_pay` or `uuid` keeps all three unique |
| Transactions.SecondBangoRowRejectedAsWritten | lib/transactions/models.py:89-96 | As written, any second Bango row collides with the first on the empty `uid_support` and is rejected |
| Transactions.BangoRowInsertable | lib/transactions/models.py:89-96 | With `uid_support` left NULL, a Bango row is rejected only for a clash on `uid_pay` or `uuid` |
| Transactions.FindByUidPay | lib/transactions/models.py:68 | The lookup finds a row with the pay key, or reports none iff no row has it |
| Transactions.Advance | lib/transactions/models.py:70-75 | Status changes iff it is pending and the reported status is `'COMPLETED'`, and then only to checked; a completed row is never moved back |
| Transactions.NotFoundIffNoRow | lib/transactions/models.py:68 | Completion yields 404 iff no row has the pay key |
| Transactions.CompleteChangesOnlyStatus | lib/transactions/models.py:68-75 | Completion changes only the status of the one row with the pay key, as `Advance` says; every other row and field is untouched |
| Transactions.CompleteKeepsUnique | lib/transactions/models.py:68-75 | Completion keeps the three keys unique |
| Transactions.CompleteIdempotent | lib/transactions/models.py:70-75 | Applying completion twice equals applying it once |
| Transactions.TransactionTable.Create | lib/transactions/models.py:31-33 | `objects.create` appends the row at the end when it collides with no stored row; otherwise it is an integrity error and the table is unchanged; the invariant is kept |
| Transactions.TransactionTable.CreatePaypalTransaction | lib/transactions/models.py:40-57 | No-op unless the sender is `pay`. Otherwise it adds exactly one row, or is rejected on a key clash. The row is PayPal, payment, pending, with `uid_pay`=`pay_key`, `uid_support`=`correlation_id`, `uuid`=`uuid`, and the form's amount, currency and seller; `source` defaults to `''` |
| Transactions.TransactionTable.CompletedPaypalTransaction | lib/transactions/models.py:62-75 | No-op unless the sender is `pay-check`. An unknown pay key is a 404 with the table unchanged. Otherwise the table becomes the completion of the old one, so only one status changes, pending to checked |
| Transactions.TransactionTable.CreateBangoTransaction | lib/transactions/models.py:78-96 | No-op unless the sender is `create-billing`. Otherwise it adds exactly one row, or is rejected on a key clash. The row is Bango, payment, pending, with `uuid`=`externalTransactionId`, `uid_pay`=`billingConfigurationId`, `amount`=`price_amount`, currency at its default `'USD'`, and `uid_support` at its column default `''` |
| Transactions.TwoBangoPurchases | lib/transactions/models.py:89-96 | On an empty table, a first `create-billing` is stored and any second one is rejected with an integrity error, because both rows have `uid_support = ''` |
| Transactions.PayThenCheck | lib/transactions/tests/test_models.py:30-90 | `pay` on an empty table stores one pending row. A `COMPLETED` check makes it checked. Once the row is set to completed, a replayed check leaves it completed. An unknown pay key is a 404 |
| Buyers.Buyer.constructor | lib/buyers/tests/test_models.py:48-50 | A new buyer is active, with no failures, no lockout and no "was locked out" mark |
| Buyers.Buyer.IncrLockout | lib/buyers/tests/test_models.py:58-85 | The counter goes up by exactly one. The answer is true iff the count has reached the threshold, and then the lockout is stamped and the sticky flag set; below it the lockout is unchanged |
| Buyers.Buyer.ClearLockout | lib/buyers/tests/test_models.py:73-98 | The counter becomes 0 and the lockout none. The sticky flag is kept unless `clear_was_locked` is given |
| Buyers.Buyer.LockedOut | lib/buyers/tests/test_models.py:52-113 | False with no lockout. True while the elapsed time is under the length. False once it is over the length, and then the read has cleared the lockout |
| Buyers.Buyer.Close | lib/buyers/tests/test_models.py:123-134 | An active buyer becomes inactive, with email and email signature empty and a uuid that starts with the anonymised prefix. A closed buyer gets `ValueError`, and nothing changes |
| Buyers.ScenarioLockedOut | lib/buyers/tests/test_models.py:52-56 | No lockout reads false; a lockout stamped now reads true |
| Buyers.ScenarioIncrement | lib/buyers/tests/test_models.py:58-71 | Over `PIN_FAILURES` calls, the count after call x is x. Every call before the last answers false and leaves no lockout. The last answers true and sets the lockout and the sticky flag |
| Buyers.ScenarioWasLockedOut | lib/buyers/tests/test_models.py:80-88 | A failure at the threshold sets the sticky flag, and a default clear keeps it |
| Buyers.ScenarioClearWasLockedOut | lib/buyers/tests/test_models.py:90-98 | A clear with `clear_was_locked` removes the sticky flag |
| Buyers.ScenarioUnderTimeout | lib/buyers/tests/test_models.py:100-105 | A lockout 60 seconds short of its length still holds |
| Buyers.ScenarioOverTimeout | lib/buyers/tests/test_models.py:107-113 | A lockout 60 seconds past its length reads false, and the stored lockout is cleared |
| Buyers.ScenarioClose | lib/buyers/tests/test_models.py:123-129 | After close the buyer is inactive, with empty email and signature and an anonymised uuid |
| Buyers.ScenarioRepeatClose | lib/buyers/tests/test_models.py:131-134 | The first close succeeds and the second fails |

## Findings

| source | as written | input that shows it | evidently intended | confidence | as-written member | corrected member |
|---|---|---|---|---|---|---|
| lib/transactions/models.py:89-96 | `create_bango_transaction` never gives `uid_support`. That column is unique and not nullable, so every Bango row stores the column default, the empty string | Two `create-billing` signals with different `billingConfigurationId` and `externalTransactionId`: the second row repeats `uid_support = ''` and the unique index rejects it | Bango rows leave `uid_support` NULL (or distinct), so only `uid_pay` and `uuid` can clash. A NULL there also needs the column declared `null=True` (lib/transactions/models.py:31); as declared, NULL is rejected too | medium; rests on the framework filling an absent non-null text column with `''`; not executed | Transactions.SecondBangoRowRejectedAsWritten | Transactions.BangoRowInsertable |

`CreateBangoTransaction` stores the row as written, `BangoRowAsWritten`, so the model's table rejects a second Bango purchase just as the source's table does (`TwoBangoPurchases`). `BangoRow` is the corrected row, and `BangoRowInsertable` states what it fixes.

## Left out

- lib/brains/management/commands/braintree_webhook.py: a developer tool made of environment reads, HTTP calls, base64, HMAC signing and XML templates. Nothing in it is modelled.
- The vendor SOAP client (`get_client`, the factory objects, the `CreateBillingConfiguration` call): the factory objects are sequences, and the client is a function parameter returning an answer or a `BangoError`.
- Form and serializer validation (`BangoResource.process`): its outcome is an input to `Billing.Billing`, either the cleaned data or the `ProcessError` response.
- Logging: it has no effect on any result.
- Billing.Prepare: `prepare` rewrites `form.bango_data` in place. The model returns the rewritten map and does not model that the form's dictionary is the same object.
- Billing.Prepare: `form.cleaned_data['prices']` is assumed present, because the form always supplies it.
- Billing.EmitOptions: a Python 2 dictionary yields its items in no specified order, so the contract leaves the option order open.
- Billing.TypeFilterChoice: it requires the two filter lists to differ, since their values are not shown.
- Django infrastructure: persistence, signal dispatch, `get_object_or_404` internals, the `ordering = ('-id',)` meta option, and foreign-key integrity to buyer and seller. The table is an in-memory sequence, the seller is a plain identifier already resolved from the form, and the 404 is a result value.
- The transaction handlers' inputs are assumed complete. The source reads them with subscripts that raise `KeyError` when a key is absent: `clean['amount']`, `clean['currency']`, `clean['seller']`, `data['pay_key']`, `data['correlation_id']`, `data['uuid']` and `data['status']` (lib/transactions/models.py:49-59, the last one read after the row is created), and `data['externalTransactionId']`, `bundle['billingConfigurationId']` and `form.cleaned_data['price_amount']` (lib/transactions/models.py:87-96). The records `PayData`, `PayForm`, `CheckData`, `BangoBundle`, `BangoData` and `BangoForm` always carry every field, so that error path is not modelled.
- The race in `completed_paypal_transaction`, which reads and then writes without a lock: the model is sequential.
- Decimal amounts and column widths (`max_digits`, `max_length`): amounts are integer cents and strings are unbounded.
- The `status` field of the PayPal gateway answer at creation: it is only logged.
- The buyer implementation, lib/buyers/models.py, is not part of this model. The Buyer model encodes what the tests assert, plus the choices below.
- Buyers.Buyer.LockedOut: when the elapsed time equals `PIN_FAILURE_LENGTH` exactly, the contract allows either answer, because no test fixes that boundary (the body keeps the lockout). On expiry the read also resets the failure counter, as a default `clear_lockout()` would; the tests only assert that the timestamp is cleared.
- Buyers.Buyer.IncrLockout: past the threshold, the model answers true and re-stamps the lockout with `now`. The tests only assert that the sticky flag is set there.
- Buyers.Buyer.Close: the guard that makes a second close fail is the `active` flag. The tests show only that a second close raises `ValueError`.
- Email encryption and the email signature of the buyer tests (lib/buyers/tests/test_models.py:13-43): they exercise a foreign encrypted-field library and hashing. The signature is a constructor argument.
- The `close_signal` test: it sets its flag before `close()` runs, so it asserts nothing about dispatch. Signals are not modelled.
- The `test_clear` test: it assigns a misspelled attribute (`pin_failues`), so it never sets the counter. Clear-after-failures behaviour is covered by the two "was locked out" scenarios.
