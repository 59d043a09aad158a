# Billy invoices and transactions, modelled in Dafny

Billy is a billing engine. Customers of a company get invoices. Each invoice owns transactions (debits, credits, refunds, reversals), which are submitted to an external payment processor. This project models four parts of it:

- **Item parsing** (`item_parsing.dfy`, with `python_int.dfy`). The invoice API receives flat, numbered request parameters such as `item_name1` and `item_amount2`. `parse_items` turns them into a list of dictionaries, one per item number, in ascending order of that number. The model keeps the source's two nested loops and its in-place updates of the `items` dictionary. That method is proved equal to a specification function, and lemmas state what the result holds. Python's `int()` on a key's suffix is modelled as optional surrounding ASCII whitespace (including the separators U+001C to U+001F), an optional sign and one or more decimal digits.
- **The invoice endpoints** (`invoice_views.dfy`). `post` creates an invoice; `put` changes its funding instrument; `refund` and `cancel` act on one invoice. Each endpoint is a function from its inputs to a trace of the calls it makes and its response. A phase machine accepts the traces: at most one validation probe, then one unit that writes records, then at most one processing unit. The customer, the caller's company and what the invoice model, the transaction model and the processor return are all inputs.
- **The transaction table** (`transaction_table.dfy`). This covers the three enumerations and their stored string values, and the transaction row. NULL-able columns are `Option`s. It also covers the scalar `reference_to`/`reference_from` link and the `company` property. A `TransactionRecord` class keeps a transaction's event rows and failure rows. Its events are listed newest first and no two share a processor id. Its failures are listed oldest first, and `failure_count` equals their number.
- **The invoice store** (`invoice_store.dfy`), as `test_invoice.py` exercises it. A class maps guids to invoices. `create` files a new invoice under a fresh guid starting with `IV`. It rejects a non-positive amount with ValueError. `get` returns the invoice, or None for an unknown guid, or raises KeyError in `raise_error` mode. This piece keeps the test's own names: `payment_uri`, TYPE_CHARGE, CLS_INVOICE and STATUS_INIT. They are not identified with the table's `funding_instrument_uri`, DEBIT and STAGED.

`wrappers.dfy` holds the `Option` and `Result` datatypes.

Notes on the modelling:

- `request.params` is a sequence of key/value pairs. In the model, `request.params[key]` is the value of the last pair with that key; the nesting of query-string and body parameters is listed under "Left out". Two keys that parse to the same item number and keyword, such as `item_name1` and `item_name01`, both write the same entry. No lemma depends on which value wins.
- Each model call inside `with db_transaction.manager:` is one step of the trace. A collaborator that raises ends the trace, and its exception is the response (`Raised`). `Committed` drops that last step, which was rolled back. So the lemmas show that a processing unit that raises leaves the earlier record unit committed.
- Points of the endpoints' behaviour worth noting:
  - A deleted customer is rejected by the `post` view with BadRequest, and `create` is never called.
  - The funding instrument is probed whenever a non-empty URI is given.
  - An exception from `process_transactions` propagates out of the endpoint as `Raised`, while the record unit before it stays committed.
- The store's `create` rejects every amount `<= 0` with ValueError. The test pins only amount 0; the model treats every non-positive amount the same way.

## Model

| member | source | states |
|---|---|---|
| `ItemParsing.ParseItems` | billy/api/invoice/views.py:23-60 | `parse_items` returns exactly the specification `ParsedItems`: the grouped dictionaries listed by sorted item number |
| `ItemParsing.GroupParams` | billy/api/invoice/views.py:45-57 | the two nested loops, with their `setdefault` and keyword updates, build the same dictionary and key order as the specification `Grouped` |
| `ItemParsing.ParsedItemsAscending` | billy/api/invoice/views.py:58-60 | one dictionary per item number, emitted in strictly ascending order of the number |
| `ItemParsing.ParsedItemsNumbers` | billy/api/invoice/views.py:47-55 | an item number appears in the result iff some parameter key starts with `prefix + keyword` and `int()` accepts the rest; every other key is ignored |
| `ItemParsing.ParsedItemsEntries` | billy/api/invoice/views.py:56-57 | no returned dictionary is empty; each key in it is one of the keywords, and its value is the request's value for a parameter key carrying that item number |
| `ItemParsing.ParsedItemsComplete` | billy/api/invoice/views.py:46-57 | nothing is lost: every matching (parameter, keyword) pair has its keyword in the dictionary of its item number |
| `ItemParsing.GroupedKeysListed` | billy/api/invoice/views.py:56-58 | `list(items)` lists each key of the dictionary exactly once |
| `ItemParsing.SortInts` | billy/api/invoice/views.py:59 | `sorted(keys)` is a sorted permutation of the keys |
| `ItemParsing.ValueOfLast` | billy/api/invoice/views.py:57 | `request.params[key]` is the value of a pair with that key, and no later pair has the key |
| `PyInt.ParseInt` | billy/api/invoice/views.py:52-55 | `int()` accepts only strings that hold a digit; an empty suffix is rejected |
| `PyInt.ParseDigits` | billy/api/invoice/views.py:53 | a non-empty run of digits parses as its decimal value |
| `PyInt.ParseIntToString` | billy/api/invoice/views.py:53 | `int(str(n)) == n` for every integer, so every item number can be written as a key |
| `PyInt.LeadingZero` | billy/api/invoice/views.py:53 | a leading zero does not change the number: `item_name1` and `item_name01` name the same item |
| `InvoiceViews.NoneIfEmpty` | billy/api/invoice/views.py:96-107 | an absent or empty string field becomes None; any other value is kept |
| `InvoiceViews.NoneIfNoItems` | billy/api/invoice/views.py:108-121 | an empty item or adjustment list becomes None; a non-empty one is kept |
| `InvoiceViews.CreateArguments` | billy/api/invoice/views.py:94-121 | the arguments passed to `create` carry the customer and amount; each optional string is the form's value, or None when it is absent or empty; items and adjustments are the parsed lists for `item_` and `adjustment_` with their keywords, and None exactly when that list is empty |
| `InvoiceViews.Post` | billy/api/invoice/views.py:84-158 | Forbidden iff the customer's company is not the caller's, then BadRequest iff the customer is deleted, both with an empty trace; probe iff authorised, not deleted and a URI is given; the only record unit is `create` with the normalised arguments; processing iff a record unit ran, a URI was given, `create` succeeded and returned transactions; the trace is accepted by the phase machine; past both guards the response is exactly that of `CreateAndProcess` on the normalised arguments, so `create` runs in one unit and the new invoice is returned on success |
| `InvoiceViews.CreateAndProcess` | billy/api/invoice/views.py:136-157 | the probe uses the company's processor key and the URI and comes first; a failing probe stops before any record is written; processing gets exactly the new invoice's transactions; the outcome is Raised, carrying the collaborator's error, exactly when the probe, `create` or processing fails; a failing probe commits nothing, a failing `create` commits no record unit, and a failing processing unit is rolled back while the record unit stays committed; otherwise the new invoice is returned |
| `InvoiceViews.Put` | billy/api/invoice/views.py:168-190 | the update unit runs first with the URI as sent; processing runs iff the update succeeded, the URI is a non-empty string and transactions were returned, and on exactly those transactions; the outcome is Raised, carrying the error, exactly when the update or the processing fails; a failing update commits nothing, a failing processing unit is rolled back while the update stays committed; otherwise the invoice is returned |
| `InvoiceViews.RefundEndpoint` | billy/api/invoice/views.py:192-215 | the refund unit runs first; processing runs iff the refund succeeded and returned transactions, and on exactly those transactions; the outcome is Raised, carrying the error, exactly when the refund or the processing fails; a failing refund commits nothing, a failing processing unit is rolled back while the refund stays committed; otherwise the invoice is returned |
| `InvoiceViews.Cancel` | billy/api/invoice/views.py:217-228 | the trace is the single cancel unit; nothing is ever processed; the invoice is returned iff the cancel succeeded, and a failing cancel comes back as Raised with its error and commits nothing |
| `InvoiceViews.PhasedOrder` | billy/api/invoice/views.py:136-157 | in an accepted trace, probe, record unit and processing unit each occur at most once and in that order, and processing directly follows a record unit |
| `TransactionTable.EnumValuesRoundTrip` | billy/db/tables/transaction.py:18-39 | every type, submit status and status is stored as a string that reads back as itself |
| `TransactionTable.ParseType` | billy/db/tables/transaction.py:18-23 | a stored type is one of DEBIT, CREDIT, REFUND, REVERSE |
| `TransactionTable.ParseSubmitStatus` | billy/db/tables/transaction.py:26-32 | a stored submit status is one of STAGED, RETRYING, DONE, FAILED, CANCELED |
| `TransactionTable.ParseStatus` | billy/db/tables/transaction.py:35-39 | a stored status is one of PENDING, SUCCEEDED, FAILED |
| `TransactionTable.ReferenceFrom` | billy/db/tables/transaction.py:90-98 | the `reference_from` row, if found, refers to the target; if none is found, no row does |
| `TransactionTable.ReferenceFromUnique` | billy/db/tables/transaction.py:90-98 | with the backref scalar, the row found is the one row that refers to the target |
| `TransactionTable.StringLessTransitive` | billy/db/tables/transaction.py:106 | the ordering of processor ids is transitive |
| `TransactionTable.StringLessTotal` | billy/db/tables/transaction.py:106 | any two different processor ids are ordered one way or the other |
| `TransactionTable.InsertEventOrdered` | billy/db/tables/transaction.py:101-108 | adding an event whose processor id is new keeps the log newest first with unique ids |
| `TransactionTable.SortEventsOrdered` | billy/db/tables/transaction.py:101-108 | events with unique processor ids are listed by `occurred_at` descending, then `processor_id` descending |
| `TransactionTable.NewestFirstDetermined` | billy/db/tables/transaction.py:101-108 | two newest-first lists of the same events are equal, so the listing does not depend on insertion order |
| `TransactionTable.SortFailures` | billy/db/tables/transaction.py:110-117 | failures are listed by `created_at` ascending, and the listing is a permutation of the rows |
| `TransactionTable.TransactionRecord.constructor` | billy/db/tables/transaction.py:42-117 | a new transaction has empty event and failure logs |
| `TransactionTable.TransactionRecord.Events` | billy/db/tables/transaction.py:100-108 | `events` holds exactly the recorded events, newest first, with no processor id twice |
| `TransactionTable.TransactionRecord.Failures` | billy/db/tables/transaction.py:110-117 | `failures` holds exactly the recorded failures, oldest first |
| `TransactionTable.TransactionRecord.FailureCount` | billy/db/tables/transaction.py:119-124 | `failure_count` is the length of the failure log |
| `TransactionTable.TransactionRecord.AddEvent` | billy/db/tables/transaction.py:144-146 | an event with an already-recorded processor id is refused and nothing changes; otherwise the event joins the log and the ids stay unique |
| `TransactionTable.TransactionRecord.AddFailure` | billy/db/tables/transaction.py:110-124 | a failure joins the log, and `failure_count` grows by one |
| `TransactionTable.Company` | billy/db/tables/transaction.py:126-136 | the plan's company for a SUBSCRIPTION invoice, the customer's company otherwise |
| `InvoiceStore.NewInvoice` | billy/tests/unit/test_models/test_invoice.py:48-111 | the new invoice carries the customer guid, title, amount and payment URI given, and both timestamps equal the clock; without a payment URI it is INIT with no transactions; with one it is PROCESSING with one CHARGE / INVOICE / INIT transaction for the invoice's guid, amount and payment URI |
| `InvoiceStore.GuidForInjective` | billy/tests/unit/test_models/test_invoice.py:39-46 | different counters give different guids, so a new guid never collides with a stored one |
| `InvoiceStore.InvoiceModel.constructor` | billy/tests/unit/test_models/test_invoice.py:30-34 | a new store holds no invoice |
| `InvoiceStore.InvoiceModel.Get` | billy/tests/unit/test_models/test_invoice.py:30-46 | a stored guid yields its invoice, whose guid is that guid; an unknown guid yields None, or KeyError with `raise_error` |
| `InvoiceStore.InvoiceModel.Create` | billy/tests/unit/test_models/test_invoice.py:39-119 | a non-positive amount raises ValueError and stores nothing; otherwise it returns a fresh guid starting with `IV`, filed with `NewInvoice` |

## Left out

- Pyramid routing, permissions, `authenticated_userid` and HTTP response objects: a rejection is the abstract outcome `Forbidden` or `BadRequest`, and the caller's company is an input.
- `InvoiceIndexView.get`, `InvoiceView.get`, `InvoiceView.transaction_index` and `InvoiceResource.company`: these are listing and lookup plumbing through `list_by_context` and the resource classes, and hold no decision logic.
- `validate_form` and the form classes are not part of this model. The form's fields arrive already validated.
- The nesting of `request.params` (webob's `NestedMultiDict(GET, POST)`) is not modelled: the parameters are one sequence of pairs, and a lookup yields the last pair with the key. For a key sent both in the query string and in the body, webob yields the query-string value, while the model yields whichever pair comes later.
- `customer_model.get`: the customer is an input. An unknown customer guid, which would make `post` fail on `None`, is not modelled.
- The processor client: `configure_api_key` followed by `validate_funding_instrument` is one opaque `ValidateFundingInstrument` step. Its result is an input.
- The invoice and transaction models are not part of this model: `create`, `update_funding_instrument_uri`, `refund`, `cancel` and `process_transactions` of the views, and the retry policy. They are steps whose results are inputs.
- `db_transaction.manager` atomicity, SQLAlchemy cascades, indexes, lazy loading and column length limits: a unit is one step of the trace.
- The guid column of every table and the store's transaction guid: guids other than the invoice's `IV` guid are opaque strings, and the store does not assign a transaction guid.
- `created_at`/`updated_at` column defaults (`now_func`): the clock is a parameter, and every timestamp is a plain integer.
- `TransactionTable.SortFailures`: the database leaves the order of failures with equal `created_at` open. The model lists them in one fixed order, and no lemma depends on that order.
- `PyInt.ParseInt`: non-ASCII digits and non-ASCII whitespace (such as U+0085, U+00A0 or U+3000), which Python's `int()` on a unicode string also accepts, are not modelled; a key whose suffix uses them is skipped by the model.
- `InvoiceStore`: only the constants the test names (TYPE_CHARGE, CLS_INVOICE, the STATUS_INIT of transactions, STATUS_INIT and STATUS_PROCESSING of invoices) are modelled; the other values of those enumerations are not shown.
