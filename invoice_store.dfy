/**
 * The invoice model as billy/tests/unit/test_models/test_invoice.py
 * exercises it: a store of invoices keyed by guid, with `create` and `get`.
 *
 * This piece keeps the vocabulary of that test: an invoice has a
 * `payment_uri`, and the transaction `create` makes for it is of type
 * TYPE_CHARGE, class CLS_INVOICE and status STATUS_INIT.  It is not
 * identified with the transaction table's DEBIT / STAGED rows.
 *
 * Guids come from a counter: the n-th invoice gets "IV" followed by the
 * decimal digits of n.  The clock is a parameter.
 */
module InvoiceStore {
  import opened Wrappers
  import opened PyInt

  type Guid = string
  type Time = int

  /** `InvoiceModel.STATUS_INIT` and `InvoiceModel.STATUS_PROCESSING`. */
  datatype InvoiceStatus = StatusInit | StatusProcessing

  /** `TransactionModel.TYPE_CHARGE`. */
  datatype TransactionType = TypeCharge

  /** `TransactionModel.CLS_INVOICE`. */
  datatype TransactionCls = ClsInvoice

  /** `TransactionModel.STATUS_INIT`. */
  datatype TransactionStatus = TransactionInit

  datatype StoredTransaction = StoredTransaction(
    transactionType: TransactionType,
    transactionCls: TransactionCls,
    status: TransactionStatus,
    invoiceGuid: Guid,
    amount: int,
    paymentUri: string)

  datatype Invoice = Invoice(
    guid: Guid,
    customerGuid: Guid,
    title: Option<string>,
    amount: int,
    paymentUri: Option<string>,
    status: InvoiceStatus,
    createdAt: Time,
    updatedAt: Time,
    transactions: seq<StoredTransaction>)

  /** `create` raises ValueError for an amount that is not positive. */
  datatype CreateError = ValueError

  /** `get(..., raise_error=True)` raises KeyError for an unknown guid. */
  datatype GetError = KeyError(guid: Guid)

  /** The guid handed to the n-th invoice. */
  function GuidFor(n: nat): (g: Guid)
    ensures |g| > 2 && g[..2] == "IV"
  {
    "IV" + NatToString(n)
  }

  /** No two invoices are handed the same guid. */
  lemma GuidForInjective(a: nat, b: nat)
    requires GuidFor(a) == GuidFor(b)
    ensures a == b
  {
    assert GuidFor(a)[2..] == NatToString(a);
    assert GuidFor(b)[2..] == NatToString(b);
    NatToStringInjective(a, b);
  }

  /**
   * The invoice `create` stores: INIT with no transactions without a payment
   * URI; PROCESSING with one charge for the whole amount with one.
   */
  function NewInvoice(guid: Guid, customerGuid: Guid, title: Option<string>, amount: int,
                      paymentUri: Option<string>, now: Time): (inv: Invoice)
    ensures inv.guid == guid && inv.customerGuid == customerGuid
    ensures inv.title == title && inv.amount == amount && inv.paymentUri == paymentUri
    ensures inv.createdAt == now && inv.updatedAt == now
    ensures paymentUri.None? ==> inv.status == StatusInit && inv.transactions == []
    ensures paymentUri.Some? ==>
              inv.status == StatusProcessing && |inv.transactions| == 1 &&
              inv.transactions[0].transactionType == TypeCharge &&
              inv.transactions[0].transactionCls == ClsInvoice &&
              inv.transactions[0].status == TransactionInit &&
              inv.transactions[0].invoiceGuid == guid &&
              inv.transactions[0].amount == amount &&
              inv.transactions[0].paymentUri == paymentUri.value
  {
    match paymentUri
    case None =>
      Invoice(guid, customerGuid, title, amount, None, StatusInit, now, now, [])
    case Some(uri) =>
      var charge := StoredTransaction(TypeCharge, ClsInvoice, TransactionInit, guid, amount, uri);
      Invoice(guid, customerGuid, title, amount, paymentUri, StatusProcessing, now, now, [charge])
  }

  class InvoiceModel {
    var invoices: map<Guid, Invoice>
    /** How many guids have been handed out. */
    var issued: nat

    ghost predicate Issued(g: Guid)
      reads this
    {
      exists n :: 0 <= n < issued && g == GuidFor(n)
    }

    /** Every invoice is filed under its own guid, which the counter handed out. */
    ghost predicate Valid()
      reads this
    {
      forall g :: g in invoices ==> invoices[g].guid == g && Issued(g)
    }

    constructor ()
      ensures Valid() && invoices == map[]
    {
      invoices := map[];
      issued := 0;
    }

    /**
     * `get(guid, raise_error)`: the invoice filed under `guid`; for an
     * unknown guid, None, or KeyError when `raise_error` is set.
     */
    method Get(guid: Guid, raiseError: bool) returns (r: Result<Option<Invoice>, GetError>)
      requires Valid()
      ensures guid in invoices ==> r.Ok? && r.value.Some? && r.value.value == invoices[guid]
      ensures r.Ok? && r.value.Some? ==> r.value.value.guid == guid
      ensures guid !in invoices && raiseError ==> r == Err(KeyError(guid))
      ensures guid !in invoices && !raiseError ==> r == Ok(None)
    {
      if guid in invoices {
        return Ok(Some(invoices[guid]));
      }
      if raiseError {
        return Err(KeyError(guid));
      }
      return Ok(None);
    }

    /**
     * `create`: a non-positive amount raises ValueError and stores nothing;
     * otherwise a fresh guid starting with "IV" files `NewInvoice`.
     */
    method Create(customerGuid: Guid, amount: int, title: Option<string>, paymentUri: Option<string>,
                  now: Time) returns (r: Result<Guid, CreateError>)
      requires Valid()
      modifies this
      ensures Valid()
      ensures amount <= 0 ==> r == Err(ValueError) && invoices == old(invoices)
      ensures amount > 0 ==> r.Ok? && |r.value| > 2 && r.value[..2] == "IV" && r.value !in old(invoices)
      ensures r.Ok? ==> invoices == old(invoices)[r.value := NewInvoice(r.value, customerGuid, title, amount, paymentUri, now)]
    {
      if amount <= 0 {
        return Err(ValueError);
      }
      var guid := GuidFor(issued);
      if guid in invoices {
        var n :| 0 <= n < issued && guid == GuidFor(n);
        GuidForInjective(n, issued);
        assert false;
      }
      invoices := invoices[guid := NewInvoice(guid, customerGuid, title, amount, paymentUri, now)];
      issued := issued + 1;
      forall g | g in invoices ensures Issued(g) {
        if g != guid {
          assert old(Issued(g));
          var n :| 0 <= n < issued - 1 && g == GuidFor(n);
          assert 0 <= n < issued;
        }
      }
      return Ok(guid);
    }
  }

  /**
   * The steps of the four tests of test_invoice.py, replayed against the
   * model; each of their assertions is an `assert` the verifier checks.
   */
  method InvoiceModelScenarios(customerGuid: Guid, now: Time)
  {
    var model := new InvoiceModel();
    var missing := model.Get("IV_NON_EXIST", false);
    assert missing == Ok(None);
    missing := model.Get("IV_NON_EXIST", true);
    assert missing.Err?;

    var created := model.Create(customerGuid, 1000, None, None, now);
    var guid := created.value;
    var got := model.Get(guid, false);
    assert got.value.value.guid == guid;

    created := model.Create(customerGuid, 556677, Some("Foobar invoice"), None, now);
    got := model.Get(created.value, false);
    var invoice := got.value.value;
    assert invoice.status == StatusInit && invoice.paymentUri == None && invoice.transactions == [];
    assert invoice.createdAt == now && invoice.updatedAt == now;

    created := model.Create(customerGuid, 556677, Some("Foobar invoice"), Some("/v1/cards/1234"), now);
    got := model.Get(created.value, false);
    invoice := got.value.value;
    assert invoice.status == StatusProcessing && |invoice.transactions| == 1;
    assert invoice.transactions[0].invoiceGuid == invoice.guid;
    assert invoice.transactions[0].paymentUri == "/v1/cards/1234";

    var before := model.invoices;
    created := model.Create(customerGuid, 0, None, None, now);
    assert created == Err(ValueError) && model.invoices == before;
  }
}
