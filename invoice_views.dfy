/**
 * The invoice endpoints of billy/api/invoice/views.py (`post` on the index,
 * `put`, `refund` and `cancel` on one invoice) as functions from their
 * inputs to what they do: a trace of the calls they make, in order, and the
 * response.
 *
 * The customer, the caller's company and the results of the invoice and
 * transaction models and of the processor are inputs: what those
 * collaborators do is not part of this model, only when and with what they
 * are called.  A failing collaborator is an `Err` whose exception propagates
 * out of the endpoint; the step that raised is the last of the trace.
 *
 * Each model call made inside `with db_transaction.manager:` is one atomic
 * unit, and the trace lists units separately, so a later unit that raises
 * cannot undo an earlier one.
 */
module InvoiceViews {
  import opened Wrappers
  import opened ItemParsing

  type Guid = string

  datatype Company = Company(guid: Guid, processorKey: string)

  /** The customer the form's customer guid names. */
  datatype Customer = Customer(guid: Guid, company: Company, deleted: bool)

  /** The fields of a validated invoice-creation form; a field not sent is `None`. */
  datatype CreateForm = CreateForm(
    amount: int,
    fundingInstrumentUri: Option<string>,
    title: Option<string>,
    externalId: Option<string>,
    appearsOnStatementAs: Option<string>)

  /** The arguments `post` passes to the invoice model's `create`. */
  datatype CreateArgs = CreateArgs(
    customer: Customer,
    amount: int,
    fundingInstrumentUri: Option<string>,
    title: Option<string>,
    items: Option<seq<Item>>,
    adjustments: Option<seq<Item>>,
    externalId: Option<string>,
    appearsOnStatementAs: Option<string>)

  /** The invoice `create` returns: its guid and `list(invoice.transactions)`. */
  datatype CreatedInvoice = CreatedInvoice(guid: Guid, transactions: seq<Guid>)

  /** One call an endpoint makes. */
  datatype Step =
    | ValidateFundingInstrument(processorKey: string, uri: string)
    | CreateInvoice(args: CreateArgs)
    | UpdateFundingInstrument(invoice: Guid, newUri: Option<string>)
    | RefundInvoice(invoice: Guid, amount: int)
    | CancelInvoice(invoice: Guid)
    | ProcessTransactions(transactions: seq<Guid>)
  {
    /** A unit that writes invoice and transaction records. */
    predicate IsRecordUnit()
    {
      CreateInvoice? || UpdateFundingInstrument? || RefundInvoice? || CancelInvoice?
    }
  }

  datatype Outcome =
    | Returned(invoice: Guid)
    | Forbidden
    | BadRequest
    | Raised(error: string)

  datatype Response = Response(trace: seq<Step>, outcome: Outcome)

  /* ------------------------------------------------------------------ */
  /* The phases every endpoint goes through                              */
  /* ------------------------------------------------------------------ */

  /**
   * Start -> (validation probe) -> one record unit -> (one processing unit):
   * the probe only before the records are written, processing only after.
   */
  datatype Phase = Start | Probed | Recorded | Processed

  function Next(p: Phase, s: Step): Option<Phase>
  {
    match s
    case ValidateFundingInstrument(_, _) => if p == Start then Some(Probed) else None
    case ProcessTransactions(_) => if p == Recorded then Some(Processed) else None
    case _ => if p == Start || p == Probed then Some(Recorded) else None
  }

  function Run(p: Phase, t: seq<Step>): Option<Phase>
    decreases |t|
  {
    if t == [] then Some(p)
    else
      match Next(p, t[0])
      case None => None
      case Some(q) => Run(q, t[1..])
  }

  /** The trace is one the phase machine accepts. */
  predicate Phased(t: seq<Step>)
  {
    Run(Start, t).Some?
  }

  /** Running the machine over one more step. */
  lemma {:induction false} RunSnoc(p: Phase, t: seq<Step>, s: Step)
    ensures Run(p, t + [s]) == if Run(p, t).Some? then Next(Run(p, t).value, s) else None
    decreases |t|
  {
    if t != [] {
      assert (t + [s])[1..] == t[1..] + [s];
      if Next(p, t[0]).Some? {
        RunSnoc(Next(p, t[0]).value, t[1..], s);
      }
    } else {
      assert [s][1..] == [];
    }
  }

  /** A record unit, alone or followed by a processing unit, is accepted. */
  lemma RecordThenProcess(s: Step, transactions: seq<Guid>)
    requires s.IsRecordUnit()
    ensures Run(Start, [s]) == Some(Recorded)
    ensures Run(Start, [s, ProcessTransactions(transactions)]) == Some(Processed)
  {
    var p := ProcessTransactions(transactions);
    assert Next(Start, s) == Some(Recorded);
    assert [s][1..] == [];
    assert Run(Start, [s]) == Run(Recorded, []);
    assert [s, p][1..] == [p];
    assert [p][1..] == [];
    assert Run(Recorded, [p]) == Run(Processed, []);
    assert Run(Start, [s, p]) == Run(Recorded, [p]);
  }

  /** Probe, record unit, processing unit: the order steps must come in. */
  function Rank(s: Step): int
  {
    if s.ValidateFundingInstrument? then 0
    else if s.ProcessTransactions? then 2
    else 1
  }

  function PhaseRank(p: Phase): int
  {
    match p
    case Start => -1
    case Probed => 0
    case Recorded => 1
    case Processed => 2
  }

  lemma {:induction false} RunOrder(p: Phase, t: seq<Step>)
    requires Run(p, t).Some?
    ensures forall i :: 0 <= i < |t| ==> PhaseRank(p) < Rank(t[i])
    ensures forall i, j :: 0 <= i < j < |t| ==> Rank(t[i]) < Rank(t[j])
    ensures forall i :: 0 <= i < |t| && t[i].ProcessTransactions? ==>
              (i == 0 && p == Recorded) || (0 < i && t[i - 1].IsRecordUnit())
    decreases |t|
  {
    if t != [] {
      var q := Next(p, t[0]).value;
      RunOrder(q, t[1..]);
      assert forall i :: 1 <= i < |t| ==> t[i] == t[1..][i - 1];
      assert PhaseRank(p) < Rank(t[0]) && PhaseRank(q) == Rank(t[0]);
      assert t[0].ProcessTransactions? ==> p == Recorded;
      assert q == Recorded ==> t[0].IsRecordUnit();
    }
  }

  /**
   * In an accepted trace there is at most one probe, one record unit and
   * one processing unit, in that order, and a processing unit directly
   * follows a record unit.
   */
  lemma PhasedOrder(t: seq<Step>)
    requires Phased(t)
    ensures forall i, j :: 0 <= i < j < |t| ==> Rank(t[i]) < Rank(t[j])
    ensures forall i :: 0 <= i < |t| && t[i].ProcessTransactions? ==> 0 < i && t[i - 1].IsRecordUnit()
  {
    RunOrder(Start, t);
  }

  /* ------------------------------------------------------------------ */
  /* Normalising the form                                                */
  /* ------------------------------------------------------------------ */

  /** `if not value: value = None` for a string field. */
  function NoneIfEmpty(value: Option<string>): (r: Option<string>)
    ensures r.None? <==> (value.None? || value.value == "")
    ensures r.Some? ==> r == value
  {
    if value.Some? && value.value != "" then value else None
  }

  /** `if not items: items = None` for a parsed list. */
  function NoneIfNoItems(items: seq<Item>): (r: Option<seq<Item>>)
    ensures r.None? <==> items == []
    ensures r.Some? ==> r.value == items
  {
    if items == [] then None else Some(items)
  }

  /** No optional argument is an empty string or an empty list. */
  predicate Normalised(args: CreateArgs)
  {
    && args.fundingInstrumentUri != Some("")
    && args.title != Some("")
    && args.externalId != Some("")
    && args.appearsOnStatementAs != Some("")
    && args.items != Some([])
    && args.adjustments != Some([])
  }

  const ItemKeywords: seq<string> := ["type", "name", "volume", "amount", "unit", "quantity"]
  const AdjustmentKeywords: seq<string> := ["amount", "reason"]

  /** What `post` passes to `create`. */
  ghost function CreateArguments(form: CreateForm, params: seq<Param>, customer: Customer): (args: CreateArgs)
    ensures Normalised(args)
    ensures args.customer == customer && args.amount == form.amount
    ensures args.fundingInstrumentUri == NoneIfEmpty(form.fundingInstrumentUri)
    ensures args.title == NoneIfEmpty(form.title)
    ensures args.externalId == NoneIfEmpty(form.externalId)
    ensures args.appearsOnStatementAs == NoneIfEmpty(form.appearsOnStatementAs)
    ensures args.items.None? <==> ParsedItems(params, "item_", ItemKeywords) == []
    ensures args.items.Some? ==> args.items.value == ParsedItems(params, "item_", ItemKeywords)
    ensures args.adjustments.None? <==> ParsedItems(params, "adjustment_", AdjustmentKeywords) == []
    ensures args.adjustments.Some? ==> args.adjustments.value == ParsedItems(params, "adjustment_", AdjustmentKeywords)
  {
    CreateArgs(
      customer,
      form.amount,
      NoneIfEmpty(form.fundingInstrumentUri),
      NoneIfEmpty(form.title),
      NoneIfNoItems(ParsedItems(params, "item_", ItemKeywords)),
      NoneIfNoItems(ParsedItems(params, "adjustment_", AdjustmentKeywords)),
      NoneIfEmpty(form.externalId),
      NoneIfEmpty(form.appearsOnStatementAs))
  }

  /* ------------------------------------------------------------------ */
  /* Helpers on traces                                                   */
  /* ------------------------------------------------------------------ */

  ghost predicate Probes(t: seq<Step>)
  {
    exists i :: 0 <= i < |t| && t[i].ValidateFundingInstrument?
  }

  ghost predicate Records(t: seq<Step>)
  {
    exists i :: 0 <= i < |t| && t[i].IsRecordUnit()
  }

  ghost predicate Processes(t: seq<Step>)
  {
    exists i :: 0 <= i < |t| && t[i].ProcessTransactions?
  }

  /** The units that took effect: a unit that raised is rolled back. */
  function Committed(r: Response): seq<Step>
  {
    if r.outcome.Raised? && r.trace != [] then r.trace[..|r.trace| - 1] else r.trace
  }

  /* ------------------------------------------------------------------ */
  /* The endpoints                                                       */
  /* ------------------------------------------------------------------ */

  /**
   * `InvoiceIndexView.post`: the customer must belong to the caller's
   * company and not be deleted; a funding instrument URI is validated with
   * the processor before anything is written; the invoice is created in one
   * unit; when a URI was given and the invoice has transactions, they are
   * processed in a second unit.
   */
  ghost function Post(form: CreateForm, params: seq<Param>, caller: Company, customer: Customer,
                      probe: Result<(), string>, create: Result<CreatedInvoice, string>,
                      process: Result<(), string>): (r: Response)
    ensures Phased(r.trace)
    ensures r.outcome == Forbidden <==> customer.company != caller
    ensures r.outcome == BadRequest <==> customer.company == caller && customer.deleted
    ensures r.outcome.Forbidden? || r.outcome.BadRequest? ==> r.trace == []
    ensures Probes(r.trace) <==>
              customer.company == caller && !customer.deleted && NoneIfEmpty(form.fundingInstrumentUri).Some?
    ensures forall i :: 0 <= i < |r.trace| && r.trace[i].IsRecordUnit() ==>
              r.trace[i] == CreateInvoice(CreateArguments(form, params, customer))
    ensures Processes(r.trace) <==>
              Records(r.trace) && NoneIfEmpty(form.fundingInstrumentUri).Some? &&
              create.Ok? && create.value.transactions != []
    ensures customer.company == caller && !customer.deleted ==>
              r == CreateAndProcess(CreateArguments(form, params, customer), customer.company.processorKey,
                                    probe, create, process)
  {
    if customer.company != caller then Response([], Forbidden)
    else if customer.deleted then Response([], BadRequest)
    else CreateAndProcess(CreateArguments(form, params, customer), customer.company.processorKey, probe, create, process)
  }

  /**
   * The part of `post` after the customer checks: the probe when a URI is
   * given, the creating unit, then the processing unit when a URI is given
   * and the new invoice has transactions.
   */
  function CreateAndProcess(args: CreateArgs, processorKey: string, probe: Result<(), string>,
                            create: Result<CreatedInvoice, string>, process: Result<(), string>): (r: Response)
    ensures Phased(r.trace)
    ensures r.outcome.Returned? || r.outcome.Raised?
    ensures Probes(r.trace) <==> args.fundingInstrumentUri.Some?
    ensures forall i :: 0 <= i < |r.trace| && r.trace[i].ValidateFundingInstrument? ==>
              r.trace[i] == ValidateFundingInstrument(processorKey, args.fundingInstrumentUri.value)
    ensures Records(r.trace) <==> args.fundingInstrumentUri.None? || probe.Ok?
    ensures forall i :: 0 <= i < |r.trace| && r.trace[i].IsRecordUnit() ==> r.trace[i] == CreateInvoice(args)
    ensures Processes(r.trace) <==>
              Records(r.trace) && args.fundingInstrumentUri.Some? && create.Ok? && create.value.transactions != []
    ensures forall i :: 0 <= i < |r.trace| && r.trace[i].ProcessTransactions? ==>
              r.trace[i].transactions == create.value.transactions
    ensures Records(r.trace) && create.Ok? ==> Records(Committed(r))
    ensures r.outcome.Returned? ==> create.Ok? && r.outcome.invoice == create.value.guid
    ensures r.outcome.Raised? <==>
              (args.fundingInstrumentUri.Some? && probe.Err?) || create.Err? || (Processes(r.trace) && process.Err?)
    ensures args.fundingInstrumentUri.Some? && probe.Err? ==> r.outcome == Raised(probe.error) && Committed(r) == []
    ensures Records(r.trace) && create.Err? ==> r.outcome == Raised(create.error)
    ensures create.Err? ==> !Records(Committed(r))
    ensures Processes(r.trace) && process.Err? ==>
              r.outcome == Raised(process.error) && Records(Committed(r)) && !Processes(Committed(r))
  {
    var uri := args.fundingInstrumentUri;
    var probed := if uri.Some? then [ValidateFundingInstrument(processorKey, uri.value)] else [];
    assert uri.Some? ==> probed[0].ValidateFundingInstrument?;
    if uri.Some? && probe.Err? then Response(probed, Raised(probe.error))
    else
      var recorded := probed + [CreateInvoice(args)];
      RunSnoc(Start, probed, CreateInvoice(args));
      assert recorded[|recorded| - 1].IsRecordUnit();
      match create
      case Err(e) => Response(recorded, Raised(e))
      case Ok(invoice) =>
        if uri.Some? && invoice.transactions != [] then
          var processed := recorded + [ProcessTransactions(invoice.transactions)];
          assert processed[|processed| - 1].ProcessTransactions?;
          assert processed[|processed| - 2].IsRecordUnit();
          RunSnoc(Start, recorded, ProcessTransactions(invoice.transactions));
          Response(processed, if process.Ok? then Returned(invoice.guid) else Raised(process.error))
        else Response(recorded, Returned(invoice.guid))
  }

  /**
   * `InvoiceView.put`: the funding instrument URI, as sent, goes to the
   * model in one unit; the transactions it returns are processed in a
   * second unit when the URI is a non-empty string and there are some.
   */
  function Put(invoice: Guid, uri: Option<string>, update: Result<seq<Guid>, string>,
               process: Result<(), string>): (r: Response)
    ensures Phased(r.trace)
    ensures r.trace != [] && r.trace[0] == UpdateFundingInstrument(invoice, uri)
    ensures Processes(r.trace) <==> update.Ok? && NoneIfEmpty(uri).Some? && update.value != []
    ensures forall i :: 0 <= i < |r.trace| && r.trace[i].ProcessTransactions? ==>
              r.trace[i].transactions == update.value
    ensures update.Ok? ==> Records(Committed(r))
    ensures r.outcome.Returned? || r.outcome.Raised?
    ensures r.outcome.Returned? ==> r.outcome.invoice == invoice
    ensures r.outcome.Raised? <==> update.Err? || (Processes(r.trace) && process.Err?)
    ensures update.Err? ==> r.outcome == Raised(update.error) && !Records(Committed(r))
    ensures Processes(r.trace) && process.Err? ==>
              r.outcome == Raised(process.error) && Records(Committed(r)) && !Processes(Committed(r))
  {
    var recorded := [UpdateFundingInstrument(invoice, uri)];
    match update
    case Err(e) => Response(recorded, Raised(e))
    case Ok(transactions) =>
      if uri.Some? && uri.value != "" && transactions != [] then
        var processed := recorded + [ProcessTransactions(transactions)];
        assert processed[1].ProcessTransactions?;
        RecordThenProcess(recorded[0], transactions);
        assert processed == [recorded[0], ProcessTransactions(transactions)];
        Response(processed,
                 if process.Ok? then Returned(invoice) else Raised(process.error))
      else Response(recorded, Returned(invoice))
  }

  /**
   * `InvoiceView.refund`: the refund is recorded in one unit; the
   * transactions it returns are processed in a second unit when there are
   * some.
   */
  function RefundEndpoint(invoice: Guid, amount: int, refund: Result<seq<Guid>, string>,
                          process: Result<(), string>): (r: Response)
    ensures Phased(r.trace)
    ensures r.trace != [] && r.trace[0] == RefundInvoice(invoice, amount)
    ensures Processes(r.trace) <==> refund.Ok? && refund.value != []
    ensures forall i :: 0 <= i < |r.trace| && r.trace[i].ProcessTransactions? ==>
              r.trace[i].transactions == refund.value
    ensures refund.Ok? ==> Records(Committed(r))
    ensures r.outcome.Returned? || r.outcome.Raised?
    ensures r.outcome.Returned? ==> r.outcome.invoice == invoice
    ensures r.outcome.Raised? <==> refund.Err? || (Processes(r.trace) && process.Err?)
    ensures refund.Err? ==> r.outcome == Raised(refund.error) && !Records(Committed(r))
    ensures Processes(r.trace) && process.Err? ==>
              r.outcome == Raised(process.error) && Records(Committed(r)) && !Processes(Committed(r))
  {
    var recorded := [RefundInvoice(invoice, amount)];
    match refund
    case Err(e) => Response(recorded, Raised(e))
    case Ok(transactions) =>
      if transactions != [] then
        var processed := recorded + [ProcessTransactions(transactions)];
        assert processed[1].ProcessTransactions?;
        RecordThenProcess(recorded[0], transactions);
        assert processed == [recorded[0], ProcessTransactions(transactions)];
        Response(processed,
                 if process.Ok? then Returned(invoice) else Raised(process.error))
      else Response(recorded, Returned(invoice))
  }

  /** `InvoiceView.cancel`: one unit that cancels the invoice; nothing is processed. */
  function Cancel(invoice: Guid, cancel: Result<(), string>): (r: Response)
    ensures Phased(r.trace)
    ensures r.trace == [CancelInvoice(invoice)]
    ensures !Processes(r.trace)
    ensures r.outcome.Returned? <==> cancel.Ok?
    ensures r.outcome.Returned? ==> r.outcome.invoice == invoice
    ensures cancel.Err? ==> r.outcome == Raised(cancel.error) && Committed(r) == []
  {
    Response([CancelInvoice(invoice)], if cancel.Ok? then Returned(invoice) else Raised(cancel.error))
  }
}
