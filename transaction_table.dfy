/**
 * The transaction table of billy/db/tables/transaction.py: the three
 * enumerations, the transaction row with its required and optional columns,
 * its event log (newest first, one event per processor id) and its failure
 * log (oldest first), the `failure_count` and `company` properties, and the
 * scalar `reference_to` / `reference_from` relationship.
 *
 * A column that may be NULL is an `Option`; a NOT NULL column is a plain
 * value.  Times are integers on one clock (the processor's clock for an
 * event's `occurred_at`).
 */
module TransactionTable {
  import opened Wrappers

  type Guid = string
  type Time = int

  /* ------------------------------------------------------------------ */
  /* The enumerations and their stored values                            */
  /* ------------------------------------------------------------------ */

  datatype TransactionType = Debit | Credit | Refund | Reverse

  datatype TransactionSubmitStatus = Staged | Retrying | Done | Failed | Canceled

  datatype TransactionStatus = Pending | Succeeded | Failed

  /** The value each transaction type is stored as. */
  function TypeValue(t: TransactionType): string
  {
    match t
    case Debit => "DEBIT"
    case Credit => "CREDIT"
    case Refund => "REFUND"
    case Reverse => "REVERSE"
  }

  /** Reading a stored transaction type back; any other string is not one. */
  function ParseType(s: string): (r: Option<TransactionType>)
    ensures r.Some? <==> s in {"DEBIT", "CREDIT", "REFUND", "REVERSE"}
  {
    if s == "DEBIT" then Some(Debit)
    else if s == "CREDIT" then Some(Credit)
    else if s == "REFUND" then Some(Refund)
    else if s == "REVERSE" then Some(Reverse)
    else None
  }

  function SubmitStatusValue(t: TransactionSubmitStatus): string
  {
    match t
    case Staged => "STAGED"
    case Retrying => "RETRYING"
    case Done => "DONE"
    case Failed => "FAILED"
    case Canceled => "CANCELED"
  }

  function ParseSubmitStatus(s: string): (r: Option<TransactionSubmitStatus>)
    ensures r.Some? <==> s in {"STAGED", "RETRYING", "DONE", "FAILED", "CANCELED"}
  {
    if s == "STAGED" then Some(Staged)
    else if s == "RETRYING" then Some(Retrying)
    else if s == "DONE" then Some(Done)
    else if s == "FAILED" then Some(TransactionSubmitStatus.Failed)
    else if s == "CANCELED" then Some(Canceled)
    else None
  }

  function StatusValue(t: TransactionStatus): string
  {
    match t
    case Pending => "PENDING"
    case Succeeded => "SUCCEEDED"
    case Failed => "FAILED"
  }

  function ParseStatus(s: string): (r: Option<TransactionStatus>)
    ensures r.Some? <==> s in {"PENDING", "SUCCEEDED", "FAILED"}
  {
    if s == "PENDING" then Some(Pending)
    else if s == "SUCCEEDED" then Some(Succeeded)
    else if s == "FAILED" then Some(TransactionStatus.Failed)
    else None
  }

  /** Every enumeration value is stored as a string that reads back as itself. */
  lemma EnumValuesRoundTrip(t: TransactionType, u: TransactionSubmitStatus, v: TransactionStatus)
    ensures ParseType(TypeValue(t)) == Some(t)
    ensures ParseSubmitStatus(SubmitStatusValue(u)) == Some(u)
    ensures ParseStatus(StatusValue(v)) == Some(v)
  {
  }

  /* ------------------------------------------------------------------ */
  /* Rows                                                                */
  /* ------------------------------------------------------------------ */

  /** One row of the transaction table; the NOT NULL columns are plain values. */
  datatype Transaction = Transaction(
    guid: Guid,
    invoiceGuid: Guid,
    referenceToGuid: Option<Guid>,
    transactionType: TransactionType,
    processorUri: Option<string>,
    appearsOnStatementAs: Option<string>,
    submitStatus: TransactionSubmitStatus,
    status: Option<TransactionStatus>,
    amount: int,
    fundingInstrumentUri: Option<string>,
    createdAt: Time,
    updatedAt: Time)

  /** A processor-reported status change; its status and time are NOT NULL. */
  datatype TransactionEvent = TransactionEvent(
    guid: Guid,
    processorId: string,
    status: TransactionStatus,
    occurredAt: Time,
    createdAt: Time)

  /** One failed attempt to submit the transaction. */
  datatype TransactionFailure = TransactionFailure(
    guid: Guid,
    errorMessage: Option<string>,
    errorNumber: Option<int>,
    errorCode: Option<string>,
    createdAt: Time)

  /* ------------------------------------------------------------------ */
  /* reference_to / reference_from                                       */
  /* ------------------------------------------------------------------ */

  /** `reference_from` is scalar: no two rows refer to the same target. */
  ghost predicate ReferenceFromScalar(rows: seq<Transaction>)
  {
    forall i, j ::
      (0 <= i < |rows| && 0 <= j < |rows| && rows[i].referenceToGuid.Some? &&
       rows[i].referenceToGuid == rows[j].referenceToGuid) ==> i == j
  }

  /** The row whose `reference_to` is the transaction `target`, if any. */
  function ReferenceFrom(rows: seq<Transaction>, target: Guid): (r: Option<Transaction>)
    ensures r.Some? ==> r.value in rows && r.value.referenceToGuid == Some(target)
    ensures r.None? ==> forall i :: 0 <= i < |rows| ==> rows[i].referenceToGuid != Some(target)
  {
    if rows == [] then None
    else if rows[0].referenceToGuid == Some(target) then Some(rows[0])
    else ReferenceFrom(rows[1..], target)
  }

  /** With a scalar backref, the row found is the only one that refers to the target. */
  lemma ReferenceFromUnique(rows: seq<Transaction>, target: Guid, i: nat)
    requires ReferenceFromScalar(rows)
    requires i < |rows| && rows[i].referenceToGuid == Some(target)
    ensures ReferenceFrom(rows, target) == Some(rows[i])
  {
  }

  /* ------------------------------------------------------------------ */
  /* The order of the event log                                          */
  /* ------------------------------------------------------------------ */

  /** The ordering of processor ids: code-point order, as under a binary collation. */
  predicate StringLess(a: string, b: string)
    decreases |a|
  {
    if a == [] then b != []
    else if b == [] then false
    else if a[0] != b[0] then a[0] < b[0]
    else StringLess(a[1..], b[1..])
  }

  lemma {:induction false} StringLessIrreflexive(a: string)
    ensures !StringLess(a, a)
    decreases |a|
  {
    if a != [] {
      StringLessIrreflexive(a[1..]);
    }
  }

  lemma {:induction false} StringLessTransitive(a: string, b: string, c: string)
    requires StringLess(a, b) && StringLess(b, c)
    ensures StringLess(a, c)
    decreases |a|
  {
    if a != [] && a[0] == b[0] && b[0] == c[0] {
      StringLessTransitive(a[1..], b[1..], c[1..]);
    }
  }

  lemma {:induction false} StringLessTotal(a: string, b: string)
    requires a != b
    ensures StringLess(a, b) || StringLess(b, a)
    decreases |a|
  {
    if a != [] && b != [] && a[0] == b[0] {
      assert a == [a[0]] + a[1..] && b == [b[0]] + b[1..];
      StringLessTotal(a[1..], b[1..]);
    }
  }

  /**
   * `e` is listed before `f`: it occurred later, or at the same time with
   * the larger processor id.
   */
  predicate Newer(e: TransactionEvent, f: TransactionEvent)
  {
    e.occurredAt > f.occurredAt ||
    (e.occurredAt == f.occurredAt && StringLess(f.processorId, e.processorId))
  }

  lemma NewerTransitive(e: TransactionEvent, f: TransactionEvent, g: TransactionEvent)
    requires Newer(e, f) && Newer(f, g)
    ensures Newer(e, g)
  {
    if e.occurredAt == f.occurredAt == g.occurredAt {
      StringLessTransitive(g.processorId, f.processorId, e.processorId);
    }
  }

  /** Two events with different processor ids are ordered one way or the other. */
  lemma NewerTotal(e: TransactionEvent, f: TransactionEvent)
    requires e.processorId != f.processorId
    ensures Newer(e, f) || Newer(f, e)
  {
    StringLessTotal(e.processorId, f.processorId);
  }

  lemma NewerIrreflexive(e: TransactionEvent, f: TransactionEvent)
    requires e.processorId == f.processorId && e.occurredAt == f.occurredAt
    ensures !Newer(e, f)
  {
    StringLessIrreflexive(e.processorId);
  }

  /** Newest first: `occurred_at` descending, then `processor_id` descending. */
  ghost predicate NewestFirst(es: seq<TransactionEvent>)
  {
    forall i, j :: 0 <= i < j < |es| ==> Newer(es[i], es[j])
  }

  /** No two events of one transaction share a processor id. */
  ghost predicate UniqueProcessorIds(es: seq<TransactionEvent>)
  {
    forall i, j :: 0 <= i < j < |es| ==> es[i].processorId != es[j].processorId
  }

  /** The processor ids of a list of events. */
  function ProcessorIds(es: seq<TransactionEvent>): set<string>
  {
    if es == [] then {} else {es[0].processorId} + ProcessorIds(es[1..])
  }

  lemma {:induction false} ProcessorIdsMember(es: seq<TransactionEvent>, i: nat)
    requires i < |es|
    ensures es[i].processorId in ProcessorIds(es)
  {
    if i > 0 {
      ProcessorIdsMember(es[1..], i - 1);
    }
  }

  lemma {:induction false} ProcessorIdsWitness(es: seq<TransactionEvent>, id: string)
    requires id in ProcessorIds(es)
    ensures exists i :: 0 <= i < |es| && es[i].processorId == id
  {
    if es[0].processorId != id {
      ProcessorIdsWitness(es[1..], id);
      var i :| 0 <= i < |es[1..]| && es[1..][i].processorId == id;
      assert es[i + 1].processorId == id;
    }
  }

  lemma {:induction false} ProcessorIdsAbsent(es: seq<TransactionEvent>, id: string)
    requires forall i :: 0 <= i < |es| ==> es[i].processorId != id
    ensures id !in ProcessorIds(es)
  {
    if es != [] {
      assert es[0].processorId != id;
      forall i | 0 <= i < |es[1..]| ensures es[1..][i].processorId != id {
        assert es[1..][i] == es[i + 1];
      }
      ProcessorIdsAbsent(es[1..], id);
    }
  }

  /** Lists holding the same events have the same processor ids. */
  lemma ProcessorIdsPermutation(a: seq<TransactionEvent>, b: seq<TransactionEvent>)
    requires multiset(a) == multiset(b)
    ensures ProcessorIds(a) == ProcessorIds(b)
  {
    forall id | id in ProcessorIds(a) ensures id in ProcessorIds(b) {
      ProcessorIdsWitness(a, id);
      var i :| 0 <= i < |a| && a[i].processorId == id;
      assert a[i] in multiset(b);
      var k :| 0 <= k < |b| && b[k] == a[i];
      ProcessorIdsMember(b, k);
    }
    forall id | id in ProcessorIds(b) ensures id in ProcessorIds(a) {
      ProcessorIdsWitness(b, id);
      var i :| 0 <= i < |b| && b[i].processorId == id;
      assert b[i] in multiset(a);
      var k :| 0 <= k < |a| && a[k] == b[i];
      ProcessorIdsMember(a, k);
    }
  }

  /** An event newer than the head of a newest-first log is newer than all of it. */
  lemma NewerThanHead(e: TransactionEvent, es: seq<TransactionEvent>)
    requires NewestFirst(es) && es != [] && Newer(e, es[0])
    ensures NewestFirst([e] + es)
  {
    var r := [e] + es;
    forall i, j | 0 <= i < j < |r| ensures Newer(r[i], r[j]) {
      if i == 0 && j > 1 {
        NewerTransitive(e, es[0], es[j - 1]);
      }
    }
  }

  /** Putting the head back in front of a newest-first tail it is newer than. */
  lemma NewerThanTail(h: TransactionEvent, tail: seq<TransactionEvent>)
    requires NewestFirst(tail)
    requires forall j :: 0 <= j < |tail| ==> Newer(h, tail[j])
    ensures NewestFirst([h] + tail)
  {
    var r := [h] + tail;
    forall i, j | 0 <= i < j < |r| ensures Newer(r[i], r[j]) {
      if i > 0 { assert r[i] == tail[i - 1]; }
      assert r[j] == tail[j - 1];
    }
  }

  /** Prefixing an event whose id is new keeps the ids unique. */
  lemma UniqueCons(e: TransactionEvent, es: seq<TransactionEvent>)
    requires UniqueProcessorIds(es) && e.processorId !in ProcessorIds(es)
    ensures UniqueProcessorIds([e] + es)
  {
    var r := [e] + es;
    forall i, j | 0 <= i < j < |r| ensures r[i].processorId != r[j].processorId {
      assert r[j] == es[j - 1];
      if i > 0 {
        assert r[i] == es[i - 1];
      } else {
        ProcessorIdsMember(es, j - 1);
      }
    }
  }

  /** Appending an event whose id is new keeps the ids unique. */
  lemma UniqueAppend(es: seq<TransactionEvent>, e: TransactionEvent)
    requires UniqueProcessorIds(es) && e.processorId !in ProcessorIds(es)
    ensures UniqueProcessorIds(es + [e])
  {
    var r := es + [e];
    forall i, j | 0 <= i < j < |r| ensures r[i].processorId != r[j].processorId {
      assert r[i] == es[i];
      if j < |es| {
        assert r[j] == es[j];
      } else {
        ProcessorIdsMember(es, i);
      }
    }
  }

  /** With unique ids, the head's id does not recur in the tail. */
  lemma UniqueHead(es: seq<TransactionEvent>)
    requires UniqueProcessorIds(es) && es != []
    ensures es[0].processorId !in ProcessorIds(es[1..]) && UniqueProcessorIds(es[1..])
  {
    forall i | 0 <= i < |es[1..]| ensures es[1..][i].processorId != es[0].processorId {
      assert es[1..][i] == es[i + 1];
    }
    ProcessorIdsAbsent(es[1..], es[0].processorId);
    forall i, j | 0 <= i < j < |es[1..]| ensures es[1..][i].processorId != es[1..][j].processorId {
      assert es[1..][i] == es[i + 1] && es[1..][j] == es[j + 1];
    }
  }

  /** `e` put before the first listed event it is newer than. */
  function InsertEvent(e: TransactionEvent, es: seq<TransactionEvent>): (r: seq<TransactionEvent>)
    ensures multiset(r) == multiset(es) + multiset{e}
  {
    if es == [] || Newer(e, es[0]) then [e] + es
    else
      assert es == [es[0]] + es[1..];
      [es[0]] + InsertEvent(e, es[1..])
  }

  /** Inserting an event with a new id keeps the log newest first and its ids unique. */
  lemma {:induction false} InsertEventOrdered(e: TransactionEvent, es: seq<TransactionEvent>)
    requires NewestFirst(es) && UniqueProcessorIds(es)
    requires e.processorId !in ProcessorIds(es)
    ensures NewestFirst(InsertEvent(e, es)) && UniqueProcessorIds(InsertEvent(e, es))
  {
    if es == [] {
    } else if Newer(e, es[0]) {
      NewerThanHead(e, es);
      UniqueCons(e, es);
    } else {
      ProcessorIdsMember(es, 0);
      NewerTotal(e, es[0]);
      UniqueHead(es);
      NewestFirstTail(es);
      var tail := InsertEvent(e, es[1..]);
      InsertEventOrdered(e, es[1..]);
      HeadNewerThanInserted(e, es, tail);
      NewerThanTail(es[0], tail);
      ProcessorIdsPermutation(tail, es[1..] + [e]);
      ProcessorIdsAppend(es[1..], e);
      UniqueCons(es[0], tail);
    }
  }

  lemma {:induction false} ProcessorIdsAppend(es: seq<TransactionEvent>, e: TransactionEvent)
    ensures ProcessorIds(es + [e]) == ProcessorIds(es) + {e.processorId}
  {
    if es != [] {
      assert (es + [e])[1..] == es[1..] + [e];
      ProcessorIdsAppend(es[1..], e);
    } else {
      assert ([e])[1..] == [];
    }
  }

  lemma HeadNewerThanInserted(e: TransactionEvent, es: seq<TransactionEvent>, tail: seq<TransactionEvent>)
    requires NewestFirst(es) && es != [] && Newer(es[0], e)
    requires multiset(tail) == multiset(es[1..]) + multiset{e}
    ensures forall j :: 0 <= j < |tail| ==> Newer(es[0], tail[j])
  {
    forall j | 0 <= j < |tail| ensures Newer(es[0], tail[j]) {
      assert tail[j] in multiset(tail);
      if tail[j] != e {
        assert tail[j] in multiset(es[1..]);
        var k :| 0 <= k < |es[1..]| && es[1..][k] == tail[j];
        assert es[k + 1] == tail[j];
      }
    }
  }

  /** The event log in the order `transaction.events` lists it. */
  function SortEvents(es: seq<TransactionEvent>): (r: seq<TransactionEvent>)
    ensures multiset(r) == multiset(es)
  {
    if es == [] then []
    else
      assert es == es[..|es| - 1] + [es[|es| - 1]];
      InsertEvent(es[|es| - 1], SortEvents(es[..|es| - 1]))
  }

  /** Sorting events with unique processor ids lists them newest first. */
  lemma {:induction false} SortEventsOrdered(es: seq<TransactionEvent>)
    requires UniqueProcessorIds(es)
    ensures NewestFirst(SortEvents(es)) && UniqueProcessorIds(SortEvents(es))
  {
    if es != [] {
      var front := es[..|es| - 1];
      var last := es[|es| - 1];
      assert es == front + [last];
      assert UniqueProcessorIds(front) by {
        forall i, j | 0 <= i < j < |front| ensures front[i].processorId != front[j].processorId {
          assert front[i] == es[i] && front[j] == es[j];
        }
      }
      SortEventsOrdered(front);
      var sorted := SortEvents(front);
      ProcessorIdsPermutation(sorted, front);
      forall i | 0 <= i < |front| ensures front[i].processorId != last.processorId {
        assert front[i] == es[i];
      }
      ProcessorIdsAbsent(front, last.processorId);
      InsertEventOrdered(last, sorted);
    }
  }

  /** The newest event of a non-empty newest-first log is its head. */
  lemma HeadIsNewest(a: seq<TransactionEvent>, e: TransactionEvent)
    requires NewestFirst(a) && e in multiset(a) && e != a[0]
    ensures Newer(a[0], e)
  {
    var k :| 0 <= k < |a| && a[k] == e;
  }

  /**
   * Newest first with unique processor ids fixes the listing: two logs
   * holding the same events list them identically, whatever order the
   * events were recorded in.
   */
  lemma {:induction false} NewestFirstDetermined(a: seq<TransactionEvent>, b: seq<TransactionEvent>)
    requires NewestFirst(a) && NewestFirst(b) && multiset(a) == multiset(b)
    ensures a == b
    decreases |a|
  {
    assert |a| == |multiset(a)| == |multiset(b)| == |b|;
    if a != [] {
      SameHead(a, b);
      TailMultiset(a, b);
      NewestFirstTail(a);
      NewestFirstTail(b);
      NewestFirstDetermined(a[1..], b[1..]);
      assert a == [a[0]] + a[1..] && b == [b[0]] + b[1..];
    }
  }

  lemma SameHead(a: seq<TransactionEvent>, b: seq<TransactionEvent>)
    requires NewestFirst(a) && NewestFirst(b) && multiset(a) == multiset(b) && a != [] && b != []
    ensures a[0] == b[0]
  {
    assert a[0] in multiset(b) && b[0] in multiset(a);
    if a[0] != b[0] {
      HeadIsNewest(b, a[0]);
      HeadIsNewest(a, b[0]);
      NewerTransitive(a[0], b[0], a[0]);
      NewerIrreflexive(a[0], a[0]);
      assert false;
    }
  }

  lemma TailMultiset(a: seq<TransactionEvent>, b: seq<TransactionEvent>)
    requires a != [] && b != [] && a[0] == b[0] && multiset(a) == multiset(b)
    ensures multiset(a[1..]) == multiset(b[1..])
  {
    assert a == [a[0]] + a[1..] && b == [b[0]] + b[1..];
    assert multiset(a[1..]) == multiset(a) - multiset{a[0]};
    assert multiset(b[1..]) == multiset(b) - multiset{b[0]};
  }

  lemma NewestFirstTail(a: seq<TransactionEvent>)
    requires NewestFirst(a) && a != []
    ensures NewestFirst(a[1..])
  {
    forall i, j | 0 <= i < j < |a| - 1 ensures Newer(a[1..][i], a[1..][j]) {
      assert a[1..][i] == a[i + 1] && a[1..][j] == a[j + 1];
    }
  }

  /* ------------------------------------------------------------------ */
  /* The order of the failure log                                        */
  /* ------------------------------------------------------------------ */

  /** Oldest first: `created_at` ascending. */
  ghost predicate OldestFirst(fs: seq<TransactionFailure>)
  {
    forall i, j :: 0 <= i < j < |fs| ==> fs[i].createdAt <= fs[j].createdAt
  }

  /** A failure no later than every listed one extends the log at the front. */
  lemma OldestFirstCons(h: TransactionFailure, t: seq<TransactionFailure>)
    requires OldestFirst(t)
    requires forall g :: g in multiset(t) ==> h.createdAt <= g.createdAt
    ensures OldestFirst([h] + t)
  {
    forall i, j | 0 <= i < j < |t| + 1 ensures ([h] + t)[i].createdAt <= ([h] + t)[j].createdAt {
      assert ([h] + t)[j] == t[j - 1];
      assert t[j - 1] in multiset(t);
    }
  }

  /** The first failure of an oldest-first log is no later than any of it. */
  lemma OldestFirstHead(fs: seq<TransactionFailure>)
    requires OldestFirst(fs)
    ensures fs != [] ==> forall g :: g in multiset(fs) ==> fs[0].createdAt <= g.createdAt
    ensures fs != [] ==> forall g :: g in multiset(fs[1..]) ==> fs[0].createdAt <= g.createdAt
  {
    if fs != [] {
      forall g | g in multiset(fs) ensures fs[0].createdAt <= g.createdAt {
        var k :| 0 <= k < |fs| && fs[k] == g;
      }
      assert fs == [fs[0]] + fs[1..];
    }
  }

  /** `f` put after every listed failure not later than it. */
  function InsertFailure(f: TransactionFailure, fs: seq<TransactionFailure>): (r: seq<TransactionFailure>)
    requires OldestFirst(fs)
    ensures multiset(r) == multiset(fs) + multiset{f}
    ensures OldestFirst(r)
  {
    if fs == [] || f.createdAt < fs[0].createdAt then
      OldestFirstHead(fs);
      OldestFirstCons(f, fs);
      [f] + fs
    else
      var tail := InsertFailure(f, fs[1..]);
      InsertFailureBehind(f, fs, tail);
      [fs[0]] + tail
  }

  /** The step of `InsertFailure` that keeps the first failure in front. */
  lemma InsertFailureBehind(f: TransactionFailure, fs: seq<TransactionFailure>, tail: seq<TransactionFailure>)
    requires OldestFirst(fs) && fs != [] && fs[0].createdAt <= f.createdAt
    requires OldestFirst(tail) && multiset(tail) == multiset(fs[1..]) + multiset{f}
    ensures multiset([fs[0]] + tail) == multiset(fs) + multiset{f}
    ensures OldestFirst([fs[0]] + tail)
  {
    assert fs == [fs[0]] + fs[1..];
    OldestFirstHead(fs);
    OldestFirstCons(fs[0], tail);
  }

  /** The failure log as `transaction.failures` lists it. */
  function SortFailures(fs: seq<TransactionFailure>): (r: seq<TransactionFailure>)
    ensures multiset(r) == multiset(fs)
    ensures OldestFirst(r)
  {
    if fs == [] then []
    else
      assert fs == fs[..|fs| - 1] + [fs[|fs| - 1]];
      InsertFailure(fs[|fs| - 1], SortFailures(fs[..|fs| - 1]))
  }

  /* ------------------------------------------------------------------ */
  /* A transaction with its logs                                         */
  /* ------------------------------------------------------------------ */

  /** Why an insert into the event table was refused. */
  datatype IntegrityError = DuplicateProcessorId(processorId: string)

  /**
   * A transaction row together with the rows of its event and failure
   * tables, kept in the order they were inserted.
   */
  class TransactionRecord {
    var row: Transaction
    var eventRows: seq<TransactionEvent>
    var failureRows: seq<TransactionFailure>

    /** The unique constraint on (transaction_guid, processor_id). */
    ghost predicate Valid()
      reads this
    {
      UniqueProcessorIds(eventRows)
    }

    constructor (row: Transaction)
      ensures Valid()
      ensures this.row == row && eventRows == [] && failureRows == []
    {
      this.row := row;
      eventRows := [];
      failureRows := [];
    }

    /** `transaction.events`: every recorded event, newest first. */
    function Events(): (r: seq<TransactionEvent>)
      reads this
      requires Valid()
      ensures multiset(r) == multiset(eventRows)
      ensures NewestFirst(r) && UniqueProcessorIds(r)
    {
      SortEventsOrdered(eventRows);
      SortEvents(eventRows)
    }

    /** `transaction.failures`: every recorded failure, oldest first. */
    function Failures(): (r: seq<TransactionFailure>)
      reads this
      ensures multiset(r) == multiset(failureRows)
      ensures OldestFirst(r)
    {
      SortFailures(failureRows)
    }

    /** `failure_count`: the number of recorded failures. */
    function FailureCount(): (n: nat)
      reads this
      ensures n == |Failures()|
    {
      assert |Failures()| == |multiset(Failures())| == |multiset(failureRows)|;
      |failureRows|
    }

    /**
     * Records an event.  An event whose processor id this transaction has
     * already recorded violates the unique constraint and is refused.
     */
    method AddEvent(e: TransactionEvent) returns (r: Result<(), IntegrityError>)
      requires Valid()
      modifies this`eventRows
      ensures Valid()
      ensures r.Err? <==> e.processorId in ProcessorIds(old(eventRows))
      ensures r.Ok? ==> eventRows == old(eventRows) + [e]
      ensures r.Ok? ==> multiset(Events()) == multiset(old(Events())) + multiset{e}
      ensures r.Err? ==> eventRows == old(eventRows)
    {
      if e.processorId in ProcessorIds(eventRows) {
        return Err(DuplicateProcessorId(e.processorId));
      }
      UniqueAppend(eventRows, e);
      eventRows := eventRows + [e];
      return Ok(());
    }

    /** Records a failed submission; the log only grows. */
    method AddFailure(f: TransactionFailure)
      modifies this`failureRows
      ensures failureRows == old(failureRows) + [f]
      ensures multiset(Failures()) == multiset(old(Failures())) + multiset{f}
      ensures FailureCount() == old(FailureCount()) + 1
    {
      failureRows := failureRows + [f];
    }
  }

  /* ------------------------------------------------------------------ */
  /* The owning company                                                  */
  /* ------------------------------------------------------------------ */

  datatype InvoiceType = Subscription | Customer

  /** What `company` reads through the transaction's invoice. */
  datatype InvoiceLink = InvoiceLink(
    invoiceType: InvoiceType,
    customerCompany: Guid,
    subscriptionPlanCompany: Option<Guid>)

  /** Reading through a missing subscription raises AttributeError. */
  datatype AttributeError = NoSubscription

  /** `company`: the plan's company for a subscription invoice, else the customer's. */
  function Company(invoice: InvoiceLink): (r: Result<Guid, AttributeError>)
    ensures invoice.invoiceType == Customer ==> r == Ok(invoice.customerCompany)
    ensures invoice.invoiceType == Subscription ==>
              (r.Ok? <==> invoice.subscriptionPlanCompany.Some?) &&
              (r.Ok? ==> r.value == invoice.subscriptionPlanCompany.value)
  {
    if invoice.invoiceType == Subscription then
      match invoice.subscriptionPlanCompany
      case Some(c) => Ok(c)
      case None => Err(NoSubscription)
    else Ok(invoice.customerCompany)
  }
}
