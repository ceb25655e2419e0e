/** CSV imports: reading the rows, and what the batch transaction makes of the accepted ones. */
module Imports {
  import opened Basics
  import opened Payloads
  import opened Registry
  import opened World
  import opened Invariants
  import opened Preservation
  import opened Lifecycle
  import opened Calls
  import Gaps
  import opened Rows
  import opened Crypto

  const MAX_BATCH_ROWS: nat := 200

  /** A rejected row, kept with its number in the file (the header is row 1) and the reason. */
  datatype RowFault = RowFault(number: nat, row: CsvRow, error: RowError)

  datatype BatchStatus = Completed | Partial | Failed

  /** What the registrar is told: everything went in, nothing did, or some rows did. */
  function StatusOf(accepted: nat, rejected: nat): (r: BatchStatus)
    ensures r == Completed <==> rejected == 0
    ensures r == Failed <==> accepted == 0 && rejected > 0
    ensures r == Partial <==> accepted > 0 && rejected > 0
  {
    if accepted == 0 && rejected > 0 then Failed else if rejected > 0 then Partial else Completed
  }

  /** The detail row is there and meets the constraints of its table. */
  predicate DetailFits(r: RecordData) {
    if r.recordType.Experience? then r.experience.Some? && ExperienceFits(r.experience.value)
    else r.academic.Some? && AcademicFits(r.academic.value)
  }

  /** The rows that make a record of this type. */
  predicate RowReadable(row: CsvRow, recordType: RecordType) {
    && Cell(row, "email") != "" && Cell(row, "full_name") != ""
    && if recordType.Experience? then ExperienceReadable(row) else AcademicReadable(row)
  }

  /** Where each field of an imported record comes from. */
  predicate TakenFrom(data: RecordData, row: CsvRow, id: Uuid, org: Uuid, recordType: RecordType) {
    && data.id == id && data.issuerId == org && data.recordType == recordType
    && data.subjectName == Cell(row, "full_name") && data.subjectEmail == Cell(row, "email")
    && data.documentSha256 == "" && data.subjectBinding == ""
    && if recordType.Experience?
       then data.academic.None? && data.experience.Some? && ExperienceFrom(data.experience.value, row)
       else data.experience.None? && data.academic.Some? && AcademicFrom(data.academic.value, row)
  }

  /** The record that a row describes. */
  function RowData(row: CsvRow, id: Uuid, org: Uuid, recordType: RecordType): (r: Result<RecordData, RowError>)
    ensures r.Ok? ==> r.value.id == id && r.value.issuerId == org && DetailFits(r.value)
  {
    hide Cell, AcademicReadable, AcademicFrom;
    var academic := if recordType.Experience? then None else Some(ParseAcademic(row));
    var experience := if recordType.Experience? then Some(ParseExperience(row)) else None;
    var email, name := Require(row, "email"), Require(row, "full_name");
    if academic.Some? && academic.value.Err? then Err(academic.value.error)
    else if experience.Some? && experience.value.Err? then Err(experience.value.error)
    else if email.Err? then Err(email.error)
    else if name.Err? then Err(name.error)
    else
      Ok(RecordData(id, recordType, org, name.value, email.value,
                    if academic.Some? then Some(academic.value.value) else None,
                    if experience.Some? then Some(experience.value.value) else None, "", ""))
  }

  /** Which rows make a record, and from which cell each of its fields comes. */
  lemma RowExact(row: CsvRow, id: Uuid, org: Uuid, recordType: RecordType)
    ensures RowData(row, id, org, recordType).Ok? <==> RowReadable(row, recordType)
    ensures RowData(row, id, org, recordType).Ok? ==>
              TakenFrom(RowData(row, id, org, recordType).value, row, id, org, recordType)
  {
    hide ParseAcademic, ParseExperience, Cell;
    hide AcademicReadable, AcademicFrom, AcademicFits, ExperienceReadable, ExperienceFrom, ExperienceFits;
    ExperienceJudged(row);
    ExperienceTaken(row);
  }

  predicate KeyTaken(records: map<Uuid, Record>, created: seq<BatchDraft>, data: RecordData) {
    !NoClash(records, data.id, DedupeKey(data))
    || exists k :: 0 <= k < |created| && DedupeKey(created[k].data) == DedupeKey(data)
  }

  predicate Distinct(ids: seq<Uuid>) {
    forall i, j | 0 <= i < j < |ids| :: ids[i] != ids[j]
  }

  /** One upload: the issuer and its address, the kind of record, and the logins of issuers' staff. */
  datatype Upload = Upload(org: Uuid, address: string, recordType: RecordType, staff: set<string>)

  /**
   What row `i` of the file holds, the limit on their number first. A row for the login of an
   issuer's staff fails with its account, which undoes its record.
   */
  function RowRead(i: nat, row: CsvRow, id: Uuid, u: Upload): Result<RecordData, RowError> {
    if i >= MAX_BATCH_ROWS then Err(LimitExceeded)
    else
      match RowData(row, id, u.org, u.recordType)
      case Err(e) => Err(e)
      case Ok(data) => if NORMALISE_EMAIL(data.subjectEmail) in u.staff then Err(StaffRow) else Ok(data)
  }

  /** The row of the file that became each draft, in order. */
  predicate DrawnFrom(created: seq<BatchDraft>, at: seq<nat>, rows: seq<CsvRow>, newIds: seq<Uuid>, u: Upload, n: nat)
    requires |newIds| == |rows| && n <= |rows|
  {
    && |at| == |created|
    && (forall k | 0 <= k < |at| :: at[k] < n && at[k] < MAX_BATCH_ROWS)
    && (forall k, l | 0 <= k < l < |at| :: at[k] < at[l])
    && (forall k | 0 <= k < |at| ::
          && RowRead(at[k], rows[at[k]], newIds[at[k]], u) == Ok(created[k].data)
          && RecordHash(created[k].data, u.address) == Some(created[k].hash))
  }

  /** Each of the first `n` rows is accepted or rejected, and never both. */
  predicate Partitioned(at: seq<nat>, faults: seq<RowFault>, rows: seq<CsvRow>, n: nat)
    requires n <= |rows|
  {
    && |at| + |faults| == n
    && (forall k | 0 <= k < |faults| ::
          2 <= faults[k].number < n + 2 && faults[k].row == rows[faults[k].number - 2] && faults[k].number - 2 !in at)
    && (forall k, l | 0 <= k < l < |faults| :: faults[k].number < faults[l].number)
  }

  /** None of the first `n` rows is passed over. */
  predicate Covered(at: seq<nat>, faults: seq<RowFault>, n: nat) {
    forall i: nat | i < n :: i in at || RefusedRow(faults, i)
  }

  predicate RefusedRow(faults: seq<RowFault>, i: nat) {
    exists k :: 0 <= k < |faults| && faults[k].number == i + 2
  }

  /** The duplicate guard held for every accepted row, against the tables and the rows before it. */
  predicate Guarded(records: map<Uuid, Record>, created: seq<BatchDraft>) {
    && (forall i, j | 0 <= i < j < |created| :: DedupeKey(created[i].data) != DedupeKey(created[j].data))
    && forall i | 0 <= i < |created| :: NoClash(records, created[i].data.id, DedupeKey(created[i].data))
  }

  /** The duplicate key of row `i` is held by a live record, or by an accepted row before it. */
  predicate TakenBefore(records: map<Uuid, Record>, created: seq<BatchDraft>, at: seq<nat>, i: nat, data: RecordData)
    requires |at| == |created|
  {
    !NoClash(records, data.id, DedupeKey(data))
    || exists k :: 0 <= k < |at| && at[k] < i && DedupeKey(created[k].data) == DedupeKey(data)
  }

  /** Why row `i` of the file is refused. */
  predicate RefusedFor(records: map<Uuid, Record>, created: seq<BatchDraft>, at: seq<nat>, i: nat,
                       read: Result<RecordData, RowError>, address: string, error: RowError)
    requires |at| == |created|
  {
    hide HashRecord;
    match read
    case Err(e) => error == e
    case Ok(data) =>
      if TakenBefore(records, created, at, i, data) then error == DuplicateRow
      else HashRecord(data, address).Err? && error == Unhashable(HashRecord(data, address).error)
  }

  /** Every refused row is refused for a reason of its own. */
  predicate Judged(records: map<Uuid, Record>, created: seq<BatchDraft>, at: seq<nat>, faults: seq<RowFault>,
                   rows: seq<CsvRow>, newIds: seq<Uuid>, u: Upload)
    requires |at| == |created| && |newIds| == |rows|
  {
    hide RefusedFor, RowRead;
    forall k | 0 <= k < |faults| ::
      var i := faults[k].number - 2;
      && 0 <= i < |rows|
      && RefusedFor(records, created, at, i, RowRead(i, rows[i], newIds[i], u), u.address, faults[k].error)
  }

  lemma JudgedLonger(records: map<Uuid, Record>, created: seq<BatchDraft>, at: seq<nat>, faults: seq<RowFault>,
                     rows: seq<CsvRow>, newIds: seq<Uuid>, u: Upload,
                     n: nat, d: BatchDraft)
    requires |at| == |created| && |newIds| == |rows| && n < |rows| && Partitioned(at, faults, rows, n)
    requires Judged(records, created, at, faults, rows, newIds, u)
    ensures Judged(records, created + [d], at + [n], faults, rows, newIds, u)
  {
    hide RowRead, RefusedFor;
    forall k | 0 <= k < |faults|
      ensures var i := faults[k].number - 2;
              && 0 <= i < |rows|
              && RefusedFor(records, created + [d], at + [n], i, RowRead(i, rows[i], newIds[i], u), u.address,
                            faults[k].error)
    {
      var i := faults[k].number - 2;
      RefusedStill(records, created, at, n, d, i, RowRead(i, rows[i], newIds[i], u), u.address, faults[k].error);
    }
  }

  /** A later row takes no key from an earlier one. */
  lemma RefusedStill(records: map<Uuid, Record>, created: seq<BatchDraft>, at: seq<nat>, n: nat, d: BatchDraft, i: nat,
                     read: Result<RecordData, RowError>, address: string, error: RowError)
    requires |at| == |created| && i < n && RefusedFor(records, created, at, i, read, address, error)
    ensures RefusedFor(records, created + [d], at + [n], i, read, address, error)
  {
    hide NoClash, DedupeKey, HashRecord;
    if read.Ok? {
      if k :| 0 <= k < |at| && at[k] < i && DedupeKey(created[k].data) == DedupeKey(read.value) {
        assert (at + [n])[k] < i && DedupeKey((created + [d])[k].data) == DedupeKey(read.value);
      }
    }
  }

  lemma FaultJudged(records: map<Uuid, Record>, created: seq<BatchDraft>, at: seq<nat>, faults: seq<RowFault>,
                    rows: seq<CsvRow>, newIds: seq<Uuid>, u: Upload,
                    n: nat, error: RowError)
    requires |at| == |created| && |newIds| == |rows| && n < |rows|
    requires Judged(records, created, at, faults, rows, newIds, u)
    requires RefusedFor(records, created, at, n, RowRead(n, rows[n], newIds[n], u), u.address, error)
    ensures Judged(records, created, at, faults + [RowFault(n + 2, rows[n], error)], rows, newIds, u)
  {
    hide RefusedFor, RowRead;
  }

  /** Before row `n`, every accepted row is an earlier one. */
  lemma TakenSoFar(records: map<Uuid, Record>, created: seq<BatchDraft>, at: seq<nat>, n: nat, data: RecordData)
    requires |at| == |created| && forall k | 0 <= k < |at| :: at[k] < n
    ensures TakenBefore(records, created, at, n, data) <==> KeyTaken(records, created, data)
  {
    hide NoClash, DedupeKey;
    if k :| 0 <= k < |created| && DedupeKey(created[k].data) == DedupeKey(data) {
      assert at[k] < n;
    }
  }

  /** A row is accepted exactly when it reads, its key is free, and its contents hash. */
  predicate Acceptable(records: map<Uuid, Record>, created: seq<BatchDraft>, at: seq<nat>, i: nat,
                       read: Result<RecordData, RowError>, address: string)
    requires |at| == |created|
  {
    hide HashRecord;
    read.Ok? && !TakenBefore(records, created, at, i, read.value) && HashRecord(read.value, address).Ok?
  }

  lemma AcceptedExact(records: map<Uuid, Record>, created: seq<BatchDraft>, at: seq<nat>, faults: seq<RowFault>,
                      rows: seq<CsvRow>, newIds: seq<Uuid>, u: Upload, i: nat)
    requires |newIds| == |rows| && |at| == |created| && i < |rows|
    requires Covered(at, faults, |rows|) && Guarded(records, created)
    requires DrawnFrom(created, at, rows, newIds, u, |rows|)
    requires Judged(records, created, at, faults, rows, newIds, u)
    ensures i in at <==> Acceptable(records, created, at, i, RowRead(i, rows[i], newIds[i], u), u.address)
  {
    hide RefusedFor, Acceptable, RowRead, DrawnFrom, Guarded, Judged;
    if i in at {
      var k :| 0 <= k < |at| && at[k] == i;
      DrawnAt(created, at, rows, newIds, u, k);
      AcceptedIsAcceptable(records, created, at, k, RowRead(i, rows[i], newIds[i], u), u.address);
    } else {
      var k :| 0 <= k < |faults| && faults[k].number == i + 2;
      JudgedAt(records, created, at, faults, rows, newIds, u, k);
      RefusedIsNot(records, created, at, i, RowRead(i, rows[i], newIds[i], u), u.address, faults[k].error);
    }
  }

  lemma DrawnAt(created: seq<BatchDraft>, at: seq<nat>, rows: seq<CsvRow>, newIds: seq<Uuid>, u: Upload, k: nat)
    requires |newIds| == |rows| && DrawnFrom(created, at, rows, newIds, u, |rows|) && k < |at|
    ensures |at| == |created| && at[k] < |rows| && forall j, l | 0 <= j < l < |at| :: at[j] < at[l]
    ensures RowRead(at[k], rows[at[k]], newIds[at[k]], u) == Ok(created[k].data)
    ensures TakenFrom(created[k].data, rows[at[k]], newIds[at[k]], u.org, u.recordType)
    ensures RecordHash(created[k].data, u.address) == Some(created[k].hash)
  {
    hide RowReadable, TakenFrom, RecordHash;
    RowExact(rows[at[k]], newIds[at[k]], u.org, u.recordType);
    hide RowData;
  }

  lemma JudgedAt(records: map<Uuid, Record>, created: seq<BatchDraft>, at: seq<nat>, faults: seq<RowFault>,
                 rows: seq<CsvRow>, newIds: seq<Uuid>, u: Upload, k: nat)
    requires |at| == |created| && |newIds| == |rows| && k < |faults|
    requires Judged(records, created, at, faults, rows, newIds, u)
    ensures var i := faults[k].number - 2;
            && 0 <= i < |rows|
            && RefusedFor(records, created, at, i, RowRead(i, rows[i], newIds[i], u), u.address, faults[k].error)
  {
    hide RefusedFor, RowRead;
  }

  lemma AcceptedIsAcceptable(records: map<Uuid, Record>, created: seq<BatchDraft>, at: seq<nat>, k: nat,
                             read: Result<RecordData, RowError>, address: string)
    requires |at| == |created| && k < |at| && Guarded(records, created)
    requires forall j, l | 0 <= j < l < |at| :: at[j] < at[l]
    requires read == Ok(created[k].data) && RecordHash(created[k].data, address) == Some(created[k].hash)
    ensures Acceptable(records, created, at, at[k], read, address)
  {
    hide NoClash, DedupeKey, HashRecord;
    forall j | 0 <= j < |at| && at[j] < at[k] ensures DedupeKey(created[j].data) != DedupeKey(read.value) {
      assert j < k;
    }
  }

  lemma RefusedIsNot(records: map<Uuid, Record>, created: seq<BatchDraft>, at: seq<nat>, i: nat,
                     read: Result<RecordData, RowError>, address: string, error: RowError)
    requires |at| == |created| && RefusedFor(records, created, at, i, read, address, error)
    ensures !Acceptable(records, created, at, i, read, address)
  {
    hide NoClash, DedupeKey, HashRecord, TakenBefore;
  }

  /** The drafts left behind belong to rows that were not accepted. */
  predicate LeftOver(leftovers: seq<RecordData>, at: seq<nat>, newIds: seq<Uuid>, org: Uuid, n: nat) {
    && (forall k | 0 <= k < |leftovers| :: leftovers[k].issuerId == org && LeftFrom(leftovers[k].id, at, newIds, n))
    && forall k, l | 0 <= k < l < |leftovers| :: leftovers[k].id != leftovers[l].id
  }

  predicate LeftFrom(id: Uuid, at: seq<nat>, newIds: seq<Uuid>, n: nat) {
    exists i :: 0 <= i < n && i < |newIds| && newIds[i] == id && i !in at
  }

  lemma FaultAdded(at: seq<nat>, faults: seq<RowFault>, rows: seq<CsvRow>, n: nat, error: RowError)
    requires n < |rows| && Partitioned(at, faults, rows, n) && forall k | 0 <= k < |at| :: at[k] < n
    ensures Partitioned(at, faults + [RowFault(n + 2, rows[n], error)], rows, n + 1)
  {
  }

  lemma CoveredByFault(at: seq<nat>, faults: seq<RowFault>, n: nat, fault: RowFault)
    requires Covered(at, faults, n) && fault.number == n + 2
    ensures Covered(at, faults + [fault], n + 1)
  {
    var more := faults + [fault];
    forall i: nat | i < n + 1 ensures i in at || RefusedRow(more, i) {
      if i == n {
        assert more[|faults|].number == i + 2;
      } else if i !in at {
        var k :| 0 <= k < |faults| && faults[k].number == i + 2;
        assert more[k].number == i + 2;
      }
    }
  }

  lemma CoveredByRow(at: seq<nat>, faults: seq<RowFault>, n: nat)
    requires Covered(at, faults, n)
    ensures Covered(at + [n], faults, n + 1)
  {
    hide RefusedRow;
    forall i: nat | i < n + 1 ensures i in at + [n] || RefusedRow(faults, i) {
      assert i == n || i in at || RefusedRow(faults, i);
      assert (at + [n])[|at|] == n;
    }
  }

  lemma DrawnLonger(created: seq<BatchDraft>, at: seq<nat>, rows: seq<CsvRow>, newIds: seq<Uuid>, u: Upload, n: nat)
    requires |newIds| == |rows| && n < |rows| && DrawnFrom(created, at, rows, newIds, u, n)
    ensures DrawnFrom(created, at, rows, newIds, u, n + 1)
    ensures |at| == |created| && n !in at && forall k | 0 <= k < |at| :: at[k] < n
  {
    hide RowData, RecordHash;
  }

  lemma RowAccepted(at: seq<nat>, faults: seq<RowFault>, rows: seq<CsvRow>, n: nat)
    requires n < |rows| && Partitioned(at, faults, rows, n)
    ensures Partitioned(at + [n], faults, rows, n + 1)
  {
  }

  lemma DraftDrawn(created: seq<BatchDraft>, at: seq<nat>, rows: seq<CsvRow>, newIds: seq<Uuid>, u: Upload, n: nat, d: BatchDraft)
    requires |newIds| == |rows| && n < |rows| && n < MAX_BATCH_ROWS
    requires DrawnFrom(created, at, rows, newIds, u, n)
    requires RowRead(n, rows[n], newIds[n], u) == Ok(d.data) && RecordHash(d.data, u.address) == Some(d.hash)
    ensures DrawnFrom(created + [d], at + [n], rows, newIds, u, n + 1)
  {
    hide RowData, RecordHash;
  }

  lemma GuardKept(records: map<Uuid, Record>, created: seq<BatchDraft>, d: BatchDraft)
    requires Guarded(records, created) && !KeyTaken(records, created, d.data)
    ensures Guarded(records, created + [d])
  {
    hide DedupeKey, NoClash;
  }

  lemma LeftoverAdded(leftovers: seq<RecordData>, at: seq<nat>, newIds: seq<Uuid>, org: Uuid, n: nat, data: RecordData)
    requires n < |newIds| && Distinct(newIds) && LeftOver(leftovers, at, newIds, org, n)
    requires data.id == newIds[n] && data.issuerId == org && n !in at
    ensures LeftOver(leftovers + [data], at, newIds, org, n + 1)
  {
    LeftLonger(leftovers, at, newIds, org, n);
    assert newIds[n] == data.id && n !in at;
  }

  lemma LeftLonger(leftovers: seq<RecordData>, at: seq<nat>, newIds: seq<Uuid>, org: Uuid, n: nat)
    requires LeftOver(leftovers, at, newIds, org, n)
    ensures LeftOver(leftovers, at, newIds, org, n + 1) && LeftOver(leftovers, at + [n], newIds, org, n + 1)
  {
    forall k | 0 <= k < |leftovers|
      ensures LeftFrom(leftovers[k].id, at, newIds, n + 1) && LeftFrom(leftovers[k].id, at + [n], newIds, n + 1)
    {
      var i :| 0 <= i < n && i < |newIds| && newIds[i] == leftovers[k].id && i !in at;
      assert i !in at + [n];
    }
  }

  /** The drafts that refused rows leave: of those that read, and failed after their record was created. */
  function LeftBy(faults: seq<RowFault>, newIds: seq<Uuid>, u: Upload): seq<RecordData> {
    if faults == [] then []
    else
      var n := |faults| - 1;
      LeftBy(faults[..n], newIds, u) + LeftByOne(faults[n], newIds, u)
  }

  function LeftByOne(fault: RowFault, newIds: seq<Uuid>, u: Upload): seq<RecordData> {
    var i := fault.number - 2;
    if (fault.error.DuplicateRow? || fault.error.Unhashable?) && 0 <= i < |newIds| then
      match RowRead(i, fault.row, newIds[i], u)
      case Ok(data) => [data]
      case Err(_) => []
    else []
  }

  /** No cell makes a row a duplicate, unhashable or one too many. */
  lemma ReadErrors(row: CsvRow, id: Uuid, org: Uuid, recordType: RecordType)
    ensures var r := RowData(row, id, org, recordType); r.Err? ==> OfTheRow(r.error)
  {
    hide ParseAcademic, ParseExperience, Cell, AcademicReadable, AcademicFrom, AcademicFits, ExperienceFits;
    AcademicErrors(row);
    ExperienceErrors(row);
  }

  lemma RefusalLeaves(faults: seq<RowFault>, newIds: seq<Uuid>, u: Upload, n: nat, row: CsvRow,
                      error: RowError)
    requires n < |newIds|
    requires var read := RowRead(n, row, newIds[n], u);
             if read.Err? then error == read.error else error.DuplicateRow? || error.Unhashable?
    ensures var read := RowRead(n, row, newIds[n], u);
            LeftBy(faults + [RowFault(n + 2, row, error)], newIds, u)
            == LeftBy(faults, newIds, u) + if read.Ok? then [read.value] else []
  {
    hide RowData, LeftByOne, DetailFits;
    LeftByThis(newIds, u, n, row, error);
    assert (faults + [RowFault(n + 2, row, error)])[..|faults|] == faults;
  }

  lemma LeftByThis(newIds: seq<Uuid>, u: Upload, n: nat, row: CsvRow, error: RowError)
    requires n < |newIds|
    requires var read := RowRead(n, row, newIds[n], u);
             if read.Err? then error == read.error else error.DuplicateRow? || error.Unhashable?
    ensures var read := RowRead(n, row, newIds[n], u);
            LeftByOne(RowFault(n + 2, row, error), newIds, u) == if read.Ok? then [read.value] else []
  {
    ReadErrors(row, newIds[n], u.org, u.recordType);
    hide RowData, DetailFits;
  }

  /** Row `n` is refused now, for what was accepted so far. */
  lemma RowRefused(records: map<Uuid, Record>, created: seq<BatchDraft>, at: seq<nat>, faults: seq<RowFault>,
                   rows: seq<CsvRow>, newIds: seq<Uuid>, u: Upload,
                   n: nat, error: RowError)
    requires |at| == |created| && |newIds| == |rows| && n < |rows| && forall k | 0 <= k < |at| :: at[k] < n
    requires Partitioned(at, faults, rows, n) && Covered(at, faults, n)
    requires Judged(records, created, at, faults, rows, newIds, u)
    requires match RowRead(n, rows[n], newIds[n], u)
             case Err(e) => error == e
             case Ok(data) =>
               if KeyTaken(records, created, data) then error == DuplicateRow
               else HashRecord(data, u.address).Err? && error == Unhashable(HashRecord(data, u.address).error)
    ensures var more := faults + [RowFault(n + 2, rows[n], error)];
            && Partitioned(at, more, rows, n + 1) && Covered(at, more, n + 1)
            && Judged(records, created, at, more, rows, newIds, u)
  {
    hide RowRead, Judged, KeyTaken, TakenBefore, HashRecord, Covered;
    var read := RowRead(n, rows[n], newIds[n], u);
    if read.Ok? {
      TakenSoFar(records, created, at, n, read.value);
    }
    FaultJudged(records, created, at, faults, rows, newIds, u, n, error);
    FaultAdded(at, faults, rows, n, error);
    CoveredByFault(at, faults, n, RowFault(n + 2, rows[n], error));
  }

  /** Each accepted record has its fields from the cells of its row. */
  predicate FieldsTaken(created: seq<BatchDraft>, at: seq<nat>, rows: seq<CsvRow>, newIds: seq<Uuid>, u: Upload)
    requires |newIds| == |rows|
  {
    hide TakenFrom;
    && |at| == |created|
    && forall k | 0 <= k < |at| :: at[k] < |rows| && TakenFrom(created[k].data, rows[at[k]], newIds[at[k]], u.org, u.recordType)
  }

  /** The accepted rows are all that can be accepted. */
  predicate AcceptedExactly(records: map<Uuid, Record>, created: seq<BatchDraft>, at: seq<nat>, rows: seq<CsvRow>,
                            newIds: seq<Uuid>, u: Upload)
    requires |newIds| == |rows| && |at| == |created|
  {
    hide RowRead, Acceptable;
    forall i: nat | i < |rows| ::
      i in at <==> Acceptable(records, created, at, i, RowRead(i, rows[i], newIds[i], u), u.address)
  }

  lemma RowsJudged(records: map<Uuid, Record>, created: seq<BatchDraft>, at: seq<nat>, faults: seq<RowFault>,
                   rows: seq<CsvRow>, newIds: seq<Uuid>, u: Upload)
    requires |newIds| == |rows| && |at| == |created| && Covered(at, faults, |rows|) && Guarded(records, created)
    requires DrawnFrom(created, at, rows, newIds, u, |rows|)
    requires Judged(records, created, at, faults, rows, newIds, u)
    ensures FieldsTaken(created, at, rows, newIds, u)
    ensures AcceptedExactly(records, created, at, rows, newIds, u)
  {
    hide Covered, Guarded, DrawnFrom, Judged, RowRead, Acceptable, TakenFrom;
    forall k | 0 <= k < |at| ensures at[k] < |rows| && TakenFrom(created[k].data, rows[at[k]], newIds[at[k]], u.org, u.recordType) {
      DrawnAt(created, at, rows, newIds, u, k);
    }
    forall i: nat | i < |rows|
      ensures i in at <==> Acceptable(records, created, at, i, RowRead(i, rows[i], newIds[i], u), u.address)
    {
      AcceptedExact(records, created, at, faults, rows, newIds, u, i);
    }
  }

  /**
   The file was read right: the accepted rows are exactly the acceptable ones, every field of
   their records and every hash is as it should be, and each other row is kept with its reason.
   */
  predicate ReadRight(records: map<Uuid, Record>, created: seq<BatchDraft>, at: seq<nat>, faults: seq<RowFault>,
                      rows: seq<CsvRow>, newIds: seq<Uuid>, u: Upload)
  {
    hide Partitioned, DrawnFrom, Guarded, FieldsTaken, AcceptedExactly, Judged;
    && |newIds| == |rows| && |at| == |created| && |created| + |faults| == |rows| && |created| <= MAX_BATCH_ROWS
    && Partitioned(at, faults, rows, |rows|)
    && DrawnFrom(created, at, rows, newIds, u, |rows|)
    && Guarded(records, created)
    && FieldsTaken(created, at, rows, newIds, u)
    && AcceptedExactly(records, created, at, rows, newIds, u)
    && Judged(records, created, at, faults, rows, newIds, u)
  }

  /** The file is judged row by row: nothing is sent anywhere before the last row is read. */
  method ReadRows(records: map<Uuid, Record>, u: Upload, rows: seq<CsvRow>, newIds: seq<Uuid>)
    returns (created: seq<BatchDraft>, leftovers: seq<RecordData>, faults: seq<RowFault>, ghost at: seq<nat>)
    requires |newIds| == |rows| && Distinct(newIds)
    ensures ReadRight(records, created, at, faults, rows, newIds, u)
    ensures LeftOver(leftovers, at, newIds, u.org, |rows|)
    ensures leftovers == LeftBy(faults, newIds, u)
  {
    hide RowData, RecordHash, Partitioned, KeyTaken, Guarded, LeftOver, Distinct, DrawnFrom;
    hide Judged, Covered, HashRecord, LeftBy, DetailFits, FieldsTaken, AcceptedExactly;
    created, leftovers, faults, at := [], [], [], [];
    NothingRead(records, rows, newIds, u);
    var index := 0;
    while index < |rows|
      invariant index <= |rows| && |created| <= index && |created| <= MAX_BATCH_ROWS
      invariant Partitioned(at, faults, rows, index)
      invariant DrawnFrom(created, at, rows, newIds, u, index)
      invariant Guarded(records, created) && LeftOver(leftovers, at, newIds, u.org, index)
      invariant |at| == |created| && Judged(records, created, at, faults, rows, newIds, u)
      invariant Covered(at, faults, index) && leftovers == LeftBy(faults, newIds, u)
    {
      DrawnLonger(created, at, rows, newIds, u, index);
      var row := rows[index];
      var outcome := if index >= MAX_BATCH_ROWS then Err(LimitExceeded) else RowData(row, newIds[index], u.org, u.recordType);
      if outcome.Ok? && NORMALISE_EMAIL(outcome.value.subjectEmail) in u.staff {
        outcome := Err(StaffRow);
      }
      var error := None;
      if outcome.Err? {
        error := Some(outcome.error);
        LeftLonger(leftovers, at, newIds, u.org, index);
      } else if KeyTaken(records, created, outcome.value) {
        error := Some(DuplicateRow);
        LeftoverAdded(leftovers, at, newIds, u.org, index, outcome.value);
        leftovers := leftovers + [outcome.value];
      } else {
        var hashed := HashRecord(outcome.value, u.address);
        if hashed.Err? {
          error := Some(Unhashable(hashed.error));
          LeftoverAdded(leftovers, at, newIds, u.org, index, outcome.value);
          leftovers := leftovers + [outcome.value];
        } else {
          var draft := BatchDraft(outcome.value, hashed.value);
          HashedAs(outcome.value, u.address, hashed.value);
          DraftDrawn(created, at, rows, newIds, u, index, draft);
          GuardKept(records, created, draft);
          JudgedLonger(records, created, at, faults, rows, newIds, u, index, draft);
          RowAccepted(at, faults, rows, index);
          CoveredByRow(at, faults, index);
          LeftLonger(leftovers, at, newIds, u.org, index);
          created := created + [draft];
          at := at + [index];
        }
      }
      if error.Some? {
        RowRefused(records, created, at, faults, rows, newIds, u, index, error.value);
        RefusalLeaves(faults, newIds, u, index, row, error.value);
        faults := faults + [RowFault(index + 2, row, error.value)];
      }
      index := index + 1;
    }
    RowsJudged(records, created, at, faults, rows, newIds, u);
    CountedRows(at, faults, rows);
  }

  lemma CountedRows(at: seq<nat>, faults: seq<RowFault>, rows: seq<CsvRow>)
    requires Partitioned(at, faults, rows, |rows|)
    ensures |at| + |faults| == |rows|
  {
  }

  lemma NothingRead(records: map<Uuid, Record>, rows: seq<CsvRow>, newIds: seq<Uuid>, u: Upload)
    requires |newIds| == |rows|
    ensures DrawnFrom([], [], rows, newIds, u, 0)
    ensures Partitioned([], [], rows, 0) && Guarded(records, []) && LeftOver([], [], newIds, u.org, 0)
    ensures Judged(records, [], [], [], rows, newIds, u) && Covered([], [], 0)
    ensures LeftBy([], newIds, u) == []
  {
  }

  lemma HashedAs(data: RecordData, address: string, hash: string)
    requires HashRecord(data, address) == Ok(hash)
    ensures RecordHash(data, address) == Some(hash)
  {
    hide HashRecord;
  }

  // ------------------------------------------------------- the batch transaction

  /** What the batch transaction came to. */
  function BatchOutcome(w: World, org: Uuid, drafts: seq<BatchDraft>, link: Link): RowState
    requires org in w.orgs && w.orgs[org].key.Some?
  {
    if link.Away? then RowPending
    else if Execute(w.chain, AnchorBatch(w.orgs[org].key.value, Hashes(drafts))).Err? then RowFailed
    else if link.Answers? then RowConfirmed
    else RowPending
  }

  /** Where an import leaves the platform, the drafts that were left behind aside. */
  function ImportEnd(w: World, org: Uuid, drafts: seq<BatchDraft>, link: Link): World
    requires org in w.orgs && w.orgs[org].key.Some? && DraftsFree(w.records, drafts)
  {
    if drafts == [] then w
    else
      var call := AnchorBatch(w.orgs[org].key.value, Hashes(drafts));
      var state := BatchOutcome(w, org, drafts, link);
      var sent := !link.Away? && Execute(w.chain, call).Ok?;
      var mined := sent && (link.Answers? || link.landed);
      w.(records := w.records + ImportedRecords(w.records, w.now, drafts, state.RowConfirmed?),
         rows := w.rows + ImportedRows(drafts, state), tasks := w.tasks + [Idle],
         ids := w.ids + DraftIds(drafts), batchIds := w.batchIds + DraftIds(drafts),
         txs := if sent then w.txs + [Tx(call, ForBatch(drafts), if mined then Mined(true) else Pooled)] else w.txs,
         chain := if mined then Execute(w.chain, call).value else w.chain)
  }

  /** The import is under way: its ids are minted, and its transaction may be out. */
  function Begun(w: World, org: Uuid, drafts: seq<BatchDraft>, submission: Submission, txs: seq<Tx>, chain: State): World {
    w.(ids := w.ids + DraftIds(drafts), batchIds := w.batchIds + DraftIds(drafts),
       tasks := w.tasks + [Importing(org, drafts, submission)], txs := txs, chain := chain)
  }

  lemma CommitReached(w: World, org: Uuid, drafts: seq<BatchDraft>, submission: Submission, txs: seq<Tx>, chain: State,
                      state: RowState)
    requires DraftsFree(w.records, drafts) && Reachable(Begun(w, org, drafts, submission, txs, chain))
    requires Learnt(Begun(w, org, drafts, submission, txs, chain), submission, state)
    ensures Reachable(Begun(w, org, drafts, submission, txs, chain).(
              tasks := w.tasks + [Idle], records := w.records + ImportedRecords(w.records, w.now, drafts, state.RowConfirmed?),
              rows := w.rows + ImportedRows(drafts, state)))
  {
    hide Reachable, DraftsFree, ImportedRows, Learnt, DraftIds;
    var x := Begun(w, org, drafts, submission, txs, chain);
    ImportReached(x, CommitImport(|w.tasks|, state));
    assert x.tasks[|w.tasks| := Idle] == w.tasks + [Idle];
    assert ImportedRecords(x.records, x.now, drafts, state.RowConfirmed?) == ImportedRecords(w.records, w.now, drafts, state.RowConfirmed?);
  }

  predicate CanImport(w: World, org: Uuid, drafts: seq<BatchDraft>) {
    && org in w.orgs && CanIssue(w.orgs[org]) && w.orgs[org].key.Some? && drafts != []
    && DraftsReady(w, org, drafts) && DraftIds(drafts) !! w.ids
  }

  lemma UnsentReached(w: World, org: Uuid, drafts: seq<BatchDraft>, how: Delivery)
    requires Reachable(w) && CanImport(w, org, drafts) && !how.Delivered?
    requires how.Turned? ==> Execute(w.chain, AnchorBatch(w.orgs[org].key.value, Hashes(drafts))).Err?
    ensures Reachable(Begun(w, org, drafts, if how.Lost? then NotSent else RefusedAtOnce, w.txs, w.chain))
  {
    hide Reachable, Execute, DraftsReady, Hashes, DraftIds;
    ImportReached(w, BeginImport(org, drafts, how));
  }

  lemma BatchSentReached(w: World, org: Uuid, drafts: seq<BatchDraft>, mined: bool)
    requires Reachable(w) && CanImport(w, org, drafts)
    requires Execute(w.chain, AnchorBatch(w.orgs[org].key.value, Hashes(drafts))).Ok?
    ensures var call := AnchorBatch(w.orgs[org].key.value, Hashes(drafts));
            Reachable(Begun(w, org, drafts, Sent(|w.txs|),
                            w.txs + [Tx(call, ForBatch(drafts), if mined then Mined(true) else Pooled)],
                            if mined then Execute(w.chain, call).value else w.chain))
  {
    hide Reachable, Execute, DraftsReady, Hashes, DraftIds;
    var call := AnchorBatch(w.orgs[org].key.value, Hashes(drafts));
    ImportReached(w, BeginImport(org, drafts, Delivered));
    var x := ImportNext(w, BeginImport(org, drafts, Delivered));
    assert x == Begun(w, org, drafts, Sent(|w.txs|), w.txs + [Tx(call, ForBatch(drafts), Pooled)], w.chain);
    if mined {
      EnvReached(x, Mine(|w.txs|));
      assert EnvNext(x, Mine(|w.txs|)).txs == w.txs + [Tx(call, ForBatch(drafts), Mined(true))];
    }
  }

  /** The import went from `w` to `x`: nothing to anchor, or the batch and its rows. */
  predicate Ended(w: World, org: Uuid, drafts: seq<BatchDraft>, link: Link, x: World) {
    hide DraftsReady, DraftsFree, DraftIds, CanIssue, ImportEnd;
    if drafts == [] then x == w
    else CanImport(w, org, drafts) && DraftsFree(w.records, drafts) && x == ImportEnd(w, org, drafts, link)
  }

  lemma ImportEndReachable(w: World, org: Uuid, drafts: seq<BatchDraft>, link: Link)
    requires Reachable(w) && CanImport(w, org, drafts)
    ensures DraftsFree(w.records, drafts) && Reachable(ImportEnd(w, org, drafts, link))
  {
    hide Reachable, Execute, DraftsFree, Hashes, DraftIds, ImportedRows, ImportedRecords;
    var call := AnchorBatch(w.orgs[org].key.value, Hashes(drafts));
    if link.Away? {
      UnsentReached(w, org, drafts, Lost);
      CommitReached(w, org, drafts, NotSent, w.txs, w.chain, RowPending);
    } else if Execute(w.chain, call).Err? {
      UnsentReached(w, org, drafts, Turned);
      CommitReached(w, org, drafts, RefusedAtOnce, w.txs, w.chain, RowFailed);
    } else {
      var mined := link.Answers? || link.landed;
      BatchSentReached(w, org, drafts, mined);
      CommitReached(w, org, drafts, Sent(|w.txs|),
                    w.txs + [Tx(call, ForBatch(drafts), if mined then Mined(true) else Pooled)],
                    if mined then Execute(w.chain, call).value else w.chain, if link.Answers? then RowConfirmed else RowPending);
    }
  }

  // ------------------------------------------------- a batch never trips over itself

  /** A draft's hash cannot be on the ledger yet: whatever is there belongs to a known id. */
  lemma DraftIsFresh(w: World, org: Uuid, d: BatchDraft)
    requires Inv(w) && org in w.orgs && d.data.id !in w.ids && RecordHash(d.data, w.orgs[org].address) == Some(d.hash)
    ensures d.hash != "" && d.hash !in w.chain.anchors
  {
    hide HashRecord, OrgsOk, RecordsOk, UniqueLive, OffersOk, RowsOk, EventsOk, TxsOk, TasksOk, ChainOk;
    HashNotBlank(d.data, w.orgs[org].address);
    if d.hash in w.chain.anchors {
      AnchoredIsMinted(w, d.hash);
      var id: Uuid, data: RecordData, address: string :| id in w.ids && data.id == id && HashRecord(data, address) == Ok(d.hash);
      DistinctRecordsDistinctHashes(data, address, d.data, w.orgs[org].address);
    }
  }

  lemma AnchoredIsMinted(w: World, h: string)
    requires Inv(w) && h in w.chain.anchors
    ensures exists id: Uuid, data: RecordData, address: string ::
              id in w.ids && data.id == id && HashRecord(data, address) == Ok(h)
  {
    hide HashRecord, DedupeKey, OrgsOk, UniqueLive, OffersOk, RecordsOk, RowsOk, EventsOk, TasksOk;
    hide Effective, Cleared, DraftOk, Hashes;
    var i :| LandedBy(w, i, h);
    assert TxOk(w, w.txs[i]);
    match w.txs[i].cause
    case ForRow(row) => RowIsMinted(w, row, h);
    case ForBatch(drafts) =>
      var j :| 0 <= j < |drafts| && Hashes(drafts)[j] == h;
      assert drafts[j] in drafts;
      DraftIsMinted(w, drafts[j]);
    case _ =>
  }

  lemma RowIsMinted(w: World, row: nat, h: string)
    requires Inv(w) && row < |w.rows| && w.rows[row].hash == h
    ensures exists id: Uuid, data: RecordData, address: string ::
              id in w.ids && data.id == id && HashRecord(data, address) == Ok(h)
  {
    hide HashRecord, DedupeKey, OrgsOk, UniqueLive, OffersOk, EventsOk, TasksOk, TxsOk, ChainOk;
    var id := w.rows[row].record;
    assert RowOk(w, w.rows[row]);
    assert RecordOk(w, id);
    assert id in w.ids && w.records[id].data.id == id
           && HashRecord(w.records[id].data, w.orgs[w.records[id].data.issuerId].address) == Ok(h);
  }

  lemma DraftIsMinted(w: World, d: BatchDraft)
    requires RecordsOk(w) && DraftOk(w, d)
    ensures exists id: Uuid, data: RecordData, address: string ::
              id in w.ids && data.id == id && HashRecord(data, address) == Ok(d.hash)
  {
    hide HashRecord, DedupeKey;
    assert d.data.id in w.ids && HashRecord(d.data, w.orgs[d.data.issuerId].address) == Ok(d.hash);
  }

  /**
   The contract never refuses a batch for its contents: not for its size, an empty or a repeated
   hash, or one that is anchored already. It refuses exactly when it does not know the issuer as
   active.
   */
  lemma BatchRefusedOnlyForItsIssuer(w: World, org: Uuid, drafts: seq<BatchDraft>)
    requires Reachable(w) && CanImport(w, org, drafts) && |drafts| <= MAX_BATCH_ROWS
    ensures Execute(w.chain, AnchorBatch(w.orgs[org].key.value, Hashes(drafts))).Ok?
            <==> CheckActive(w.chain, w.orgs[org].key.value) == None
  {
    hide Reachable, HashRecord, DedupeKey, NoClash, AnchorAll, Inv;
    ReachableInv(w);
    var from, hashes := w.orgs[org].key.value, Hashes(drafts);
    forall i | 0 <= i < |hashes| ensures hashes[i] != "" && hashes[i] !in w.chain.anchors {
      assert drafts[i] in drafts && drafts[i].data.id in DraftIds(drafts);
      DraftIsFresh(w, org, drafts[i]);
    }
    forall i, j | 0 <= i < j < |hashes| ensures hashes[i] != hashes[j] {
      assert drafts[i] in drafts && drafts[j] in drafts;
      DistinctRecordsDistinctHashes(drafts[i].data, w.orgs[org].address, drafts[j].data, w.orgs[org].address);
    }
    BatchExact(w.chain, from, hashes);
  }

  /**
   The end of an import told by what the ledger knows: every row confirmed and every record issued
   exactly for an active issuer whose batch is answered, every row failed exactly when the ledger is
   there and does not know the issuer as active, and everything still pending otherwise.
   */
  lemma ImportEndExact(w: World, org: Uuid, drafts: seq<BatchDraft>, link: Link)
    requires Reachable(w) && CanImport(w, org, drafts) && |drafts| <= MAX_BATCH_ROWS && DraftsFree(w.records, drafts)
    ensures var x := ImportEnd(w, org, drafts, link);
            var active := IsActive(w.chain, w.orgs[org].key.value);
            var state := if !link.Away? && !active then RowFailed
                         else if link.Answers? then RowConfirmed else RowPending;
            && |x.rows| == |w.rows| + |drafts| && x.rows[..|w.rows|] == w.rows
            && (forall k | 0 <= k < |drafts| ::
                  && x.rows[|w.rows| + k] == Row(drafts[k].data.id, drafts[k].hash, state, 1)
                  && drafts[k].data.id in x.records
                  && x.records[drafts[k].data.id] == Record(
                       drafts[k].data, AuthorityPush, true, if state == RowConfirmed then Issued else PendingAnchor,
                       drafts[k].hash, DedupeKey(drafts[k].data), 0, false, if state == RowConfirmed then Some(w.now) else None))
            && (x.chain != w.chain ==> active && Landing(link))
            && (active && Landing(link) ==> forall d | d in drafts :: d.hash in x.chain.anchors)
  {
    hide Reachable, Execute, CheckActive, DedupeKey, NoClash, RecordHash, DraftIds, CanIssue, DraftsFree, DraftsReady,
         ImportedRecords, ImportEnd, BatchOutcome, Hashes;
    OutcomeExact(w, org, drafts, link);
    EndTables(w, org, drafts, link);
    EndChain(w, org, drafts, link);
    var landed := BatchOutcome(w, org, drafts, link) == RowConfirmed;
    forall k | 0 <= k < |drafts|
      ensures var r := ImportedRecords(w.records, w.now, drafts, landed);
              drafts[k].data.id in r
              && r[drafts[k].data.id] == Record(
                   drafts[k].data, AuthorityPush, true, if landed then Issued else PendingAnchor,
                   drafts[k].hash, DedupeKey(drafts[k].data), 0, false, if landed then Some(w.now) else None)
    {
      ImportedAs(w.records, w.now, drafts, landed, k);
    }
  }

  lemma OutcomeExact(w: World, org: Uuid, drafts: seq<BatchDraft>, link: Link)
    requires Reachable(w) && CanImport(w, org, drafts) && |drafts| <= MAX_BATCH_ROWS
    ensures BatchOutcome(w, org, drafts, link)
            == if !link.Away? && !IsActive(w.chain, w.orgs[org].key.value) then RowFailed
               else if link.Answers? then RowConfirmed else RowPending
  {
    hide Reachable, Execute, CheckActive, DraftsReady, DraftIds, CanIssue, Hashes;
    BatchRefusedOnlyForItsIssuer(w, org, drafts);
    ActiveExact(w.chain, w.orgs[org].key.value);
  }

  lemma EndTables(w: World, org: Uuid, drafts: seq<BatchDraft>, link: Link)
    requires CanImport(w, org, drafts) && DraftsFree(w.records, drafts)
    ensures var x, state := ImportEnd(w, org, drafts, link), BatchOutcome(w, org, drafts, link);
            && x.records == w.records + ImportedRecords(w.records, w.now, drafts, state.RowConfirmed?)
            && |x.rows| == |w.rows| + |drafts| && x.rows[..|w.rows|] == w.rows
            && forall k | 0 <= k < |drafts| :: x.rows[|w.rows| + k] == Row(drafts[k].data.id, drafts[k].hash, state, 1)
  {
    hide Execute, DraftsReady, DraftsFree, DraftIds, CanIssue, Hashes, ImportedRecords, BatchOutcome;
  }

  lemma EndChain(w: World, org: Uuid, drafts: seq<BatchDraft>, link: Link)
    requires Reachable(w) && CanImport(w, org, drafts) && |drafts| <= MAX_BATCH_ROWS && DraftsFree(w.records, drafts)
    ensures var x := ImportEnd(w, org, drafts, link);
            var lands := IsActive(w.chain, w.orgs[org].key.value) && Landing(link);
            && (x.chain != w.chain ==> lands)
            && (lands ==> forall d | d in drafts :: d.hash in x.chain.anchors)
  {
    hide Reachable, Execute, CheckActive, DraftsReady, DraftsFree, DraftIds, CanIssue, ImportedRecords, BatchOutcome;
    BatchRefusedOnlyForItsIssuer(w, org, drafts);
    ActiveExact(w.chain, w.orgs[org].key.value);
    var call := AnchorBatch(w.orgs[org].key.value, Hashes(drafts));
    if Execute(w.chain, call).Ok? {
      ExecuteEffect(w.chain, call);
      forall d | d in drafts ensures d.hash in Execute(w.chain, call).value.anchors {
        var k :| 0 <= k < |drafts| && drafts[k] == d;
        assert Hashes(drafts)[k] == d.hash;
      }
    }
  }

  lemma ActiveExact(chain: State, address: string)
    ensures CheckActive(chain, address) == None <==> IsActive(chain, address)
  {
  }

  lemma ImportedAs(records: map<Uuid, Record>, now: int, drafts: seq<BatchDraft>, landed: bool, k: nat)
    requires DraftsFree(records, drafts) && k < |drafts|
    ensures var r := ImportedRecords(records, now, drafts, landed);
            && drafts[k].data.id in r
            && r[drafts[k].data.id] == Record(
                 drafts[k].data, AuthorityPush, true, if landed then Issued else PendingAnchor,
                 drafts[k].hash, DedupeKey(drafts[k].data), 0, false, if landed then Some(now) else None)
  {
    hide DedupeKey, NoClash;
  }

  // ---------------------------------------------------------- drafts left behind

  function LeaveAll(w: World, leftovers: seq<RecordData>): World
    decreases |leftovers|
  {
    if leftovers == [] then w
    else LeftBehind(LeaveAll(w, leftovers[..|leftovers| - 1]), leftovers[|leftovers| - 1])
  }

  function LeftoverIds(leftovers: seq<RecordData>): set<Uuid> {
    set d | d in leftovers :: d.id
  }

  /** The tables with the drafts in them, and everything else as it was. */
  lemma {:induction false} LeaveAllEffect(w: World, leftovers: seq<RecordData>)
    ensures var x := LeaveAll(w, leftovers);
            && x == w.(records := x.records, ids := x.ids, batchIds := x.batchIds)
            && x.ids == w.ids + LeftoverIds(leftovers)
            && (forall id | id in x.records && id !in LeftoverIds(leftovers) :: id in w.records && x.records[id] == w.records[id])
            && (forall id | id in x.records && id in LeftoverIds(leftovers) :: x.records[id].status == Draft)
            && w.records.Keys <= x.records.Keys
    decreases |leftovers|
  {
    if leftovers != [] {
      var n := |leftovers| - 1;
      LeaveAllEffect(w, leftovers[..n]);
      assert leftovers == leftovers[..n] + [leftovers[n]];
      assert LeftoverIds(leftovers) == LeftoverIds(leftovers[..n]) + {leftovers[n].id};
    }
  }

  lemma LeftBehindReachable(w: World, data: RecordData)
    requires Reachable(w) && data.id !in w.ids && data.issuerId in w.orgs && CanIssue(w.orgs[data.issuerId])
    ensures Reachable(LeftBehind(w, data))
  {
    hide Reachable;
    ImportReached(w, LeaveDraft(data));
  }

  lemma LastIsFresh(leftovers: seq<RecordData>)
    requires leftovers != [] && forall k, l | 0 <= k < l < |leftovers| :: leftovers[k].id != leftovers[l].id
    ensures leftovers[|leftovers| - 1].id !in LeftoverIds(leftovers[..|leftovers| - 1])
  {
  }

  lemma {:induction false} LeaveAllReachable(w: World, leftovers: seq<RecordData>)
    requires Reachable(w)
    requires forall k | 0 <= k < |leftovers| ::
               leftovers[k].id !in w.ids && leftovers[k].issuerId in w.orgs && CanIssue(w.orgs[leftovers[k].issuerId])
    requires forall k, l | 0 <= k < l < |leftovers| :: leftovers[k].id != leftovers[l].id
    ensures Reachable(LeaveAll(w, leftovers))
    decreases |leftovers|
  {
    hide Reachable, CanIssue, LeftBehind, LeftoverIds;
    if leftovers != [] {
      var n := |leftovers| - 1;
      LeaveAllReachable(w, leftovers[..n]);
      LeaveAllEffect(w, leftovers[..n]);
      LastIsFresh(leftovers);
      LeftBehindReachable(LeaveAll(w, leftovers[..n]), leftovers[n]);
    }
  }

  /** The accepted rows are still free of clashes once the others have left their drafts. */
  lemma ReadyToImport(w: World, u: Upload, rows: seq<CsvRow>, newIds: seq<Uuid>,
                      created: seq<BatchDraft>, leftovers: seq<RecordData>, at: seq<nat>)
    requires u.org in w.orgs && CanIssue(w.orgs[u.org]) && w.orgs[u.org].key.Some? && w.orgs[u.org].address == u.address && created != [] && RecordsOk(w)
    requires |newIds| == |rows| && Distinct(newIds) && forall i | 0 <= i < |newIds| :: newIds[i] !in w.ids
    requires DrawnFrom(created, at, rows, newIds, u, |rows|)
    requires Guarded(w.records, created) && LeftOver(leftovers, at, newIds, u.org, |rows|)
    ensures CanImport(LeaveAll(w, leftovers), u.org, created)
  {
    hide RecordHash, DedupeKey, NoClash, RecordsOk, LeaveAll, RowData, CanIssue;
    var x := LeaveAll(w, leftovers);
    LeaveAllEffect(w, leftovers);
    forall k | 0 <= k < |created|
      ensures created[k].data.id !in x.ids && created[k].data.id !in x.records
      ensures NoClash(x.records, created[k].data.id, DedupeKey(created[k].data))
      ensures created[k].data.issuerId == u.org
    {
      var id := created[k].data.id;
      RowIdentity(rows[at[k]], newIds[at[k]], u.org, u.recordType);
      assert id == newIds[at[k]];
      NotLeftOver(leftovers, at, newIds, u.org, |rows|, k);
      KnownIsMinted(w, id);
      StillFree(w.records, x.records, LeftoverIds(leftovers), id, DedupeKey(created[k].data));
    }
    forall i, j | 0 <= i < j < |created| ensures created[i].data.id != created[j].data.id {
      RowIdentity(rows[at[i]], newIds[at[i]], u.org, u.recordType);
      RowIdentity(rows[at[j]], newIds[at[j]], u.org, u.recordType);
      assert at[i] < at[j];
    }
  }

  lemma RowIdentity(row: CsvRow, id: Uuid, org: Uuid, recordType: RecordType)
    ensures var r := RowData(row, id, org, recordType); r.Ok? ==> r.value.id == id && r.value.issuerId == org
  {
  }

  lemma NotLeftOver(leftovers: seq<RecordData>, at: seq<nat>, newIds: seq<Uuid>, org: Uuid, n: nat, k: nat)
    requires LeftOver(leftovers, at, newIds, org, n) && Distinct(newIds) && k < |at| && at[k] < |newIds|
    ensures newIds[at[k]] !in LeftoverIds(leftovers)
  {
    forall l | 0 <= l < |leftovers| ensures leftovers[l].id != newIds[at[k]] {
      var i :| 0 <= i < n && i < |newIds| && newIds[i] == leftovers[l].id && i !in at;
      assert at[k] in at;
    }
  }

  lemma KnownIsMinted(w: World, id: Uuid)
    requires RecordsOk(w)
    ensures id in w.records ==> id in w.ids
  {
    hide RecordHash, DedupeKey;
    if id in w.records { assert RecordOk(w, id); }
  }

  /** Drafts are not live, so they clash with nothing. */
  lemma StillFree(records: map<Uuid, Record>, after: map<Uuid, Record>, added: set<Uuid>, id: Uuid, key: string)
    requires NoClash(records, id, key)
    requires forall i | i in after && i !in added :: i in records && after[i] == records[i]
    requires forall i | i in after && i in added :: after[i].status == Draft
    ensures NoClash(after, id, key)
  {
  }

  // ------------------------------------------------------------- a lost import

  /** The batch goes out and is mined, and the process dies before the import commits. */
  function LostImport(w: World, org: Uuid, drafts: seq<BatchDraft>): seq<Step> {
    [ImportDoes(BeginImport(org, drafts, Delivered)), EnvDoes(Mine(|w.txs|)), EnvDoes(Crash(|w.tasks|))]
  }

  lemma BatchGoesOut(w: World, org: Uuid, drafts: seq<BatchDraft>)
    requires CanImport(w, org, drafts) && Execute(w.chain, AnchorBatch(w.orgs[org].key.value, Hashes(drafts))).Ok?
    ensures Enabled(w, ImportDoes(BeginImport(org, drafts, Delivered)))
    ensures var x := Next(w, ImportDoes(BeginImport(org, drafts, Delivered)));
            && x.records == w.records && x.chain == w.chain && x.ids == w.ids + DraftIds(drafts)
            && |x.tasks| == |w.tasks| + 1 && x.tasks[..|w.tasks|] == w.tasks
            && |x.txs| == |w.txs| + 1 && x.txs[|w.txs|].fate.Pooled?
            && x.txs[|w.txs|].call == AnchorBatch(w.orgs[org].key.value, Hashes(drafts))
  {
    hide Execute, DraftsReady, DraftIds;
  }

  lemma BatchIsMined(w: World, i: nat)
    requires i < |w.txs| && w.txs[i].fate.Pooled? && w.txs[i].call.AnchorBatch? && Execute(w.chain, w.txs[i].call).Ok?
    ensures Enabled(w, EnvDoes(Mine(i)))
    ensures var x := Next(w, EnvDoes(Mine(i)));
            && x.records == w.records && x.ids == w.ids && x.tasks == w.tasks
            && forall h | h in w.txs[i].call.hashes :: h in x.chain.anchors
  {
    hide Execute;
    ExecuteEffect(w.chain, w.txs[i].call);
  }

  /**
   Calling the ledger inside the import's own transaction risks what the anchoring of single
   records rules out: hashes on the ledger for which the database has no record at all.
   */
  lemma ImportCanLoseItsRows(w: World, org: Uuid, drafts: seq<BatchDraft>)
    requires Reachable(w) && CanImport(w, org, drafts) && |drafts| <= MAX_BATCH_ROWS
    requires CheckActive(w.chain, w.orgs[org].key.value) == None
    ensures CanRun(w, LostImport(w, org, drafts))
    ensures var x := Run(w, LostImport(w, org, drafts));
            && x.records == w.records && x.tasks == w.tasks + [Idle] && x.ids == w.ids + DraftIds(drafts)
            && forall d | d in drafts :: d.hash in x.chain.anchors && d.data.id !in x.records
  {
    hide Reachable, CanRun, Run, Enabled, Next, Execute, CheckActive, DedupeKey, NoClash, RecordHash, DraftIds;
    BatchRefusedOnlyForItsIssuer(w, org, drafts);
    BatchGoesOut(w, org, drafts);
    var s1, s2, s3 := ImportDoes(BeginImport(org, drafts, Delivered)), EnvDoes(Mine(|w.txs|)), EnvDoes(Crash(|w.tasks|));
    var x := Next(w, s1);
    BatchIsMined(x, |w.txs|);
    var y := Next(x, s2);
    assert Enabled(y, s3) && Next(y, s3) == y.(tasks := y.tasks[|w.tasks| := Idle]) by { CrashEnds(y, |w.tasks|); }
    assert x.tasks[|w.tasks| := Idle] == x.tasks[..|w.tasks|] + [Idle];
    Gaps.ThreeSteps(w, s1, s2, s3);
    forall d | d in drafts ensures d.hash in Next(y, s3).chain.anchors && d.data.id !in Next(y, s3).records {
      var i :| 0 <= i < |drafts| && drafts[i] == d;
      assert Hashes(drafts)[i] == d.hash;
    }
  }

  lemma CrashEnds(w: World, t: nat)
    requires t < |w.tasks|
    ensures Enabled(w, EnvDoes(Crash(t))) && Next(w, EnvDoes(Crash(t))) == w.(tasks := w.tasks[t := Idle])
  {
  }
}
