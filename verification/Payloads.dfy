/**
 What exactly is hashed (backend/apps/credentials/payloads.py): the payload of a record, its
 pre-image, its hash and its duplicate key.
 */
module Payloads {
  import opened Basics
  import opened Text
  import opened Dates
  import opened Decimals
  import opened Json
  import opened Canonical
  import opened Rearrange
  import opened Crypto

  /** An identifier: a number, printed as digits. That the text determines it is what matters. */
  type Uuid = nat

  function UuidText(id: Uuid): string {
    Digits(id)
  }

  lemma UuidTextIsNormal(id: Uuid)
    ensures IsNormal(UuidText(id))
  {
    DigitsReadBack(id);
    assert Plain(UuidText(id)) by {
      assert forall i | 0 <= i < |UuidText(id)| :: '0' <= UuidText(id)[i] <= '9';
    }
    PlainIsNormal(UuidText(id));
  }

  lemma UuidTextInjective(a: Uuid, b: Uuid)
    requires UuidText(a) == UuidText(b)
    ensures a == b
  {
    DigitsReadBack(a);
    DigitsReadBack(b);
  }

  datatype RecordType = Academic | Experience | Certification {
    function Code(): string {
      match this
      case Academic => "ACADEMIC"
      case Experience => "EXPERIENCE"
      case Certification => "CERTIFICATION"
    }
  }

  datatype AcademicDetail = AcademicDetail(
    registrationNumber: string, degreeTitle: string, major: string, level: string,
    graduationDate: CalendarDate, cgpa: Option<Decimal>, percentage: Option<Decimal>, honours: string)

  datatype ExperienceDetail = ExperienceDetail(
    jobTitle: string, department: string, employmentType: string, startDate: CalendarDate,
    endDate: Option<CalendarDate>, isCurrent: bool, departureStatus: string, responsibilities: string)

  /** The columns of a record and of its detail rows that hashing or deduplication reads. */
  datatype RecordData = RecordData(
    id: Uuid, recordType: RecordType, issuerId: Uuid, subjectName: string, subjectEmail: string,
    academic: Option<AcademicDetail>, experience: Option<ExperienceDetail>,
    documentSha256: string, subjectBinding: string)
  {
    predicate HasDetail() {
      if recordType.Experience? then experience.Some? else academic.Some?
    }
  }

  datatype HashError = NoDetailRow | NotCanonical(error: CanonError)

  const SCHEMA_VERSION := "1.1"
  const DOMAIN_TAG := "VERIDOCK-RECORD-V1"

  function Item(name: string, v: Value): Entry {
    Entry(Name(name), v)
  }

  function NumberOrNone(d: Option<Decimal>): Value {
    if d.None? then PyNone else PyNumber(d.value)
  }

  function DateOrNone(d: Option<CalendarDate>): Value {
    if d.None? then PyNone else PyDate(d.value)
  }

  function AcademicFields(d: AcademicDetail): seq<Entry> {
    [Item("registration_number", PyStr(NormaliseText(d.registrationNumber))),
     Item("degree_title", PyStr(NormaliseText(d.degreeTitle))),
     Item("major", PyStr(NormaliseText(d.major))),
     Item("level", PyStr(d.level)),
     Item("graduation_date", PyDate(d.graduationDate)),
     Item("cgpa", NumberOrNone(d.cgpa)),
     Item("percentage", NumberOrNone(d.percentage)),
     Item("honours", PyStr(NormaliseText(d.honours)))]
  }

  function ExperienceFields(d: ExperienceDetail): seq<Entry> {
    [Item("job_title", PyStr(NormaliseText(d.jobTitle))),
     Item("department", PyStr(NormaliseText(d.department))),
     Item("employment_type", PyStr(d.employmentType)),
     Item("start_date", PyDate(d.startDate)),
     Item("end_date", DateOrNone(d.endDate)),
     Item("is_current", PyBool(d.isCurrent)),
     Item("departure_status", PyStr(d.departureStatus)),
     Item("responsibilities", PyStr(NormaliseText(d.responsibilities)))]
  }

  function DetailItem(r: RecordData): Entry
    requires r.HasDetail()
  {
    if r.recordType.Experience?
    then Item("experience", PyDict(ExperienceFields(r.experience.value)))
    else Item("academic", PyDict(AcademicFields(r.academic.value)))
  }

  /** The entries every payload has. */
  function BaseItems(r: RecordData, address: string): seq<Entry>
    requires r.HasDetail()
  {
    [Item("schema", PyStr(SCHEMA_VERSION)),
     Item("record_id", PyStr(UuidText(r.id))),
     Item("type", PyStr(r.recordType.Code())),
     Item("issuer_id", PyStr(UuidText(r.issuerId))),
     Item("issuer_address", PyStr(LOWER(address))),
     Item("subject_name", PyStr(NormaliseText(r.subjectName))),
     DetailItem(r)]
  }

  function OptionalItem(name: string, text: string): seq<Entry> {
    if text == "" then [] else [Item(name, PyStr(text))]
  }

  /** The payload of a record under an issuer signing from `address`. */
  function BuildPayload(r: RecordData, address: string): Result<Value, HashError> {
    if !r.HasDetail() then Err(NoDetailRow)
    else Ok(PyDict(BaseItems(r, address)
                   + OptionalItem("document_sha256", r.documentSha256)
                   + OptionalItem("subject_binding", r.subjectBinding)))
  }

  /** `build_payload`, key by key, as the code fills its dictionary. */
  method FillPayload(r: RecordData, address: string) returns (payload: Result<Value, HashError>)
    ensures payload == BuildPayload(r, address)
  {
    if !r.HasDetail() {
      return Err(NoDetailRow);
    }
    var entries := [Item("schema", PyStr(SCHEMA_VERSION)), Item("record_id", PyStr(UuidText(r.id)))];
    entries := entries + [Item("type", PyStr(r.recordType.Code())), Item("issuer_id", PyStr(UuidText(r.issuerId)))];
    entries := entries + [Item("issuer_address", PyStr(LOWER(address)))];
    entries := entries + [Item("subject_name", PyStr(NormaliseText(r.subjectName)))];
    if r.recordType.Experience? {
      entries := entries + [Item("experience", PyDict(ExperienceFields(r.experience.value)))];
    } else {
      entries := entries + [Item("academic", PyDict(AcademicFields(r.academic.value)))];
    }
    hide Item, UuidText, AcademicFields, ExperienceFields, RecordType.Code, NormaliseText;
    assert entries == BaseItems(r, address);
    hide BaseItems, DetailItem;
    if r.documentSha256 != "" {
      entries := entries + [Item("document_sha256", PyStr(r.documentSha256))];
    }
    assert entries == BaseItems(r, address) + OptionalItem("document_sha256", r.documentSha256);
    if r.subjectBinding != "" {
      entries := entries + [Item("subject_binding", PyStr(r.subjectBinding))];
    }
    assert entries == BaseItems(r, address) + OptionalItem("document_sha256", r.documentSha256)
                      + OptionalItem("subject_binding", r.subjectBinding);
    return Ok(PyDict(entries));
  }

  function CanonicalPayload(r: RecordData, address: string): Result<Json, HashError> {
    match BuildPayload(r, address)
    case Err(e) => Err(e)
    case Ok(payload) =>
      match Canon(payload)
      case Err(e) => Err(NotCanonical(e))
      case Ok(j) => Ok(j)
  }

  /** The domain-tagged text that is fed to keccak256. */
  function PreImage(j: Json): string {
    DOMAIN_TAG + "\n" + Print(j)
  }

  function HashRecord(r: RecordData, address: string): Result<string, HashError> {
    match CanonicalPayload(r, address)
    case Err(e) => Err(e)
    case Ok(j) => Ok(KECCAK256(PreImage(j)))
  }

  // ------------------------------------------------------------- what is hashed

  /** A number as the hash sees it: its sign and its hundredths. */
  datatype Rounded = Rounded(negative: bool, cents: nat)

  datatype HashedDetail =
    | HashedAcademic(registrationNumber: string, degreeTitle: string, major: string, level: string,
                     graduationDate: CalendarDate, cgpa: Option<Rounded>, percentage: Option<Rounded>,
                     honours: string)
    | HashedExperience(jobTitle: string, department: string, employmentType: string,
                       startDate: CalendarDate, endDate: Option<CalendarDate>, isCurrent: bool,
                       departureStatus: string, responsibilities: string)

  /** Everything a hash commits to, text up to normalisation and numbers up to two decimals. */
  datatype HashedFields = HashedFields(
    id: Uuid, recordType: RecordType, issuerId: Uuid, address: string, subjectName: string,
    detail: HashedDetail, documentSha256: string, subjectBinding: string)

  function RoundedNumber(d: Option<Decimal>): Option<Rounded> {
    if d.None? || d.value.NonFinite? then None else Some(Rounded(d.value.negative, Cents(d.value)))
  }

  function HashedDetailOf(r: RecordData): HashedDetail
    requires r.HasDetail()
  {
    if r.recordType.Experience? then
      var d := r.experience.value;
      HashedExperience(NormaliseText(d.jobTitle), NormaliseText(d.department),
                       NormaliseText(d.employmentType), d.startDate, d.endDate, d.isCurrent,
                       NormaliseText(d.departureStatus), NormaliseText(d.responsibilities))
    else
      var d := r.academic.value;
      HashedAcademic(NormaliseText(d.registrationNumber), NormaliseText(d.degreeTitle),
                     NormaliseText(d.major), NormaliseText(d.level), d.graduationDate,
                     RoundedNumber(d.cgpa), RoundedNumber(d.percentage), NormaliseText(d.honours))
  }

  function HashedFieldsOf(r: RecordData, address: string): HashedFields
    requires r.HasDetail()
  {
    HashedFields(r.id, r.recordType, r.issuerId, NormaliseText(LOWER(address)),
                 NormaliseText(r.subjectName), HashedDetailOf(r),
                 NormaliseText(r.documentSha256), NormaliseText(r.subjectBinding))
  }

  // ----------------------------------------------- looking up canonical fields

  /** String keys, no two of them alike after normalisation. */
  predicate DistinctNames(entries: seq<Entry>) {
    && (forall i | 0 <= i < |entries| :: entries[i].key.Name?)
    && (forall i, j | 0 <= i < j < |entries| ::
          NormaliseText(entries[i].key.s) != NormaliseText(entries[j].key.s))
  }

  predicate SameNames(a: seq<Entry>, b: seq<Entry>) {
    |a| == |b| && forall i | 0 <= i < |a| :: a[i].key == b[i].key
  }

  predicate SameCanon(a: Entry, b: Entry) {
    Canon(a.value) == Canon(b.value)
  }

  /** Nothing was set under a name that does not occur. */
  lemma {:induction false} FindMissing(entries: seq<Entry>, name: string)
    requires CanonEntries(entries).Ok?
    requires forall e | e in entries :: e.key.Name? && NormaliseText(e.key.s) != name
    ensures Find(CanonEntries(entries).value, name) == None
  {
    if entries != [] {
      var n := |entries| - 1;
      FindMissing(entries[..n], name);
      var e := entries[n];
      FindPut(CanonEntries(entries[..n]).value, NormaliseText(e.key.s), Canon(e.value).value, name);
    }
  }

  /** What a canonical object holds under the name of its entry `i`. */
  lemma {:induction false} FindEntry(entries: seq<Entry>, i: nat)
    requires i < |entries| && DistinctNames(entries) && CanonEntries(entries).Ok?
    ensures Canon(entries[i].value).Ok?
    ensures Find(CanonEntries(entries).value, NormaliseText(entries[i].key.s))
              == if Blank(entries[i]) then None else Some(Canon(entries[i].value).value)
  {
    var n := |entries| - 1;
    var e, name := entries[n], NormaliseText(entries[i].key.s);
    var before := CanonEntries(entries[..n]).value;
    FindPut(before, NormaliseText(e.key.s), Canon(e.value).value, name);
    if i < n {
      FindEntry(entries[..n], i);
    } else {
      FindMissing(entries[..n], name);
    }
  }

  /** Equal canonical objects with the same distinct names have equal canonical fields. */
  lemma SameFields(a: seq<Entry>, b: seq<Entry>, i: nat)
    requires DistinctNames(a) && DistinctNames(b) && i < |a| && i < |b| && a[i].key == b[i].key
    requires CanonEntries(a).Ok? && CanonEntries(a) == CanonEntries(b)
    ensures Canon(a[i].value).Ok? && Canon(b[i].value).Ok?
    ensures SameCanon(a[i], b[i]) || (Blank(a[i]) && Blank(b[i]))
  {
    FindEntry(a, i);
    FindEntry(b, i);
  }

  /** Field by field equal canonical values give equal canonical objects. */
  lemma {:induction false} FieldwiseEqual(a: seq<Entry>, b: seq<Entry>)
    requires SameNames(a, b)
    requires forall i | 0 <= i < |a| :: SameCanon(a[i], b[i])
    ensures CanonEntries(a) == CanonEntries(b)
  {
    if a != [] {
      var n := |a| - 1;
      assert SameCanon(a[n], b[n]);
      forall i | 0 <= i < n ensures SameCanon(a[..n][i], b[..n][i]) {
        assert SameCanon(a[i], b[i]);
      }
      FieldwiseEqual(a[..n], b[..n]);
    }
  }

  /** Field names and type codes are made of letters, digits and underscores. */
  predicate IsName(s: string) {
    forall i | 0 <= i < |s| ::
      s[i] == '_' || 'a' <= s[i] <= 'z' || 'A' <= s[i] <= 'Z' || '0' <= s[i] <= '9'
  }

  predicate DistinctStrings(names: seq<string>) {
    forall i, j | 0 <= i < j < |names| :: names[i] != names[j]
  }

  lemma NameIsNormal(s: string)
    requires IsName(s)
    ensures IsNormal(s)
  {
    PlainIsNormal(s);
  }

  lemma NamesDistinct(entries: seq<Entry>, names: seq<string>)
    requires |entries| == |names| && DistinctStrings(names)
    requires forall i | 0 <= i < |names| :: entries[i].key == Name(names[i]) && IsName(names[i])
    ensures DistinctNames(entries)
  {
    hide NormaliseText, IsName;
    forall i | 0 <= i < |names| ensures NormaliseText(names[i]) == names[i] {
      NameIsNormal(names[i]);
    }
  }

  // ------------------------------------------------- the hash and what it commits to

  /** The payload with both optional items always present. */
  function AllItems(r: RecordData, address: string): seq<Entry>
    requires r.HasDetail()
  {
    [Item("schema", PyStr(SCHEMA_VERSION)),
     Item("record_id", PyStr(UuidText(r.id))),
     Item("type", PyStr(r.recordType.Code())),
     Item("issuer_id", PyStr(UuidText(r.issuerId))),
     Item("issuer_address", PyStr(LOWER(address))),
     Item("subject_name", PyStr(NormaliseText(r.subjectName))),
     DetailItem(r),
     Item("document_sha256", PyStr(r.documentSha256)),
     Item("subject_binding", PyStr(r.subjectBinding))]
  }

  lemma AcademicNames()
    ensures var names := ["registration_number", "degree_title", "major", "level", "graduation_date",
                          "cgpa", "percentage", "honours"];
            DistinctStrings(names) && forall i | 0 <= i < |names| :: IsName(names[i])
  {
    assert "major"[0] == 'm' && "level"[0] == 'l';
  }

  lemma AcademicDistinct(d: AcademicDetail)
    ensures DistinctNames(AcademicFields(d))
  {
    hide NormaliseText;
    AcademicNames();
    NamesDistinct(AcademicFields(d),
                  ["registration_number", "degree_title", "major", "level", "graduation_date", "cgpa",
                   "percentage", "honours"]);
  }

  lemma ExperienceNames()
    ensures var names := ["job_title", "department", "employment_type", "start_date", "end_date",
                          "is_current", "departure_status", "responsibilities"];
            DistinctStrings(names) && forall i | 0 <= i < |names| :: IsName(names[i])
  {
    assert "department"[0] == 'd' && "start_date"[0] == 's' && "is_current"[0] == 'i';
    assert "departure_status"[0] == 'd' && "responsibilities"[0] == 'r';
  }

  lemma ExperienceDistinct(d: ExperienceDetail)
    ensures DistinctNames(ExperienceFields(d))
  {
    hide NormaliseText;
    ExperienceNames();
    NamesDistinct(ExperienceFields(d),
                  ["job_title", "department", "employment_type", "start_date", "end_date", "is_current",
                   "departure_status", "responsibilities"]);
  }

  function ItemNames(detail: string): seq<string> {
    ["schema", "record_id", "type", "issuer_id", "issuer_address", "subject_name", detail,
     "document_sha256", "subject_binding"]
  }

  lemma ItemNamesDistinct(detail: string)
    requires detail == "academic" || detail == "experience"
    ensures DistinctStrings(ItemNames(detail))
  {
    assert "record_id"[0] == 'r' && "issuer_id"[0] == 'i';
    assert "document_sha256"[0] == 'd' && "subject_binding"[0] == 's';
  }

  lemma ItemNamesAreNames(detail: string)
    requires detail == "academic" || detail == "experience"
    ensures forall i | 0 <= i < |ItemNames(detail)| :: IsName(ItemNames(detail)[i])
  {
  }

  lemma AllItemsNamed(r: RecordData, address: string)
    requires r.HasDetail()
    ensures DetailItem(r).key == Name(if r.recordType.Experience? then "experience" else "academic")
    ensures var a, names := AllItems(r, address), ItemNames(DetailItem(r).key.s);
            |a| == |names| && forall i | 0 <= i < |a| :: a[i].key == Name(names[i])
  {
    hide NormaliseText, AcademicFields, ExperienceFields, RecordType.Code, UuidText;
  }

  lemma AllItemsDistinct(r: RecordData, address: string)
    requires r.HasDetail()
    ensures DistinctNames(AllItems(r, address))
  {
    hide AllItems, ItemNames, IsName, DistinctStrings, DetailItem, DistinctNames;
    AllItemsNamed(r, address);
    ItemNamesDistinct(DetailItem(r).key.s);
    ItemNamesAreNames(DetailItem(r).key.s);
    NamesDistinct(AllItems(r, address), ItemNames(DetailItem(r).key.s));
  }

  /** Leaving an unset optional item out is the same as carrying it blank. */
  lemma OptionalItemsBlank(r: RecordData, address: string)
    requires r.HasDetail()
    ensures BuildPayload(r, address).Ok?
    ensures Canon(BuildPayload(r, address).value) == Canon(PyDict(AllItems(r, address)))
  {
    hide Canon, NormaliseText, CanonEntries, DetailItem, RecordType.Code, UuidText;
    var base := BaseItems(r, address);
    var doc, binding := Item("document_sha256", PyStr(r.documentSha256)), Item("subject_binding", PyStr(r.subjectBinding));
    var docs := OptionalItem("document_sha256", r.documentSha256);
    SkipBlank(base, doc, docs, r.documentSha256);
    assert base + docs == base + docs + [];
    SkipBlank(base + docs, binding, OptionalItem("subject_binding", r.subjectBinding), r.subjectBinding);
    EntriesAppendEqual(base + docs, base + [doc], binding);
    assert base + [doc] + [binding] == AllItems(r, address);
    DictEqual(base + docs + OptionalItem("subject_binding", r.subjectBinding), AllItems(r, address));
  }

  lemma SkipBlank(base: seq<Entry>, e: Entry, chosen: seq<Entry>, text: string)
    requires e.key.Name? && e.value == PyStr(text)
    requires chosen == if text == "" then [] else [e]
    ensures CanonEntries(base + chosen) == CanonEntries(base + [e])
  {
    EntriesAppend(base, e);
    if text == "" {
      PlainIsNormal("");
      assert base + [] == base;
    }
  }

  lemma EntriesAppendEqual(a: seq<Entry>, b: seq<Entry>, e: Entry)
    requires CanonEntries(a) == CanonEntries(b)
    ensures CanonEntries(a + [e]) == CanonEntries(b + [e])
  {
    EntriesAppend(a, e);
    EntriesAppend(b, e);
  }

  lemma DictEqual(a: seq<Entry>, b: seq<Entry>)
    requires CanonEntries(a) == CanonEntries(b)
    ensures Canon(PyDict(a)) == Canon(PyDict(b))
  {
  }

  /** Nothing tells the two entries apart in a canonical object. */
  predicate Interchangeable(a: Entry, b: Entry) {
    SameCanon(a, b) || (Blank(a) && Blank(b))
  }

  lemma TextAgrees(name: string, x: string, y: string)
    ensures Interchangeable(Item(name, PyStr(x)), Item(name, PyStr(y))) <==> NormaliseText(x) == NormaliseText(y)
  {
  }

  lemma NormalTextAgrees(name: string, x: string, y: string)
    ensures Interchangeable(Item(name, PyStr(NormaliseText(x))), Item(name, PyStr(NormaliseText(y))))
            <==> NormaliseText(x) == NormaliseText(y)
  {
    NormaliseTextIdempotent(x);
    NormaliseTextIdempotent(y);
    TextAgrees(name, NormaliseText(x), NormaliseText(y));
  }

  lemma NumberAgrees(name: string, x: Option<Decimal>, y: Option<Decimal>)
    requires Canon(NumberOrNone(x)).Ok? && Canon(NumberOrNone(y)).Ok?
    ensures Interchangeable(Item(name, NumberOrNone(x)), Item(name, NumberOrNone(y)))
            <==> RoundedNumber(x) == RoundedNumber(y)
  {
    if x.Some? {
      CanonicalNumberIsPlain(x.value);
    }
    if y.Some? {
      CanonicalNumberIsPlain(y.value);
    }
    if x.Some? && y.Some? && CanonicalNumber(x.value) == CanonicalNumber(y.value) {
      RenderInjective(x.value.negative, Cents(x.value), y.value.negative, Cents(y.value));
    }
  }

  lemma DateAgrees(name: string, x: Option<CalendarDate>, y: Option<CalendarDate>)
    ensures Interchangeable(Item(name, DateOrNone(x)), Item(name, DateOrNone(y))) <==> x == y
  {
    if x.Some? {
      IsoDateIsPlain(x.value);
    }
    if y.Some? {
      IsoDateIsPlain(y.value);
    }
    if x.Some? && y.Some? && IsoDate(x.value) == IsoDate(y.value) {
      IsoDateInjective(x.value, y.value);
    }
  }

  /** Objects with the same distinct names are equal exactly when their fields are interchangeable. */
  lemma ObjectsEqual(a: seq<Entry>, b: seq<Entry>)
    requires DistinctNames(a) && DistinctNames(b) && SameNames(a, b)
    requires CanonEntries(a).Ok? && CanonEntries(b).Ok?
    ensures forall i | 0 <= i < |a| :: Canon(a[i].value).Ok? && Canon(b[i].value).Ok?
    ensures CanonEntries(a) == CanonEntries(b) <==> forall i | 0 <= i < |a| :: Interchangeable(a[i], b[i])
  {
    forall i | 0 <= i < |a|
      ensures Canon(a[i].value).Ok? && Canon(b[i].value).Ok?
      ensures CanonEntries(a) == CanonEntries(b) ==> Interchangeable(a[i], b[i])
    {
      FindEntry(a, i);
      FindEntry(b, i);
    }
    if forall i | 0 <= i < |a| :: Interchangeable(a[i], b[i]) {
      InterchangeableEqual(a, b);
    }
  }

  lemma {:induction false} InterchangeableEqual(a: seq<Entry>, b: seq<Entry>)
    requires SameNames(a, b) && CanonEntries(a).Ok? && CanonEntries(b).Ok?
    requires forall i | 0 <= i < |a| :: Interchangeable(a[i], b[i])
    ensures CanonEntries(a) == CanonEntries(b)
  {
    if a != [] {
      var n := |a| - 1;
      forall i | 0 <= i < n ensures Interchangeable(a[..n][i], b[..n][i]) {
        assert Interchangeable(a[i], b[i]);
      }
      InterchangeableEqual(a[..n], b[..n]);
      assert Interchangeable(a[n], b[n]);
    }
  }

  lemma AcademicExact(x: AcademicDetail, y: AcademicDetail)
    requires CanonEntries(AcademicFields(x)).Ok? && CanonEntries(AcademicFields(y)).Ok?
    ensures CanonEntries(AcademicFields(x)) == CanonEntries(AcademicFields(y))
            <==> && NormaliseText(x.registrationNumber) == NormaliseText(y.registrationNumber)
                 && NormaliseText(x.degreeTitle) == NormaliseText(y.degreeTitle)
                 && NormaliseText(x.major) == NormaliseText(y.major)
                 && NormaliseText(x.level) == NormaliseText(y.level)
                 && x.graduationDate == y.graduationDate
                 && RoundedNumber(x.cgpa) == RoundedNumber(y.cgpa)
                 && RoundedNumber(x.percentage) == RoundedNumber(y.percentage)
                 && NormaliseText(x.honours) == NormaliseText(y.honours)
  {
    hide NormaliseText, Canon, CanonEntries, DistinctNames, Interchangeable, RoundedNumber, NumberOrNone;
    var a, b := AcademicFields(x), AcademicFields(y);
    AcademicDistinct(x);
    AcademicDistinct(y);
    ObjectsEqual(a, b);
    NormalTextAgrees("registration_number", x.registrationNumber, y.registrationNumber);
    NormalTextAgrees("degree_title", x.degreeTitle, y.degreeTitle);
    NormalTextAgrees("major", x.major, y.major);
    TextAgrees("level", x.level, y.level);
    DateAgrees("graduation_date", Some(x.graduationDate), Some(y.graduationDate));
    assert Canon(a[5].value).Ok? && Canon(b[5].value).Ok? && Canon(a[6].value).Ok? && Canon(b[6].value).Ok?;
    NumberAgrees("cgpa", x.cgpa, y.cgpa);
    NumberAgrees("percentage", x.percentage, y.percentage);
    NormalTextAgrees("honours", x.honours, y.honours);
    Eight(a, b);
  }

  /** The eight comparisons of a detail row, one by one. */
  lemma Eight(a: seq<Entry>, b: seq<Entry>)
    requires |a| == |b| == 8
    ensures (forall i | 0 <= i < |a| :: Interchangeable(a[i], b[i]))
            <==> Interchangeable(a[0], b[0]) && Interchangeable(a[1], b[1]) && Interchangeable(a[2], b[2])
                 && Interchangeable(a[3], b[3]) && Interchangeable(a[4], b[4]) && Interchangeable(a[5], b[5])
                 && Interchangeable(a[6], b[6]) && Interchangeable(a[7], b[7])
  {
    hide Interchangeable;
  }

  lemma ExperienceExact(x: ExperienceDetail, y: ExperienceDetail)
    requires CanonEntries(ExperienceFields(x)).Ok? && CanonEntries(ExperienceFields(y)).Ok?
    ensures CanonEntries(ExperienceFields(x)) == CanonEntries(ExperienceFields(y))
            <==> && NormaliseText(x.jobTitle) == NormaliseText(y.jobTitle)
                 && NormaliseText(x.department) == NormaliseText(y.department)
                 && NormaliseText(x.employmentType) == NormaliseText(y.employmentType)
                 && x.startDate == y.startDate && x.endDate == y.endDate
                 && x.isCurrent == y.isCurrent
                 && NormaliseText(x.departureStatus) == NormaliseText(y.departureStatus)
                 && NormaliseText(x.responsibilities) == NormaliseText(y.responsibilities)
  {
    hide NormaliseText, Canon, CanonEntries, DistinctNames, Interchangeable;
    var a, b := ExperienceFields(x), ExperienceFields(y);
    ExperienceDistinct(x);
    ExperienceDistinct(y);
    ObjectsEqual(a, b);
    NormalTextAgrees("job_title", x.jobTitle, y.jobTitle);
    NormalTextAgrees("department", x.department, y.department);
    TextAgrees("employment_type", x.employmentType, y.employmentType);
    DateAgrees("start_date", Some(x.startDate), Some(y.startDate));
    DateAgrees("end_date", x.endDate, y.endDate);
    TruthAgrees("is_current", x.isCurrent, y.isCurrent);
    TextAgrees("departure_status", x.departureStatus, y.departureStatus);
    NormalTextAgrees("responsibilities", x.responsibilities, y.responsibilities);
    Eight(a, b);
  }

  lemma TruthAgrees(name: string, x: bool, y: bool)
    ensures Interchangeable(Item(name, PyBool(x)), Item(name, PyBool(y))) <==> x == y
  {
  }

  lemma CodeIsName(t: RecordType)
    ensures IsName(t.Code())
  {
  }

  lemma CodesAreNames(t: RecordType)
    ensures IsNormal(t.Code())
  {
    hide *;
    CodeIsName(t);
    NameIsNormal(t.Code());
  }

  lemma CodesDiffer(t: RecordType, u: RecordType)
    requires NormaliseText(t.Code()) == NormaliseText(u.Code())
    ensures t == u
  {
    hide NormaliseText;
    CodesAreNames(t);
    CodesAreNames(u);
    assert |"ACADEMIC"| == 8 && |"EXPERIENCE"| == 10 && |"CERTIFICATION"| == 13;
  }

  lemma DetailExact(r: RecordData, s: RecordData)
    requires r.HasDetail() && s.HasDetail() && r.recordType.Experience? == s.recordType.Experience?
    requires Canon(DetailItem(r).value).Ok? && Canon(DetailItem(s).value).Ok?
    ensures Interchangeable(DetailItem(r), DetailItem(s)) <==> HashedDetailOf(r) == HashedDetailOf(s)
  {
    hide NormaliseText, CanonEntries, RoundedNumber, AcademicFields, ExperienceFields;
    if r.recordType.Experience? {
      ExperienceExact(r.experience.value, s.experience.value);
    } else {
      AcademicExact(r.academic.value, s.academic.value);
    }
  }

  lemma Nine(a: seq<Entry>, b: seq<Entry>)
    requires |a| == |b| == 9
    ensures (forall i | 0 <= i < |a| :: Interchangeable(a[i], b[i]))
            <==> Interchangeable(a[0], b[0]) && Interchangeable(a[1], b[1]) && Interchangeable(a[2], b[2])
                 && Interchangeable(a[3], b[3]) && Interchangeable(a[4], b[4]) && Interchangeable(a[5], b[5])
                 && Interchangeable(a[6], b[6]) && Interchangeable(a[7], b[7]) && Interchangeable(a[8], b[8])
  {
    hide Interchangeable;
  }

  lemma IdsAgree(name: string, x: Uuid, y: Uuid)
    ensures Interchangeable(Item(name, PyStr(UuidText(x))), Item(name, PyStr(UuidText(y)))) <==> x == y
  {
    hide NormaliseText, Interchangeable, UuidText;
    TextAgrees(name, UuidText(x), UuidText(y));
    UuidTextIsNormal(x);
    UuidTextIsNormal(y);
    if UuidText(x) == UuidText(y) {
      UuidTextInjective(x, y);
    }
  }

  lemma CodesAgree(name: string, t: RecordType, u: RecordType)
    ensures Interchangeable(Item(name, PyStr(t.Code())), Item(name, PyStr(u.Code()))) <==> t == u
  {
    hide NormaliseText, Interchangeable;
    TextAgrees(name, t.Code(), u.Code());
    if NormaliseText(t.Code()) == NormaliseText(u.Code()) {
      CodesDiffer(t, u);
    }
  }

  /** For records of one kind of detail, the canonical items match exactly when the fields do. */
  lemma ItemsExact(r: RecordData, address: string, s: RecordData, address': string)
    requires r.HasDetail() && s.HasDetail() && r.recordType.Experience? == s.recordType.Experience?
    requires CanonEntries(AllItems(r, address)).Ok? && CanonEntries(AllItems(s, address')).Ok?
    ensures CanonEntries(AllItems(r, address)) == CanonEntries(AllItems(s, address'))
            <==> HashedFieldsOf(r, address) == HashedFieldsOf(s, address')
  {
    hide Item, DetailItem, NormaliseText, Canon, CanonEntries, DistinctNames, Interchangeable,
         HashedDetailOf, RecordType.Code, UuidText;
    var a, b := AllItems(r, address), AllItems(s, address');
    SameItemNames(r, address, s, address');
    AllItemsDistinct(r, address);
    AllItemsDistinct(s, address');
    ObjectsEqual(a, b);
    TextAgrees("schema", SCHEMA_VERSION, SCHEMA_VERSION);
    IdsAgree("record_id", r.id, s.id);
    CodesAgree("type", r.recordType, s.recordType);
    IdsAgree("issuer_id", r.issuerId, s.issuerId);
    TextAgrees("issuer_address", LOWER(address), LOWER(address'));
    NormalTextAgrees("subject_name", r.subjectName, s.subjectName);
    assert Canon(a[6].value).Ok? && Canon(b[6].value).Ok?;
    DetailExact(r, s);
    TextAgrees("document_sha256", r.documentSha256, s.documentSha256);
    TextAgrees("subject_binding", r.subjectBinding, s.subjectBinding);
    Nine(a, b);
  }

  lemma SameItemNames(r: RecordData, address: string, s: RecordData, address': string)
    requires r.HasDetail() && s.HasDetail() && r.recordType.Experience? == s.recordType.Experience?
    ensures SameNames(AllItems(r, address), AllItems(s, address'))
  {
    hide AllItems, ItemNames, DetailItem;
    AllItemsNamed(r, address);
    AllItemsNamed(s, address');
  }

  /** Records with different kinds of detail differ in their type already. */
  lemma KindsDiffer(r: RecordData, address: string, s: RecordData, address': string)
    requires r.HasDetail() && s.HasDetail() && r.recordType.Experience? != s.recordType.Experience?
    requires CanonEntries(AllItems(r, address)).Ok? && CanonEntries(AllItems(s, address')).Ok?
    ensures CanonEntries(AllItems(r, address)) != CanonEntries(AllItems(s, address'))
  {
    hide DetailItem, NormaliseText, Canon, CanonEntries, DistinctNames, SameCanon, Blank, RecordType.Code, UuidText;
    AllItemsDistinct(r, address);
    AllItemsDistinct(s, address');
    if CanonEntries(AllItems(r, address)) == CanonEntries(AllItems(s, address')) {
      SameFields(AllItems(r, address), AllItems(s, address'), 2);
      CodesAgree("type", r.recordType, s.recordType);
    }
  }

  lemma PayloadItems(r: RecordData, address: string)
    requires CanonicalPayload(r, address).Ok?
    ensures r.HasDetail() && CanonEntries(AllItems(r, address)).Ok?
    ensures CanonicalPayload(r, address).value == Obj(CanonEntries(AllItems(r, address)).value)
  {
    hide AllItems, CanonEntries, BaseItems, OptionalItem;
    OptionalItemsBlank(r, address);
  }

  /**
   The canonical payload of two records is the same exactly when the fields it commits to are.
   */
  lemma PayloadExact(r: RecordData, address: string, s: RecordData, address': string)
    requires CanonicalPayload(r, address).Ok? && CanonicalPayload(s, address').Ok?
    ensures r.HasDetail() && s.HasDetail()
    ensures CanonicalPayload(r, address) == CanonicalPayload(s, address')
            <==> HashedFieldsOf(r, address) == HashedFieldsOf(s, address')
  {
    hide AllItems, CanonEntries, HashedDetailOf, CanonicalPayload;
    PayloadItems(r, address);
    PayloadItems(s, address');
    if r.recordType.Experience? == s.recordType.Experience? {
      ItemsExact(r, address, s, address');
    } else {
      KindsDiffer(r, address, s, address');
    }
  }

  lemma PreImageInjective(j: Json, k: Json)
    requires PreImage(j) == PreImage(k)
    ensures j == k
  {
    SplitEqual(DOMAIN_TAG + "\n", Print(j), DOMAIN_TAG + "\n", Print(k));
    assert Print(j) + "" == Print(j) && Print(k) + "" == Print(k);
    PrintInjective(j, k, "", "");
  }

  /**
   Tamper evidence, both ways: two record states have the same hash exactly when they agree on
   every field that the hash commits to.
   */
  lemma HashExact(r: RecordData, address: string, s: RecordData, address': string)
    requires HashRecord(r, address).Ok? && HashRecord(s, address').Ok?
    ensures r.HasDetail() && s.HasDetail()
    ensures HashRecord(r, address) == HashRecord(s, address')
            <==> HashedFieldsOf(r, address) == HashedFieldsOf(s, address')
  {
    hide CanonicalPayload, HashedFieldsOf, PreImage;
    PayloadExact(r, address, s, address');
    var j, k := CanonicalPayload(r, address).value, CanonicalPayload(s, address').value;
    if KECCAK256(PreImage(j)) == KECCAK256(PreImage(k)) {
      PreImageInjective(j, k);
    }
  }

  /** Distinct records never share a hash, whatever they contain. */
  lemma DistinctRecordsDistinctHashes(r: RecordData, address: string, s: RecordData, address': string)
    requires HashRecord(r, address).Ok? && HashRecord(s, address').Ok? && r.id != s.id
    ensures HashRecord(r, address) != HashRecord(s, address')
  {
    hide HashRecord;
    HashExact(r, address, s, address');
  }

  /** The stored payload is a genuine pre-image: canonicalised again, it hashes to the same value. */
  lemma StoredPayloadRehashes(r: RecordData, address: string)
    requires HashRecord(r, address).Ok?
    ensures var stored := CanonicalPayload(r, address).value;
            Canon(Embed(stored)).Ok?
            && KECCAK256(PreImage(Canon(Embed(stored)).value)) == HashRecord(r, address).value
  {
    hide Canon, BuildPayload;
    CanonIdempotent(BuildPayload(r, address).value);
  }

  // ------------------------------------------------------------ duplicate key

  function JoinPipes(parts: seq<string>): string {
    if |parts| == 0 then ""
    else if |parts| == 1 then parts[0]
    else parts[0] + ("|" + JoinPipes(parts[1..]))
  }

  /** The real-world identity of a credential, whatever row describes it. */
  function NaturalKey(r: RecordData): seq<string>
    requires r.HasDetail()
  {
    if r.recordType.Experience? then
      var d := r.experience.value;
      [UuidText(r.issuerId), r.recordType.Code(), LOWER(r.subjectEmail), LOWER(NormaliseText(d.jobTitle)),
       IsoDate(d.startDate)]
    else
      var d := r.academic.value;
      [UuidText(r.issuerId), r.recordType.Code(), LOWER(NormaliseText(d.registrationNumber)),
       LOWER(NormaliseText(d.degreeTitle))]
  }

  function DedupeKey(r: RecordData): string {
    if r.HasDetail() then SHA256(JoinPipes(NaturalKey(r))) else ""
  }

  predicate Pipeless(parts: seq<string>) {
    forall i | 0 <= i < |parts| :: '|' !in parts[i]
  }

  /** Where the first "|" is; the length when there is none. */
  function FirstPipe(s: string): nat {
    if s == "" || s[0] == '|' then 0 else 1 + FirstPipe(s[1..])
  }

  lemma {:induction false} FirstPipeAfter(x: string, s: string)
    requires '|' !in x && (s == "" || s[0] == '|')
    ensures FirstPipe(x + s) == |x|
  {
    if x == "" {
      assert x + s == s;
    } else {
      assert (x + s)[1..] == x[1..] + s;
      FirstPipeAfter(x[1..], s);
    }
  }

  /** What follows the first part: nothing, or a "|" and the other parts. */
  function AfterFirst(parts: seq<string>): string
    requires parts != []
  {
    if |parts| == 1 then "" else "|" + JoinPipes(parts[1..])
  }

  lemma {:induction false} JoinPipesInjective(a: seq<string>, b: seq<string>)
    requires a != [] && b != [] && Pipeless(a) && Pipeless(b) && JoinPipes(a) == JoinPipes(b)
    ensures a == b
  {
    assert '|' !in a[0] && '|' !in b[0];
    assert JoinPipes(a) == a[0] + AfterFirst(a) && JoinPipes(b) == b[0] + AfterFirst(b);
    FirstPipeAfter(a[0], AfterFirst(a));
    FirstPipeAfter(b[0], AfterFirst(b));
    SplitEqual(a[0], AfterFirst(a), b[0], AfterFirst(b));
    HeadTail(a);
    HeadTail(b);
    if |a| > 1 && |b| > 1 {
      SplitEqual("|", JoinPipes(a[1..]), "|", JoinPipes(b[1..]));
      JoinPipesInjective(a[1..], b[1..]);
    }
  }

  function PipeCount(s: string): nat {
    if s == "" then 0 else (if s[0] == '|' then 1 else 0) + PipeCount(s[1..])
  }

  lemma {:induction false} PipeCountJoin(a: string, b: string)
    ensures PipeCount(a + b) == PipeCount(a) + PipeCount(b)
  {
    if a == "" {
      assert a + b == b;
    } else {
      assert (a + b)[0] == a[0] && (a + b)[1..] == a[1..] + b;
      PipeCountJoin(a[1..], b);
    }
  }

  lemma {:induction false} NoPipes(s: string)
    ensures PipeCount(s) == 0 <==> '|' !in s
  {
    if s != "" {
      NoPipes(s[1..]);
      HeadTail(s);
    }
  }

  /** A joined key has one "|" for every boundary between parts, and more only if a part has one. */
  lemma {:induction false} PipesOfParts(parts: seq<string>)
    requires parts != []
    ensures PipeCount(JoinPipes(parts)) >= |parts| - 1
    ensures PipeCount(JoinPipes(parts)) == |parts| - 1 <==> Pipeless(parts)
  {
    NoPipes(parts[0]);
    if |parts| > 1 {
      PipesOfParts(parts[1..]);
      PipeCountJoin("|", JoinPipes(parts[1..]));
      assert PipeCount("|") == 1;
      PipeCountJoin(parts[0], "|" + JoinPipes(parts[1..]));
      PipelessParts(parts);
    }
  }

  lemma PipelessParts(parts: seq<string>)
    requires parts != []
    ensures Pipeless(parts) <==> '|' !in parts[0] && Pipeless(parts[1..])
  {
    if '|' !in parts[0] && Pipeless(parts[1..]) {
      forall i | 0 <= i < |parts| ensures '|' !in parts[i] {
        if i > 0 { assert parts[i] == parts[1..][i - 1]; }
      }
    }
    if Pipeless(parts) {
      forall i | 0 <= i < |parts| - 1 ensures '|' !in parts[1..][i] {
        assert parts[1..][i] == parts[i + 1];
      }
    }
  }

  /** Another list of as many parts with the same joined text. */
  lemma {:induction false} Ambiguous(a: seq<string>) returns (b: seq<string>)
    requires |a| >= 2 && !Pipeless(a)
    ensures |b| == |a| && b != a && JoinPipes(b) == JoinPipes(a)
  {
    PipelessParts(a);
    if '|' in a[0] {
      var p :| 0 <= p < |a[0]| && a[0][p] == '|';
      var x, y := a[0][..p], a[0][p + 1..];
      assert a[0] == x + ("|" + y);
      b := [x, y + ("|" + a[1])] + a[2..];
      ShiftRight(x, y, a);
      assert b[0] != a[0];
    } else if |a| == 2 {
      assert a[1..] == [a[1]];
      var p :| 0 <= p < |a[1]| && a[1][p] == '|';
      var x, y := a[1][..p], a[1][p + 1..];
      assert a[1] == x + ("|" + y);
      b := [a[0] + ("|" + x), y];
      ShiftLeft(a[0], x, y);
      assert a == [a[0], a[1]];
      assert |b[0]| > |a[0]|;
    } else {
      var rest := Ambiguous(a[1..]);
      b := [a[0]] + rest;
      assert b[1..] == rest;
      assert b[1..] != a[1..];
    }
  }

  /** A joined list of two or more parts, unfolded once. */
  lemma JoinUnfolds(first: string, second: string, rest: seq<string>)
    ensures JoinPipes([first] + ([second] + rest)) == first + ("|" + JoinPipes([second] + rest))
  {
    assert ([first] + ([second] + rest))[1..] == [second] + rest;
  }

  lemma ShiftRight(x: string, y: string, a: seq<string>)
    requires |a| >= 2 && a[0] == x + ("|" + y)
    ensures JoinPipes([x, y + ("|" + a[1])] + a[2..]) == JoinPipes(a)
  {
    var rest := a[2..];
    assert a == [a[0]] + ([a[1]] + rest);
    assert [x, y + ("|" + a[1])] + rest == [x] + ([y + ("|" + a[1])] + rest);
    JoinUnfolds(a[0], a[1], rest);
    JoinUnfolds(x, y + ("|" + a[1]), rest);
    Assoc(y, "|", a[1]);
    JoinPrefix(y + "|", a[1], rest);
    hide JoinPipes;
    var tail := JoinPipes([a[1]] + rest);
    Assoc(y, "|", tail);
    Assoc("|", y, "|" + tail);
    Assoc(x, "|" + y, "|" + tail);
  }

  /** Text put before the first part is put before the whole. */
  lemma JoinPrefix(pre: string, first: string, rest: seq<string>)
    ensures JoinPipes([pre + first] + rest) == pre + JoinPipes([first] + rest)
  {
    assert ([pre + first] + rest)[1..] == rest && ([first] + rest)[1..] == rest;
    if rest != [] {
      Assoc(pre, first, "|" + JoinPipes(rest));
    }
  }

  lemma TwoParts(a: string, b: string)
    ensures JoinPipes([a, b]) == a + ("|" + b)
  {
    assert [a, b][1..] == [b];
  }

  lemma ShiftLeft(a: string, x: string, y: string)
    ensures JoinPipes([a + ("|" + x), y]) == JoinPipes([a, x + ("|" + y)])
  {
    TwoParts(a + ("|" + x), y);
    TwoParts(a, x + ("|" + y));
    hide JoinPipes;
    Assoc(a, "|" + x, "|" + y);
    Assoc("|", x, "|" + y);
  }

  predicate Unambiguous(a: seq<string>, b: seq<string>) {
    |b| == |a| && JoinPipes(b) == JoinPipes(a) ==> b == a
  }

  /** A joined key stands for its parts alone exactly when none of them contains a "|". */
  lemma JoinPipesExact(a: seq<string>)
    requires |a| >= 2
    ensures Pipeless(a) <==> forall b :: Unambiguous(a, b)
  {
    if Pipeless(a) {
      forall b ensures Unambiguous(a, b) {
        if |b| == |a| && JoinPipes(b) == JoinPipes(a) {
          PipesOfParts(a);
          PipesOfParts(b);
          JoinPipesInjective(a, b);
        }
      }
    } else {
      var b := Ambiguous(a);
      assert !Unambiguous(a, b);
    }
  }

  /** The issuer and the type come first, and neither contains a "|". */
  lemma KeyHead(r: RecordData)
    requires r.HasDetail()
    ensures var key := NaturalKey(r);
            && |key| == (if r.recordType.Experience? then 5 else 4)
            && key[0] == UuidText(r.issuerId) && key[1] == r.recordType.Code()
            && '|' !in key[0] && '|' !in key[1]
  {
    hide NormaliseText, IsoDate, UuidText;
    PlainHasNoPipe(r.issuerId);
  }

  lemma PlainHasNoPipe(id: Uuid)
    ensures '|' !in UuidText(id)
  {
    DigitsReadBack(id);
    assert AllDigits(UuidText(id));
  }

  /** Keys with the same text start with the same two parts, so they have as many parts. */
  lemma SameShape(r: RecordData, s: RecordData)
    requires r.HasDetail() && s.HasDetail() && JoinPipes(NaturalKey(r)) == JoinPipes(NaturalKey(s))
    ensures |NaturalKey(r)| == |NaturalKey(s)|
  {
    KeyHead(r);
    KeyHead(s);
    var a, b := NaturalKey(r), NaturalKey(s);
    hide NaturalKey, JoinPipes, UuidText;
    HeadsAgree(a, b);
    assert a[1..][0] == a[1] && b[1..][0] == b[1];
    HeadsAgree(a[1..], b[1..]);
    CodesDiffer(r.recordType, s.recordType);
  }

  lemma HeadsAgree(a: seq<string>, b: seq<string>)
    requires |a| >= 2 && |b| >= 2 && JoinPipes(a) == JoinPipes(b) && '|' !in a[0] && '|' !in b[0]
    ensures a[0] == b[0] && JoinPipes(a[1..]) == JoinPipes(b[1..])
  {
    FirstPipeAfter(a[0], AfterFirst(a));
    FirstPipeAfter(b[0], AfterFirst(b));
    SplitEqual(a[0], AfterFirst(a), b[0], AfterFirst(b));
    SplitEqual("|", JoinPipes(a[1..]), "|", JoinPipes(b[1..]));
  }

  /** When one of two credentials has no "|" in any part, equal keys mean the same credential. */
  lemma DedupeKeyExact(r: RecordData, s: RecordData)
    requires r.HasDetail() && s.HasDetail() && (Pipeless(NaturalKey(r)) || Pipeless(NaturalKey(s)))
    ensures DedupeKey(r) == DedupeKey(s) <==> NaturalKey(r) == NaturalKey(s)
  {
    hide NaturalKey, JoinPipes;
    NaturalKeyNotEmpty(r);
    NaturalKeyNotEmpty(s);
    if DedupeKey(r) == DedupeKey(s) {
      SameShape(r, s);
      PipesOfParts(NaturalKey(r));
      PipesOfParts(NaturalKey(s));
      JoinPipesInjective(NaturalKey(r), NaturalKey(s));
    }
  }

  // ----------------------------------------- which credentials can be mistaken

  /** The part of a natural key that an applicant's own text goes into, in two pieces. */
  function FirstPiece(r: RecordData): string
    requires r.HasDetail()
  {
    NaturalKey(r)[2]
  }

  function SecondPiece(r: RecordData): string
    requires r.HasDetail()
  {
    NaturalKey(r)[3]
  }

  /** Some text of that column is stored in keys as `piece`. */
  ghost predicate FirstTaken(experience: bool, piece: string) {
    if experience then exists raw: string :: LOWER(raw) == piece else SecondTaken(piece)
  }

  ghost predicate SecondTaken(piece: string) {
    exists raw: string :: LOWER(NormaliseText(raw)) == piece
  }

  /** The two pieces can be cut at another "|" into pieces that some record has. */
  ghost predicate Recuts(r: RecordData, p: nat)
    requires r.HasDetail()
  {
    var text := FirstPiece(r) + ("|" + SecondPiece(r));
    && p < |text| && p != |FirstPiece(r)| && text[p] == '|'
    && FirstTaken(r.recordType.Experience?, text[..p]) && SecondTaken(text[p + 1..])
  }

  ghost predicate Mistaken(r: RecordData, s: RecordData)
    requires r.HasDetail()
  {
    s.HasDetail() && NaturalKey(s) != NaturalKey(r) && DedupeKey(s) == DedupeKey(r)
  }

  /** The same record with other text in its two pieces. */
  function WithPieces(r: RecordData, first: string, second: string): RecordData
    requires r.HasDetail()
  {
    if r.recordType.Experience? then
      r.(subjectEmail := first, experience := Some(r.experience.value.(jobTitle := second)))
    else
      r.(academic := Some(r.academic.value.(registrationNumber := first, degreeTitle := second)))
  }

  /** The end of a natural key, after its two pieces: the start date of an experience. */
  function KeyTail(r: RecordData): seq<string>
    requires r.HasDetail()
  {
    if r.recordType.Experience? then [IsoDate(r.experience.value.startDate)] else []
  }

  lemma KeyParts(r: RecordData)
    requires r.HasDetail()
    ensures NaturalKey(r) == [UuidText(r.issuerId), r.recordType.Code()] + ([FirstPiece(r), SecondPiece(r)] + KeyTail(r))
    ensures forall part | part in KeyTail(r) :: '|' !in part
  {
    hide NormaliseText, UuidText, RecordType.Code;
    if r.recordType.Experience? {
      DateHasNoPipe(r.experience.value.startDate);
    }
  }

  lemma DateHasNoPipe(d: CalendarDate)
    ensures '|' !in IsoDate(d)
  {
    var s := IsoDate(d);
    forall i | 0 <= i < |s| ensures s[i] != '|' {
    }
  }

  lemma PiecesSet(r: RecordData, first: string, second: string)
    requires r.HasDetail()
    ensures var s := WithPieces(r, first, second);
            && s.HasDetail() && s.recordType == r.recordType && s.issuerId == r.issuerId
            && FirstPiece(s) == (if r.recordType.Experience? then LOWER(first) else LOWER(NormaliseText(first)))
            && SecondPiece(s) == LOWER(NormaliseText(second)) && KeyTail(s) == KeyTail(r)
  {
    hide NormaliseText, UuidText, IsoDate, RecordType.Code;
  }

  lemma PiecesAreTaken(r: RecordData)
    requires r.HasDetail()
    ensures FirstTaken(r.recordType.Experience?, FirstPiece(r)) && SecondTaken(SecondPiece(r))
  {
    hide NormaliseText, UuidText, IsoDate, RecordType.Code;
    if r.recordType.Experience? {
      assert LOWER(r.subjectEmail) == FirstPiece(r);
      assert LOWER(NormaliseText(r.experience.value.jobTitle)) == SecondPiece(r);
    } else {
      assert LOWER(NormaliseText(r.academic.value.registrationNumber)) == FirstPiece(r);
      assert LOWER(NormaliseText(r.academic.value.degreeTitle)) == SecondPiece(r);
    }
  }

  /** Keys differ in their two pieces or not at all, and their texts agree exactly when those do. */
  lemma PiecesDecide(r: RecordData, s: RecordData)
    requires r.HasDetail() && s.HasDetail() && DedupeKey(r) == DedupeKey(s)
    ensures r.recordType == s.recordType
    ensures FirstPiece(r) + ("|" + SecondPiece(r)) == FirstPiece(s) + ("|" + SecondPiece(s))
    ensures NaturalKey(r) == NaturalKey(s) <==> FirstPiece(r) == FirstPiece(s)
  {
    hide NaturalKey, JoinPipes, UuidText, FirstPiece, SecondPiece, KeyTail, RecordType.Code, DedupeKey;
    SameHead(r, s);
    KeyParts(r);
    KeyParts(s);
    var u, v := [FirstPiece(r), SecondPiece(r)] + KeyTail(r), [FirstPiece(s), SecondPiece(s)] + KeyTail(s);
    assert NaturalKey(r)[2..] == u && NaturalKey(s)[2..] == v;
    TailsAgree(r, s);
    assert u[0] == FirstPiece(r) && v[0] == FirstPiece(s);
    if FirstPiece(r) == FirstPiece(s) {
      SplitEqual(FirstPiece(r), "|" + SecondPiece(r), FirstPiece(s), "|" + SecondPiece(s));
      SplitEqual("|", SecondPiece(r), "|", SecondPiece(s));
    }
  }

  /** Issuer and type agree, and so does the text after them. */
  lemma SameHead(r: RecordData, s: RecordData)
    requires r.HasDetail() && s.HasDetail() && DedupeKey(r) == DedupeKey(s)
    ensures r.recordType == s.recordType && |NaturalKey(r)| == |NaturalKey(s)| >= 4
    ensures NaturalKey(r)[..2] == NaturalKey(s)[..2]
    ensures JoinPipes(NaturalKey(r)[2..]) == JoinPipes(NaturalKey(s)[2..])
  {
    KeyHead(r);
    KeyHead(s);
    SameShape(r, s);
    var a, b := NaturalKey(r), NaturalKey(s);
    hide NaturalKey, JoinPipes, UuidText;
    HeadsAgree(a, b);
    assert a[1..][0] == a[1] && b[1..][0] == b[1];
    HeadsAgree(a[1..], b[1..]);
    CodesDiffer(r.recordType, s.recordType);
    assert a[1..][1..] == a[2..] && b[1..][1..] == b[2..];
  }

  lemma TailsAgree(r: RecordData, s: RecordData)
    requires r.HasDetail() && s.HasDetail() && r.recordType == s.recordType
    requires JoinPipes([FirstPiece(r), SecondPiece(r)] + KeyTail(r)) == JoinPipes([FirstPiece(s), SecondPiece(s)] + KeyTail(s))
    ensures KeyTail(r) == KeyTail(s)
    ensures FirstPiece(r) + ("|" + SecondPiece(r)) == FirstPiece(s) + ("|" + SecondPiece(s))
  {
    hide NaturalKey, FirstPiece, SecondPiece, IsoDate;
    var x, y, u, v := FirstPiece(r), SecondPiece(r), FirstPiece(s), SecondPiece(s);
    if r.recordType.Experience? {
      var d, e := IsoDate(r.experience.value.startDate), IsoDate(s.experience.value.startDate);
      ThreeParts(x, y, d);
      ThreeParts(u, v, e);
      DatesAreTenLong(r.experience.value.startDate, s.experience.value.startDate);
      hide JoinPipes;
      LastAgrees(x + ("|" + y), d, u + ("|" + v), e);
    } else {
      TwoParts(x, y);
      TwoParts(u, v);
      assert [x, y] + [] == [x, y] && [u, v] + [] == [u, v];
    }
  }

  lemma DatesAreTenLong(d: CalendarDate, e: CalendarDate)
    ensures |IsoDate(d)| == |IsoDate(e)|
  {
  }

  lemma ThreeParts(x: string, y: string, d: string)
    ensures JoinPipes([x, y] + [d]) == (x + ("|" + y)) + ("|" + d)
  {
    assert [x, y] + [d] == [x] + ([y] + [d]);
    JoinUnfolds(x, y, [d]);
    assert [y] + [d] == [y, d];
    TwoParts(y, d);
    hide JoinPipes;
    Assoc(x, "|" + y, "|" + d);
    Assoc("|", y, "|" + d);
  }

  /** Two concatenations that end with equally long pieces. */
  lemma LastAgrees(a: string, d: string, b: string, e: string)
    requires a + ("|" + d) == b + ("|" + e) && |d| == |e|
    ensures a == b && d == e
  {
    SplitEqual(a, "|" + d, b, "|" + e);
    SplitEqual("|", d, "|", e);
  }

  /** A record whose two pieces are the given ones, and which is otherwise the same. */
  lemma TakenBySome(r: RecordData, first: string, second: string) returns (s: RecordData)
    requires r.HasDetail() && FirstTaken(r.recordType.Experience?, first) && SecondTaken(second)
    ensures s.HasDetail() && FirstPiece(s) == first && SecondPiece(s) == second
    ensures s.recordType == r.recordType && s.issuerId == r.issuerId && KeyTail(s) == KeyTail(r)
  {
    hide NormaliseText, NaturalKey, KeyTail, FirstPiece, SecondPiece, WithPieces;
    var y :| LOWER(NormaliseText(y)) == second;
    if r.recordType.Experience? {
      var x :| LOWER(x) == first;
      s := WithPieces(r, x, y);
      PiecesSet(r, x, y);
    } else {
      var x :| LOWER(NormaliseText(x)) == first;
      s := WithPieces(r, x, y);
      PiecesSet(r, x, y);
    }
  }

  /** Cutting the pieces elsewhere gives another credential with the same key. */
  lemma RecutIsMistaken(r: RecordData, p: nat) returns (s: RecordData)
    requires r.HasDetail() && Recuts(r, p)
    ensures Mistaken(r, s)
  {
    hide NaturalKey, JoinPipes, UuidText, KeyTail, RecordType.Code, FirstPiece, SecondPiece, FirstTaken, SecondTaken;
    var text := FirstPiece(r) + ("|" + SecondPiece(r));
    s := TakenBySome(r, text[..p], text[p + 1..]);
    KeyParts(r);
    KeyParts(s);
    assert text == text[..p] + ("|" + text[p + 1..]);
    SameJoin(UuidText(r.issuerId), r.recordType.Code(), FirstPiece(r), SecondPiece(r), FirstPiece(s), SecondPiece(s), KeyTail(r));
    assert NaturalKey(r)[2] == FirstPiece(r) && NaturalKey(s)[2] == FirstPiece(s);
  }

  lemma SameJoin(a: string, b: string, x: string, y: string, u: string, v: string, rest: seq<string>)
    requires x + ("|" + y) == u + ("|" + v)
    ensures JoinPipes([a, b] + ([x, y] + rest)) == JoinPipes([a, b] + ([u, v] + rest))
  {
    assert [a, b] + ([x, y] + rest) == [a] + ([b] + ([x] + ([y] + rest)));
    assert [a, b] + ([u, v] + rest) == [a] + ([b] + ([u] + ([v] + rest)));
    JoinUnfolds(a, b, [x] + ([y] + rest));
    JoinUnfolds(b, x, [y] + rest);
    JoinUnfolds(a, b, [u] + ([v] + rest));
    JoinUnfolds(b, u, [v] + rest);
    PairJoin(x, y, rest);
    PairJoin(u, v, rest);
    hide JoinPipes;
  }

  /** Only the text that the first two parts make together matters to the whole. */
  lemma PairJoin(x: string, y: string, rest: seq<string>)
    ensures JoinPipes([x] + ([y] + rest)) == JoinPipes([x + ("|" + y)] + rest)
  {
    JoinUnfolds(x, y, rest);
    Assoc(x, "|", y);
    assert [x + ("|" + y)] + rest == [(x + "|") + y] + rest;
    JoinPrefix(x + "|", y, rest);
    hide JoinPipes;
    Assoc(x, "|", JoinPipes([y] + rest));
  }

  /**
   Record by record, the exact condition under which the duplicate key confuses credentials: some
   other credential has the same key if and only if the two pieces of text can be cut at another
   "|" into pieces that columns can hold.
   */
  lemma MistakenExact(r: RecordData)
    requires r.HasDetail()
    ensures (exists s :: Mistaken(r, s)) <==> (exists p: nat :: Recuts(r, p))
  {
    hide NaturalKey, DedupeKey, FirstPiece, SecondPiece, FirstTaken, SecondTaken;
    if p: nat :| Recuts(r, p) {
      var s := RecutIsMistaken(r, p);
    }
    if s :| Mistaken(r, s) {
      PiecesDecide(r, s);
      PiecesAreTaken(s);
      CutAt(FirstPiece(s), SecondPiece(s));
      CutElsewhere(FirstPiece(r), SecondPiece(r), FirstPiece(s), SecondPiece(s));
      assert Recuts(r, |FirstPiece(s)|);
    }
  }

  lemma CutAt(x: string, y: string)
    ensures var text := x + ("|" + y); text[|x|] == '|' && text[..|x|] == x && text[|x| + 1..] == y
  {
  }

  lemma CutElsewhere(x: string, y: string, u: string, v: string)
    requires x + ("|" + y) == u + ("|" + v) && x != u
    ensures |x| != |u|
  {
    if |x| == |u| {
      SplitEqual(x, "|" + y, u, "|" + v);
    }
  }

  lemma NaturalKeyNotEmpty(r: RecordData)
    requires r.HasDetail()
    ensures |NaturalKey(r)| >= 4
  {
  }

  lemma Numeral(s: string)
    requires Uncased(s)
    ensures LOWER(NormaliseText(s)) == s
  {
    hide NormaliseText;
    PlainIsNormal(s);
  }

  /** With a "|" in a field, two different credentials can collide. */
  lemma DedupeKeyCollision(r: RecordData, s: RecordData)
    requires r.recordType == s.recordType == Academic && r.issuerId == s.issuerId
    requires r.academic.Some? && s.academic.Some?
    requires r.academic.value.registrationNumber == "1|2" && r.academic.value.degreeTitle == "3"
    requires s.academic.value.registrationNumber == "1" && s.academic.value.degreeTitle == "2|3"
    ensures NaturalKey(r) != NaturalKey(s) && DedupeKey(r) == DedupeKey(s)
  {
    hide NaturalKey, Uncased, JoinPipes, RecordType.Code, UuidText;
    UncasedNumerals();
    NumeralKey(r, "1|2", "3");
    NumeralKey(s, "1", "2|3");
    PipesShift(UuidText(r.issuerId), r.recordType.Code());
    assert |"1|2"| != |"1"|;
    assert NaturalKey(r)[2] != NaturalKey(s)[2];
  }

  lemma UncasedNumerals()
    ensures Uncased("1|2") && Uncased("3") && Uncased("1") && Uncased("2|3")
  {
  }

  lemma NumeralKey(r: RecordData, x: string, y: string)
    requires r.recordType == Academic && r.academic.Some? && Uncased(x) && Uncased(y)
    requires r.academic.value.registrationNumber == x && r.academic.value.degreeTitle == y
    ensures NaturalKey(r) == [UuidText(r.issuerId), r.recordType.Code(), x, y]
  {
    hide NormaliseText, Uncased, RecordType.Code;
    Numeral(x);
    Numeral(y);
  }

  lemma PipesShift(a: string, b: string)
    ensures JoinPipes([a, b, "1|2", "3"]) == JoinPipes([a, b, "1", "2|3"])
  {
    FourParts(a, b, "1|2", "3");
    FourParts(a, b, "1", "2|3");
    assert "1|2" + ("|" + "3") == "1" + ("|" + "2|3");
  }

  lemma FourParts(a: string, b: string, c: string, d: string)
    ensures JoinPipes([a, b, c, d]) == a + ("|" + (b + ("|" + (c + ("|" + d)))))
  {
    assert [a, b, c, d][1..] == [b, c, d] && [b, c, d][1..] == [c, d] && [c, d][1..] == [d];
    assert JoinPipes([c, d]) == c + ("|" + JoinPipes([d]));
    assert JoinPipes([b, c, d]) == b + ("|" + JoinPipes([c, d]));
  }
}
