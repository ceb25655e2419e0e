/** What stands under each name of a canonical payload, the names written out. */
module Contents {
  import opened Basics
  import opened Text
  import opened Dates
  import opened Decimals
  import opened Json
  import opened Canonical
  import opened Rearrange
  import opened Crypto
  import opened Payloads

  /** The text stands under the name; a blank one is left out. */
  predicate TextUnder(fields: seq<Field>, name: string, text: string) {
    Find(fields, name) == if text == "" then None else Some(Str(text))
  }

  /** The number stands there with its two decimals, if there is one. */
  predicate NumberUnder(fields: seq<Field>, name: string, d: Option<Decimal>) {
    if d.None? then Find(fields, name) == None
    else CanonicalNumber(d.value).Ok? && Find(fields, name) == Some(Str(CanonicalNumber(d.value).value))
  }

  predicate DateUnder(fields: seq<Field>, name: string, d: Option<CalendarDate>) {
    Find(fields, name) == if d.None? then None else Some(Str(IsoDate(d.value)))
  }

  lemma ValueOfText(e: Entry, name: string, text: string)
    requires e == Item(name, PyStr(text))
    ensures Canon(e.value) == Ok(Str(NormaliseText(text))) && (Rearrange.Blank(e) <==> NormaliseText(text) == "")
  {
    hide NormaliseText;
  }

  lemma ValueOfNumber(e: Entry, name: string, d: Option<Decimal>)
    requires e == Item(name, NumberOrNone(d)) && Canon(e.value).Ok?
    ensures Rearrange.Blank(e) <==> d.None?
    ensures d.Some? ==> CanonicalNumber(d.value).Ok? && Canon(e.value) == Ok(Str(CanonicalNumber(d.value).value))
  {
    if d.Some? && CanonicalNumber(d.value).Ok? {
      CanonicalNumberIsPlain(d.value);
    }
    hide CanonicalNumber;
  }

  lemma ValueOfDate(e: Entry, name: string, d: Option<CalendarDate>)
    requires e == Item(name, DateOrNone(d))
    ensures Rearrange.Blank(e) <==> d.None?
    ensures d.Some? ==> Canon(e.value) == Ok(Str(IsoDate(d.value)))
  {
    if d.Some? {
      IsoDateIsPlain(d.value);
    }
    hide IsoDate;
  }

  lemma FindNamed(entries: seq<Entry>, i: nat, name: string)
    requires i < |entries| && DistinctNames(entries) && CanonEntries(entries).Ok?
    requires entries[i].key == Name(name) && IsName(name)
    ensures Canon(entries[i].value).Ok?
    ensures Find(CanonEntries(entries).value, name)
            == if Rearrange.Blank(entries[i]) then None else Some(Canon(entries[i].value).value)
  {
    hide CanonEntries, Canon, Find, DistinctNames, Rearrange.Blank;
    NameIsNormal(name);
    FindEntry(entries, i);
  }

  lemma TextField(entries: seq<Entry>, i: nat, name: string, text: string)
    requires i < |entries| && DistinctNames(entries) && CanonEntries(entries).Ok?
    requires entries[i] == Item(name, PyStr(text)) && IsName(name)
    ensures TextUnder(CanonEntries(entries).value, name, NormaliseText(text))
  {
    hide CanonEntries, Canon, Find, DistinctNames, NormaliseText, IsName, Rearrange.Blank;
    FindNamed(entries, i, name);
    ValueOfText(entries[i], name, text);
  }

  lemma NormalTextField(entries: seq<Entry>, i: nat, name: string, text: string)
    requires i < |entries| && DistinctNames(entries) && CanonEntries(entries).Ok?
    requires entries[i] == Item(name, PyStr(NormaliseText(text))) && IsName(name)
    ensures TextUnder(CanonEntries(entries).value, name, NormaliseText(text))
  {
    NormaliseTextIdempotent(text);
    TextField(entries, i, name, NormaliseText(text));
  }

  lemma NumberField(entries: seq<Entry>, i: nat, name: string, d: Option<Decimal>)
    requires i < |entries| && DistinctNames(entries) && CanonEntries(entries).Ok?
    requires entries[i] == Item(name, NumberOrNone(d)) && IsName(name)
    ensures NumberUnder(CanonEntries(entries).value, name, d)
  {
    hide CanonEntries, Canon, Find, DistinctNames, IsName, Rearrange.Blank, CanonicalNumber;
    FindNamed(entries, i, name);
    ValueOfNumber(entries[i], name, d);
  }

  lemma DateField(entries: seq<Entry>, i: nat, name: string, d: Option<CalendarDate>)
    requires i < |entries| && DistinctNames(entries) && CanonEntries(entries).Ok?
    requires entries[i] == Item(name, DateOrNone(d)) && IsName(name)
    ensures DateUnder(CanonEntries(entries).value, name, d)
  {
    hide CanonEntries, Canon, Find, DistinctNames, IsName, Rearrange.Blank, IsoDate;
    FindNamed(entries, i, name);
    ValueOfDate(entries[i], name, d);
  }

  lemma TruthField(entries: seq<Entry>, i: nat, name: string, b: bool)
    requires i < |entries| && DistinctNames(entries) && CanonEntries(entries).Ok?
    requires entries[i] == Item(name, PyBool(b)) && IsName(name)
    ensures Find(CanonEntries(entries).value, name) == Some(Bool(b))
  {
    FindNamed(entries, i, name);
    hide CanonEntries, Find, DistinctNames, IsName;
  }

  // ------------------------------------------------------------ no other names

  predicate NamedIn(fields: seq<Field>, names: seq<string>) {
    forall f | f in fields :: f.key in names
  }

  lemma {:induction false} OnlyTheirNames(entries: seq<Entry>, names: seq<string>)
    requires CanonEntries(entries).Ok?
    requires forall e | e in entries :: e.key.Name? && NormaliseText(e.key.s) in names
    ensures NamedIn(CanonEntries(entries).value, names)
  {
    hide NormaliseText, Canon;
    if entries != [] {
      var n := |entries| - 1;
      OnlyTheirNames(entries[..n], names);
      assert entries[n] in entries;
      var e := entries[n];
      PutFrom(CanonEntries(entries[..n]).value, NormaliseText(e.key.s), Canon(e.value).value);
    }
  }

  lemma OnlyNames(entries: seq<Entry>, names: seq<string>)
    requires CanonEntries(entries).Ok? && |entries| == |names|
    requires forall i | 0 <= i < |names| :: entries[i].key == Name(names[i]) && IsName(names[i])
    ensures NamedIn(CanonEntries(entries).value, names)
  {
    hide NormaliseText, CanonEntries, IsName;
    forall e | e in entries ensures e.key.Name? && NormaliseText(e.key.s) in names {
      var i :| 0 <= i < |entries| && entries[i] == e;
      NameIsNormal(names[i]);
    }
    OnlyTheirNames(entries, names);
  }

  // ---------------------------------------------------------------- the details

  /** An academic detail, name by name. */
  predicate AcademicAs(fields: seq<Field>, d: AcademicDetail) {
    && TextUnder(fields, "registration_number", NormaliseText(d.registrationNumber))
    && TextUnder(fields, "degree_title", NormaliseText(d.degreeTitle))
    && TextUnder(fields, "major", NormaliseText(d.major))
    && TextUnder(fields, "level", NormaliseText(d.level))
    && DateUnder(fields, "graduation_date", Some(d.graduationDate))
    && NumberUnder(fields, "cgpa", d.cgpa)
    && NumberUnder(fields, "percentage", d.percentage)
    && TextUnder(fields, "honours", NormaliseText(d.honours))
    && NamedIn(fields, ["registration_number", "degree_title", "major", "level", "graduation_date", "cgpa",
                        "percentage", "honours"])
  }

  lemma NamesOfAcademic()
    ensures IsName("registration_number") && IsName("degree_title") && IsName("major") && IsName("level")
    ensures IsName("graduation_date") && IsName("cgpa") && IsName("percentage") && IsName("honours")
  {
    hide IsName;
    AcademicNames();
    var names := ["registration_number", "degree_title", "major", "level", "graduation_date", "cgpa", "percentage",
                  "honours"];
    assert IsName(names[0]) && IsName(names[1]) && IsName(names[2]) && IsName(names[3]);
    assert IsName(names[4]) && IsName(names[5]) && IsName(names[6]) && IsName(names[7]);
  }

  lemma AcademicContents(d: AcademicDetail)
    requires CanonEntries(AcademicFields(d)).Ok?
    ensures AcademicAs(CanonEntries(AcademicFields(d)).value, d)
  {
    hide NormaliseText, CanonEntries, DistinctNames, IsName, NumberOrNone, DateOrNone, TextUnder, NumberUnder, DateUnder;
    var a := AcademicFields(d);
    AcademicDistinct(d);
    AcademicNames();
    NamesOfAcademic();
    NormalTextField(a, 0, "registration_number", d.registrationNumber);
    NormalTextField(a, 1, "degree_title", d.degreeTitle);
    NormalTextField(a, 2, "major", d.major);
    TextField(a, 3, "level", d.level);
    PresentDate(d.graduationDate);
    DateField(a, 4, "graduation_date", Some(d.graduationDate));
    NumberField(a, 5, "cgpa", d.cgpa);
    NumberField(a, 6, "percentage", d.percentage);
    NormalTextField(a, 7, "honours", d.honours);
    OnlyNames(a, ["registration_number", "degree_title", "major", "level", "graduation_date", "cgpa", "percentage",
                  "honours"]);
  }

  lemma PresentDate(d: CalendarDate)
    ensures DateOrNone(Some(d)) == PyDate(d)
  {
  }

  /** An experience detail, name by name. */
  predicate ExperienceAs(fields: seq<Field>, d: ExperienceDetail) {
    && TextUnder(fields, "job_title", NormaliseText(d.jobTitle))
    && TextUnder(fields, "department", NormaliseText(d.department))
    && TextUnder(fields, "employment_type", NormaliseText(d.employmentType))
    && DateUnder(fields, "start_date", Some(d.startDate))
    && DateUnder(fields, "end_date", d.endDate)
    && Find(fields, "is_current") == Some(Bool(d.isCurrent))
    && TextUnder(fields, "departure_status", NormaliseText(d.departureStatus))
    && TextUnder(fields, "responsibilities", NormaliseText(d.responsibilities))
    && NamedIn(fields, ["job_title", "department", "employment_type", "start_date", "end_date", "is_current",
                        "departure_status", "responsibilities"])
  }

  lemma NamesOfExperience()
    ensures IsName("job_title") && IsName("department") && IsName("employment_type") && IsName("start_date")
    ensures IsName("end_date") && IsName("is_current") && IsName("departure_status") && IsName("responsibilities")
  {
    hide IsName;
    ExperienceNames();
    var names := ["job_title", "department", "employment_type", "start_date", "end_date", "is_current",
                  "departure_status", "responsibilities"];
    assert IsName(names[0]) && IsName(names[1]) && IsName(names[2]) && IsName(names[3]);
    assert IsName(names[4]) && IsName(names[5]) && IsName(names[6]) && IsName(names[7]);
  }

  lemma ExperienceContents(d: ExperienceDetail)
    requires CanonEntries(ExperienceFields(d)).Ok?
    ensures ExperienceAs(CanonEntries(ExperienceFields(d)).value, d)
  {
    hide NormaliseText, CanonEntries, DistinctNames, IsName, DateOrNone, TextUnder, DateUnder, Find;
    var a := ExperienceFields(d);
    ExperienceDistinct(d);
    ExperienceNames();
    NamesOfExperience();
    NormalTextField(a, 0, "job_title", d.jobTitle);
    NormalTextField(a, 1, "department", d.department);
    TextField(a, 2, "employment_type", d.employmentType);
    PresentDate(d.startDate);
    DateField(a, 3, "start_date", Some(d.startDate));
    DateField(a, 4, "end_date", d.endDate);
    TruthField(a, 5, "is_current", d.isCurrent);
    TextField(a, 6, "departure_status", d.departureStatus);
    NormalTextField(a, 7, "responsibilities", d.responsibilities);
    OnlyNames(a, ["job_title", "department", "employment_type", "start_date", "end_date", "is_current",
                  "departure_status", "responsibilities"]);
  }

  // ---------------------------------------------------------------- the payload

  /** The texts of a payload, name by name. */
  predicate PayloadAs(fields: seq<Field>, r: RecordData, address: string) {
    && TextUnder(fields, "schema", "1.1")
    && TextUnder(fields, "record_id", UuidText(r.id))
    && TextUnder(fields, "type", match r.recordType
                                 case Academic => "ACADEMIC"
                                 case Experience => "EXPERIENCE"
                                 case Certification => "CERTIFICATION")
    && TextUnder(fields, "issuer_id", UuidText(r.issuerId))
    && TextUnder(fields, "issuer_address", NormaliseText(LOWER(address)))
    && TextUnder(fields, "subject_name", NormaliseText(r.subjectName))
    && TextUnder(fields, "document_sha256", NormaliseText(r.documentSha256))
    && TextUnder(fields, "subject_binding", NormaliseText(r.subjectBinding))
  }

  /** Its one detail, under the name of its kind; and no name besides. */
  predicate DetailAs(fields: seq<Field>, r: RecordData)
    requires r.HasDetail()
  {
    if r.recordType.Experience? then
      && NamedIn(fields, ItemNames("experience"))
      && (match Find(fields, "experience")
          case Some(Obj(detail)) => ExperienceAs(detail, r.experience.value)
          case _ => false)
    else
      && NamedIn(fields, ItemNames("academic"))
      && (match Find(fields, "academic")
          case Some(Obj(detail)) => AcademicAs(detail, r.academic.value)
          case _ => false)
  }

  lemma PayloadTexts(r: RecordData, address: string)
    requires r.HasDetail() && CanonEntries(AllItems(r, address)).Ok?
    ensures PayloadAs(CanonEntries(AllItems(r, address)).value, r, address)
  {
    hide NormaliseText, CanonEntries, DistinctNames, IsName, TextUnder, UuidText, DetailItem, ItemNames;
    var a := AllItems(r, address);
    AllItemsDistinct(r, address);
    AllItemsNamed(r, address);
    NamesOfItems();
    VersionIsNormal();
    UuidTextIsNormal(r.id);
    UuidTextIsNormal(r.issuerId);
    CodesAreNames(r.recordType);
    TextField(a, 0, "schema", SCHEMA_VERSION);
    TextField(a, 1, "record_id", UuidText(r.id));
    TextField(a, 2, "type", r.recordType.Code());
    TextField(a, 3, "issuer_id", UuidText(r.issuerId));
    TextField(a, 4, "issuer_address", LOWER(address));
    NormalTextField(a, 5, "subject_name", r.subjectName);
    TextField(a, 7, "document_sha256", r.documentSha256);
    TextField(a, 8, "subject_binding", r.subjectBinding);
  }

  lemma NamesOfItems()
    ensures IsName("schema") && IsName("record_id") && IsName("type") && IsName("issuer_id") && IsName("issuer_address")
    ensures IsName("subject_name") && IsName("document_sha256") && IsName("subject_binding")
    ensures IsName("academic") && IsName("experience")
  {
    hide IsName;
    ItemNamesAreNames("academic");
    ItemNamesAreNames("experience");
    var a, e := ItemNames("academic"), ItemNames("experience");
    assert IsName(a[0]) && IsName(a[1]) && IsName(a[2]) && IsName(a[3]) && IsName(a[4]) && IsName(a[5]);
    assert IsName(a[6]) && IsName(a[7]) && IsName(a[8]) && IsName(e[6]);
  }

  lemma VersionIsNormal()
    ensures NormaliseText(SCHEMA_VERSION) == "1.1"
  {
    PlainIsNormal(SCHEMA_VERSION);
  }

  lemma PayloadDetail(r: RecordData, address: string)
    requires r.HasDetail() && CanonEntries(AllItems(r, address)).Ok?
    ensures DetailAs(CanonEntries(AllItems(r, address)).value, r)
  {
    hide NormaliseText, DistinctNames, IsName, TextUnder, DateUnder, UuidText, Find, NamedIn, AllItems, CanonEntries,
         ItemNames, AcademicFields, ExperienceFields, AcademicAs, ExperienceAs;
    var a := AllItems(r, address);
    AllItemsDistinct(r, address);
    AllItemsNamed(r, address);
    NamesOfItems();
    ItemNamesAreNames(DetailItem(r).key.s);
    OnlyNames(a, ItemNames(DetailItem(r).key.s));
    DetailIsSixth(r, address);
    FindNamed(a, 6, DetailItem(r).key.s);
    if r.recordType.Experience? {
      ExperienceContents(r.experience.value);
      StartIsThere(r.experience.value);
    } else {
      AcademicContents(r.academic.value);
      GraduationIsThere(r.academic.value);
    }
  }

  lemma DetailIsSixth(r: RecordData, address: string)
    requires r.HasDetail() && DetailItem(r).key.Name?
    ensures |AllItems(r, address)| == 9 && AllItems(r, address)[6] == DetailItem(r)
    ensures |ItemNames(DetailItem(r).key.s)| == 9
  {
  }

  lemma GraduationIsThere(d: AcademicDetail)
    requires CanonEntries(AcademicFields(d)).Ok? && AcademicAs(CanonEntries(AcademicFields(d)).value, d)
    ensures CanonEntries(AcademicFields(d)).value != []
  {
    hide CanonEntries, AcademicFields, TextUnder, NumberUnder, NamedIn;
  }

  lemma StartIsThere(d: ExperienceDetail)
    requires CanonEntries(ExperienceFields(d)).Ok? && ExperienceAs(CanonEntries(ExperienceFields(d)).value, d)
    ensures CanonEntries(ExperienceFields(d)).value != []
  {
    hide CanonEntries, ExperienceFields, TextUnder, DateUnder, NamedIn;
  }

  /** Under each name of a canonical payload stands the field it is the name of, and nothing else is there. */
  lemma PayloadContents(r: RecordData, address: string)
    requires CanonicalPayload(r, address).Ok?
    ensures CanonicalPayload(r, address).value.Obj? && r.HasDetail()
    ensures PayloadAs(CanonicalPayload(r, address).value.fields, r, address)
    ensures DetailAs(CanonicalPayload(r, address).value.fields, r)
  {
    hide AllItems, CanonEntries, PayloadAs, DetailAs;
    PayloadItems(r, address);
    PayloadTexts(r, address);
    PayloadDetail(r, address);
  }

  // ------------------------------------------------------------- what can be hashed

  lemma {:induction false} EntriesExact(entries: seq<Entry>)
    requires forall e | e in entries :: e.key.Name?
    ensures CanonEntries(entries).Ok? <==> forall e | e in entries :: Canon(e.value).Ok?
  {
    hide Canon, NormaliseText;
    if entries != [] {
      var n := |entries| - 1;
      EntriesExact(entries[..n]);
      assert entries[n] in entries && entries == entries[..n] + [entries[n]];
    }
  }

  predicate Renders(d: Option<Decimal>) {
    d.None? || CanonicalNumber(d.value).Ok?
  }

  lemma NumberRenders(d: Option<Decimal>)
    ensures Canon(NumberOrNone(d)).Ok? <==> Renders(d)
  {
  }

  lemma AcademicCanon(d: AcademicDetail)
    ensures CanonEntries(AcademicFields(d)).Ok? <==> Renders(d.cgpa) && Renders(d.percentage)
  {
    var a := AcademicFields(d);
    NumberRenders(d.cgpa);
    NumberRenders(d.percentage);
    hide NormaliseText, IsoDate, CanonEntries, Renders, NumberOrNone;
    assert a[5] in a && a[6] in a;
    EntriesExact(a);
  }

  lemma ExperienceCanon(d: ExperienceDetail)
    ensures CanonEntries(ExperienceFields(d)).Ok?
  {
    hide NormaliseText, IsoDate, CanonEntries;
    EntriesExact(ExperienceFields(d));
  }

  lemma DetailCanon(r: RecordData)
    requires r.HasDetail()
    ensures Canon(DetailItem(r).value).Ok? <==>
              r.recordType.Experience? || (Renders(r.academic.value.cgpa) && Renders(r.academic.value.percentage))
  {
    hide AcademicFields, ExperienceFields, CanonEntries, Renders;
    if r.recordType.Experience? {
      ExperienceCanon(r.experience.value);
    } else {
      AcademicCanon(r.academic.value);
    }
  }

  /** Exactly the records with a detail row of their kind can be hashed, if their numbers can be rendered. */
  lemma HashableExact(r: RecordData, address: string)
    ensures HashRecord(r, address).Ok? <==>
              if r.recordType.Experience? then r.experience.Some?
              else r.academic.Some? && Renders(r.academic.value.cgpa) && Renders(r.academic.value.percentage)
    ensures HashRecord(r, address) == Err(NoDetailRow) <==>
              if r.recordType.Experience? then r.experience.None? else r.academic.None?
  {
    hide Renders, CanonicalPayload;
    PayloadCanon(r, address);
    if r.HasDetail() {
      DetailCanon(r);
      DetailIsSeventh(r, address);
      hide AllItems, CanonEntries, DetailItem;
      EntriesExact(AllItems(r, address));
    }
  }

  lemma PayloadCanon(r: RecordData, address: string)
    ensures CanonicalPayload(r, address) == Err(NoDetailRow) <==> !r.HasDetail()
    ensures r.HasDetail() ==> (CanonicalPayload(r, address).Ok? <==> CanonEntries(AllItems(r, address)).Ok?)
  {
    hide AllItems, BaseItems, OptionalItem, CanonEntries;
    if r.HasDetail() {
      OptionalItemsBlank(r, address);
      DictCanon(AllItems(r, address));
      hide Canon;
    }
  }

  lemma DictCanon(entries: seq<Entry>)
    ensures Canon(PyDict(entries)).Ok? <==> CanonEntries(entries).Ok?
  {
    hide CanonEntries;
  }

  lemma DetailIsSeventh(r: RecordData, address: string)
    requires r.HasDetail()
    ensures var a := AllItems(r, address);
            && (forall e | e in a :: e.key.Name?)
            && ((forall e | e in a :: Canon(e.value).Ok?) <==> Canon(DetailItem(r).value).Ok?)
  {
    hide NormaliseText, UuidText, RecordType.Code, AcademicFields, ExperienceFields, CanonEntries;
    var a := AllItems(r, address);
    assert a[6] in a && a[6] == DetailItem(r);
  }

  // ------------------------------------------------------- the text that is hashed

  const TAG := "VERIDOCK-RECORD-V1\n"

  /** The hash is that of the tag and of a text from which the canonical payload can be read back. */
  lemma HashedText(r: RecordData, address: string)
    requires HashRecord(r, address).Ok?
    ensures CanonicalPayload(r, address).Ok?
    ensures exists text :: HashRecord(r, address) == Ok(KECCAK256(TAG + text))
                           && Parse(text) == Got(CanonicalPayload(r, address).value, "")
  {
    hide CanonicalPayload, Print, Parse;
    var j := CanonicalPayload(r, address).value;
    ParsePrinted(j, "");
    assert Print(j) + "" == Print(j);
    assert DOMAIN_TAG + "\n" == TAG;
  }

  // ---------------------------------------------------------- the duplicate key

  /** What the duplicate key is made of: the natural key of the kind, with bars between. */
  lemma DedupeKeyText(r: RecordData)
    requires r.HasDetail()
    ensures r.recordType.Experience? ==>
              var d := r.experience.value;
              DedupeKey(r) == SHA256(UuidText(r.issuerId) + ("|" + ("EXPERIENCE" + ("|" + (LOWER(r.subjectEmail) + ("|"
                                     + (LOWER(NormaliseText(d.jobTitle)) + ("|" + IsoDate(d.startDate)))))))))
    ensures !r.recordType.Experience? ==>
              var d := r.academic.value;
              var kind := if r.recordType.Academic? then "ACADEMIC" else "CERTIFICATION";
              DedupeKey(r) == SHA256(UuidText(r.issuerId) + ("|" + (kind + ("|" + (LOWER(NormaliseText(d.registrationNumber))
                                     + ("|" + LOWER(NormaliseText(d.degreeTitle))))))))
  {
    hide UuidText, NormaliseText, IsoDate, JoinPipes;
    var key := NaturalKey(r);
    if r.recordType.Experience? {
      JoinFive(key[0], key[1], key[2], key[3], key[4]);
    } else {
      JoinFour(key[0], key[1], key[2], key[3]);
    }
  }

  lemma JoinFour(a: string, b: string, c: string, d: string)
    ensures JoinPipes([a, b, c, d]) == a + ("|" + (b + ("|" + (c + ("|" + d)))))
  {
    assert [a, b, c, d][1..] == [b, c, d] && [b, c, d][1..] == [c, d] && [c, d][1..] == [d];
    assert JoinPipes([d]) == d && JoinPipes([c, d]) == c + ("|" + d) && JoinPipes([b, c, d]) == b + ("|" + (c + ("|" + d)));
  }

  lemma JoinFive(a: string, b: string, c: string, d: string, e: string)
    ensures JoinPipes([a, b, c, d, e]) == a + ("|" + (b + ("|" + (c + ("|" + (d + ("|" + e)))))))
  {
    assert [a, b, c, d, e][1..] == [b, c, d, e];
    JoinFour(b, c, d, e);
  }

  /** Two natural keys are the same exactly when the issuer, the kind and the fields of that kind are. */
  lemma NaturalKeyExact(r: RecordData, s: RecordData)
    requires r.HasDetail() && s.HasDetail()
    ensures NaturalKey(r) == NaturalKey(s) <==>
              && r.issuerId == s.issuerId && r.recordType == s.recordType
              && if r.recordType.Experience? then
                   var d, e := r.experience.value, s.experience.value;
                   && LOWER(r.subjectEmail) == LOWER(s.subjectEmail)
                   && LOWER(NormaliseText(d.jobTitle)) == LOWER(NormaliseText(e.jobTitle)) && d.startDate == e.startDate
                 else
                   var d, e := r.academic.value, s.academic.value;
                   && LOWER(NormaliseText(d.registrationNumber)) == LOWER(NormaliseText(e.registrationNumber))
                   && LOWER(NormaliseText(d.degreeTitle)) == LOWER(NormaliseText(e.degreeTitle))
  {
    hide UuidText, NormaliseText, IsoDate;
    var a, b := NaturalKey(r), NaturalKey(s);
    if a == b {
      assert a[0] == b[0] && a[1] == b[1] && a[2] == b[2] && a[3] == b[3];
      UuidTextInjective(r.issuerId, s.issuerId);
      CodesDiffer(r.recordType, s.recordType);
      if r.recordType.Experience? {
        assert a[4] == b[4];
        IsoDateInjective(r.experience.value.startDate, s.experience.value.startDate);
      }
    }
  }
}
