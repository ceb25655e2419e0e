/**
 Canonicalisation of a payload (`_canonical_value`, `_canonical_mapping` and their callers in
 backend/apps/ledger/canonical.py): text normalised, numbers and dates rendered as strings,
 keys sorted, empty values dropped.
 */
module Canonical {
  import opened Basics
  import opened Text
  import opened Dates
  import opened Decimals
  import opened Json

  /** A mapping key; anything but a string is refused. */
  datatype Key = Name(s: string) | NotText

  datatype Entry = Entry(key: Key, value: Value)

  /** A Python value that may occur in a payload; mappings keep their insertion order. */
  datatype Value =
    | PyNone
    | PyBool(b: bool)
    | PyStr(s: string)
    | PyNumber(d: Decimal)
    | PyDate(day: CalendarDate)
    | PyMoment(moment: Moment)
    | PyList(items: seq<Value>)
    | PyDict(entries: seq<Entry>)
    | PyOther

  datatype CanonError = UnsupportedType | NonStringKey | BadNumber(reason: NumberError)

  // ------------------------------------------------------------ sorted fields

  /** Python's order on strings: by code point, a prefix first. */
  predicate Less(a: string, b: string) {
    b != "" && (a == "" || a[0] < b[0] || (a[0] == b[0] && Less(a[1..], b[1..])))
  }

  lemma {:induction false} LessTotal(a: string, b: string)
    ensures Less(a, b) || Less(b, a) || a == b
    ensures !(Less(a, b) && Less(b, a))
    ensures a == b ==> !Less(a, b)
  {
    if a != "" && b != "" {
      LessTotal(a[1..], b[1..]);
      HeadTail(a);
      HeadTail(b);
    }
  }

  lemma {:induction false} LessTransitive(a: string, b: string, c: string)
    requires Less(a, b) && Less(b, c)
    ensures Less(a, c)
  {
    if a != "" {
      if a[0] == b[0] && b[0] == c[0] {
        LessTransitive(a[1..], b[1..], c[1..]);
      }
    }
  }

  /** The texts agree up to `n`, where one ends or has the smaller character. */
  predicate DifferAt(a: string, b: string, n: nat) {
    n <= |a| && n < |b| && a[..n] == b[..n] && (n == |a| || a[n] as int < b[n] as int)
  }

  ghost predicate Precedes(a: string, b: string) {
    exists n: nat :: DifferAt(a, b, n)
  }

  /** The order of the keys, said without recursion. */
  lemma {:induction false} LessExact(a: string, b: string)
    ensures Less(a, b) <==> Precedes(a, b)
    decreases |a|
  {
    if a == "" {
      assert b != "" ==> DifferAt(a, b, 0);
    } else if b == "" {
    } else if a[0] == b[0] {
      LessExact(a[1..], b[1..]);
      if n: nat :| DifferAt(a[1..], b[1..], n) {
        OneFurther(a, b, n);
      }
      if n: nat :| DifferAt(a, b, n) {
        OneNearer(a, b, n);
      }
    } else {
      assert a[0] < b[0] ==> DifferAt(a, b, 0);
      if n: nat :| DifferAt(a, b, n) {
        assert n > 0 ==> a[..n][0] == b[..n][0];
      }
    }
  }

  lemma OneFurther(a: string, b: string, n: nat)
    requires a != "" && b != "" && a[0] == b[0] && DifferAt(a[1..], b[1..], n)
    ensures DifferAt(a, b, n + 1)
  {
    assert a[..n + 1] == [a[0]] + a[1..][..n] && b[..n + 1] == [b[0]] + b[1..][..n];
  }

  lemma OneNearer(a: string, b: string, n: nat)
    requires a != "" && b != "" && a[0] == b[0] && DifferAt(a, b, n)
    ensures n > 0 && DifferAt(a[1..], b[1..], n - 1)
  {
    assert a[1..][..n - 1] == a[..n][1..] && b[1..][..n - 1] == b[..n][1..];
  }

  predicate Sorted(fields: seq<Field>) {
    forall i, j | 0 <= i < j < |fields| :: Less(fields[i].key, fields[j].key)
  }

  /** Set a field of a sorted object: replace it, or insert it where it belongs. */
  function Put(fields: seq<Field>, k: string, v: Json): seq<Field> {
    if fields == [] then [Field(k, v)]
    else if fields[0].key == k then [Field(k, v)] + fields[1..]
    else if Less(k, fields[0].key) then [Field(k, v)] + fields
    else [fields[0]] + Put(fields[1..], k, v)
  }

  function Find(fields: seq<Field>, k: string): Option<Json> {
    if fields == [] then None
    else if fields[0].key == k then Some(fields[0].value)
    else Find(fields[1..], k)
  }

  lemma {:induction false} FindPut(fields: seq<Field>, k: string, v: Json, key: string)
    ensures Find(Put(fields, k, v), key) == if key == k then Some(v) else Find(fields, key)
  {
    if fields != [] && fields[0].key != k && !Less(k, fields[0].key) {
      FindPut(fields[1..], k, v, key);
      Slices([fields[0]], Put(fields[1..], k, v));
    } else if fields != [] && fields[0].key == k {
      Slices([Field(k, v)], fields[1..]);
    } else {
      Slices([Field(k, v)], fields);
    }
  }

  /** Every field that comes out was there before or is the one that was set. */
  lemma {:induction false} PutFrom(fields: seq<Field>, k: string, v: Json)
    ensures forall f | f in Put(fields, k, v) :: f in fields || f == Field(k, v)
  {
    if fields != [] && fields[0].key != k && !Less(k, fields[0].key) {
      PutFrom(fields[1..], k, v);
    }
  }

  lemma {:induction false} PutSorted(fields: seq<Field>, k: string, v: Json)
    requires Sorted(fields)
    ensures Sorted(Put(fields, k, v))
  {
    if fields != [] {
      var f := fields[0];
      LessTotal(k, f.key);
      if f.key != k && Less(k, f.key) {
        forall i | 1 <= i < |fields| ensures Less(k, fields[i].key) {
          LessTransitive(k, f.key, fields[i].key);
        }
      } else if f.key != k {
        PutSorted(fields[1..], k, v);
        PutFrom(fields[1..], k, v);
        var rest := Put(fields[1..], k, v);
        forall i | 0 <= i < |rest| ensures Less(f.key, rest[i].key) {
          assert rest[i] in rest;
        }
      }
    }
  }

  /** A later assignment to the same key wins. */
  lemma {:induction false} PutTwice(fields: seq<Field>, k: string, v: Json, w: Json)
    ensures Put(Put(fields, k, v), k, w) == Put(fields, k, w)
  {
    if fields != [] && fields[0].key != k && !Less(k, fields[0].key) {
      PutTwice(fields[1..], k, v, w);
      Slices([fields[0]], Put(fields[1..], k, v));
    } else if fields != [] && fields[0].key == k {
      Slices([Field(k, v)], fields[1..]);
    } else {
      Slices([Field(k, v)], fields);
    }
  }

  /** Assignments to different keys may be made in either order. */
  lemma {:induction false} PutCommutes(fields: seq<Field>, k: string, v: Json, l: string, w: Json)
    requires k != l
    ensures Put(Put(fields, k, v), l, w) == Put(Put(fields, l, w), k, v)
  {
    LessTotal(k, l);
    if fields == [] {
      assert [Field(k, v)][1..] == [] && [Field(l, w)][1..] == [];
    } else {
      var f := fields[0];
      LessTotal(k, f.key);
      LessTotal(l, f.key);
      if Less(k, f.key) && Less(f.key, l) {
        LessTransitive(k, f.key, l);
      } else if Less(l, f.key) && Less(f.key, k) {
        LessTransitive(l, f.key, k);
      } else if Less(f.key, k) && Less(f.key, l) {
        PutCommutes(fields[1..], k, v, l, w);
      }
      PutShape(fields, k, v);
      PutShape(fields, l, w);
    }
  }

  lemma PutShape(fields: seq<Field>, k: string, v: Json)
    requires fields != []
    ensures var f, p := fields[0], Put(fields, k, v);
            if f.key == k then p[0] == Field(k, v) && p[1..] == fields[1..]
            else if Less(k, f.key) then p[0] == Field(k, v) && p[1..] == fields
            else p[0] == f && p[1..] == Put(fields[1..], k, v)
  {
  }

  lemma {:induction false} PutLast(fields: seq<Field>, k: string, v: Json)
    requires forall f | f in fields :: Less(f.key, k)
    ensures Put(fields, k, v) == fields + [Field(k, v)]
  {
    if fields != [] {
      assert fields[0] in fields;
      LessTotal(fields[0].key, k);
      PutLast(fields[1..], k, v);
      HeadTail(fields);
      Assoc([fields[0]], fields[1..], [Field(k, v)]);
    }
  }

  // --------------------------------------------------------- canonical values

  predicate IsEmpty(j: Json) {
    j == Null || j == Str("") || j == Arr([]) || j == Obj([])
  }

  /** Set a field unless its value is empty. */
  function PutNonEmpty(fields: seq<Field>, k: string, v: Json): seq<Field> {
    if IsEmpty(v) then fields else Put(fields, k, v)
  }

  function Canon(v: Value): Result<Json, CanonError>
    decreases v, 1
  {
    match v
    case PyNone => Ok(Null)
    case PyBool(b) => Ok(Bool(b))
    case PyStr(s) => Ok(Str(NormaliseText(s)))
    case PyNumber(d) =>
      (match CanonicalNumber(d)
       case Ok(s) => Ok(Str(s))
       case Err(e) => Err(BadNumber(e)))
    case PyDate(day) => Ok(Str(IsoDate(day)))
    case PyMoment(m) => Ok(Str(IsoMoment(m)))
    case PyList(items) =>
      (match CanonItems(items)
       case Ok(js) => Ok(Arr(js))
       case Err(e) => Err(e))
    case PyDict(entries) =>
      (match CanonEntries(entries)
       case Ok(fs) => Ok(Obj(fs))
       case Err(e) => Err(e))
    case PyOther => Err(UnsupportedType)
  }

  function CanonItems(items: seq<Value>): (r: Result<seq<Json>, CanonError>)
    ensures r.Ok? ==> |r.value| == |items|
    decreases items, 0
  {
    if items == [] then Ok([])
    else
      match Canon(items[0])
      case Err(e) => Err(e)
      case Ok(j) =>
        match CanonItems(items[1..])
        case Err(e) => Err(e)
        case Ok(js) => Ok([j] + js)
  }

  /** One entry of a mapping, set on top of what the earlier ones left. */
  function CanonEntry(fields: seq<Field>, e: Entry): Result<seq<Field>, CanonError>
    decreases e, 2
  {
    if e.key.NotText? then Err(NonStringKey)
    else
      match Canon(e.value)
      case Err(err) => Err(err)
      case Ok(j) => Ok(PutNonEmpty(fields, NormaliseText(e.key.s), j))
  }

  function CanonEntries(entries: seq<Entry>): Result<seq<Field>, CanonError>
    decreases entries, 0
  {
    if entries == [] then Ok([])
    else
      match CanonEntries(entries[..|entries| - 1])
      case Err(err) => Err(err)
      case Ok(fields) => CanonEntry(fields, entries[|entries| - 1])
  }

  // ---------------------------------------- the loop over an insertion-ordered dict

  /** `result[key] = value` on a Python dict: the position of an old key is kept. */
  function DictSet(dict: seq<Field>, k: string, v: Json): seq<Field> {
    if dict == [] then [Field(k, v)]
    else if dict[|dict| - 1].key == k then dict[..|dict| - 1] + [Field(k, v)]
    else if forall f | f in dict :: f.key != k then dict + [Field(k, v)]
    else DictSet(dict[..|dict| - 1], k, v) + [dict[|dict| - 1]]
  }

  /** `dict(sorted(result.items()))`. */
  function SortItems(dict: seq<Field>): seq<Field> {
    if dict == [] then []
    else Put(SortItems(dict[..|dict| - 1]), dict[|dict| - 1].key, dict[|dict| - 1].value)
  }

  lemma SortAppend(dict: seq<Field>, f: Field)
    ensures SortItems(dict + [f]) == Put(SortItems(dict), f.key, f.value)
  {
    assert (dict + [f])[..|dict|] == dict;
  }

  lemma {:induction false} SortDictSet(dict: seq<Field>, k: string, v: Json)
    ensures SortItems(DictSet(dict, k, v)) == Put(SortItems(dict), k, v)
  {
    if dict == [] {
      SortAppend([], Field(k, v));
      assert [] + [Field(k, v)] == [Field(k, v)];
    } else {
      var init, last := dict[..|dict| - 1], dict[|dict| - 1];
      if last.key == k {
        SortAppend(init, Field(k, v));
        PutTwice(SortItems(init), k, last.value, v);
      } else if forall f | f in dict :: f.key != k {
        SortAppend(dict, Field(k, v));
      } else {
        SortDictSet(init, k, v);
        SortAppend(DictSet(init, k, v), last);
        PutCommutes(SortItems(init), k, v, last.key, last.value);
      }
    }
  }

  /** The mapping loop as written: fill a dict in payload order, then sort it. */
  method CanonicalMapping(entries: seq<Entry>) returns (r: Result<Json, CanonError>)
    ensures r == Canon(PyDict(entries))
    decreases entries, 0
  {
    var result: seq<Field> := [];
    for i := 0 to |entries|
      invariant CanonEntries(entries[..i]) == Ok(SortItems(result))
    {
      var e := entries[i];
      assert entries[..i + 1][..i] == entries[..i];
      if e.key.NotText? {
        FailedPrefix(entries, i + 1);
        return Err(NonStringKey);
      }
      var key := NormaliseText(e.key.s);
      var value := CanonicalValue(e.value);
      if value.Err? {
        FailedPrefix(entries, i + 1);
        return Err(value.error);
      }
      if !IsEmpty(value.value) {
        SortDictSet(result, key, value.value);
        result := DictSet(result, key, value.value);
      }
    }
    assert entries[..|entries|] == entries;
    r := Ok(Obj(SortItems(result)));
  }

  method CanonicalValue(v: Value) returns (r: Result<Json, CanonError>)
    ensures r == Canon(v)
    decreases v, 1
  {
    match v
    case PyDict(entries) =>
      r := CanonicalMapping(entries);
    case PyList(items) =>
      var js: seq<Json> := [];
      for i := 0 to |items|
        invariant CanonItems(items[..i]) == Ok(js)
      {
        var j := CanonicalValue(items[i]);
        ItemsAppend(items[..i], items[i]);
        assert items[..i + 1] == items[..i] + [items[i]];
        if j.Err? {
          FailedItems(items, i + 1);
          return Err(j.error);
        }
        js := js + [j.value];
      }
      assert items[..|items|] == items;
      r := Ok(Arr(js));
    case PyNone => r := Canon(v);
    case PyBool(_) => r := Canon(v);
    case PyStr(_) => r := Canon(v);
    case PyNumber(_) => r := Canon(v);
    case PyDate(_) => r := Canon(v);
    case PyMoment(_) => r := Canon(v);
    case PyOther => r := Canon(v);
  }

  lemma {:induction false} FailedPrefix(entries: seq<Entry>, n: nat)
    requires n <= |entries| && CanonEntries(entries[..n]).Err?
    ensures CanonEntries(entries) == CanonEntries(entries[..n])
  {
    if n < |entries| {
      var init := entries[..|entries| - 1];
      assert init[..n] == entries[..n];
      FailedPrefix(init, n);
    } else {
      assert entries[..n] == entries;
    }
  }

  lemma {:induction false} ItemsAppend(items: seq<Value>, v: Value)
    ensures CanonItems(items + [v]) ==
              match CanonItems(items)
              case Err(e) => Err(e)
              case Ok(js) => (match Canon(v) case Err(e) => Err(e) case Ok(j) => Ok(js + [j]))
  {
    if items == [] {
      assert [] + [v] == [v] && [v][1..] == [];
      if Canon(v).Ok? {
        assert [Canon(v).value] + [] == [] + [Canon(v).value];
      }
    } else {
      assert (items + [v])[1..] == items[1..] + [v];
      ItemsAppend(items[1..], v);
      if CanonItems(items).Ok? && Canon(v).Ok? {
        Assoc([Canon(items[0]).value], CanonItems(items[1..]).value, [Canon(v).value]);
      }
    }
  }

  lemma {:induction false} FailedItems(items: seq<Value>, n: nat)
    requires n <= |items| && CanonItems(items[..n]).Err?
    ensures CanonItems(items) == CanonItems(items[..n])
  {
    if n < |items| {
      var init := items[..|items| - 1];
      assert init[..n] == items[..n];
      FailedItems(init, n);
      ItemsAppend(init, items[|items| - 1]);
      assert items == init + [items[|items| - 1]];
    } else {
      assert items[..n] == items;
    }
  }

  // ----------------------------------------------------------- canonical trees

  /** What canonicalisation promises of its result, at every depth. */
  predicate IsCanonical(j: Json)
    decreases j
  {
    match j
    case Null => true
    case Bool(_) => true
    case Str(s) => IsNormal(s)
    case Arr(items) => forall v | v in items :: IsCanonical(v)
    case Obj(fields) =>
      && Sorted(fields)
      && forall f | f in fields :: IsNormal(f.key) && !IsEmpty(f.value) && IsCanonical(f.value)
  }

  lemma {:induction false} CanonIsCanonical(v: Value)
    requires Canon(v).Ok?
    ensures IsCanonical(Canon(v).value)
    decreases v, 1
  {
    match v
    case PyNone =>
    case PyBool(_) =>
    case PyStr(s) => NormaliseTextIdempotent(s);
    case PyNumber(d) =>
      CanonicalNumberIsPlain(d);
      PlainIsNormal(CanonicalNumber(d).value);
    case PyDate(day) =>
      IsoDateIsPlain(day);
      PlainIsNormal(IsoDate(day));
    case PyMoment(m) =>
      IsoMomentIsPlain(m);
      PlainIsNormal(IsoMoment(m));
    case PyList(items) => CanonItemsAreCanonical(items);
    case PyDict(entries) => CanonEntriesAreCanonical(entries);
  }

  lemma {:induction false} CanonItemsAreCanonical(items: seq<Value>)
    requires CanonItems(items).Ok?
    ensures forall j | j in CanonItems(items).value :: IsCanonical(j)
    decreases items, 0
  {
    if items != [] {
      CanonIsCanonical(items[0]);
      CanonItemsAreCanonical(items[1..]);
    }
  }

  lemma {:induction false} CanonEntriesAreCanonical(entries: seq<Entry>)
    requires CanonEntries(entries).Ok?
    ensures IsCanonical(Obj(CanonEntries(entries).value))
    decreases entries, 0
  {
    if entries != [] {
      var n := |entries| - 1;
      var init, last := entries[..n], entries[n];
      assert last in entries && last.value < last;
      CanonEntriesAreCanonical(init);
      CanonIsCanonical(last.value);
      var fields, key, j := CanonEntries(init).value, NormaliseText(last.key.s), Canon(last.value).value;
      NormaliseTextIdempotent(last.key.s);
      PutSorted(fields, key, j);
      PutFrom(fields, key, j);
    }
  }

  /** A canonical tree read back as a payload. */
  function Embed(j: Json): Value
    decreases j, 1
  {
    match j
    case Null => PyNone
    case Bool(b) => PyBool(b)
    case Str(s) => PyStr(s)
    case Arr(items) => PyList(EmbedItems(items))
    case Obj(fields) => PyDict(EmbedFields(fields))
  }

  function EmbedItems(items: seq<Json>): seq<Value>
    decreases items, 0
  {
    if items == [] then [] else [Embed(items[0])] + EmbedItems(items[1..])
  }

  function EmbedFields(fields: seq<Field>): seq<Entry>
    decreases fields, 0
  {
    if fields == [] then []
    else
      var last := fields[|fields| - 1];
      EmbedFields(fields[..|fields| - 1]) + [Entry(Name(last.key), Embed(last.value))]
  }

  lemma {:induction false} CanonOfCanonical(j: Json)
    requires IsCanonical(j)
    ensures Canon(Embed(j)) == Ok(j)
    decreases j, 1
  {
    hide Put, Sorted, Less, CanonicalNumber, IsoMoment, IsoDate, NormaliseText;
    match j
    case Null =>
    case Bool(_) =>
    case Str(_) =>
    case Arr(items) => CanonOfCanonicalItems(items);
    case Obj(fields) => CanonOfCanonicalFields(fields);
  }

  lemma {:induction false} CanonOfCanonicalItems(items: seq<Json>)
    requires forall v | v in items :: IsCanonical(v)
    ensures CanonItems(EmbedItems(items)) == Ok(items)
    decreases items, 0
  {
    if items != [] {
      CanonOfCanonical(items[0]);
      CanonOfCanonicalItems(items[1..]);
      HeadTail(items);
      Slices([Embed(items[0])], EmbedItems(items[1..]));
    }
  }

  /** The last field of a canonical mapping, and the rest of it. */
  lemma CanonicalParts(fields: seq<Field>)
    requires fields != [] && IsCanonical(Obj(fields))
    ensures var init, last := fields[..|fields| - 1], fields[|fields| - 1];
            && IsCanonical(Obj(init)) && IsCanonical(last.value) && IsNormal(last.key) && !IsEmpty(last.value)
            && (forall f | f in init :: Less(f.key, last.key)) && init + [last] == fields
  {
    hide IsNormal, Less;
    assert fields[|fields| - 1] in fields;
  }

  lemma {:induction false} CanonOfCanonicalFields(fields: seq<Field>)
    requires IsCanonical(Obj(fields))
    ensures CanonEntries(EmbedFields(fields)) == Ok(fields)
    decreases fields, 0
  {
    if fields != [] {
      var n := |fields| - 1;
      var init, last := fields[..n], fields[n];
      CanonicalParts(fields);
      assert last in fields && last.value < last;
      CanonOfCanonicalFields(init);
      CanonOfCanonical(last.value);
      hide IsCanonical, Less, Put;
      var entries := EmbedFields(init);
      Slices(entries, [Entry(Name(last.key), Embed(last.value))]);
      PutLast(init, last.key, last.value);
    }
  }

  /** In every object, at every depth, each key comes before the next ones, and no value is empty. */
  ghost predicate Ascending(j: Json)
    decreases j
  {
    match j
    case Null => true
    case Bool(_) => true
    case Str(_) => true
    case Arr(items) => forall v | v in items :: Ascending(v)
    case Obj(fields) =>
      && (forall i, k | 0 <= i < k < |fields| :: Precedes(fields[i].key, fields[k].key))
      && forall f | f in fields ::
           f.value != Null && f.value != Str("") && f.value != Arr([]) && f.value != Obj([]) && Ascending(f.value)
  }

  lemma {:induction false} CanonicalAscends(j: Json)
    requires IsCanonical(j)
    ensures Ascending(j)
    decreases j
  {
    hide IsNormal, Less, Precedes;
    match j
    case Null =>
    case Bool(_) =>
    case Str(_) =>
    case Arr(items) =>
      forall v | v in items ensures Ascending(v) {
        CanonicalAscends(v);
      }
    case Obj(fields) =>
      forall f | f in fields
        ensures f.value != Null && f.value != Str("") && f.value != Arr([]) && f.value != Obj([]) && Ascending(f.value)
      {
        assert f.value < f && !IsEmpty(f.value);
        CanonicalAscends(f.value);
      }
      forall i, k | 0 <= i < k < |fields| ensures Precedes(fields[i].key, fields[k].key) {
        LessExact(fields[i].key, fields[k].key);
      }
  }

  /** What is printed and hashed has its keys in ascending order throughout, and nothing empty under them. */
  lemma CanonAscends(v: Value)
    requires Canon(v).Ok?
    ensures Ascending(Canon(v).value)
  {
    CanonIsCanonical(v);
    CanonicalAscends(Canon(v).value);
  }

  /** What can be canonicalised: text keys, numbers that render, and nothing of another type, at any depth. */
  predicate Admissible(v: Value)
    decreases v
  {
    match v
    case PyNumber(d) => d.Finite? && |Digits(Cents(d))| <= 28
    case PyList(items) => forall x | x in items :: Admissible(x)
    case PyDict(entries) => forall e | e in entries :: e.key.Name? && Admissible(e.value)
    case PyOther => false
    case _ => true
  }

  /** Everything else is refused. */
  lemma {:induction false} CanonAccepts(v: Value)
    ensures Canon(v).Ok? <==> Admissible(v)
    decreases v, 1
  {
    match v
    case PyNumber(d) => CanonicalNumberAccepts(d);
    case PyList(items) => ItemsAccept(items);
    case PyDict(entries) => EntriesAccept(entries);
    case _ =>
  }

  lemma {:induction false} ItemsAccept(items: seq<Value>)
    ensures CanonItems(items).Ok? <==> forall x | x in items :: Admissible(x)
    decreases items, 0
  {
    hide Admissible;
    if items != [] {
      CanonAccepts(items[0]);
      ItemsAccept(items[1..]);
      HeadTail(items);
      assert forall x :: x in items <==> x == items[0] || x in items[1..];
    }
  }

  lemma {:induction false} EntriesAccept(entries: seq<Entry>)
    ensures CanonEntries(entries).Ok? <==> forall e | e in entries :: e.key.Name? && Admissible(e.value)
    decreases entries, 0
  {
    hide Admissible, NormaliseText;
    if entries != [] {
      var n := |entries| - 1;
      var init, last := entries[..n], entries[n];
      assert last in entries && last.value < last;
      EntriesAccept(init);
      CanonAccepts(last.value);
      assert entries == init + [last];
      assert forall e :: e in entries <==> e in init || e == last;
    }
  }

  /** A value that is no container becomes its text, or itself. */
  lemma ScalarsExact(s: string, b: bool, day: CalendarDate, m: Moment)
    ensures Canon(PyStr(s)) == Ok(Str(NormaliseText(s))) && Canon(PyBool(b)) == Ok(Bool(b)) && Canon(PyNone) == Ok(Null)
    ensures Canon(PyDate(day)) == Ok(Str(IsoDate(day))) && Canon(PyMoment(m)) == Ok(Str(IsoMoment(m)))
  {
  }

  /** Canonicalising a canonical tree changes nothing: the stored pre-image hashes to the hash. */
  lemma CanonIdempotent(v: Value)
    requires Canon(v).Ok?
    ensures Canon(Embed(Canon(v).value)) == Canon(v)
  {
    CanonIsCanonical(v);
    CanonOfCanonical(Canon(v).value);
  }
}
