/**
 What the canonical form does not depend on: the order of the keys of a mapping and optional
 fields that nobody filled in, at any depth of a payload (rules 1 and 5 at the head of
 backend/apps/ledger/canonical.py).
 */
module Rearrange {
  import opened Basics
  import opened Text
  import opened Json
  import opened Canonical

  /** One change to a payload that should not matter; the last two reach into it. */
  datatype Edit =
    | Swap(i: nat)
    | Insert(i: nat, entry: Entry)
    | InEntry(i: nat, inner: Edit)
    | InItem(i: nat, inner: Edit)

  predicate SameKey(a: Entry, b: Entry)
    requires a.key.Name? && b.key.Name?
  {
    NormaliseText(a.key.s) == NormaliseText(b.key.s)
  }

  /** The entry adds nothing: its value is `None`, blank text, or an empty list or mapping. */
  predicate Blank(e: Entry) {
    e.key.Name? && Canon(e.value).Ok? && IsEmpty(Canon(e.value).value)
  }

  predicate Applicable(v: Value, edit: Edit)
    decreases edit
  {
    match edit
    case Swap(i) =>
      && v.PyDict? && i + 1 < |v.entries| && v.entries[i].key.Name? && v.entries[i + 1].key.Name?
      && !SameKey(v.entries[i], v.entries[i + 1])
    case Insert(i, e) => v.PyDict? && i <= |v.entries| && Blank(e)
    case InEntry(i, inner) => v.PyDict? && i < |v.entries| && Applicable(v.entries[i].value, inner)
    case InItem(i, inner) => v.PyList? && i < |v.items| && Applicable(v.items[i], inner)
  }

  function Apply(v: Value, edit: Edit): Value
    requires Applicable(v, edit)
    decreases edit
  {
    match edit
    case Swap(i) =>
      PyDict(v.entries[..i] + [v.entries[i + 1], v.entries[i]] + v.entries[i + 2..])
    case Insert(i, e) => PyDict(v.entries[..i] + [e] + v.entries[i..])
    case InEntry(i, inner) =>
      var e := v.entries[i];
      PyDict(v.entries[..i] + [Entry(e.key, Apply(e.value, inner))] + v.entries[i + 1..])
    case InItem(i, inner) => PyList(v.items[i := Apply(v.items[i], inner)])
  }

  /** Equal as far as hashing can tell: the same result unless both are refused. */
  predicate Agree<T(==), E(==)>(a: Result<T, E>, b: Result<T, E>) {
    a.Ok? || b.Ok? ==> a == b
  }

  lemma {:induction false} SamePrefix(a: seq<Entry>, b: seq<Entry>, rest: seq<Entry>)
    requires Agree(CanonEntries(a), CanonEntries(b))
    ensures Agree(CanonEntries(a + rest), CanonEntries(b + rest))
  {
    if rest == [] {
      assert a + rest == a && b + rest == b;
    } else {
      var n := |rest| - 1;
      SamePrefix(a, b, rest[..n]);
      assert (a + rest)[..|a| + n] == a + rest[..n] && (b + rest)[..|b| + n] == b + rest[..n];
    }
  }

  lemma EntriesAppend(entries: seq<Entry>, e: Entry)
    ensures CanonEntries(entries + [e]) ==
              match CanonEntries(entries) case Err(x) => Err(x) case Ok(f) => CanonEntry(f, e)
  {
    assert (entries + [e])[..|entries|] == entries;
  }

  lemma SwapLast(pre: seq<Entry>, x: Entry, y: Entry)
    requires x.key.Name? && y.key.Name? && !SameKey(x, y)
    ensures Agree(CanonEntries(pre + [x, y]), CanonEntries(pre + [y, x]))
  {
    TwoEntries(pre, x, y);
    TwoEntries(pre, y, x);
    if CanonEntries(pre).Ok? && Canon(x.value).Ok? && Canon(y.value).Ok? {
      PutCommutes(CanonEntries(pre).value, NormaliseText(x.key.s), Canon(x.value).value,
                  NormaliseText(y.key.s), Canon(y.value).value);
    }
  }

  lemma TwoEntries(pre: seq<Entry>, x: Entry, y: Entry)
    requires x.key.Name? && y.key.Name?
    ensures var r := CanonEntries(pre + [x, y]);
            if CanonEntries(pre).Ok? && Canon(x.value).Ok? && Canon(y.value).Ok?
            then r == Ok(PutNonEmpty(PutNonEmpty(CanonEntries(pre).value, NormaliseText(x.key.s), Canon(x.value).value),
                                     NormaliseText(y.key.s), Canon(y.value).value))
            else r.Err?
  {
    EntriesAppend(pre, x);
    EntriesAppend(pre + [x], y);
    assert pre + [x] + [y] == pre + [x, y];
  }

  /**
   Swapping two neighbouring entries is invisible exactly when their keys stay different after
   normalisation, or one of them is blank, or their canonical values are equal.
   */
  lemma SwapExact(pre: seq<Entry>, x: Entry, y: Entry)
    requires x.key.Name? && y.key.Name?
    requires CanonEntries(pre).Ok? && Canon(x.value).Ok? && Canon(y.value).Ok?
    ensures CanonEntries(pre + [x, y]) == CanonEntries(pre + [y, x])
            <==> !SameKey(x, y) || Blank(x) || Blank(y) || Canon(x.value) == Canon(y.value)
  {
    TwoEntries(pre, x, y);
    TwoEntries(pre, y, x);
    if !SameKey(x, y) {
      SwapLast(pre, x, y);
    } else if !Blank(x) && !Blank(y) {
      var f, k := CanonEntries(pre).value, NormaliseText(x.key.s);
      PutTwice(f, k, Canon(x.value).value, Canon(y.value).value);
      PutTwice(f, k, Canon(y.value).value, Canon(x.value).value);
      FindPut(f, k, Canon(x.value).value, k);
      FindPut(f, k, Canon(y.value).value, k);
    }
  }

  /** Such a pair exists: two spellings of one key carrying different values. */
  lemma SwapVisible()
    ensures var x, y := Entry(Name("a"), PyStr("1")), Entry(Name(" a"), PyStr("2"));
            CanonEntries([x, y]) != CanonEntries([y, x])
  {
    var x, y := Entry(Name("a"), PyStr("1")), Entry(Name(" a"), PyStr("2"));
    assert NFC("a") == "a" && NFC(" a") == " a" && NFC("1") == "1" && NFC("2") == "2" by {
      assert Ascii("a") && Ascii(" a") && Ascii("1") && Ascii("2");
    }
    WordsOfWord("a");
    WordsOfWord("1");
    WordsOfWord("2");
    assert " a"[1..] == "a";
    SwapExact([], x, y);
    assert [] + [x, y] == [x, y] && [] + [y, x] == [y, x];
  }

  lemma SwapInvisible(entries: seq<Entry>, i: nat)
    requires i + 1 < |entries| && entries[i].key.Name? && entries[i + 1].key.Name?
    requires !SameKey(entries[i], entries[i + 1])
    ensures Agree(CanonEntries(entries[..i] + [entries[i + 1], entries[i]] + entries[i + 2..]), CanonEntries(entries))
  {
    hide CanonEntries, SameKey;
    var pre, x, y, rest := entries[..i], entries[i], entries[i + 1], entries[i + 2..];
    SwapLast(pre, x, y);
    SamePrefix(pre + [x, y], pre + [y, x], rest);
    assert pre + [x, y] + rest == entries;
  }

  lemma InsertInvisible(entries: seq<Entry>, i: nat, e: Entry)
    requires i <= |entries| && Blank(e)
    ensures Agree(CanonEntries(entries[..i] + [e] + entries[i..]), CanonEntries(entries))
  {
    hide CanonEntries;
    var pre, rest := entries[..i], entries[i..];
    EntriesAppend(pre, e);
    SamePrefix(pre + [e], pre, rest);
    assert pre + rest == entries;
  }

  lemma EntryInvisible(entries: seq<Entry>, i: nat, v: Value)
    requires i < |entries| && Agree(Canon(v), Canon(entries[i].value))
    ensures Agree(CanonEntries(entries[..i] + [Entry(entries[i].key, v)] + entries[i + 1..]), CanonEntries(entries))
  {
    hide CanonEntries;
    var pre, e, rest := entries[..i], entries[i], entries[i + 1..];
    EntriesAppend(pre, e);
    EntriesAppend(pre, Entry(e.key, v));
    SamePrefix(pre + [e], pre + [Entry(e.key, v)], rest);
    assert pre + [e] + rest == entries;
  }

  /** Every applicable edit leaves the canonical form as it was. */
  lemma {:induction false} EditInvisible(v: Value, edit: Edit)
    requires Applicable(v, edit)
    ensures Agree(Canon(Apply(v, edit)), Canon(v))
    decreases edit
  {
    hide CanonEntries, CanonItems, Blank, SameKey;
    match edit
    case Swap(i) => SwapInvisible(v.entries, i);
    case Insert(i, e) => InsertInvisible(v.entries, i, e);
    case InEntry(i, inner) =>
      EditInvisible(v.entries[i].value, inner);
      EntryInvisible(v.entries, i, Apply(v.entries[i].value, inner));
    case InItem(i, inner) =>
      EditInvisible(v.items[i], inner);
      ItemChanged(v.items, i, Apply(v.items[i], inner));
  }

  lemma {:induction false} ItemChanged(items: seq<Value>, i: nat, v: Value)
    requires i < |items| && Agree(Canon(v), Canon(items[i]))
    ensures Agree(CanonItems(items[i := v]), CanonItems(items))
  {
    if i == 0 {
      assert items[i := v][1..] == items[1..];
    } else {
      assert items[i := v][1..] == items[1..][i - 1 := v];
      ItemChanged(items[1..], i - 1, v);
    }
  }

  predicate AllApplicable(v: Value, edits: seq<Edit>)
    decreases |edits|
  {
    edits == [] || (Applicable(v, edits[0]) && AllApplicable(Apply(v, edits[0]), edits[1..]))
  }

  function ApplyAll(v: Value, edits: seq<Edit>): Value
    requires AllApplicable(v, edits)
    decreases |edits|
  {
    if edits == [] then v else ApplyAll(Apply(v, edits[0]), edits[1..])
  }

  /** Any number of reorderings and blank additions, at any depths, is invisible. */
  lemma {:induction false} RearrangementInvisible(v: Value, edits: seq<Edit>)
    requires AllApplicable(v, edits)
    ensures Agree(Canon(ApplyAll(v, edits)), Canon(v))
    decreases |edits|
  {
    if edits != [] {
      EditInvisible(v, edits[0]);
      RearrangementInvisible(Apply(v, edits[0]), edits[1..]);
    }
  }
}
