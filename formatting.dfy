/** The payload canonicaliser and schema validator of `xian_py/formating.py`.

    A payload is a Python dict. It is modelled as a JSON-like `Value` whose
    dicts are association lists kept in insertion order, which is the order
    in which Python iterates them. */
module Formatting {
  import opened Outcomes
  import opened PyText
  import opened PyNumbers

  datatype Value =
    | Str(s: string)
    | Int(i: int)
    | Bool(b: bool)
    | Null
    | List(items: seq<Value>)
    | Dict(entries: seq<Entry>)

  datatype Entry = Entry(key: Value, val: Value)

  /* ---------------------------------------------------------------- keys */

  function Keys(e: seq<Entry>): set<Value> {
    set x | x in e :: x.key
  }

  /** A Python dict never holds the same key twice. */
  predicate DistinctKeys(e: seq<Entry>) {
    forall i, j | 0 <= i < j < |e| :: e[i].key != e[j].key
  }

  predicate StrKeys(e: seq<Entry>) {
    forall x | x in e :: x.key.Str?
  }

  /** The text of a string key; canonical dicts have string keys only. */
  function KeyText(x: Entry): string {
    if x.key.Str? then x.key.s else []
  }

  predicate DistinctTexts(e: seq<Entry>) {
    forall i, j | 0 <= i < j < |e| :: KeyText(e[i]) != KeyText(e[j])
  }

  /** Keys in strictly ascending order. */
  predicate SortedByKey(e: seq<Entry>) {
    forall i, j | 0 <= i < j < |e| :: LexLess(KeyText(e[i]), KeyText(e[j]))
  }

  /** Every dict in the value, at any depth, has distinct keys (true of
      every value built from Python dicts). */
  predicate WellFormed(v: Value) {
    match v
    case List(xs) => forall y | y in xs :: WellFormed(y)
    case Dict(e) => DistinctKeys(e) && forall x | x in e :: WellFormedEntry(x)
    case _ => true
  }

  predicate WellFormedEntry(x: Entry) {
    WellFormed(x.val)
  }

  /* ------------------------------------------------- sorting by key */

  /** Python's `sorted(d.items())` for a dict with string keys: the entries
      in ascending key order (insertion sort). */
  function SortByKey(e: seq<Entry>): (r: seq<Entry>)
    ensures multiset(r) == multiset(e)
    ensures |r| == |e|
  {
    if e == [] then []
    else
      assert e == [e[0]] + e[1..];
      Insert(e[0], SortByKey(e[1..]))
  }

  function Insert(x: Entry, s: seq<Entry>): (r: seq<Entry>)
    ensures multiset(r) == multiset(s) + multiset{x}
    ensures |r| == |s| + 1
  {
    if s == [] || !LexLess(KeyText(s[0]), KeyText(x)) then [x] + s
    else
      assert s == [s[0]] + s[1..];
      [s[0]] + Insert(x, s[1..])
  }

  lemma {:induction false} InsertSorted(x: Entry, s: seq<Entry>)
    requires SortedByKey(s)
    requires forall y | y in s :: KeyText(y) != KeyText(x)
    ensures SortedByKey(Insert(x, s))
  {
    if s == [] {
    } else if !LexLess(KeyText(s[0]), KeyText(x)) {
      LexLessTotal(KeyText(x), KeyText(s[0]));
      forall j | 0 < j < |s| ensures LexLess(KeyText(x), KeyText(s[j])) {
        LexLessTransitive(KeyText(x), KeyText(s[0]), KeyText(s[j]));
      }
    } else {
      InsertSorted(x, s[1..]);
      var r := Insert(x, s[1..]);
      forall k | 0 <= k < |r| ensures LexLess(KeyText(s[0]), KeyText(r[k])) {
        assert r[k] in multiset(s[1..]) + multiset{x};
        if r[k] != x {
          assert r[k] in s[1..];
        }
      }
    }
  }

  lemma {:induction false} SortSorted(e: seq<Entry>)
    requires DistinctTexts(e)
    ensures SortedByKey(SortByKey(e))
  {
    if e != [] {
      SortSorted(e[1..]);
      forall y | y in SortByKey(e[1..]) ensures KeyText(y) != KeyText(e[0]) {
        assert y in multiset(e[1..]);
      }
      InsertSorted(e[0], SortByKey(e[1..]));
    }
  }

  /** Two sorted arrangements of one collection start with the same entry. */
  lemma SortedHead(a: seq<Entry>, b: seq<Entry>)
    requires SortedByKey(a) && SortedByKey(b)
    requires multiset(a) == multiset(b) && |a| > 0 && |b| > 0
    ensures a[0] == b[0]
  {
    assert a[0] in multiset(b) && b[0] in multiset(a);
    var j :| 0 <= j < |b| && b[j] == a[0];
    var k :| 0 <= k < |a| && a[k] == b[0];
    if j != 0 {
      if k == 0 {
        LexLessIrreflexive(KeyText(a[0]));
      } else {
        LexLessAsymmetric(KeyText(a[0]), KeyText(b[0]));
      }
      assert false;
    }
  }

  /** At most one strictly sorted arrangement of a collection of entries. */
  lemma {:induction false} SortedUnique(a: seq<Entry>, b: seq<Entry>)
    requires SortedByKey(a) && SortedByKey(b)
    requires multiset(a) == multiset(b)
    ensures a == b
  {
    assert |a| == |multiset(a)| == |multiset(b)| == |b|;
    if |a| > 0 {
      SortedHead(a, b);
      assert a == [a[0]] + a[1..] && b == [b[0]] + b[1..];
      assert multiset(a[1..]) == multiset(b[1..]) by {
        assert multiset(a) == multiset{a[0]} + multiset(a[1..]);
        assert multiset(b) == multiset{b[0]} + multiset(b[1..]);
        forall z ensures multiset(a[1..])[z] == multiset(b[1..])[z] {
          assert multiset(a)[z] == multiset{a[0]}[z] + multiset(a[1..])[z];
          assert multiset(b)[z] == multiset{b[0]}[z] + multiset(b[1..])[z];
        }
      }
      SortedUnique(a[1..], b[1..]);
    }
  }

  /* ------------------------------------- what format_dictionary computes */

  /** The dict `format_dictionary` returns for the dict `e`: every entry
      canonicalised in insertion order, then sorted by key. A non-string key
      at any dict it visits fails its `assert`. */
  function Canon(e: seq<Entry>): (r: Result<seq<Entry>>)
    ensures r.Ok? ==> |r.value| == |e|
    decreases e, 1
  {
    var c :- CanonEntries(e);
    Ok(SortByKey(c))
  }

  function CanonEntries(e: seq<Entry>): (r: Result<seq<Entry>>)
    ensures r.Ok? ==> |r.value| == |e|
    decreases e, 0
  {
    if e == [] then Ok([])
    else
      var x :- CanonEntry(e[0]);
      var rest :- CanonEntries(e[1..]);
      Ok([x] + rest)
  }

  /** One loop iteration of `format_dictionary`: assert the key is a string,
      then canonicalise the value. */
  function CanonEntry(x: Entry): Result<Entry> {
    if !x.key.Str? then Raise(AssertionError)
    else
      var v :- CanonValue(x.val);
      Ok(Entry(x.key, v))
  }

  /** A value found under a key: a list has its dict elements canonicalised,
      a dict is canonicalised, anything else is kept. */
  function CanonValue(v: Value): Result<Value> {
    match v
    case List(xs) =>
      var ys :- CanonItems(xs);
      Ok(List(ys))
    case Dict(e) =>
      var r :- Canon(e);
      Ok(Dict(r))
    case _ => Ok(v)
  }

  function CanonItems(xs: seq<Value>): Result<seq<Value>> {
    if xs == [] then Ok([])
    else
      var y :- CanonItem(xs[0]);
      var rest :- CanonItems(xs[1..]);
      Ok([y] + rest)
  }

  /** A list element: only a dict is canonicalised; a nested list is not
      descended into. */
  function CanonItem(y: Value): Result<Value> {
    if y.Dict? then
      var r :- Canon(y.entries);
      Ok(Dict(r))
    else Ok(y)
  }

  /* ------------------------------------------ element-wise reading */

  /** `CanonEntries` succeeds iff every entry does, and then canonicalises
      each entry in place. */
  lemma {:induction false} CanonEntriesAt(e: seq<Entry>)
    ensures CanonEntries(e).Ok? <==> forall i | 0 <= i < |e| :: CanonEntry(e[i]).Ok?
    ensures CanonEntries(e).Ok? ==>
      && |CanonEntries(e).value| == |e|
      && forall i | 0 <= i < |e| :: CanonEntry(e[i]) == Ok(CanonEntries(e).value[i])
    ensures CanonEntries(e).Raise? ==>
      exists i | 0 <= i < |e| :: CanonEntry(e[i]) == Raise(CanonEntries(e).exc)
  {
    if e != [] {
      CanonEntriesAt(e[1..]);
      assert forall i | 1 <= i < |e| :: e[1..][i - 1] == e[i];
      if CanonEntry(e[0]).Ok? && CanonEntries(e[1..]).Raise? {
        var i :| 0 <= i < |e[1..]| && CanonEntry(e[1..][i]) == Raise(CanonEntries(e[1..]).exc);
        assert CanonEntry(e[i + 1]) == Raise(CanonEntries(e).exc);
      }
    }
  }

  /** The exception of the first entry that fails is the one raised. */
  lemma {:induction false} CanonEntriesFirstFailure(e: seq<Entry>, i: nat)
    requires i < |e| && CanonEntry(e[i]).Raise?
    requires forall k | 0 <= k < i :: CanonEntry(e[k]).Ok?
    ensures CanonEntries(e) == Raise(CanonEntry(e[i]).exc)
  {
    if i > 0 {
      assert forall k | 0 <= k < i - 1 :: e[1..][k] == e[k + 1];
      CanonEntriesFirstFailure(e[1..], i - 1);
    }
  }

  lemma {:induction false} CanonItemsAt(xs: seq<Value>)
    ensures CanonItems(xs).Ok? <==> forall i | 0 <= i < |xs| :: CanonItem(xs[i]).Ok?
    ensures CanonItems(xs).Ok? ==>
      && |CanonItems(xs).value| == |xs|
      && forall i | 0 <= i < |xs| :: CanonItem(xs[i]) == Ok(CanonItems(xs).value[i])
    ensures CanonItems(xs).Raise? ==>
      exists i | 0 <= i < |xs| :: CanonItem(xs[i]) == Raise(CanonItems(xs).exc)
  {
    if xs != [] {
      CanonItemsAt(xs[1..]);
      assert forall i | 1 <= i < |xs| :: xs[1..][i - 1] == xs[i];
      if CanonItem(xs[0]).Ok? && CanonItems(xs[1..]).Raise? {
        var i :| 0 <= i < |xs[1..]| && CanonItem(xs[1..][i]) == Raise(CanonItems(xs[1..]).exc);
        assert CanonItem(xs[i + 1]) == Raise(CanonItems(xs).exc);
      }
    }
  }

  lemma {:induction false} CanonItemsFirstFailure(xs: seq<Value>, i: nat)
    requires i < |xs| && CanonItem(xs[i]).Raise?
    requires forall k | 0 <= k < i :: CanonItem(xs[k]).Ok?
    ensures CanonItems(xs) == Raise(CanonItem(xs[i]).exc)
  {
    if i > 0 {
      assert forall k | 0 <= k < i - 1 :: xs[1..][k] == xs[k + 1];
      CanonItemsFirstFailure(xs[1..], i - 1);
    }
  }

  /* ------------------------------------------------- the error path */

  /** Every dict that `format_dictionary` visits (the dict itself, dict
      values, and dicts that are elements of list values) has string keys
      only. */
  predicate StrKeyedDict(e: seq<Entry>) {
    forall x | x in e :: StrKeyedEntry(x)
  }

  predicate StrKeyedEntry(x: Entry) {
    x.key.Str? && StrKeyedValue(x.val)
  }

  predicate StrKeyedValue(v: Value) {
    match v
    case List(xs) => forall y | y in xs :: StrKeyedItem(y)
    case Dict(e) => StrKeyedDict(e)
    case _ => true
  }

  predicate StrKeyedItem(y: Value) {
    y.Dict? ==> StrKeyedDict(y.entries)
  }

  /** `format_dictionary` returns iff every dict it visits has string keys;
      otherwise its `assert` fails. */
  lemma {:induction false} CanonFails(e: seq<Entry>)
    ensures Canon(e).Ok? <==> StrKeyedDict(e)
    ensures Canon(e).Raise? ==> Canon(e).exc == AssertionError
  {
    CanonEntriesAt(e);
    forall i | 0 <= i < |e|
      ensures CanonEntry(e[i]).Ok? <==> StrKeyedEntry(e[i])
      ensures CanonEntry(e[i]).Raise? ==> CanonEntry(e[i]).exc == AssertionError
    {
      CanonEntryFails(e[i]);
    }
  }

  lemma {:induction false} CanonEntryFails(x: Entry)
    ensures CanonEntry(x).Ok? <==> StrKeyedEntry(x)
    ensures CanonEntry(x).Raise? ==> CanonEntry(x).exc == AssertionError
  {
    if x.key.Str? {
      CanonValueFails(x.val);
    }
  }

  lemma {:induction false} CanonValueFails(v: Value)
    ensures CanonValue(v).Ok? <==> StrKeyedValue(v)
    ensures CanonValue(v).Raise? ==> CanonValue(v).exc == AssertionError
  {
    match v
    case List(xs) =>
      CanonItemsAt(xs);
      forall i | 0 <= i < |xs|
        ensures CanonItem(xs[i]).Ok? <==> StrKeyedItem(xs[i])
        ensures CanonItem(xs[i]).Raise? ==> CanonItem(xs[i]).exc == AssertionError
      {
        CanonItemFails(xs[i]);
      }
    case Dict(e) =>
      CanonFails(e);
    case _ =>
  }

  lemma {:induction false} CanonItemFails(y: Value)
    ensures CanonItem(y).Ok? <==> StrKeyedItem(y)
    ensures CanonItem(y).Raise? ==> CanonItem(y).exc == AssertionError
  {
    if y.Dict? {
      CanonFails(y.entries);
    }
  }

  /* ------------------------------------------------ shape of the result */

  /** Canonicalising entry by entry keeps each key where it is; with the
      keys of a Python dict this gives distinct string keys. */
  lemma CanonEntriesKeys(e: seq<Entry>, c: seq<Entry>)
    requires |c| == |e|
    requires forall i | 0 <= i < |e| :: CanonEntry(e[i]) == Ok(c[i])
    ensures Keys(c) == Keys(e) && StrKeys(c)
    ensures forall i | 0 <= i < |e| :: c[i].key == e[i].key
    ensures DistinctKeys(e) ==> DistinctTexts(c)
  {
    forall y | y in Keys(c) ensures y in Keys(e) {
      var i :| 0 <= i < |c| && c[i].key == y;
      assert e[i] in e;
    }
    forall y | y in Keys(e) ensures y in Keys(c) {
      var i :| 0 <= i < |e| && e[i].key == y;
      assert c[i] in c;
    }
  }

  /** Sorting keeps the members. */
  lemma SortByKeyMembers(c: seq<Entry>)
    ensures forall y :: y in SortByKey(c) <==> y in c
  {
    forall y ensures y in SortByKey(c) <==> y in c {
      assert y in SortByKey(c) <==> y in multiset(SortByKey(c));
      assert y in c <==> y in multiset(c);
    }
  }

  lemma KeysOfSameMembers(a: seq<Entry>, b: seq<Entry>)
    requires forall y :: y in a <==> y in b
    ensures Keys(a) == Keys(b)
  {
    forall k | k in Keys(a) ensures k in Keys(b) {
      var y :| y in a && y.key == k;
    }
    forall k | k in Keys(b) ensures k in Keys(a) {
      var y :| y in b && y.key == k;
    }
  }

  /** The result of `format_dictionary` holds exactly the input's keys, all
      strings, with as many entries as the input; for a Python dict
      (distinct keys) they come in strictly ascending key order. */
  lemma CanonShape(e: seq<Entry>, r: seq<Entry>)
    requires Canon(e) == Ok(r)
    ensures |r| == |e| && Keys(r) == Keys(e) && StrKeys(r)
    ensures DistinctKeys(e) ==> SortedByKey(r)
  {
    CanonEntriesAt(e);
    var c := CanonEntries(e).value;
    CanonEntriesKeys(e, c);
    SortByKeyMembers(c);
    KeysOfSameMembers(r, c);
    if DistinctKeys(e) {
      SortSorted(c);
    }
  }

  /** Each entry of the result is the canonicalised form of an input entry,
      and each input entry's canonicalised form is in the result. */
  lemma CanonMembers(e: seq<Entry>, r: seq<Entry>)
    requires Canon(e) == Ok(r)
    ensures forall y | y in r :: exists i | 0 <= i < |e| :: CanonEntry(e[i]) == Ok(y)
    ensures forall i | 0 <= i < |e| :: CanonEntry(e[i]).Ok? && CanonEntry(e[i]).value in r
  {
    CanonEntriesAt(e);
    var c := CanonEntries(e).value;
    SortByKeyMembers(c);
    forall y | y in r ensures exists i | 0 <= i < |e| :: CanonEntry(e[i]) == Ok(y) {
      var i :| 0 <= i < |c| && c[i] == y;
    }
    forall i | 0 <= i < |e| ensures CanonEntry(e[i]).Ok? && CanonEntry(e[i]).value in r {
      assert c[i] in c;
    }
  }

  /** A list value keeps its length and order: a dict element is replaced by
      its canonical form, every other element (a nested list included) is
      kept as it is. A scalar value is kept. */
  lemma CanonValueShape(v: Value, w: Value)
    requires CanonValue(v) == Ok(w)
    ensures !v.List? && !v.Dict? ==> w == v
    ensures v.Dict? ==> w.Dict? && Canon(v.entries) == Ok(w.entries)
    ensures v.List? ==>
      && w.List? && |w.items| == |v.items|
      && forall i | 0 <= i < |v.items| ::
           if v.items[i].Dict? then w.items[i].Dict? && Canon(v.items[i].entries) == Ok(w.items[i].entries)
           else w.items[i] == v.items[i]
  {
    if v.List? {
      CanonItemsAt(v.items);
    }
  }

  /* ------------------------------------------------- canonical output */

  /** A dict as `format_dictionary` leaves it: string keys in strictly
      ascending order, and every dict it visits below canonical too. */
  predicate CanonicalDict(e: seq<Entry>) {
    SortedByKey(e) && forall x | x in e :: CanonicalEntry(x)
  }

  predicate CanonicalEntry(x: Entry) {
    x.key.Str? && CanonicalValue(x.val)
  }

  predicate CanonicalValue(v: Value) {
    match v
    case List(xs) => forall y | y in xs :: CanonicalItem(y)
    case Dict(e) => CanonicalDict(e)
    case _ => true
  }

  predicate CanonicalItem(y: Value) {
    y.Dict? ==> CanonicalDict(y.entries)
  }

  /** The result of `format_dictionary` on a Python dict is canonical at every
      dict it visits. */
  lemma {:induction false} CanonIsCanonical(e: seq<Entry>)
    ensures WellFormed(Dict(e)) && Canon(e).Ok? ==> CanonicalDict(Canon(e).value)
  {
    if WellFormed(Dict(e)) && Canon(e).Ok? {
      var r := Canon(e).value;
      CanonShape(e, r);
      CanonMembers(e, r);
      forall y | y in r ensures CanonicalEntry(y) {
        var i :| 0 <= i < |e| && CanonEntry(e[i]) == Ok(y);
        assert e[i] in e;
        CanonEntryIsCanonical(e[i]);
      }
    }
  }

  lemma {:induction false} CanonEntryIsCanonical(x: Entry)
    ensures WellFormedEntry(x) && CanonEntry(x).Ok? ==> CanonicalEntry(CanonEntry(x).value)
  {
    if x.key.Str? {
      CanonValueIsCanonical(x.val);
    }
  }

  lemma {:induction false} CanonValueIsCanonical(v: Value)
    ensures WellFormed(v) && CanonValue(v).Ok? ==> CanonicalValue(CanonValue(v).value)
  {
    match v
    case List(xs) =>
      if WellFormed(v) && CanonValue(v).Ok? {
        CanonItemsAt(xs);
        var ys := CanonItems(xs).value;
        forall y | y in ys ensures CanonicalItem(y) {
          var i :| 0 <= i < |ys| && ys[i] == y;
          assert xs[i] in xs;
          CanonItemIsCanonical(xs[i]);
        }
      }
    case Dict(e) =>
      CanonIsCanonical(e);
    case _ =>
  }

  lemma {:induction false} CanonItemIsCanonical(y: Value)
    ensures WellFormed(y) && CanonItem(y).Ok? ==> CanonicalItem(CanonItem(y).value)
  {
    if y.Dict? {
      CanonIsCanonical(y.entries);
    }
  }

  /* ------------------------------------------------ fixed point */

  /** A canonical dict is returned unchanged. */
  lemma {:induction false} CanonFixed(e: seq<Entry>)
    ensures CanonicalDict(e) ==> Canon(e) == Ok(e)
  {
    if CanonicalDict(e) {
      forall i | 0 <= i < |e| ensures CanonEntry(e[i]) == Ok(e[i]) {
        assert e[i] in e;
        CanonEntryFixed(e[i]);
      }
      CanonEntriesAt(e);
      var c := CanonEntries(e).value;
      assert c == e;
      forall i, j | 0 <= i < j < |e| ensures KeyText(e[i]) != KeyText(e[j]) {
        LexLessIrreflexive(KeyText(e[i]));
      }
      SortSorted(e);
      SortedUnique(SortByKey(e), e);
    }
  }

  lemma {:induction false} CanonEntryFixed(x: Entry)
    ensures CanonicalEntry(x) ==> CanonEntry(x) == Ok(x)
  {
    CanonValueFixed(x.val);
  }

  lemma {:induction false} CanonValueFixed(v: Value)
    ensures CanonicalValue(v) ==> CanonValue(v) == Ok(v)
  {
    match v
    case List(xs) =>
      if CanonicalValue(v) {
        forall i | 0 <= i < |xs| ensures CanonItem(xs[i]) == Ok(xs[i]) {
          assert xs[i] in xs;
          CanonItemFixed(xs[i]);
        }
        CanonItemsAt(xs);
        assert CanonItems(xs).value == xs;
      }
    case Dict(e) =>
      CanonFixed(e);
    case _ =>
  }

  lemma {:induction false} CanonItemFixed(y: Value)
    ensures CanonicalItem(y) ==> CanonItem(y) == Ok(y)
  {
    if y.Dict? {
      CanonFixed(y.entries);
    }
  }

  /** `format_dictionary` is idempotent. */
  lemma CanonIdempotent(e: seq<Entry>, r: seq<Entry>)
    requires WellFormed(Dict(e)) && Canon(e) == Ok(r)
    ensures Canon(r) == Ok(r)
  {
    CanonIsCanonical(e);
    CanonFixed(r);
  }

  /* ------------------------------------------- insertion order */

  /** Removing the element at `j` takes one copy of it out of the multiset. */
  lemma RemoveAt<A>(s: seq<A>, j: nat)
    requires j < |s|
    ensures multiset(s) == multiset{s[j]} + multiset(s[..j] + s[j + 1..])
  {
    assert s == s[..j] + [s[j]] + s[j + 1..];
  }

  lemma MultisetCancel<A>(x: A, a: seq<A>, b: seq<A>)
    requires multiset{x} + multiset(a) == multiset{x} + multiset(b)
    ensures multiset(a) == multiset(b)
  {
    forall z ensures multiset(a)[z] == multiset(b)[z] {
      assert (multiset{x} + multiset(a))[z] == multiset{x}[z] + multiset(a)[z];
      assert (multiset{x} + multiset(b))[z] == multiset{x}[z] + multiset(b)[z];
    }
  }

  /** `c` is `e` mapped through `g`, position by position. */
  ghost predicate MapsTo<A, B>(g: A -> B, e: seq<A>, c: seq<B>) {
    |c| == |e| && forall i | 0 <= i < |e| :: g(e[i]) == c[i]
  }

  /** Removing the same position from both keeps them in step. */
  lemma MapsToRemove<A, B>(g: A -> B, e: seq<A>, c: seq<B>, j: nat)
    requires MapsTo(g, e, c) && j < |e|
    ensures MapsTo(g, e[..j] + e[j + 1..], c[..j] + c[j + 1..])
  {
    var f, d := e[..j] + e[j + 1..], c[..j] + c[j + 1..];
    forall i | 0 <= i < |f| ensures g(f[i]) == d[i] {
      if i >= j {
        assert f[i] == e[i + 1] && d[i] == c[i + 1];
      } else {
        assert f[i] == e[i] && d[i] == c[i];
      }
    }
  }

  /** Mapping two arrangements of the same elements gives two arrangements
      of the same images. */
  lemma {:induction false} MapPermute<A, B>(g: A -> B, e1: seq<A>, c1: seq<B>, e2: seq<A>, c2: seq<B>)
    requires MapsTo(g, e1, c1) && MapsTo(g, e2, c2)
    requires multiset(e1) == multiset(e2)
    ensures multiset(c1) == multiset(c2)
    decreases |e1|
  {
    assert |e1| == |multiset(e1)| == |multiset(e2)| == |e2|;
    if |e1| > 0 {
      assert e1[0] in multiset(e2);
      var j :| 0 <= j < |e2| && e2[j] == e1[0];
      var f1, d1 := e1[..0] + e1[1..], c1[..0] + c1[1..];
      var f2, d2 := e2[..j] + e2[j + 1..], c2[..j] + c2[j + 1..];
      RemoveAt(e1, 0);
      RemoveAt(e2, j);
      MultisetCancel(e1[0], f1, f2);
      MapsToRemove(g, e1, c1, 0);
      MapsToRemove(g, e2, c2, j);
      MapPermute(g, f1, d1, f2, d2);
      assert c1[0] == g(e1[0]) == c2[j];
      RemoveAt(c1, 0);
      RemoveAt(c2, j);
    }
  }

  /** Canonicalising two arrangements of the same entries gives two
      arrangements of the same canonical entries. */
  lemma CanonEntriesPermute(e1: seq<Entry>, c1: seq<Entry>, e2: seq<Entry>, c2: seq<Entry>)
    requires |c1| == |e1| && |c2| == |e2|
    requires forall i | 0 <= i < |e1| :: CanonEntry(e1[i]) == Ok(c1[i])
    requires forall i | 0 <= i < |e2| :: CanonEntry(e2[i]) == Ok(c2[i])
    requires multiset(e1) == multiset(e2)
    ensures multiset(c1) == multiset(c2)
  {
    var g := (x: Entry) => if CanonEntry(x).Ok? then CanonEntry(x).value else x;
    MapPermute(g, e1, c1, e2, c2);
  }

  /** Two Python dicts with the same items, inserted in different orders,
      are canonicalised to the same dict, or both fail. */
  lemma CanonOrderIndependent(e1: seq<Entry>, e2: seq<Entry>)
    requires DistinctKeys(e1) && DistinctKeys(e2)
    requires multiset(e1) == multiset(e2)
    ensures Canon(e1) == Canon(e2)
  {
    assert forall x :: x in e1 <==> x in e2 by {
      forall x ensures x in e1 <==> x in e2 {
        assert x in e1 <==> x in multiset(e1);
        assert x in e2 <==> x in multiset(e2);
      }
    }
    CanonFails(e1);
    CanonFails(e2);
    if Canon(e1).Ok? {
      CanonEntriesAt(e1);
      CanonEntriesAt(e2);
      var c1, c2 := CanonEntries(e1).value, CanonEntries(e2).value;
      CanonEntriesPermute(e1, c1, e2, c2);
      CanonEntriesKeys(e1, c1);
      CanonEntriesKeys(e2, c2);
      SortSorted(c1);
      SortSorted(c2);
      SortedUnique(SortByKey(c1), SortByKey(c2));
    }
  }

  /* ------------------------------------------- equal content */

  /** Two values with the same content as far as `format_dictionary` looks:
      dicts (with distinct keys) holding the same keys, key by key values of
      the same content, in whatever insertion order; lists of the same length
      whose elements have the same content element by element; equal
      scalars. A list element that is not a dict is compared as it is, since
      `format_dictionary` does not descend into it. */
  predicate SameContent(v1: Value, v2: Value)
    decreases v1, 0
  {
    match v1
    case Dict(e1) =>
      && v2.Dict? && DistinctKeys(e1) && DistinctKeys(v2.entries) && Keys(e1) == Keys(v2.entries)
      && forall x, y | x in e1 && y in v2.entries && x.key == y.key :: SameContent(x.val, y.val)
    case List(xs) =>
      && v2.List? && |xs| == |v2.items|
      && forall i | 0 <= i < |xs| :: SameItem(xs[i], v2.items[i])
    case _ => v1 == v2
  }

  /** List elements: a dict by content, anything else as it is. */
  predicate SameItem(a: Value, b: Value)
    decreases a, 1
  {
    if a.Dict? then SameContent(a, b) else a == b
  }

  /** Two strictly sorted arrangements of the same entries are equal. */
  lemma {:induction false} SortedSetUnique(a: seq<Entry>, b: seq<Entry>)
    requires SortedByKey(a) && SortedByKey(b)
    requires forall z :: z in a <==> z in b
    ensures a == b
    decreases |a|
  {
    NonEmptyTogether(a, b);
    if |a| > 0 {
      SortedSetHead(a, b);
      TailMembers(a);
      TailMembers(b);
      assert SortedByKey(a[1..]) && SortedByKey(b[1..]);
      SortedSetUnique(a[1..], b[1..]);
      assert a == [a[0]] + a[1..] && b == [b[0]] + b[1..];
    }
  }

  /** Two strictly sorted arrangements of the same entries start alike. */
  lemma SortedSetHead(a: seq<Entry>, b: seq<Entry>)
    requires SortedByKey(a) && SortedByKey(b)
    requires forall z :: z in a <==> z in b
    requires |a| > 0 && |b| > 0
    ensures a[0] == b[0]
  {
    assert a[0] in a && b[0] in b;
    assert a[0] in b && b[0] in a;
    var j :| 0 <= j < |b| && b[j] == a[0];
    var k :| 0 <= k < |a| && a[k] == b[0];
    if j != 0 {
      if k == 0 {
        LexLessIrreflexive(KeyText(a[0]));
      } else {
        LexLessAsymmetric(KeyText(a[0]), KeyText(b[0]));
      }
      assert false;
    }
  }

  /** The tail of a strictly sorted sequence holds everything but its head. */
  lemma TailMembers(a: seq<Entry>)
    requires SortedByKey(a) && |a| > 0
    ensures forall z :: z in a[1..] <==> z in a && z != a[0]
  {
    forall z ensures z in a[1..] <==> z in a && z != a[0] {
      if z in a[1..] {
        var i :| 0 <= i < |a[1..]| && a[1..][i] == z;
        assert a[i + 1] == z;
        assert LexLess(KeyText(a[0]), KeyText(a[i + 1]));
        LexLessIrreflexive(KeyText(a[0]));
      }
      if z in a && z != a[0] {
        var m :| 0 <= m < |a| && a[m] == z;
        assert a[1..][m - 1] == z;
      }
    }
  }

  lemma NonEmptyTogether(a: seq<Entry>, b: seq<Entry>)
    requires forall z :: z in a <==> z in b
    ensures |a| > 0 <==> |b| > 0
  {
    if |b| > 0 {
      var w := b[0];
      assert w in b;
      assert w in a;
    }
    if |a| > 0 {
      var w := a[0];
      assert w in a;
      assert w in b;
    }
  }

  /** Values of the same content are canonicalised to the same value, or
      both fail. */
  lemma {:induction false} SameContentCanon(v1: Value, v2: Value)
    requires SameContent(v1, v2)
    ensures CanonValue(v1) == CanonValue(v2)
    decreases v1, 2
  {
    match v1
    case Dict(e1) =>
      SameContentCanonDict(e1, v2.entries);
    case List(xs) =>
      var ys := v2.items;
      CanonItemsAt(xs);
      CanonItemsAt(ys);
      forall i | 0 <= i < |xs| ensures CanonItem(xs[i]) == CanonItem(ys[i]) {
        SameItemCanon(xs[i], ys[i]);
      }
      CanonValueFails(v1);
      CanonValueFails(v2);
      if CanonItems(xs).Ok? {
        assert CanonItems(xs).value == CanonItems(ys).value;
      }
    case _ =>
  }

  lemma {:induction false} SameItemCanon(a: Value, b: Value)
    requires SameItem(a, b)
    ensures CanonItem(a) == CanonItem(b)
    decreases a, 3
  {
    if a.Dict? {
      SameContentCanonDict(a.entries, b.entries);
    }
  }

  /** Entries with the same key and values of the same content are
      canonicalised alike. */
  lemma {:induction false} MatchedEntriesCanon(e1: seq<Entry>, e2: seq<Entry>)
    requires SameContent(Dict(e1), Dict(e2))
    ensures forall x, y | x in e1 && y in e2 && x.key == y.key :: CanonEntry(x) == CanonEntry(y)
    decreases Dict(e1), 0
  {
    forall x, y | x in e1 && y in e2 && x.key == y.key ensures CanonEntry(x) == CanonEntry(y) {
      SameContentCanon(x.val, y.val);
    }
  }

  /** What the entries of `e` are canonicalised to, as a set. */
  ghost function CanonImages(e: seq<Entry>): set<Result<Entry>> {
    set x | x in e :: CanonEntry(x)
  }

  /** `format_dictionary` gives the same dict for two dicts of the same
      content, however each dict at every level visited was built; or both
      fail. */
  lemma {:induction false} SameContentCanonDict(e1: seq<Entry>, e2: seq<Entry>)
    requires SameContent(Dict(e1), Dict(e2))
    ensures Canon(e1) == Canon(e2)
    decreases Dict(e1), 1
  {
    MatchedEntriesCanon(e1, e2);
    MatchedImages(e1, e2);
    SameImagesCanon(e1, e2);
  }

  /** Entries matched by key and canonicalised alike give the same set of
      canonicalised entries. */
  lemma MatchedImages(e1: seq<Entry>, e2: seq<Entry>)
    requires Keys(e1) == Keys(e2)
    requires forall x, y | x in e1 && y in e2 && x.key == y.key :: CanonEntry(x) == CanonEntry(y)
    ensures CanonImages(e1) == CanonImages(e2)
  {
    forall r | r in CanonImages(e1) ensures r in CanonImages(e2) {
      var x :| x in e1 && CanonEntry(x) == r;
      assert x.key in Keys(e2);
      var y :| y in e2 && y.key == x.key;
    }
    forall r | r in CanonImages(e2) ensures r in CanonImages(e1) {
      var y :| y in e2 && CanonEntry(y) == r;
      assert y.key in Keys(e1);
      var x :| x in e1 && x.key == y.key;
    }
  }

  /** Two Python dicts whose entries are canonicalised to the same set give
      the same result. */
  lemma SameImagesCanon(e1: seq<Entry>, e2: seq<Entry>)
    requires DistinctKeys(e1) && DistinctKeys(e2)
    requires CanonImages(e1) == CanonImages(e2)
    ensures Canon(e1) == Canon(e2)
  {
    CanonOkImages(e1);
    CanonOkImages(e2);
    CanonFails(e1);
    CanonFails(e2);
    if Canon(e1).Ok? {
      var r1, r2 := Canon(e1).value, Canon(e2).value;
      CanonShape(e1, r1);
      CanonShape(e2, r2);
      CanonResultImages(e1, r1);
      CanonResultImages(e2, r2);
      SortedSetUnique(r1, r2);
    }
  }

  /** `format_dictionary` returns iff every entry's image succeeds. */
  lemma CanonOkImages(e: seq<Entry>)
    ensures Canon(e).Ok? <==> forall r | r in CanonImages(e) :: r.Ok?
  {
    CanonEntriesAt(e);
    if forall r | r in CanonImages(e) :: r.Ok? {
      forall i | 0 <= i < |e| ensures CanonEntry(e[i]).Ok? {
        assert CanonEntry(e[i]) in CanonImages(e);
      }
    }
  }

  /** The entries of the result are exactly the successful images. */
  lemma CanonResultImages(e: seq<Entry>, r: seq<Entry>)
    requires Canon(e) == Ok(r)
    ensures forall z :: z in r <==> Ok(z) in CanonImages(e)
  {
    CanonEntriesAt(e);
    var c := CanonEntries(e).value;
    SortByKeyMembers(c);
    forall z ensures z in r <==> Ok(z) in CanonImages(e) {
      if z in r {
        var i :| 0 <= i < |c| && c[i] == z;
        assert e[i] in e;
      }
      if Ok(z) in CanonImages(e) {
        var x :| x in e && CanonEntry(x) == Ok(z);
        var i :| 0 <= i < |e| && e[i] == x;
        assert c[i] == z;
      }
    }
  }

  /** A dict inside a list inside a list is not canonicalised: two dicts
      that differ only in the insertion order of such a dict (equal under
      Python's `==`) give different results. */
  lemma CanonKeepsOrderInNestedLists()
    ensures
      var a, b := Entry(Str("a"), Int(1)), Entry(Str("b"), Int(2));
      var v1, v2 := List([List([Dict([a, b])])]), List([List([Dict([b, a])])]);
      && Canon([Entry(Str("k"), v1)]) == Ok([Entry(Str("k"), v1)])
      && Canon([Entry(Str("k"), v2)]) == Ok([Entry(Str("k"), v2)])
      && v1 != v2
  {
    var a, b := Entry(Str("a"), Int(1)), Entry(Str("b"), Int(2));
    NestedListKept("k", List([Dict([a, b])]));
    NestedListKept("k", List([Dict([b, a])]));
    assert [Dict([a, b])][0] != [Dict([b, a])][0];
  }

  /** A one-entry dict whose value is a list holding one list is kept. */
  lemma NestedListKept(k: string, inner: Value)
    requires inner.List?
    ensures Canon([Entry(Str(k), List([inner]))]) == Ok([Entry(Str(k), List([inner]))])
  {
    var xs := [inner];
    assert xs[1..] == [] && [inner] + [] == xs;
    assert CanonItem(xs[0]) == Ok(inner);
    assert CanonItems(xs[1..]) == Ok([]);
    assert CanonItems(xs) == Ok(xs);
    var x := Entry(Str(k), List(xs));
    assert CanonEntry(x) == Ok(x);
    assert [x][1..] == [] && [x] + [] == [x];
    assert CanonEntries([x][1..]) == Ok([]);
    assert CanonEntries([x]) == Ok([x]);
    assert SortByKey([x]) == Insert(x, SortByKey([])) == [x];
  }

  /* --------------------------------------- format_dictionary, step by step */

  /** The number of values and entries in a value, to bound the recursion of
      `FormatDictionary`. */
  ghost function SizeValue(v: Value): (n: nat)
    ensures n >= 1
  {
    match v
    case List(xs) => 1 + SizeItems(xs)
    case Dict(e) => 1 + SizeEntries(e)
    case _ => 1
  }

  ghost function SizeItems(xs: seq<Value>): nat {
    if xs == [] then 0 else SizeValue(xs[0]) + SizeItems(xs[1..])
  }

  ghost function SizeEntries(e: seq<Entry>): nat {
    if e == [] then 0 else SizeEntry(e[0]) + SizeEntries(e[1..])
  }

  ghost function SizeEntry(x: Entry): nat {
    1 + SizeValue(x.val)
  }

  lemma {:induction false} SizeItemsAt(xs: seq<Value>, i: nat)
    requires i < |xs|
    ensures SizeValue(xs[i]) <= SizeItems(xs)
  {
    if i > 0 {
      SizeItemsAt(xs[1..], i - 1);
    }
  }

  lemma {:induction false} SizeEntriesAt(e: seq<Entry>, i: nat)
    requires i < |e|
    ensures SizeEntry(e[i]) <= SizeEntries(e)
  {
    if i > 0 {
      SizeEntriesAt(e[1..], i - 1);
    }
  }

  /** `format_dictionary(d)`: walk the items in insertion order, assert that
      each key is a string, replace a dict value by its canonical form and,
      in a list value, each dict element by its canonical form; then build
      the dict of the items sorted by key. */
  method FormatDictionary(d: seq<Entry>) returns (r: Result<seq<Entry>>)
    ensures r == Canon(d)
    decreases SizeEntries(d)
  {
    var items := d;
    var i := 0;
    while i < |items|
      invariant 0 <= i <= |items| == |d|
      invariant forall k | 0 <= k < i :: CanonEntry(d[k]) == Ok(items[k])
      invariant items[i..] == d[i..]
    {
      assert items[i] == d[i];
      SizeEntriesAt(d, i);
      var k, v := items[i].key, items[i].val;
      if !k.Str? {
        CanonEntriesFirstFailure(d, i);
        return Raise(AssertionError);
      }
      if v.List? {
        var xs := v.items;
        var j := 0;
        while j < |xs|
          invariant 0 <= j <= |xs| == |v.items|
          invariant forall m | 0 <= m < j :: CanonItem(v.items[m]) == Ok(xs[m])
          invariant xs[j..] == v.items[j..]
        {
          assert xs[j] == v.items[j] && v.items[j] in v.items;
          if xs[j].Dict? {
            SizeItemsAt(v.items, j);
            var sub := FormatDictionary(xs[j].entries);
            if sub.Raise? {
              CanonItemsFirstFailure(v.items, j);
              CanonEntriesFirstFailure(d, i);
              return Raise(sub.exc);
            }
            xs := xs[j := Dict(sub.value)];
          }
          j := j + 1;
        }
        CanonItemsAt(v.items);
        assert CanonItems(v.items).value == xs;
        assert CanonEntry(d[i]) == Ok(Entry(k, List(xs)));
        items := items[i := Entry(k, List(xs))];
      } else if v.Dict? {
        var sub := FormatDictionary(v.entries);
        if sub.Raise? {
          CanonEntriesFirstFailure(d, i);
          return Raise(sub.exc);
        }
        assert CanonEntry(d[i]) == Ok(Entry(k, Dict(sub.value)));
        items := items[i := Entry(k, Dict(sub.value))];
      } else {
        assert CanonEntry(d[i]) == Ok(items[i]);
      }
      i := i + 1;
    }
    CanonEntriesAt(d);
    assert CanonEntries(d).value == items;
    return Ok(SortByKey(items));
  }

  /* ------------------------------------------------------ field checks */

  predicate IsWordChar(c: char) {
    IsAsciiLetter(c) || IsAsciiDigit(c) || c == '_'
  }

  /** An ASCII letter followed by ASCII letters, digits and underscores. */
  predicate IsIdentifier(s: string) {
    |s| > 0 && IsAsciiLetter(s[0]) && forall i | 1 <= i < |s| :: IsWordChar(s[i])
  }

  /** `re.match(r'^[a-zA-Z][a-zA-Z0-9_]*$', s)` from position `i` on, once
      the first letter has matched: the greedy run of word characters, then
      `$`, which holds at the end of the text and also just before a newline
      that ends it. */
  function MatchWordRun(s: string, i: nat): (r: bool)
    requires 1 <= i <= |s|
    ensures r <==>
      || (forall k | i <= k < |s| :: IsWordChar(s[k]))
      || (s[|s| - 1] == '\n' && forall k | i <= k < |s| - 1 :: IsWordChar(s[k]))
    decreases |s| - i
  {
    if i == |s| then true
    else if IsWordChar(s[i]) then MatchWordRun(s, i + 1)
    else s[i] == '\n' && i + 1 == |s|
  }

  /** `identifier_is_formatted(s)`: the pattern matches a string; anything
      else makes `re.match` raise TypeError, which is caught. Because `$`
      also matches before a final newline, `"transfer\n"` is accepted. */
  function IdentifierIsFormatted(v: Value): (r: bool)
    ensures r <==> v.Str? && (IsIdentifier(v.s) || (|v.s| > 1 && v.s[|v.s| - 1] == '\n' && IsIdentifier(v.s[..|v.s| - 1])))
  {
    match v
    case Str(s) => |s| > 0 && IsAsciiLetter(s[0]) && MatchWordRun(s, 1)
    case _ => false
  }

  lemma IdentifierAcceptsFinalNewline()
    ensures IdentifierIsFormatted(Str("transfer\n"))
    ensures !IdentifierIsFormatted(Str("transfer\n\n")) && !IdentifierIsFormatted(Str("trans\nfer"))
  {
    assert IsIdentifier("transfer");
    assert "transfer\n"[..8] == "transfer";
    assert !IsWordChar("transfer\n\n"[8]);
    assert !IsWordChar("trans\nfer"[5]);
  }

  /** `number_is_formatted(i)`: an `int` (a `bool` is not one, since
      `type(i) is int` is exact) that is not negative. */
  function NumberIsFormatted(v: Value): (r: bool)
    ensures r <==> v.Int? && v.i >= 0
    ensures v.Bool? ==> !r
  {
    if !v.Int? then false
    else if v.i < 0 then false
    else true
  }

  /** `key_is_formatted(s)`: `int(s, 16)` must succeed (a non-string raises
      TypeError, a bad numeral ValueError; both give false), then the text
      must be 64 characters long. */
  function KeyIsFormatted(v: Value): (r: bool)
    ensures r <==> v.Str? && ParsesAsHexInt(v.s) && |v.s| == 64
  {
    match v
    case Str(s) =>
      if !ParsesAsHexInt(s) then false
      else if |s| != 64 then false
      else true
    case _ => false
  }

  /** Every 64-digit hex string is a formatted key; one digit fewer or more
      is not. */
  lemma KeyIsFormattedPlainHex(s: string)
    requires IsPlainHex(s) && |s| == 64
    ensures KeyIsFormatted(Str(s))
    ensures !KeyIsFormatted(Str(s[1..])) && !KeyIsFormatted(Str(s + "0"))
  {
    PlainHexParses(s);
  }

  /** A `0x`-prefixed text with 62 digits is a formatted key too: `int(s, 16)`
      accepts the prefix and the length counts it. */
  lemma KeyIsFormattedPrefixed(s: string)
    requires IsPlainHex(s) && |s| == 62
    ensures KeyIsFormatted(Str("0x" + s))
  {
    PrefixedHexParses(s);
  }

  /** `cid_id_formatted(s)`: a string. */
  function CidIdFormatted(v: Value): bool {
    v.Str?
  }

  /** What `kwargs_are_formatted(k)` returns or raises: a non-dict has no
      `keys()` and raises AttributeError; a dict passes iff every key is
      a formatted identifier (so the empty dict passes). */
  function KwargsFormatted(k: Value): Result<bool> {
    if !k.Dict? then Raise(AttributeError)
    else Ok(forall x | x in k.entries :: IdentifierIsFormatted(x.key))
  }

  /** `kwargs_are_formatted(k)`: walk the keys in insertion order and return
      false at the first one that is not a formatted identifier. */
  method KwargsAreFormatted(k: Value) returns (r: Result<bool>)
    ensures r == KwargsFormatted(k)
  {
    if !k.Dict? {
      return Raise(AttributeError);
    }
    var e := k.entries;
    var i := 0;
    while i < |e|
      invariant 0 <= i <= |e|
      invariant forall j | 0 <= j < i :: IdentifierIsFormatted(e[j].key)
    {
      if !IdentifierIsFormatted(e[i].key) {
        return Ok(false);
      }
      i := i + 1;
    }
    return Ok(true);
  }

  /** `dict_has_keys(d, keys)`: the symmetric difference of the two key sets
      is empty. */
  function DictHasKeys(d: seq<Entry>, keys: set<Value>): (r: bool)
    ensures r <==> Keys(d) == keys
  {
    var keySet := Keys(d);
    |(keys - keySet) + (keySet - keys)| == 0
  }

  /* ------------------------------------------------------------ rules */

  /** The field checks a rule may name. */
  datatype Check = KeyFormat | NumberFormat | IdentifierFormat | KwargsFormat | CidFormat

  /** A rule of `recurse_rules`: a check (a callable), or a dict from field
      names to sub-rules, kept in insertion order. */
  datatype Rule = Leaf(check: Check) | Fields(fields: seq<Field>)

  datatype Field = Field(key: string, rule: Rule)

  /** Calling the check on a value. */
  function Apply(c: Check, v: Value): Result<bool> {
    match c
    case KeyFormat => Ok(KeyIsFormatted(v))
    case NumberFormat => Ok(NumberIsFormatted(v))
    case IdentifierFormat => Ok(IdentifierIsFormatted(v))
    case KwargsFormat => KwargsFormatted(v)
    case CidFormat => Ok(CidIdFormatted(v))
  }

  method RunCheck(c: Check, v: Value) returns (r: Result<bool>)
    ensures r == Apply(c, v)
  {
    match c
    case KeyFormat => r := Ok(KeyIsFormatted(v));
    case NumberFormat => r := Ok(NumberIsFormatted(v));
    case IdentifierFormat => r := Ok(IdentifierIsFormatted(v));
    case KwargsFormat => r := KwargsAreFormatted(v);
    case CidFormat => r := Ok(CidIdFormatted(v));
  }

  /** The value of the first entry with key `k`. */
  function Find(e: seq<Entry>, k: Value): (r: Option<Value>)
    ensures r.Some? <==> k in Keys(e)
    ensures r.Some? ==> Entry(k, r.value) in e
  {
    if e == [] then None
    else if e[0].key == k then Some(e[0].val)
    else
      var r := Find(e[1..], k);
      assert Keys(e) == {e[0].key} + Keys(e[1..]) by {
        assert forall x | x in e :: x == e[0] || x in e[1..];
      }
      r
  }

  /** The value under the string key `k`, if any. */
  function Get(e: seq<Entry>, k: string): Value {
    match Find(e, Str(k))
    case Some(v) => v
    case None => Null
  }

  /** `d[key]`: a dict without the key raises KeyError; a value that is not a
      dict cannot be subscripted with a string and raises TypeError. */
  function Lookup(d: Value, key: string): Result<Value> {
    if !d.Dict? then Raise(TypeError)
    else match Find(d.entries, Str(key))
      case None => Raise(KeyError)
      case Some(v) => Ok(v)
  }

  /** What `recurse_rules(d, rule)` returns or raises. */
  function RulesHold(d: Value, rule: Rule): Result<bool>
    decreases rule, 0
  {
    match rule
    case Leaf(c) => Apply(c, d)
    case Fields(fs) => FieldsHold(d, fs)
  }

  /** The fields in order; the first that fails makes the result false. */
  function FieldsHold(d: Value, fs: seq<Field>): Result<bool>
    decreases fs
  {
    if fs == [] then Ok(true)
    else
      var ok :- FieldHolds(d, fs[0]);
      if !ok then Ok(false) else FieldsHold(d, fs[1..])
  }

  /** One field: a dict value is checked against the sub-rule as a whole, a
      list value element by element, any other value by the sub-rule's
      check; a dict sub-rule on such a value is skipped. */
  function FieldHolds(d: Value, f: Field): Result<bool>
    decreases f
  {
    var arg :- Lookup(d, f.key);
    if arg.Dict? then RulesHold(arg, f.rule)
    else if arg.List? then AllHold(arg.items, f.rule)
    else if f.rule.Leaf? then Apply(f.rule.check, arg)
    else Ok(true)
  }

  function AllHold(xs: seq<Value>, rule: Rule): Result<bool>
    decreases rule, 1, |xs|
  {
    if xs == [] then Ok(true)
    else
      var ok :- RulesHold(xs[0], rule);
      if !ok then Ok(false) else AllHold(xs[1..], rule)
  }

  /** `recurse_rules(d, rule)`: a callable rule is called on `d`; otherwise
      each field is looked up and checked in turn, returning false at the
      first failure. */
  method RecurseRules(d: Value, rule: Rule) returns (r: Result<bool>)
    ensures r == RulesHold(d, rule)
    decreases rule
  {
    if rule.Leaf? {
      r := RunCheck(rule.check, d);
      return;
    }
    var fs := rule.fields;
    var i := 0;
    while i < |fs|
      invariant 0 <= i <= |fs|
      invariant FieldsHold(d, fs) == FieldsHold(d, fs[i..])
    {
      var f := fs[i];
      assert fs[i..][0] == f && fs[i..][1..] == fs[i + 1..];
      assert f in fs;
      var arg :- Lookup(d, f.key);
      if arg.Dict? {
        var ok :- RecurseRules(arg, f.rule);
        if !ok {
          return Ok(false);
        }
      } else if arg.List? {
        var xs := arg.items;
        var j := 0;
        while j < |xs|
          invariant 0 <= j <= |xs|
          invariant AllHold(xs, f.rule) == AllHold(xs[j..], f.rule)
        {
          assert xs[j..][0] == xs[j] && xs[j..][1..] == xs[j + 1..];
          var ok :- RecurseRules(xs[j], f.rule);
          if !ok {
            return Ok(false);
          }
          j := j + 1;
        }
      } else if f.rule.Leaf? {
        var ok :- RunCheck(f.rule.check, arg);
        if !ok {
          return Ok(false);
        }
      }
      i := i + 1;
    }
    return Ok(true);
  }

  /* -------------------------------------------------- payload check */

  /** `TRANSACTION_PAYLOAD_RULES`, in its insertion order. */
  const TransactionPayloadRules: Rule := Fields([
    Field("sender", Leaf(KeyFormat)),
    Field("nonce", Leaf(NumberFormat)),
    Field("stamps_supplied", Leaf(NumberFormat)),
    Field("contract", Leaf(IdentifierFormat)),
    Field("function", Leaf(IdentifierFormat)),
    Field("kwargs", Leaf(KwargsFormat)),
    Field("chain_id", Leaf(CidFormat))
  ])

  /** `set(rule.keys())` */
  function RuleKeys(fs: seq<Field>): set<Value> {
    set f | f in fs :: Str(f.key)
  }

  /** The seven keys a payload must have, no more and no fewer. */
  lemma PayloadKeys()
    ensures RuleKeys(TransactionPayloadRules.fields) == {
      Str("sender"), Str("nonce"), Str("stamps_supplied"), Str("contract"),
      Str("function"), Str("kwargs"), Str("chain_id")}
  {
    var fs := TransactionPayloadRules.fields;
    assert fs[0] in fs && fs[1] in fs && fs[2] in fs && fs[3] in fs;
    assert fs[4] in fs && fs[5] in fs && fs[6] in fs;
  }

  /** `check_format_of_payload(d)`: false unless the payload has exactly the
      keys of the rules, otherwise what `recurse_rules` gives. */
  method CheckFormatOfPayload(d: seq<Entry>) returns (r: Result<bool>)
    ensures Keys(d) != RuleKeys(TransactionPayloadRules.fields) ==> r == Ok(false)
    ensures Keys(d) == RuleKeys(TransactionPayloadRules.fields) ==> r == RulesHold(Dict(d), TransactionPayloadRules)
    ensures r == Ok(true) <==> Keys(d) == RuleKeys(TransactionPayloadRules.fields) && PayloadFieldsPass(d)
    ensures r.Raise? ==> r.exc == AttributeError
  {
    var rule := TransactionPayloadRules;
    var expectedKeys := RuleKeys(rule.fields);
    if !DictHasKeys(d, expectedKeys) {
      return Ok(false);
    }
    r := RecurseRules(Dict(d), rule);
    PayloadVerdict(d);
  }

  /** The check accepts the value. */
  predicate Accepts(c: Check, v: Value) {
    Apply(c, v) == Ok(true)
  }

  /** A field's value meets a check rule: every element of a list value
      does (so an empty list does), any other value does itself. */
  predicate Passes(c: Check, v: Value) {
    if v.List? then forall a | a in v.items :: Accepts(c, a) else Accepts(c, v)
  }

  /** Checking the field's value cannot raise: the only check that raises
      is `kwargs_are_formatted`, on a value that is not a dict. */
  predicate CannotRaise(c: Check, v: Value) {
    if v.List? then forall a | a in v.items :: Apply(c, a).Ok? else Apply(c, v).Ok?
  }

  lemma {:induction false} AllHoldLeaf(xs: seq<Value>, c: Check)
    ensures AllHold(xs, Leaf(c)).Raise? ==> AllHold(xs, Leaf(c)).exc == AttributeError
    ensures (forall a | a in xs :: Apply(c, a).Ok?) ==> AllHold(xs, Leaf(c)) == Ok(forall a | a in xs :: Accepts(c, a))
    ensures AllHold(xs, Leaf(c)) == Ok(true) <==> forall a | a in xs :: Accepts(c, a)
  {
    if xs != [] {
      AllHoldLeaf(xs[1..], c);
      assert xs == [xs[0]] + xs[1..];
      var head := Apply(c, xs[0]);
      assert RulesHold(xs[0], Leaf(c)) == head;
      assert head.Raise? ==> head.exc == AttributeError;
      if forall a | a in xs :: Apply(c, a).Ok? {
        assert xs[0] in xs;
        assert forall a | a in xs[1..] :: a in xs;
        assert (forall a | a in xs :: Accepts(c, a)) <==> Accepts(c, xs[0]) && forall a | a in xs[1..] :: Accepts(c, a);
      }
    }
  }

  /** A flat rule (every sub-rule a check) on a dict holding every field:
      only AttributeError can be raised, and when no check raises the result
      says whether every field passes. */
  lemma {:induction false} FlatFieldsHold(d: seq<Entry>, fs: seq<Field>)
    requires forall f | f in fs :: f.rule.Leaf? && Str(f.key) in Keys(d)
    ensures FieldsHold(Dict(d), fs).Raise? ==> FieldsHold(Dict(d), fs).exc == AttributeError
    ensures (forall f | f in fs :: CannotRaise(f.rule.check, Get(d, f.key))) ==>
      FieldsHold(Dict(d), fs) == Ok(forall f | f in fs :: Passes(f.rule.check, Get(d, f.key)))
    ensures FieldsHold(Dict(d), fs) == Ok(true) <==> forall f | f in fs :: Passes(f.rule.check, Get(d, f.key))
  {
    if fs != [] {
      var f := fs[0];
      assert f in fs;
      var v := Get(d, f.key);
      assert FieldHolds(Dict(d), f) == if v.List? then AllHold(v.items, f.rule) else Apply(f.rule.check, v);
      if v.List? {
        AllHoldLeaf(v.items, f.rule.check);
      }
      FlatFieldsHold(d, fs[1..]);
      assert forall g | g in fs :: g == f || g in fs[1..];
    }
  }

  /** `check_format_of_payload`: with the right keys, the verdict is whether
      every field passes its rule, unless `kwargs` holds something other
      than a dict (or a list with such an element), which raises
      AttributeError; nothing else is ever raised. */
  lemma PayloadVerdict(d: seq<Entry>)
    requires Keys(d) == RuleKeys(TransactionPayloadRules.fields)
    ensures
      && (RulesHold(Dict(d), TransactionPayloadRules).Raise? ==>
            && RulesHold(Dict(d), TransactionPayloadRules).exc == AttributeError
            && !CannotRaise(KwargsFormat, Get(d, "kwargs")))
      && (CannotRaise(KwargsFormat, Get(d, "kwargs")) ==>
            RulesHold(Dict(d), TransactionPayloadRules) == Ok(PayloadFieldsPass(d)))
    ensures RulesHold(Dict(d), TransactionPayloadRules) == Ok(true) <==> PayloadFieldsPass(d)
  {
    var fs := TransactionPayloadRules.fields;
    PayloadRuleFacts();
    forall f | f in fs ensures Str(f.key) in Keys(d) {
      assert Str(f.key) in RuleKeys(fs);
    }
    FlatRuleVerdict(d, fs, "kwargs");
    FlatFieldsHold(d, fs);
    assert RulesHold(Dict(d), TransactionPayloadRules) == FieldsHold(Dict(d), fs);
    PayloadFieldsPassIff(d);
  }

  lemma PayloadFieldsPassIff(d: seq<Entry>)
    ensures (forall f | f in TransactionPayloadRules.fields :: Passes(f.rule.check, Get(d, f.key))) <==> PayloadFieldsPass(d)
  {
    AllFieldsPassEach(d);
    EachFieldPassesAll(d);
  }

  lemma AllFieldsPassEach(d: seq<Entry>)
    ensures (forall f | f in TransactionPayloadRules.fields :: Passes(f.rule.check, Get(d, f.key))) ==> PayloadFieldsPass(d)
  {
    var fs := TransactionPayloadRules.fields;
    assert fs[0] in fs && fs[1] in fs && fs[2] in fs && fs[3] in fs;
    assert fs[4] in fs && fs[5] in fs && fs[6] in fs;
  }

  lemma EachFieldPassesAll(d: seq<Entry>)
    ensures PayloadFieldsPass(d) ==> forall f | f in TransactionPayloadRules.fields :: Passes(f.rule.check, Get(d, f.key))
  {
    var fs := TransactionPayloadRules.fields;
    if PayloadFieldsPass(d) {
      forall f | f in fs ensures Passes(f.rule.check, Get(d, f.key)) {
        var i :| 0 <= i < |fs| && fs[i] == f;
      }
    }
  }

  /** The seven field rules, one by one. */
  predicate PayloadFieldsPass(d: seq<Entry>) {
    && Passes(KeyFormat, Get(d, "sender"))
    && Passes(NumberFormat, Get(d, "nonce"))
    && Passes(NumberFormat, Get(d, "stamps_supplied"))
    && Passes(IdentifierFormat, Get(d, "contract"))
    && Passes(IdentifierFormat, Get(d, "function"))
    && Passes(KwargsFormat, Get(d, "kwargs"))
    && Passes(CidFormat, Get(d, "chain_id"))
  }

  /** A flat rule whose only `kwargs_are_formatted` field is `k`. */
  lemma FlatRuleVerdict(d: seq<Entry>, fs: seq<Field>, k: string)
    requires forall f | f in fs :: f.rule.Leaf? && Str(f.key) in Keys(d)
    requires forall f | f in fs :: f.rule.check == KwargsFormat ==> f.key == k
    requires Str(k) in Keys(d)
    ensures FieldsHold(Dict(d), fs).Raise? ==>
      && FieldsHold(Dict(d), fs).exc == AttributeError
      && !CannotRaise(KwargsFormat, Get(d, k))
    ensures CannotRaise(KwargsFormat, Get(d, k)) ==>
      FieldsHold(Dict(d), fs) == Ok(forall f | f in fs :: Passes(f.rule.check, Get(d, f.key)))
  {
    FlatFieldsHold(d, fs);
    if CannotRaise(KwargsFormat, Get(d, k)) {
      forall f | f in fs ensures CannotRaise(f.rule.check, Get(d, f.key)) {
        OnlyKwargsRaises(f.rule.check, Get(d, f.key));
      }
    }
  }

  /** Every payload rule is a check, `kwargs` is the only field checked by
      `kwargs_are_formatted`, and it is one of the rule keys. */
  lemma PayloadRuleFacts()
    ensures forall f | f in TransactionPayloadRules.fields ::
      f.rule.Leaf? && (f.rule.check == KwargsFormat ==> f.key == "kwargs")
    ensures Str("kwargs") in RuleKeys(TransactionPayloadRules.fields)
  {
    assert TransactionPayloadRules.fields[5] in TransactionPayloadRules.fields;
  }

  lemma OnlyKwargsRaises(c: Check, v: Value)
    ensures c != KwargsFormat ==> CannotRaise(c, v)
  {
  }
}
