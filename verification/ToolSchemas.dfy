/**
  Canonical tool schemas: the form whose hash is the prompt-cache key.  Tools are sorted by
  name and every `required` list of strings is sorted, at any depth.  Dictionaries are maps,
  since their order is lost when the form is written out.
 */
module ToolSchemas {
  datatype Json =
    | Null
    | Bool(value: bool)
    | Number(literal: string)
    | Str(text: string)
    | Arr(items: seq<Json>)
    | Obj(fields: map<string, Json>)

  // ---------------------------------------------------------------------------------
  // Sorting
  // ---------------------------------------------------------------------------------

  predicate Leq(a: string, b: string) {
    a == "" || (b != "" && (a[0] < b[0] || (a[0] == b[0] && Leq(a[1..], b[1..]))))
  }

  lemma {:induction false} LeqTotal(a: string, b: string)
    ensures Leq(a, b) || Leq(b, a)
    ensures Leq(a, b) && Leq(b, a) ==> a == b
    decreases |a|
  {
    if a != "" && b != "" && a[0] == b[0] {
      LeqTotal(a[1..], b[1..]);
      assert a == [a[0]] + a[1..] && b == [b[0]] + b[1..];
    }
  }

  lemma {:induction false} LeqTransitive(a: string, b: string, c: string)
    requires Leq(a, b) && Leq(b, c)
    ensures Leq(a, c)
    decreases |a|
  {
    if a != "" && a[0] == b[0] && b[0] == c[0] {
      LeqTransitive(a[1..], b[1..], c[1..]);
    }
  }

  type Key<!T> = T -> string

  predicate SortedBy<T>(s: seq<T>, key: Key<T>) {
    forall i, j :: 0 <= i < j < |s| ==> Leq(key(s[i]), key(s[j]))
  }

  function Insert<T>(x: T, s: seq<T>, key: Key<T>): seq<T> {
    if s == [] then [x]
    else if Leq(key(x), key(s[0])) then [x] + s
    else [s[0]] + Insert(x, s[1..], key)
  }

  function SortBy<T>(s: seq<T>, key: Key<T>): seq<T> {
    if s == [] then [] else Insert(s[0], SortBy(s[1..], key), key)
  }

  predicate Below<T>(x: T, s: seq<T>, key: Key<T>) {
    forall j :: 0 <= j < |s| ==> Leq(key(x), key(s[j]))
  }

  lemma BelowFirst<T>(x: T, s: seq<T>, key: Key<T>)
    requires SortedBy(s, key) && s != [] && Leq(key(x), key(s[0]))
    ensures Below(x, s, key)
  {
    hide Leq;
    forall j | 0 <= j < |s| ensures Leq(key(x), key(s[j])) {
      if j > 0 {
        LeqTransitive(key(x), key(s[0]), key(s[j]));
      }
    }
  }

  lemma SortedFront<T>(x: T, s: seq<T>, key: Key<T>)
    requires SortedBy(s, key) && Below(x, s, key)
    ensures SortedBy([x] + s, key)
  {
    hide Leq;
    var all := [x] + s;
    forall i, j | 0 <= i < j < |all| ensures Leq(key(all[i]), key(all[j])) {
      assert all[j] == s[j - 1];
    }
  }

  lemma BelowInsert<T>(y: T, x: T, s: seq<T>, rest: seq<T>, key: Key<T>)
    requires Below(y, s, key) && Leq(key(y), key(x)) && multiset(rest) == multiset(s) + multiset{x}
    ensures Below(y, rest, key)
  {
    hide Leq;
    forall j | 0 <= j < |rest| ensures Leq(key(y), key(rest[j])) {
      assert rest[j] in multiset(rest);
      assert rest[j] == x || rest[j] in multiset(s);
    }
  }

  lemma {:induction false} InsertSorts<T>(x: T, s: seq<T>, key: Key<T>)
    requires SortedBy(s, key)
    ensures SortedBy(Insert(x, s, key), key) && multiset(Insert(x, s, key)) == multiset(s) + multiset{x}
    decreases |s|
  {
    hide Leq, Below;
    if s == [] {
    } else if Leq(key(x), key(s[0])) {
      BelowFirst(x, s, key);
      SortedFront(x, s, key);
    } else {
      var rest := Insert(x, s[1..], key);
      assert s == [s[0]] + s[1..];
      InsertSorts(x, s[1..], key);
      LeqTotal(key(x), key(s[0]));
      HeadBelow(s, key);
      BelowInsert(s[0], x, s[1..], rest, key);
      SortedFront(s[0], rest, key);
    }
  }

  lemma HeadBelow<T>(s: seq<T>, key: Key<T>)
    requires SortedBy(s, key) && s != []
    ensures Below(s[0], s[1..], key) && SortedBy(s[1..], key)
  {
  }

  /** Sorting sorts, and loses nothing. */
  lemma {:induction false} SortSorts<T>(s: seq<T>, key: Key<T>)
    ensures SortedBy(SortBy(s, key), key) && multiset(SortBy(s, key)) == multiset(s)
    decreases |s|
  {
    if s != [] {
      assert s == [s[0]] + s[1..];
      SortSorts(s[1..], key);
      InsertSorts(s[0], SortBy(s[1..], key), key);
    }
  }

  predicate Injective<T(==)>(s: seq<T>, key: Key<T>) {
    forall i, j :: 0 <= i < |s| && 0 <= j < |s| && key(s[i]) == key(s[j]) ==> s[i] == s[j]
  }

  /** A sorted order is unique when equal keys mean equal elements. */
  lemma {:induction false} SortedUnique<T>(a: seq<T>, b: seq<T>, key: Key<T>)
    requires SortedBy(a, key) && SortedBy(b, key) && multiset(a) == multiset(b) && Injective(a, key)
    ensures a == b
    decreases |a|
  {
    assert |multiset(a)| == |a| && |multiset(b)| == |b|;
    if a != [] {
      SameHead(a, b, key);
      hide SortedBy;
      assert a == [a[0]] + a[1..] && b == [b[0]] + b[1..];
      assert multiset(a[1..]) == multiset(a) - multiset{a[0]};
      assert multiset(b[1..]) == multiset(b) - multiset{b[0]};
      HeadBelow(a, key);
      HeadBelow(b, key);
      SortedUnique(a[1..], b[1..], key);
    }
  }

  lemma SameHead<T>(a: seq<T>, b: seq<T>, key: Key<T>)
    requires SortedBy(a, key) && SortedBy(b, key) && multiset(a) == multiset(b) && Injective(a, key)
    requires a != [] && b != []
    ensures a[0] == b[0]
  {
    hide Leq;
    assert b[0] in multiset(a) && a[0] in multiset(b);
    var i :| 0 <= i < |a| && a[i] == b[0];
    var j :| 0 <= j < |b| && b[j] == a[0];
    LeqTotal(key(a[0]), key(b[0]));
    LeqTotal(key(a[0]), key(a[0]));
  }

  // ---------------------------------------------------------------------------------
  // The canonical form
  // ---------------------------------------------------------------------------------

  predicate AllStrings(items: seq<Json>) {
    forall i :: 0 <= i < |items| ==> items[i].Str?
  }

  function TextOf(value: Json): string {
    if value.Str? then value.text else ""
  }

  /** `_canonical_schema_value`; `parent` is the key the value stands under, through lists. */
  function Canonical(value: Json, parent: string): Json
    decreases value
  {
    match value
    case Obj(fields) => Obj(map key | key in fields :: Canonical(fields[key], key))
    case Arr(items) =>
      var canonical := CanonicalItems(items, parent);
      Arr(if parent == "required" && AllStrings(canonical) then SortBy(canonical, TextOf) else canonical)
    case _ => value
  }

  function CanonicalItems(items: seq<Json>, parent: string): (canonical: seq<Json>)
    ensures |canonical| == |items|
    decreases items
  {
    seq(|items|, i requires 0 <= i < |items| => Canonical(items[i], parent))
  }

  /** The tool's name, "" where there is none. */
  function NameOf(schema: Json): string {
    if schema.Obj? && "function" in schema.fields && schema.fields["function"].Obj?
       && "name" in schema.fields["function"].fields
    then TextOf(schema.fields["function"].fields["name"])
    else ""
  }

  /** `_canonical_tool_schemas` */
  function CanonicalTools(schemas: seq<Json>): seq<Json> {
    SortBy(CanonicalItems(schemas, ""), NameOf)
  }

  // ---------------------------------------------------------------------------------
  // What the form identifies
  // ---------------------------------------------------------------------------------

  /** The same, but for the order of all-string `required` lists. */
  predicate Equivalent(a: Json, b: Json, parent: string)
    decreases a
  {
    if a.Obj? && b.Obj? then
      && a.fields.Keys == b.fields.Keys
      && forall key :: key in a.fields ==> Equivalent(a.fields[key], b.fields[key], key)
    else if a.Arr? && b.Arr? then
      if parent == "required" && AllStrings(a.items) && AllStrings(b.items) then
        multiset(a.items) == multiset(b.items)
      else
        && |a.items| == |b.items|
        && forall i :: 0 <= i < |a.items| ==> Equivalent(a.items[i], b.items[i], parent)
    else a == b
  }

  lemma StringsStay(items: seq<Json>, parent: string)
    ensures AllStrings(CanonicalItems(items, parent)) <==> AllStrings(items)
    ensures AllStrings(items) ==> CanonicalItems(items, parent) == items
  {
    forall i | 0 <= i < |items| ensures Canonical(items[i], parent).Str? <==> items[i].Str? {
    }
    var canonical := CanonicalItems(items, parent);
    if AllStrings(canonical) {
      forall i | 0 <= i < |items| ensures items[i].Str? {
        assert canonical[i].Str?;
      }
    }
  }

  lemma SortedStrings(a: seq<Json>, b: seq<Json>)
    requires AllStrings(a) && AllStrings(b)
    ensures SortBy(a, TextOf) == SortBy(b, TextOf) <==> multiset(a) == multiset(b)
    ensures AllStrings(SortBy(a, TextOf))
  {
    SortSorts(a, TextOf);
    SortSorts(b, TextOf);
    var sorted := SortBy(a, TextOf);
    forall i | 0 <= i < |sorted| ensures sorted[i].Str? {
      assert sorted[i] in multiset(sorted);
      assert sorted[i] in multiset(a);
    }
    if multiset(a) == multiset(b) {
      SortedUnique(sorted, SortBy(b, TextOf), TextOf);
    }
  }

  /** Two values have the same canonical form exactly when they are equivalent. */
  lemma {:induction false} CanonicalExactly(a: Json, b: Json, parent: string)
    ensures Canonical(a, parent) == Canonical(b, parent) <==> Equivalent(a, b, parent)
    decreases a
  {
    if a.Obj? && b.Obj? {
      ObjectsExactly(a, b, parent);
    } else if a.Arr? && b.Arr? {
      ArraysExactly(a, b, parent);
    }
  }

  lemma {:induction false} ObjectsExactly(a: Json, b: Json, parent: string)
    requires a.Obj? && b.Obj?
    ensures Canonical(a, parent) == Canonical(b, parent) <==> Equivalent(a, b, parent)
    decreases a, 0
  {
    var x, y := Canonical(a, parent).fields, Canonical(b, parent).fields;
    assert x.Keys == a.fields.Keys && y.Keys == b.fields.Keys;
    forall key | key in a.fields && key in b.fields
      ensures x[key] == y[key] <==> Equivalent(a.fields[key], b.fields[key], key)
    {
      CanonicalExactly(a.fields[key], b.fields[key], key);
    }
  }

  lemma {:induction false} ArraysExactly(a: Json, b: Json, parent: string)
    requires a.Arr? && b.Arr?
    ensures Canonical(a, parent) == Canonical(b, parent) <==> Equivalent(a, b, parent)
    decreases a, 0
  {
    var x, y := CanonicalItems(a.items, parent), CanonicalItems(b.items, parent);
    if |a.items| == |b.items| {
      forall i | 0 <= i < |a.items| ensures x[i] == y[i] <==> Equivalent(a.items[i], b.items[i], parent) {
        CanonicalExactly(a.items[i], b.items[i], parent);
      }
    }
    if parent == "required" && (AllStrings(a.items) || AllStrings(b.items)) {
      RequiredExactly(a, b, x, y, parent);
    } else {
      StringsStay(a.items, parent);
      StringsStay(b.items, parent);
      assert x == y <==> |x| == |y| && forall i :: 0 <= i < |x| ==> x[i] == y[i];
    }
  }

  /** Where one of two `required` lists holds strings only. */
  lemma RequiredExactly(a: Json, b: Json, x: seq<Json>, y: seq<Json>, parent: string)
    requires a.Arr? && b.Arr? && parent == "required" && (AllStrings(a.items) || AllStrings(b.items))
    requires x == CanonicalItems(a.items, parent) && y == CanonicalItems(b.items, parent)
    ensures Canonical(a, parent) == Canonical(b, parent) <==> Equivalent(a, b, parent)
  {
    StringsStay(a.items, parent);
    StringsStay(b.items, parent);
    if AllStrings(a.items) && AllStrings(b.items) {
      SortedStrings(a.items, b.items);
    } else if AllStrings(a.items) {
      SortedStrings(a.items, a.items);
      OnlyOneStrings(a.items, b.items, y, parent);
    } else {
      SortedStrings(b.items, b.items);
      OnlyOneStrings(b.items, a.items, x, parent);
    }
  }

  lemma OnlyOneStrings(strings: seq<Json>, others: seq<Json>, canonical: seq<Json>, parent: string)
    requires AllStrings(strings) && !AllStrings(others) && canonical == CanonicalItems(others, parent)
    requires !AllStrings(canonical) && AllStrings(SortBy(strings, TextOf))
    ensures SortBy(strings, TextOf) != canonical
    ensures |strings| == |others| ==> exists i :: 0 <= i < |others| && strings[i].Str? && !others[i].Str?
  {
    var i :| 0 <= i < |others| && !others[i].Str?;
    assert |strings| == |others| ==> strings[i].Str?;
  }

  lemma {:induction false} CanonicalIsEquivalent(a: Json, parent: string)
    ensures Equivalent(Canonical(a, parent), a, parent)
    decreases a
  {
    match a
    case Obj(fields) =>
      forall key | key in fields ensures Equivalent(Canonical(fields[key], key), fields[key], key) {
        CanonicalIsEquivalent(fields[key], key);
      }
    case Arr(items) =>
      forall i | 0 <= i < |items| ensures Equivalent(CanonicalItems(items, parent)[i], items[i], parent) {
        CanonicalIsEquivalent(items[i], parent);
      }
      StringsStay(items, parent);
      if parent == "required" && AllStrings(items) {
        SortedStrings(items, items);
        SortSorts(items, TextOf);
      }
    case _ =>
  }

  /** The form is a normal form. */
  lemma CanonicalIdempotent(a: Json, parent: string)
    ensures Canonical(Canonical(a, parent), parent) == Canonical(a, parent)
  {
    CanonicalIsEquivalent(a, parent);
    CanonicalExactly(Canonical(a, parent), a, parent);
  }

  // ---------------------------------------------------------------------------------
  // Tool lists
  // ---------------------------------------------------------------------------------

  predicate DistinctNames(schemas: seq<Json>) {
    forall i, j :: 0 <= i < j < |schemas| ==> NameOf(schemas[i]) != NameOf(schemas[j])
  }

  predicate HasEquivalent(schema: Json, schemas: seq<Json>) {
    exists j :: 0 <= j < |schemas| && Equivalent(schema, schemas[j], "")
  }

  /** Each tool of one list has an equivalent tool in the other, and conversely. */
  predicate SameTools(a: seq<Json>, b: seq<Json>) {
    && (forall i :: 0 <= i < |a| ==> HasEquivalent(a[i], b))
    && (forall j :: 0 <= j < |b| ==> HasEquivalent(b[j], a))
  }

  lemma NameStays(schema: Json)
    ensures NameOf(Canonical(schema, "")) == NameOf(schema)
  {
    if schema.Obj? && "function" in schema.fields {
      var inner := schema.fields["function"];
      assert Canonical(schema, "").fields["function"] == Canonical(inner, "function");
      if inner.Obj? && "name" in inner.fields {
        assert Canonical(inner, "function").fields["name"] == Canonical(inner.fields["name"], "name");
      }
    }
  }

  lemma CanonicalNames(schemas: seq<Json>)
    requires DistinctNames(schemas)
    ensures DistinctNames(CanonicalItems(schemas, ""))
  {
    hide NameOf, Canonical;
    var canonical := CanonicalItems(schemas, "");
    forall i | 0 <= i < |schemas| ensures NameOf(canonical[i]) == NameOf(schemas[i]) {
      assert canonical[i] == Canonical(schemas[i], "");
      NameStays(schemas[i]);
    }
  }

  lemma {:induction false} NoRepeats(s: seq<Json>, x: Json)
    requires DistinctNames(s)
    ensures multiset(s)[x] == if x in s then 1 else 0
    decreases |s|
  {
    if s != [] {
      assert s == [s[0]] + s[1..];
      NoRepeats(s[1..], x);
      var rest := s[1..];
      forall j | 0 <= j < |rest| ensures rest[j] != s[0] {
        assert rest[j] == s[j + 1];
      }
    }
  }

  lemma InCanonical(schema: Json, schemas: seq<Json>)
    ensures Canonical(schema, "") in CanonicalItems(schemas, "") <==> HasEquivalent(schema, schemas)
  {
    hide Canonical, Equivalent;
    var canonical := CanonicalItems(schemas, "");
    forall j | 0 <= j < |schemas| ensures canonical[j] == Canonical(schema, "") <==> Equivalent(schema, schemas[j], "") {
      assert canonical[j] == Canonical(schemas[j], "");
      CanonicalExactly(schema, schemas[j], "");
    }
  }

  /** Tool lists with distinct names share a canonical form, and so a cache key, exactly when
      they hold the same tools in any order, each up to the order of its required lists. */
  lemma ToolListsExactly(a: seq<Json>, b: seq<Json>)
    requires DistinctNames(a) && DistinctNames(b)
    ensures CanonicalTools(a) == CanonicalTools(b) <==> SameTools(a, b)
  {
    hide *;
    var x, y := CanonicalItems(a, ""), CanonicalItems(b, "");
    CanonicalNames(a);
    CanonicalNames(b);
    SortedSame(a, b);
    SameElements(x, y);
    ElementsMatch(a, b);
    ElementsMatch(b, a);
    SameToolsParts(a, b);
  }

  lemma SameToolsParts(a: seq<Json>, b: seq<Json>)
    ensures SameTools(a, b) <==> AllMatched(a, b) && AllMatched(b, a)
  {
  }

  predicate AllMatched(a: seq<Json>, b: seq<Json>) {
    forall i :: 0 <= i < |a| ==> HasEquivalent(a[i], b)
  }

  predicate AllIn(x: seq<Json>, y: seq<Json>) {
    forall i :: 0 <= i < |x| ==> x[i] in y
  }

  lemma ElementsMatch(a: seq<Json>, b: seq<Json>)
    ensures AllIn(CanonicalItems(a, ""), CanonicalItems(b, "")) <==> AllMatched(a, b)
  {
    hide Canonical, Equivalent, HasEquivalent;
    var x, y := CanonicalItems(a, ""), CanonicalItems(b, "");
    forall i | 0 <= i < |a| ensures x[i] in y <==> HasEquivalent(a[i], b) {
      assert x[i] == Canonical(a[i], "");
      InCanonical(a[i], b);
    }
  }

  lemma SortedSame(a: seq<Json>, b: seq<Json>)
    requires DistinctNames(CanonicalItems(a, "")) && DistinctNames(CanonicalItems(b, ""))
    ensures CanonicalTools(a) == CanonicalTools(b)
       <==> multiset(CanonicalItems(a, "")) == multiset(CanonicalItems(b, ""))
  {
    hide Canonical, NameOf, DistinctNames;
    var x, y := CanonicalItems(a, ""), CanonicalItems(b, "");
    SortSorts(x, NameOf);
    SortSorts(y, NameOf);
    if multiset(x) == multiset(y) {
      InjectiveSorted(x);
      SortedUnique(SortBy(x, NameOf), SortBy(y, NameOf), NameOf);
    }
  }

  lemma SameElements(x: seq<Json>, y: seq<Json>)
    requires DistinctNames(x) && DistinctNames(y)
    ensures multiset(x) == multiset(y)
       <==> AllIn(x, y) && AllIn(y, x)
  {
    hide DistinctNames;
    if AllIn(x, y) && AllIn(y, x) {
      forall e ensures multiset(x)[e] == multiset(y)[e] {
        NoRepeats(x, e);
        NoRepeats(y, e);
      }
    }
    if multiset(x) == multiset(y) {
      forall i | 0 <= i < |x| ensures x[i] in y {
        assert x[i] in multiset(x);
      }
      forall j | 0 <= j < |y| ensures y[j] in x {
        assert y[j] in multiset(y);
      }
    }
  }

  lemma InjectiveSorted(x: seq<Json>)
    requires DistinctNames(x) && multiset(SortBy(x, NameOf)) == multiset(x)
    ensures Injective(SortBy(x, NameOf), NameOf)
  {
    hide NameOf;
    var sorted := SortBy(x, NameOf);
    forall i, j | 0 <= i < |sorted| && 0 <= j < |sorted| && NameOf(sorted[i]) == NameOf(sorted[j])
      ensures sorted[i] == sorted[j]
    {
      assert sorted[i] in multiset(sorted) && sorted[j] in multiset(sorted);
      assert sorted[i] in x && sorted[j] in x;
    }
  }

  lemma {:induction false} SortOfSorted(s: seq<Json>, key: Key<Json>)
    requires SortedBy(s, key)
    ensures SortBy(s, key) == s
    decreases |s|
  {
    hide Leq;
    if s != [] {
      SortOfSorted(s[1..], key);
      assert |s| > 1 ==> Leq(key(s[0]), key(s[1]));
      assert s == [s[0]] + s[1..];
    }
  }

  /** Canonicalising a canonical list changes nothing, whatever the names. */
  lemma ToolsIdempotent(schemas: seq<Json>)
    ensures CanonicalTools(CanonicalTools(schemas)) == CanonicalTools(schemas)
  {
    hide Canonical, NameOf;
    var x := CanonicalItems(schemas, "");
    var sorted := SortBy(x, NameOf);
    SortSorts(x, NameOf);
    assert |multiset(sorted)| == |sorted|;
    var again := CanonicalItems(sorted, "");
    forall i | 0 <= i < |sorted| ensures again[i] == sorted[i] {
      assert sorted[i] in multiset(sorted);
      assert sorted[i] in x;
      var k :| 0 <= k < |x| && x[k] == sorted[i];
      assert x[k] == Canonical(schemas[k], "");
      CanonicalIdempotent(schemas[k], "");
    }
    assert again == sorted;
    SortOfSorted(sorted, NameOf);
  }
}
