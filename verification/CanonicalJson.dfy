/**
 * `canonicalize` and `canonicalJson`: recursive key sorting followed by printing.
 *
 * The meaning of a value forgets the order of an object's keys at every depth.  The canonical
 * text always determines the meaning; the meaning determines the canonical text of exactly those
 * values in which the key comparison ties no two names of one object.
 */
module CanonicalJson {
  import opened Base
  import opened JsonText

  /** `a.localeCompare(b) <= 0`. */
  type KeyOrder = (string, string) -> bool

  ghost predicate TotalPreorder(leq: KeyOrder) {
    && (forall a, b :: leq(a, b) || leq(b, a))
    && (forall a, b, c :: leq(a, b) && leq(b, c) ==> leq(a, c))
  }

  // ---------- sorting and property order ----------

  /** Insertion in front of the first entry that does not come earlier: equal entries keep their order. */
  function Insert(leq: KeyOrder, f: Field, sorted: seq<Field>): seq<Field> {
    if sorted == [] then [f]
    else if leq(f.key, sorted[0].key) then [f] + sorted
    else [sorted[0]] + Insert(leq, f, sorted[1..])
  }

  /** The stable `Array.prototype.sort` by key. */
  function Sort(leq: KeyOrder, fields: seq<Field>): seq<Field> {
    if fields == [] then [] else Insert(leq, fields[0], Sort(leq, fields[1..]))
  }

  /** Property names that JavaScript objects enumerate first: canonical decimals below 2^32 - 1. */
  predicate IsIndex(key: string) {
    && key != "" && (forall c | c in key :: IsDigit(c))
    && NatText(DigitsValue(key)) == key && DigitsValue(key) < 0xFFFF_FFFF
  }

  function IndexValue(key: string): nat {
    if IsIndex(key) then DigitsValue(key) else 0
  }

  predicate IndexLeq(a: string, b: string) {
    IndexValue(a) <= IndexValue(b)
  }

  function Indexed(fields: seq<Field>): seq<Field> {
    if fields == [] then []
    else if IsIndex(fields[0].key) then [fields[0]] + Indexed(fields[1..])
    else Indexed(fields[1..])
  }

  function Named(fields: seq<Field>): seq<Field> {
    if fields == [] then []
    else if IsIndex(fields[0].key) then Named(fields[1..])
    else [fields[0]] + Named(fields[1..])
  }

  /** `Object.fromEntries`: indices in ascending order come first, then names as they were given. */
  function FromEntries(fields: seq<Field>): seq<Field> {
    Sort(IndexLeq, Indexed(fields)) + Named(fields)
  }

  /** Sorting looks only at keys, so mapping the values first gives the same entries. */
  function Canonicalize(leq: KeyOrder, v: Json): Json {
    match v
    case Arr(items) => Arr(CanonicalItems(leq, items))
    case Obj(fields) => Obj(FromEntries(Sort(leq, CanonicalFields(leq, fields))))
    case _ => v
  }

  function CanonicalItems(leq: KeyOrder, items: seq<Json>): (r: seq<Json>)
    ensures |r| == |items|
  {
    if items == [] then [] else [Canonicalize(leq, items[0])] + CanonicalItems(leq, items[1..])
  }

  function CanonicalFields(leq: KeyOrder, fields: seq<Field>): (r: seq<Field>)
    ensures |r| == |fields|
    ensures forall i | 0 <= i < |r| :: r[i].key == fields[i].key
  {
    if fields == [] then []
    else [Field(fields[0].key, Canonicalize(leq, fields[0].value))] + CanonicalFields(leq, fields[1..])
  }

  /** `None` is the JavaScript `undefined`, for which `canonicalJson` throws. */
  function CanonicalJson(leq: KeyOrder, v: Option<Json>): Option<string> {
    if v.None? then None else Some(Print(Canonicalize(leq, v.value)))
  }

  // ---------- meaning ----------

  /** A JSON value up to the order of object keys at every depth. */
  datatype Meaning =
    | MNull
    | MBool(b: bool)
    | MNum(n: int)
    | MStr(s: string)
    | MArr(items: seq<Meaning>)
    | MObj(fields: map<string, Meaning>)

  function MeaningOf(v: Json): Meaning {
    match v
    case Null => MNull
    case Bool(b) => MBool(b)
    case Num(n) => MNum(n)
    case Str(s) => MStr(s)
    case Arr(items) => MArr(MeaningOfItems(items))
    case Obj(fields) => MObj(MeaningOfFields(fields))
  }

  function MeaningOfItems(items: seq<Json>): (r: seq<Meaning>)
    ensures |r| == |items|
  {
    if items == [] then [] else [MeaningOf(items[0])] + MeaningOfItems(items[1..])
  }

  function MeaningOfFields(fields: seq<Field>): map<string, Meaning> {
    if fields == [] then map[]
    else MeaningOfFields(fields[1..])[fields[0].key := MeaningOf(fields[0].value)]
  }

  predicate DistinctKeys(fields: seq<Field>) {
    forall i, j | 0 <= i < j < |fields| :: fields[i].key != fields[j].key
  }

  /** What holds of every JavaScript object: no two own properties share a name, at any depth. */
  predicate WellFormed(v: Json) {
    match v
    case Arr(items) => forall i | 0 <= i < |items| :: WellFormed(items[i])
    case Obj(fields) => DistinctKeys(fields) && forall i | 0 <= i < |fields| :: WellFormed(fields[i].value)
    case _ => true
  }

  ghost predicate SameMembers(a: seq<Field>, b: seq<Field>) {
    forall f :: f in a <==> f in b
  }

  /** The map of an object with distinct keys holds exactly its entries. */
  lemma {:induction false} FieldsMeaning(fields: seq<Field>)
    requires DistinctKeys(fields)
    ensures forall f | f in fields ::
      f.key in MeaningOfFields(fields) && MeaningOfFields(fields)[f.key] == MeaningOf(f.value)
    ensures forall k | k in MeaningOfFields(fields) :: exists f :: f in fields && f.key == k
  {
    if fields != [] {
      var tail := fields[1..];
      FieldsMeaning(tail);
      forall f | f in fields
        ensures f.key in MeaningOfFields(fields) && MeaningOfFields(fields)[f.key] == MeaningOf(f.value)
      {
        if f != fields[0] {
          assert f in tail;
          var i :| 0 <= i < |tail| && tail[i] == f;
          assert fields[0].key != fields[i + 1].key;
        }
      }
      forall k | k in MeaningOfFields(fields) ensures exists f :: f in fields && f.key == k {
        if k == fields[0].key {
          assert fields[0] in fields;
        } else {
          assert k in MeaningOfFields(tail);
          var f :| f in tail && f.key == k;
          assert f in fields;
        }
      }
    }
  }

  lemma SameMembersSameMeaning(a: seq<Field>, b: seq<Field>)
    requires DistinctKeys(a) && DistinctKeys(b) && SameMembers(a, b)
    ensures MeaningOfFields(a) == MeaningOfFields(b)
  {
    FieldsMeaning(a);
    FieldsMeaning(b);
    var m, n := MeaningOfFields(a), MeaningOfFields(b);
    forall k ensures k in m <==> k in n {
      if k in m { var f :| f in a && f.key == k; assert f in b; }
      if k in n { var f :| f in b && f.key == k; assert f in a; }
    }
    forall k | k in m ensures k in n && m[k] == n[k] {
      var f :| f in a && f.key == k;
      assert f in b;
    }
  }

  // ---------- what sorting and reordering keep ----------

  ghost predicate Sorted(leq: KeyOrder, fields: seq<Field>) {
    forall i, j | 0 <= i < j < |fields| :: leq(fields[i].key, fields[j].key)
  }

  lemma {:induction false} InsertMembers(leq: KeyOrder, f: Field, s: seq<Field>)
    ensures SameMembers(Insert(leq, f, s), [f] + s)
    ensures |Insert(leq, f, s)| == |s| + 1
  {
    if s != [] && !leq(f.key, s[0].key) {
      InsertMembers(leq, f, s[1..]);
      assert s == [s[0]] + s[1..];
    }
  }

  lemma {:induction false} SortMembers(leq: KeyOrder, s: seq<Field>)
    ensures SameMembers(Sort(leq, s), s)
    ensures |Sort(leq, s)| == |s|
  {
    if s != [] {
      SortMembers(leq, s[1..]);
      InsertMembers(leq, s[0], Sort(leq, s[1..]));
      assert s == [s[0]] + s[1..];
    }
  }

  lemma {:induction false} InsertSorted(leq: KeyOrder, f: Field, s: seq<Field>)
    requires TotalPreorder(leq) && Sorted(leq, s)
    ensures Sorted(leq, Insert(leq, f, s))
  {
    if s != [] && !leq(f.key, s[0].key) {
      var tail := Insert(leq, f, s[1..]);
      InsertSorted(leq, f, s[1..]);
      InsertMembers(leq, f, s[1..]);
      forall j | 0 <= j < |tail| ensures leq(s[0].key, tail[j].key) {
        assert tail[j] in [f] + s[1..];
      }
    }
  }

  lemma {:induction false} SortSorted(leq: KeyOrder, s: seq<Field>)
    requires TotalPreorder(leq)
    ensures Sorted(leq, Sort(leq, s))
  {
    if s != [] {
      SortSorted(leq, s[1..]);
      InsertSorted(leq, s[0], Sort(leq, s[1..]));
    }
  }

  lemma {:induction false} SortOfSorted(leq: KeyOrder, s: seq<Field>)
    requires Sorted(leq, s)
    ensures Sort(leq, s) == s
  {
    if s != [] {
      SortOfSorted(leq, s[1..]);
      assert s == [s[0]] + s[1..];
    }
  }

  lemma {:induction false} InsertDistinct(leq: KeyOrder, f: Field, s: seq<Field>)
    requires DistinctKeys(s) && forall g | g in s :: g.key != f.key
    ensures DistinctKeys(Insert(leq, f, s))
  {
    if s != [] && !leq(f.key, s[0].key) {
      var tail := Insert(leq, f, s[1..]);
      InsertDistinct(leq, f, s[1..]);
      InsertMembers(leq, f, s[1..]);
      forall j | 0 <= j < |tail| ensures s[0].key != tail[j].key {
        assert tail[j] in [f] + s[1..];
        HeadKeyIsNew(s);
      }
    }
  }

  lemma HeadKeyIsNew(s: seq<Field>)
    requires s != [] && DistinctKeys(s)
    ensures forall f | f in s[1..] :: f.key != s[0].key
  {
    forall f | f in s[1..] ensures f.key != s[0].key {
      var i :| 0 <= i < |s[1..]| && s[1..][i] == f;
      assert s[i + 1] == f;
    }
  }

  lemma {:induction false} SortDistinct(leq: KeyOrder, s: seq<Field>)
    requires DistinctKeys(s)
    ensures DistinctKeys(Sort(leq, s))
  {
    if s != [] {
      SortDistinct(leq, s[1..]);
      SortMembers(leq, s[1..]);
      HeadKeyIsNew(s);
      InsertDistinct(leq, s[0], Sort(leq, s[1..]));
    }
  }

  lemma {:induction false} Partition(s: seq<Field>)
    ensures forall f :: f in Named(s) <==> f in s && !IsIndex(f.key)
    ensures forall f :: f in Indexed(s) <==> f in s && IsIndex(f.key)
    ensures DistinctKeys(s) ==> DistinctKeys(Named(s)) && DistinctKeys(Indexed(s))
  {
    hide IsIndex;
    if s != [] {
      Partition(s[1..]);
      assert s == [s[0]] + s[1..];
      if DistinctKeys(s) { HeadKeyIsNew(s); }
    }
  }

  lemma BothEmptyOrNeither(a: seq<Field>, b: seq<Field>)
    requires SameMembers(a, b)
    ensures a == [] <==> b == []
  {
    if a != [] { assert a[0] in b; }
    if b != [] { assert b[0] in a; }
  }

  ghost predicate KeysNeverTie(leq: KeyOrder, s: seq<Field>) {
    forall f, g | f in s && g in s && leq(f.key, g.key) && leq(g.key, f.key) :: f.key == g.key
  }

  lemma SameFirst(leq: KeyOrder, a: seq<Field>, b: seq<Field>)
    requires TotalPreorder(leq) && Sorted(leq, a) && Sorted(leq, b) && DistinctKeys(a) && SameMembers(a, b)
    requires a != [] && b != [] && KeysNeverTie(leq, a)
    ensures a[0] == b[0]
  {
    assert a[0] in b && b[0] in a;
    var i :| 0 <= i < |b| && b[i] == a[0];
    var j :| 0 <= j < |a| && a[j] == b[0];
    assert leq(a[0].key, a[0].key);
    assert leq(b[0].key, a[0].key) && leq(a[0].key, b[0].key);
  }

  lemma SameTail(a: seq<Field>, b: seq<Field>)
    requires a != [] && b != [] && a[0] == b[0] && DistinctKeys(a) && DistinctKeys(b) && SameMembers(a, b)
    ensures SameMembers(a[1..], b[1..])
  {
    forall f ensures f in a[1..] <==> f in b[1..] {
      TailMember(a, f);
      TailMember(b, f);
    }
  }

  /** Two sorted arrangements of the same entries differ only where keys tie. */
  lemma {:induction false} SortedUnique(leq: KeyOrder, a: seq<Field>, b: seq<Field>)
    requires TotalPreorder(leq) && KeysNeverTie(leq, a)
    requires Sorted(leq, a) && Sorted(leq, b) && DistinctKeys(a) && DistinctKeys(b) && SameMembers(a, b)
    ensures a == b
  {
    BothEmptyOrNeither(a, b);
    if a != [] {
      SameFirst(leq, a, b);
      SameTail(a, b);
      assert a == [a[0]] + a[1..] && b == [b[0]] + b[1..];
      SortedUnique(leq, a[1..], b[1..]);
    }
  }

  lemma TailMember(s: seq<Field>, f: Field)
    requires s != [] && DistinctKeys(s)
    ensures f in s[1..] <==> f in s && f != s[0]
  {
    assert s == [s[0]] + s[1..];
    if f in s[1..] {
      var i :| 0 <= i < |s[1..]| && s[1..][i] == f;
      assert s[i + 1] == f && s[0].key != f.key;
    }
  }

  lemma PartitionCons(f: Field, s: seq<Field>)
    ensures Named([f] + s) == if IsIndex(f.key) then Named(s) else [f] + Named(s)
    ensures Indexed([f] + s) == if IsIndex(f.key) then [f] + Indexed(s) else Indexed(s)
  {
    assert ([f] + s)[1..] == s;
  }

  lemma NamedAfter(leq: KeyOrder, f: Field, s: seq<Field>)
    requires TotalPreorder(leq) && Sorted(leq, s) && s != [] && leq(f.key, s[0].key)
    ensures Insert(leq, f, Named(s)) == [f] + Named(s)
  {
    Partition(s);
    if Named(s) != [] {
      assert Named(s)[0] in s;
      var i :| 0 <= i < |s| && s[i] == Named(s)[0];
      assert leq(s[0].key, s[0].key);
    }
  }

  /** Dropping the index properties commutes with the stable sort. */
  lemma {:induction false} NamedInsert(leq: KeyOrder, f: Field, s: seq<Field>)
    requires TotalPreorder(leq) && Sorted(leq, s)
    ensures Named(Insert(leq, f, s)) == if IsIndex(f.key) then Named(s) else Insert(leq, f, Named(s))
  {
    if s == [] {
      PartitionCons(f, []);
    } else if leq(f.key, s[0].key) {
      PartitionCons(f, s);
      NamedAfter(leq, f, s);
    } else {
      NamedInsert(leq, f, s[1..]);
      PartitionCons(s[0], Insert(leq, f, s[1..]));
      if !IsIndex(s[0].key) && !IsIndex(f.key) {
        InsertBehind(leq, f, s[0], Named(s[1..]));
      }
    }
  }

  lemma InsertBehind(leq: KeyOrder, f: Field, head: Field, s: seq<Field>)
    requires !leq(f.key, head.key)
    ensures Insert(leq, f, [head] + s) == [head] + Insert(leq, f, s)
  {
    assert ([head] + s)[1..] == s;
  }

  lemma SortCons(leq: KeyOrder, f: Field, s: seq<Field>)
    ensures Sort(leq, [f] + s) == Insert(leq, f, Sort(leq, s))
  {
    assert ([f] + s)[1..] == s;
  }

  lemma {:induction false} NamedSort(leq: KeyOrder, s: seq<Field>)
    requires TotalPreorder(leq)
    ensures Named(Sort(leq, s)) == Sort(leq, Named(s))
  {
    if s != [] {
      NamedSort(leq, s[1..]);
      SortSorted(leq, s[1..]);
      NamedInsert(leq, s[0], Sort(leq, s[1..]));
      SortCons(leq, s[0], Named(s[1..]));
    }
  }

  /** The order in which the canonical object enumerates the given entries. */
  function Arrange(leq: KeyOrder, s: seq<Field>): seq<Field> {
    FromEntries(Sort(leq, s))
  }

  lemma ArrangeKeepsEntries(leq: KeyOrder, s: seq<Field>)
    requires DistinctKeys(s)
    ensures SameMembers(Arrange(leq, s), s) && DistinctKeys(Arrange(leq, s))
  {
    var t := Sort(leq, s);
    SortMembers(leq, s);
    SortDistinct(leq, s);
    Partition(t);
    SortMembers(IndexLeq, Indexed(t));
    SortDistinct(IndexLeq, Indexed(t));
    var a, b := Sort(IndexLeq, Indexed(t)), Named(t);
    forall i, j | 0 <= i < |a| && 0 <= j < |b| ensures a[i].key != b[j].key {
      assert a[i] in Indexed(t) && b[j] in Named(t);
    }
  }

  /** Names never tie under the comparison; indices may, since they are put in numeric order anyway. */
  ghost predicate NamesNeverTie(leq: KeyOrder) {
    forall a, b | !IsIndex(a) && !IsIndex(b) && leq(a, b) && leq(b, a) :: a == b
  }

  lemma IndexSortUnique(a: seq<Field>, b: seq<Field>)
    requires DistinctKeys(a) && DistinctKeys(b) && SameMembers(a, b)
    requires forall f | f in a :: IsIndex(f.key)
    ensures Sort(IndexLeq, a) == Sort(IndexLeq, b)
  {
    SortMembers(IndexLeq, a);
    SortMembers(IndexLeq, b);
    SortDistinct(IndexLeq, a);
    SortDistinct(IndexLeq, b);
    SortSorted(IndexLeq, a);
    SortSorted(IndexLeq, b);
    SortedUnique(IndexLeq, Sort(IndexLeq, a), Sort(IndexLeq, b));
  }

  /** No two names of one object tie under the comparison; indices may, since they are put in numeric order anyway. */
  predicate NamesApart(leq: KeyOrder, fields: seq<Field>) {
    forall i, j | 0 <= i < j < |fields| && !IsIndex(fields[i].key) && !IsIndex(fields[j].key) ::
      !(leq(fields[i].key, fields[j].key) && leq(fields[j].key, fields[i].key))
  }

  /** The same for every object inside a value. */
  predicate TieFree(leq: KeyOrder, v: Json) {
    match v
    case Arr(items) => forall i | 0 <= i < |items| :: TieFree(leq, items[i])
    case Obj(fields) => NamesApart(leq, fields) && forall i | 0 <= i < |fields| :: TieFree(leq, fields[i].value)
    case _ => true
  }

  lemma ApartNeverTie(leq: KeyOrder, us: seq<Field>, cu: seq<Field>)
    requires NamesApart(leq, us) && |cu| == |us| && forall i | 0 <= i < |cu| :: cu[i].key == us[i].key
    ensures KeysNeverTie(leq, Named(cu))
  {
    Partition(cu);
    forall f, g | f in Named(cu) && g in Named(cu) && leq(f.key, g.key) && leq(g.key, f.key) ensures f.key == g.key {
      assert f in cu && g in cu;
      var i :| 0 <= i < |cu| && cu[i] == f;
      var j :| 0 <= j < |cu| && cu[j] == g;
      ApartPair(leq, us, i, j);
    }
  }

  lemma ApartPair(leq: KeyOrder, us: seq<Field>, i: nat, j: nat)
    requires NamesApart(leq, us) && i < |us| && j < |us| && !IsIndex(us[i].key) && !IsIndex(us[j].key)
    requires leq(us[i].key, us[j].key) && leq(us[j].key, us[i].key)
    ensures i == j
  {
    hide IsIndex;
  }

  lemma ArrangeUnique(leq: KeyOrder, a: seq<Field>, b: seq<Field>)
    requires TotalPreorder(leq) && KeysNeverTie(leq, Named(a))
    requires DistinctKeys(a) && DistinctKeys(b) && SameMembers(a, b)
    ensures Arrange(leq, a) == Arrange(leq, b)
  {
    var s, t := Sort(leq, a), Sort(leq, b);
    SortMembers(leq, a);
    SortMembers(leq, b);
    SortDistinct(leq, a);
    SortDistinct(leq, b);
    Partition(a);
    Partition(s);
    Partition(t);
    IndexSortUnique(Indexed(s), Indexed(t));
    NamedSort(leq, a);
    NamedSort(leq, b);
    SortSorted(leq, Named(a));
    SortSorted(leq, Named(b));
    SortedUnique(leq, Named(s), Named(t));
  }

  lemma {:induction false} PartitionConcat(a: seq<Field>, b: seq<Field>)
    ensures Named(a + b) == Named(a) + Named(b)
    ensures Indexed(a + b) == Indexed(a) + Indexed(b)
  {
    if a == [] {
      assert a + b == b;
    } else {
      assert (a + b)[1..] == a[1..] + b;
      PartitionConcat(a[1..], b);
    }
  }

  lemma {:induction false} OnlyNames(s: seq<Field>)
    requires forall f | f in s :: !IsIndex(f.key)
    ensures Named(s) == s && Indexed(s) == []
  {
    if s != [] {
      OnlyNames(s[1..]);
      assert s == [s[0]] + s[1..];
    }
  }

  lemma {:induction false} OnlyIndices(s: seq<Field>)
    requires forall f | f in s :: IsIndex(f.key)
    ensures Named(s) == [] && Indexed(s) == s
  {
    if s != [] {
      OnlyIndices(s[1..]);
      assert s == [s[0]] + s[1..];
    }
  }

  lemma ArrangeIsSortedParts(leq: KeyOrder, s: seq<Field>)
    requires TotalPreorder(leq) && DistinctKeys(s)
    ensures Arrange(leq, s) == Sort(IndexLeq, Indexed(s)) + Sort(leq, Named(s))
  {
    NamedSort(leq, s);
    SortMembers(leq, s);
    SortDistinct(leq, s);
    Partition(s);
    Partition(Sort(leq, s));
    IndexSortUnique(Indexed(Sort(leq, s)), Indexed(s));
  }

  lemma ArrangeIdempotent(leq: KeyOrder, s: seq<Field>)
    requires TotalPreorder(leq) && DistinctKeys(s)
    ensures Arrange(leq, Arrange(leq, s)) == Arrange(leq, s)
  {
    var a, b := Sort(IndexLeq, Indexed(s)), Sort(leq, Named(s));
    ArrangeIsSortedParts(leq, s);
    ArrangeKeepsEntries(leq, s);
    ArrangeIsSortedParts(leq, a + b);
    PartsOfParts(leq, s);
    SortSorted(IndexLeq, Indexed(s));
    SortSorted(leq, Named(s));
    SortOfSorted(IndexLeq, a);
    SortOfSorted(leq, b);
  }

  lemma PartsOfParts(leq: KeyOrder, s: seq<Field>)
    ensures var a, b := Sort(IndexLeq, Indexed(s)), Sort(leq, Named(s));
      Indexed(a + b) == a && Named(a + b) == b
  {
    var a, b := Sort(IndexLeq, Indexed(s)), Sort(leq, Named(s));
    Partition(s);
    SortMembers(IndexLeq, Indexed(s));
    SortMembers(leq, Named(s));
    OnlyIndices(a);
    OnlyNames(b);
    PartitionConcat(a, b);
  }

  // ---------- the canonical form ----------

  lemma {:induction false} CanonicalFieldsDistinct(leq: KeyOrder, fields: seq<Field>)
    requires DistinctKeys(fields)
    ensures DistinctKeys(CanonicalFields(leq, fields))
  {
  }

  lemma {:induction false} CanonicalFieldAt(leq: KeyOrder, fields: seq<Field>, i: nat)
    requires i < |fields|
    ensures CanonicalFields(leq, fields)[i] == Field(fields[i].key, Canonicalize(leq, fields[i].value))
  {
    if i > 0 {
      CanonicalFieldAt(leq, fields[1..], i - 1);
    }
  }

  lemma {:induction false} CanonicalItemAt(leq: KeyOrder, items: seq<Json>, i: nat)
    requires i < |items|
    ensures CanonicalItems(leq, items)[i] == Canonicalize(leq, items[i])
    ensures MeaningOfItems(items)[i] == MeaningOf(items[i])
  {
    if i > 0 {
      CanonicalItemAt(leq, items[1..], i - 1);
    }
  }

  /** Canonicalizing keeps the meaning, and keeps keys distinct. */
  lemma {:induction false} CanonicalMeaning(leq: KeyOrder, v: Json)
    requires WellFormed(v)
    ensures MeaningOf(Canonicalize(leq, v)) == MeaningOf(v) && WellFormed(Canonicalize(leq, v))
    decreases v, 1
  {
    match v
    case Arr(items) => CanonicalItemsMeaning(leq, items);
    case Obj(fields) =>
      var cs := CanonicalFields(leq, fields);
      var t := Arrange(leq, cs);
      CanonicalFieldsMeaning(leq, fields);
      CanonicalFieldsDistinct(leq, fields);
      ArrangeKeepsEntries(leq, cs);
      SameMembersSameMeaning(t, cs);
      forall i | 0 <= i < |t| ensures WellFormed(t[i].value) {
        assert t[i] in cs;
        var j :| 0 <= j < |cs| && cs[j] == t[i];
      }
    case _ =>
  }

  lemma {:induction false} CanonicalItemsMeaning(leq: KeyOrder, items: seq<Json>)
    requires forall i | 0 <= i < |items| :: WellFormed(items[i])
    ensures MeaningOfItems(CanonicalItems(leq, items)) == MeaningOfItems(items)
    ensures forall i | 0 <= i < |items| :: WellFormed(CanonicalItems(leq, items)[i])
    decreases items, 0
  {
    if items != [] {
      CanonicalMeaning(leq, items[0]);
      CanonicalItemsMeaning(leq, items[1..]);
    }
  }

  lemma {:induction false} CanonicalFieldsMeaning(leq: KeyOrder, fields: seq<Field>)
    requires forall i | 0 <= i < |fields| :: WellFormed(fields[i].value)
    ensures MeaningOfFields(CanonicalFields(leq, fields)) == MeaningOfFields(fields)
    ensures forall i | 0 <= i < |fields| :: WellFormed(CanonicalFields(leq, fields)[i].value)
    decreases fields, 0
  {
    if fields != [] {
      CanonicalMeaning(leq, fields[0].value);
      CanonicalFieldsMeaning(leq, fields[1..]);
    }
  }

  /** The values that mean the same as a tie-free one have its canonical form. */
  lemma {:induction false} CanonicalFormUnique(leq: KeyOrder, u: Json, v: Json)
    requires TotalPreorder(leq) && TieFree(leq, u)
    requires WellFormed(u) && WellFormed(v) && MeaningOf(u) == MeaningOf(v)
    ensures Canonicalize(leq, u) == Canonicalize(leq, v)
    decreases u
  {
    hide IsIndex, NamesApart, KeysNeverTie, FromEntries, Sort, Named;
    match u
    case Arr(us) =>
      var vs := v.items;
      forall i | 0 <= i < |us| ensures CanonicalItems(leq, us)[i] == CanonicalItems(leq, vs)[i] {
        CanonicalItemAt(leq, us, i);
        CanonicalItemAt(leq, vs, i);
        CanonicalFormUnique(leq, us[i], vs[i]);
      }
    case Obj(us) =>
      var cu, cv := CanonicalFields(leq, us), CanonicalFields(leq, v.fields);
      forall i | 0 <= i < |us| ensures cu[i] in cv {
        var j := Counterpart(us, v.fields, i);
        CanonicalFieldAt(leq, us, i);
        CanonicalFieldAt(leq, v.fields, j);
        CanonicalFormUnique(leq, us[i].value, v.fields[j].value);
        assert cv[j] == cu[i];
      }
      forall j | 0 <= j < |v.fields| ensures cv[j] in cu {
        var i := Counterpart(v.fields, us, j);
        CanonicalFieldAt(leq, us, i);
        CanonicalFieldAt(leq, v.fields, j);
        CanonicalFormUnique(leq, us[i].value, v.fields[j].value);
        assert cu[i] == cv[j];
      }
      ApartNeverTie(leq, us, cu);
      ArrangeUnique(leq, cu, cv);
    case _ =>
  }

  lemma Counterpart(us: seq<Field>, vs: seq<Field>, i: nat) returns (j: nat)
    requires DistinctKeys(us) && DistinctKeys(vs) && i < |us|
    requires MeaningOfFields(us) == MeaningOfFields(vs)
    ensures j < |vs| && vs[j].key == us[i].key && MeaningOf(vs[j].value) == MeaningOf(us[i].value)
  {
    FieldsMeaning(us);
    FieldsMeaning(vs);
    assert us[i] in us;
    var f :| f in vs && f.key == us[i].key;
    j :| 0 <= j < |vs| && vs[j] == f;
  }

  // ---------- main results ----------

  /** The canonical text is unambiguous: equal texts come only from values equal up to key order. */
  lemma CanonicalTextDeterminesMeaning(leq: KeyOrder, u: Json, v: Json)
    requires WellFormed(u) && WellFormed(v)
    requires CanonicalJson(leq, Some(u)) == CanonicalJson(leq, Some(v))
    ensures MeaningOf(u) == MeaningOf(v)
  {
    PrintInjective(Canonicalize(leq, u), Canonicalize(leq, v));
    CanonicalMeaning(leq, u);
    CanonicalMeaning(leq, v);
  }

  // ---------- when key order shows ----------

  /** Some entry named `a` comes before some entry named `b`. */
  ghost predicate Before(s: seq<Field>, a: string, b: string) {
    exists i, j :: 0 <= i < j < |s| && s[i].key == a && s[j].key == b
  }

  lemma BeforeBehind(head: seq<Field>, s: seq<Field>, a: string, b: string)
    requires Before(s, a, b)
    ensures Before(head + s, a, b)
  {
    var i, j :| 0 <= i < j < |s| && s[i].key == a && s[j].key == b;
    assert (head + s)[|head| + i] == s[i] && (head + s)[|head| + j] == s[j];
  }

  lemma HeadBefore(f: Field, s: seq<Field>, b: string)
    requires exists j :: 0 <= j < |s| && s[j].key == b
    ensures Before([f] + s, f.key, b)
  {
    var j :| 0 <= j < |s| && s[j].key == b;
    assert ([f] + s)[0] == f && ([f] + s)[j + 1] == s[j];
  }

  /** An entry is inserted before every entry that it may precede. */
  lemma {:induction false} InsertBefore(leq: KeyOrder, f: Field, s: seq<Field>, g: Field)
    requires g in s && leq(f.key, g.key)
    ensures Before(Insert(leq, f, s), f.key, g.key)
  {
    if leq(f.key, s[0].key) {
      var j :| 0 <= j < |s| && s[j] == g;
      HeadBefore(f, s, g.key);
    } else {
      assert s == [s[0]] + s[1..];
      InsertBefore(leq, f, s[1..], g);
      BeforeBehind([s[0]], Insert(leq, f, s[1..]), f.key, g.key);
    }
  }

  lemma {:induction false} InsertKeepsBefore(leq: KeyOrder, f: Field, s: seq<Field>, a: string, b: string)
    requires Before(s, a, b)
    ensures Before(Insert(leq, f, s), a, b)
  {
    var i, j :| 0 <= i < j < |s| && s[i].key == a && s[j].key == b;
    if leq(f.key, s[0].key) {
      BeforeBehind([f], s, a, b);
    } else if i == 0 {
      InsertMembers(leq, f, s[1..]);
      var t := Insert(leq, f, s[1..]);
      assert s[1..][j - 1] in t;
      var k :| 0 <= k < |t| && t[k] == s[j];
      HeadBefore(s[0], t, b);
    } else {
      assert s[1..][i - 1].key == a && s[1..][j - 1].key == b;
      InsertKeepsBefore(leq, f, s[1..], a, b);
      BeforeBehind([s[0]], Insert(leq, f, s[1..]), a, b);
    }
  }

  /** The sort is stable: an entry that comes first and may precede another stays before it. */
  lemma {:induction false} SortStable(leq: KeyOrder, s: seq<Field>, i: nat, j: nat)
    requires i < j < |s| && leq(s[i].key, s[j].key)
    ensures Before(Sort(leq, s), s[i].key, s[j].key)
  {
    if i == 0 {
      SortMembers(leq, s[1..]);
      assert s[1..][j - 1] in s[1..];
      InsertBefore(leq, s[0], Sort(leq, s[1..]), s[j]);
    } else {
      SortStable(leq, s[1..], i - 1, j - 1);
      InsertKeepsBefore(leq, s[0], Sort(leq, s[1..]), s[i].key, s[j].key);
    }
  }

  lemma {:induction false} NamedKeepsBefore(s: seq<Field>, a: string, b: string)
    requires Before(s, a, b) && !IsIndex(a) && !IsIndex(b)
    ensures Before(Named(s), a, b)
  {
    var i, j :| 0 <= i < j < |s| && s[i].key == a && s[j].key == b;
    if i == 0 {
      Partition(s[1..]);
      assert s[1..][j - 1] in Named(s[1..]);
      var k :| 0 <= k < |Named(s[1..])| && Named(s[1..])[k] == s[j];
      HeadBefore(s[0], Named(s[1..]), b);
    } else {
      assert s[1..][i - 1].key == a && s[1..][j - 1].key == b;
      NamedKeepsBefore(s[1..], a, b);
      if !IsIndex(s[0].key) { BeforeBehind([s[0]], Named(s[1..]), a, b); }
    }
  }

  lemma ArrangeStable(leq: KeyOrder, s: seq<Field>, i: nat, j: nat)
    requires i < j < |s| && leq(s[i].key, s[j].key) && !IsIndex(s[i].key) && !IsIndex(s[j].key)
    ensures Before(Arrange(leq, s), s[i].key, s[j].key)
  {
    SortStable(leq, s, i, j);
    NamedKeepsBefore(Sort(leq, s), s[i].key, s[j].key);
    BeforeBehind(Sort(IndexLeq, Indexed(Sort(leq, s))), Named(Sort(leq, s)), s[i].key, s[j].key);
  }

  lemma NotBothBefore(s: seq<Field>, a: string, b: string)
    requires DistinctKeys(s) && Before(s, a, b)
    ensures !Before(s, b, a)
  {
  }

  /** Two tied names swapped: the same meaning, another canonical form. */
  lemma SwapShows(leq: KeyOrder, us: seq<Field>, i: nat, j: nat)
    requires WellFormed(Obj(us)) && i < j < |us| && !IsIndex(us[i].key) && !IsIndex(us[j].key)
    requires leq(us[i].key, us[j].key) && leq(us[j].key, us[i].key)
    ensures var v := Obj(us[i := us[j]][j := us[i]]);
      WellFormed(v) && MeaningOf(v) == MeaningOf(Obj(us)) && Canonicalize(leq, v) != Canonicalize(leq, Obj(us))
  {
    var vs := us[i := us[j]][j := us[i]];
    assert DistinctKeys(vs) && SameMembers(us, vs) by { SwapKeepsMembers(us, i, j); }
    SameMembersSameMeaning(us, vs);
    var cu, cv := CanonicalFields(leq, us), CanonicalFields(leq, vs);
    CanonicalFieldsDistinct(leq, us);
    ArrangeKeepsEntries(leq, cu);
    ArrangeStable(leq, cu, i, j);
    ArrangeStable(leq, cv, i, j);
    NotBothBefore(Arrange(leq, cu), us[i].key, us[j].key);
  }

  lemma SwapKeepsMembers(us: seq<Field>, i: nat, j: nat)
    requires DistinctKeys(us) && i < j < |us|
    ensures var vs := us[i := us[j]][j := us[i]]; DistinctKeys(vs) && SameMembers(us, vs)
  {
    var vs := us[i := us[j]][j := us[i]];
    forall f ensures f in us <==> f in vs {
      if f in us {
        var k :| 0 <= k < |us| && us[k] == f;
        assert vs[if k == i then j else if k == j then i else k] == f;
      }
    }
  }

  /** A field's value replaced by one of the same meaning and another canonical form. */
  lemma FieldShowsThrough(leq: KeyOrder, us: seq<Field>, i: nat, x: Json)
    requires WellFormed(Obj(us)) && i < |us| && WellFormed(x)
    requires MeaningOf(x) == MeaningOf(us[i].value) && Canonicalize(leq, x) != Canonicalize(leq, us[i].value)
    ensures var v := Obj(us[i := Field(us[i].key, x)]);
      WellFormed(v) && MeaningOf(v) == MeaningOf(Obj(us)) && Canonicalize(leq, v) != Canonicalize(leq, Obj(us))
  {
    var vs := us[i := Field(us[i].key, x)];
    SameKeysSameMeaning(us, vs);
    var cu, cv := CanonicalFields(leq, us), CanonicalFields(leq, vs);
    CanonicalFieldsDistinct(leq, us);
    CanonicalFieldsDistinct(leq, vs);
    ArrangeKeepsEntries(leq, cu);
    ArrangeKeepsEntries(leq, cv);
    CanonicalFieldAt(leq, us, i);
    CanonicalFieldAt(leq, vs, i);
    assert cu[i] in Arrange(leq, cu) && cv[i] in Arrange(leq, cv);
  }

  lemma {:induction false} SameKeysSameMeaning(a: seq<Field>, b: seq<Field>)
    requires |a| == |b| && forall j | 0 <= j < |a| ::
      a[j].key == b[j].key && MeaningOf(a[j].value) == MeaningOf(b[j].value)
    ensures MeaningOfFields(a) == MeaningOfFields(b)
  {
    if a != [] { SameKeysSameMeaning(a[1..], b[1..]); }
  }

  lemma {:induction false} ItemMeaning(items: seq<Json>, i: nat)
    requires i < |items|
    ensures MeaningOfItems(items)[i] == MeaningOf(items[i])
  {
    if i > 0 { ItemMeaning(items[1..], i - 1); }
  }

  /** The same for an item of an array. */
  lemma ItemShowsThrough(leq: KeyOrder, us: seq<Json>, i: nat, x: Json)
    requires WellFormed(Arr(us)) && i < |us| && WellFormed(x)
    requires MeaningOf(x) == MeaningOf(us[i]) && Canonicalize(leq, x) != Canonicalize(leq, us[i])
    ensures var v := Arr(us[i := x]);
      WellFormed(v) && MeaningOf(v) == MeaningOf(Arr(us)) && Canonicalize(leq, v) != Canonicalize(leq, Arr(us))
  {
    var vs := us[i := x];
    forall k | 0 <= k < |us| ensures MeaningOfItems(vs)[k] == MeaningOfItems(us)[k] {
      ItemMeaning(us, k);
      ItemMeaning(vs, k);
    }
    assert MeaningOfItems(vs) == MeaningOfItems(us);
    CanonicalItemAt(leq, us, i);
    CanonicalItemAt(leq, vs, i);
  }

  /** A tie anywhere in a value shows: some value of the same meaning has another canonical form. */
  lemma {:induction false} TieShows(leq: KeyOrder, u: Json) returns (v: Json)
    requires WellFormed(u) && !TieFree(leq, u)
    ensures WellFormed(v) && MeaningOf(v) == MeaningOf(u) && Canonicalize(leq, v) != Canonicalize(leq, u)
    decreases u
  {
    hide MeaningOf, Canonicalize;
    if u.Arr? {
      var i :| 0 <= i < |u.items| && !TieFree(leq, u.items[i]);
      var x := TieShows(leq, u.items[i]);
      ItemShowsThrough(leq, u.items, i, x);
      v := Arr(u.items[i := x]);
    } else if NamesApart(leq, u.fields) {
      var i :| 0 <= i < |u.fields| && !TieFree(leq, u.fields[i].value);
      var x := TieShows(leq, u.fields[i].value);
      FieldShowsThrough(leq, u.fields, i, x);
      v := Obj(u.fields[i := Field(u.fields[i].key, x)]);
    } else {
      var us := u.fields;
      var i, j :| 0 <= i < j < |us| && !IsIndex(us[i].key) && !IsIndex(us[j].key)
        && leq(us[i].key, us[j].key) && leq(us[j].key, us[i].key);
      SwapShows(leq, us, i, j);
      v := Obj(us[i := us[j]][j := us[i]]);
    }
  }

  /** Key order, at any depth, does not show in the canonical text of `u`. */
  ghost predicate OrderInvariantAt(leq: KeyOrder, u: Json) {
    forall v | WellFormed(v) && MeaningOf(v) == MeaningOf(u) ::
      CanonicalJson(leq, Some(v)) == CanonicalJson(leq, Some(u))
  }

  /**
   * `localeCompare` may answer 0 for distinct strings.  The canonical text of a value is independent
   * of key order if and only if no object in it, at any depth, has two names that so tie.
   */
  lemma OrderInvariantIffTieFree(leq: KeyOrder, u: Json)
    requires TotalPreorder(leq) && WellFormed(u)
    ensures OrderInvariantAt(leq, u) <==> TieFree(leq, u)
  {
    hide Print, PrintThen, Canonicalize, MeaningOf, WellFormed, TieFree;
    if TieFree(leq, u) {
      forall v | WellFormed(v) && MeaningOf(v) == MeaningOf(u)
        ensures CanonicalJson(leq, Some(v)) == CanonicalJson(leq, Some(u))
      {
        CanonicalFormUnique(leq, u, v);
      }
    } else {
      var v := TieShows(leq, u);
      PrintInjective(Canonicalize(leq, v), Canonicalize(leq, u));
      assert CanonicalJson(leq, Some(v)) != CanonicalJson(leq, Some(u));
    }
  }

  lemma {:induction false} NeverTieIsTieFree(leq: KeyOrder, u: Json)
    requires NamesNeverTie(leq) && WellFormed(u)
    ensures TieFree(leq, u)
  {
    match u
    case Arr(items) =>
      forall i | 0 <= i < |items| ensures TieFree(leq, items[i]) { NeverTieIsTieFree(leq, items[i]); }
    case Obj(fields) =>
      forall i | 0 <= i < |fields| ensures TieFree(leq, fields[i].value) { NeverTieIsTieFree(leq, fields[i].value); }
    case _ =>
  }

  /** Hence it is independent of key order for all values if and only if the comparison ties no two names at all. */
  lemma OrderInvariantIffNamesNeverTie(leq: KeyOrder)
    requires TotalPreorder(leq)
    ensures (forall u | WellFormed(u) :: OrderInvariantAt(leq, u)) <==> NamesNeverTie(leq)
  {
    hide OrderInvariantAt;
    if NamesNeverTie(leq) {
      forall u | WellFormed(u) ensures OrderInvariantAt(leq, u) {
        NeverTieIsTieFree(leq, u);
        OrderInvariantIffTieFree(leq, u);
      }
    } else {
      var a, b :| !IsIndex(a) && !IsIndex(b) && leq(a, b) && leq(b, a) && a != b;
      var fields := [Field(a, Null), Field(b, Null)];
      assert fields[0].key == a && fields[1].key == b;
      assert WellFormed(Obj(fields)) && !NamesApart(leq, fields);
      OrderInvariantIffTieFree(leq, Obj(fields));
    }
  }

  /** Canonicalizing twice is canonicalizing once, ties or not. */
  lemma {:induction false} CanonicalizeIdempotent(leq: KeyOrder, v: Json)
    requires TotalPreorder(leq) && WellFormed(v)
    ensures Canonicalize(leq, Canonicalize(leq, v)) == Canonicalize(leq, v)
  {
    match v
    case Arr(items) =>
      var cs := CanonicalItems(leq, items);
      forall i | 0 <= i < |items| ensures CanonicalItems(leq, cs)[i] == cs[i] {
        CanonicalItemAt(leq, items, i);
        CanonicalItemAt(leq, cs, i);
        CanonicalizeIdempotent(leq, items[i]);
      }
    case Obj(fields) =>
      var cs := CanonicalFields(leq, fields);
      var t := Arrange(leq, cs);
      CanonicalFieldsDistinct(leq, fields);
      ArrangeKeepsEntries(leq, cs);
      forall i | 0 <= i < |t| ensures CanonicalFields(leq, t)[i] == t[i] {
        assert t[i] in cs;
        var j :| 0 <= j < |cs| && cs[j] == t[i];
        CanonicalFieldAt(leq, fields, j);
        CanonicalFieldAt(leq, t, i);
        CanonicalizeIdempotent(leq, fields[j].value);
      }
      assert CanonicalFields(leq, t) == t;
      ArrangeIdempotent(leq, cs);
    case _ =>
  }
}
