/** canonicalize is a faithful printer: two values print alike exactly when they mean the same. */
module JsonCanonical {
  import opened Wrappers
  import opened Texts
  import opened Json
  import opened JsonRoundTrip

  // ----- meaning, without order, undefined fields or sorting

  datatype Meaning =
    | MNull
    | MBool(b: bool)
    | MNum(n: NumText)
    | MStr(s: Text)
    | MArr(elems: seq<Meaning>)
    | MObj(fields: map<Text, Meaning>)

  function MeaningOf(v: Json): Meaning {
    match v
    case Undef => MNull
    case Null => MNull
    case NonFinite => MNull
    case Func => MNull
    case Date(_) => MObj(map[])
    case Bool(b) => MBool(b)
    case Num(n) => MNum(n)
    case Str(s) => MStr(s)
    case Arr(es) => MArr(ElemMeanings(es))
    case Obj(fs) => MObj(FieldMeanings(fs))
  }

  function ElemMeanings(es: seq<Json>): seq<Meaning> {
    if es == [] then [] else [MeaningOf(es[0])] + ElemMeanings(es[1..])
  }

  function FieldMeanings(fs: Fields): map<Text, Meaning> {
    if fs == [] then map[]
    else if fs[0].value.Undef? then FieldMeanings(fs[1..])
    else FieldMeanings(fs[1..])[fs[0].key := MeaningOf(fs[0].value)]
  }

  // ----- what stringify keeps, and what sorting makes of it

  /** The value JSON.stringify writes down, in the same order. */
  function Clean(v: Json): Json {
    match v
    case Undef | NonFinite | Func => Null
    case Date(iso) => if iso.Some? then Str(iso.value) else Null
    case Arr(es) => Arr(CleanElems(es))
    case Obj(fs) => Obj(CleanFields(fs))
    case _ => v
  }

  function CleanElems(es: seq<Json>): (r: seq<Json>)
    ensures |r| == |es|
  {
    if es == [] then [] else [Clean(es[0])] + CleanElems(es[1..])
  }

  function CleanFields(fs: Fields): Fields {
    if fs == [] then []
    else if Dropped(fs[0].value) then CleanFields(fs[1..])
    else [Field(fs[0].key, Clean(fs[0].value))] + CleanFields(fs[1..])
  }

  /** The value canonicalize writes down: cleaned, with every object's fields in key order. */
  function Normal(v: Json): Json {
    match v
    case Undef | NonFinite | Func => Null
    case Date(_) => Obj([])
    case Arr(es) => Arr(NormalElems(es))
    case Obj(fs) => Obj(SortByKey(NormalFields(fs)))
    case _ => v
  }

  function NormalElems(es: seq<Json>): seq<Json> {
    if es == [] then [] else [Normal(es[0])] + NormalElems(es[1..])
  }

  function NormalFields(fs: Fields): Fields {
    if fs == [] then []
    else if fs[0].value.Undef? then NormalFields(fs[1..])
    else [Field(fs[0].key, Normal(fs[0].value))] + NormalFields(fs[1..])
  }

  // ----- key order

  ghost predicate Sorted<T>(fs: seq<Field<T>>) {
    fs == [] || ((forall g :: g in fs[1..] ==> Less(fs[0].key, g.key)) && Sorted(fs[1..]))
  }

  lemma {:induction false} LessIsOrder(a: Text, b: Text)
    ensures a == b || Less(a, b) || Less(b, a)
    ensures Less(a, b) ==> a != b && !Less(b, a)
  {
    if a != [] && b != [] {
      LessIsOrder(a[1..], b[1..]);
      assert a == [a[0]] + a[1..] && b == [b[0]] + b[1..];
    }
  }

  lemma {:induction false} LessIsTransitive(a: Text, b: Text, c: Text)
    requires Less(a, b) && Less(b, c)
    ensures Less(a, c)
  {
    if a != [] && a[0] == b[0] && b[0] == c[0] {
      LessIsTransitive(a[1..], b[1..], c[1..]);
    }
  }

  lemma {:induction false} InsertAdds<T>(f: Field<T>, fs: seq<Field<T>>)
    ensures forall g :: g in Insert(f, fs) ==> g == f || g in fs
  {
    hide Less;
    if fs != [] && Less(fs[0].key, f.key) {
      InsertAdds(f, fs[1..]);
      assert fs == [fs[0]] + fs[1..];
    }
  }

  lemma SortedCons<T>(f: Field<T>, fs: seq<Field<T>>)
    requires Sorted(fs) && forall g :: g in fs ==> Less(f.key, g.key)
    ensures Sorted([f] + fs)
  {
    hide Less;
    assert ([f] + fs)[1..] == fs;
  }

  lemma {:induction false} InsertKeeps<T>(f: Field<T>, fs: seq<Field<T>>)
    requires Sorted(fs) && forall g :: g in fs ==> g.key != f.key
    ensures Sorted(Insert(f, fs))
  {
    hide Less;
    if fs == [] {
      SortedCons(f, fs);
    } else {
      LessIsOrder(fs[0].key, f.key);
      assert fs[0] in fs;
      if Less(fs[0].key, f.key) {
        InsertKeeps(f, fs[1..]);
        InsertAdds(f, fs[1..]);
        var more := Insert(f, fs[1..]);
        forall g | g in more ensures Less(fs[0].key, g.key) {
          assert g == f || g in fs[1..];
        }
        SortedCons(fs[0], more);
      } else {
        forall g | g in fs ensures Less(f.key, g.key) {
          if g != fs[0] {
            assert g in fs[1..];
            LessIsTransitive(f.key, fs[0].key, g.key);
          }
        }
        SortedCons(f, fs);
      }
    }
  }

  lemma {:induction false} SortSorts<T>(fs: seq<Field<T>>)
    requires Distinct(fs)
    ensures Sorted(SortByKey(fs))
    ensures forall g :: g in SortByKey(fs) ==> g in fs
  {
    if fs != [] {
      var tail := fs[1..];
      var sorted := SortByKey(tail);
      SortSorts(tail);
      forall g | g in sorted ensures g.key != fs[0].key {
        assert g in tail;
        var k :| 0 <= k < |tail| && tail[k] == g;
        assert fs[k + 1].key != fs[0].key;
      }
      InsertKeeps(fs[0], SortByKey(tail));
      InsertAdds(fs[0], SortByKey(tail));
      assert fs == [fs[0]] + tail;
    }
  }

  lemma {:induction false} SortedIsDistinct<T>(fs: seq<Field<T>>)
    requires Sorted(fs)
    ensures Distinct(fs)
  {
    if fs != [] {
      SortedIsDistinct(fs[1..]);
      forall g | g in fs[1..] ensures g.key != fs[0].key {
        LessIsOrder(fs[0].key, g.key);
      }
      forall i, j | 0 <= i < j < |fs| ensures fs[i].key != fs[j].key {
        assert fs[j] == fs[1..][j - 1];
        if i > 0 { assert fs[i] == fs[1..][i - 1]; }
      }
    }
  }

  // ----- stringify writes the cleaned value

  lemma {:induction false} StringifyClean(v: Json)
    ensures Stringify(v) == Stringify(Clean(v))
    decreases v, 1
  {
    match v
    case Arr(es) => StringifyCleanElems(es, true);
    case Obj(fs) => StringifyCleanFields(fs, true);
    case _ =>
  }

  lemma {:induction false} StringifyCleanElems(es: seq<Json>, first: bool)
    ensures StringifyElems(es, first) == StringifyElems(CleanElems(es), first)
    decreases es, 0
  {
    if es != [] {
      StringifyClean(es[0]);
      StringifyCleanElems(es[1..], false);
      assert CleanElems(es)[1..] == CleanElems(es[1..]);
    }
  }

  lemma {:induction false} StringifyCleanFields(fs: Fields, first: bool)
    ensures StringifyFields(fs, first) == StringifyFields(CleanFields(fs), first)
    decreases fs, 0
  {
    if fs != [] {
      if Dropped(fs[0].value) {
        StringifyCleanFields(fs[1..], first);
      } else {
        StringifyClean(fs[0].value);
        StringifyCleanFields(fs[1..], false);
        assert CleanFields(fs)[1..] == CleanFields(fs[1..]);
        CleanIsDefined(fs[0].value);
      }
    }
  }

  lemma CleanIsDefined(v: Json)
    ensures !Dropped(Clean(v)) && !Dropped(Normal(v))
  {
  }

  /** Dropping fields introduces no key. */
  lemma {:induction false} CleanKeys(fs: Fields, key: Text)
    requires forall i :: 0 <= i < |fs| ==> fs[i].key != key
    ensures forall i :: 0 <= i < |CleanFields(fs)| ==> CleanFields(fs)[i].key != key
    ensures forall i :: 0 <= i < |NormalFields(fs)| ==> NormalFields(fs)[i].key != key
  {
    if fs != [] {
      CleanKeys(fs[1..], key);
    }
  }

  lemma {:induction false} CleanIsPlain(v: Json)
    requires WellFormed(v)
    ensures Plain(Clean(v))
    decreases v, 1
  {
    match v
    case Arr(es) => CleanElemsPlain(es);
    case Obj(fs) => CleanFieldsPlain(fs);
    case _ =>
  }

  lemma {:induction false} CleanElemsPlain(es: seq<Json>)
    requires forall i :: 0 <= i < |es| ==> WellFormed(es[i])
    ensures forall i :: 0 <= i < |CleanElems(es)| ==> Plain(CleanElems(es)[i])
    decreases es, 0
  {
    if es != [] {
      CleanIsPlain(es[0]);
      CleanElemsPlain(es[1..]);
    }
  }

  lemma {:induction false} CleanFieldsPlain(fs: Fields)
    requires Distinct(fs) && forall i :: 0 <= i < |fs| ==> WellFormed(fs[i].value)
    ensures Distinct(CleanFields(fs))
    ensures forall i :: 0 <= i < |CleanFields(fs)| ==> Plain(CleanFields(fs)[i].value)
    decreases fs, 0
  {
    if fs != [] {
      CleanIsPlain(fs[0].value);
      CleanFieldsPlain(fs[1..]);
      CleanKeys(fs[1..], fs[0].key);
    }
  }

  // ----- canonicalize writes the sorted value

  /** Fields with their values printed. */
  function Printed(fs: Fields): seq<Field<Text>> {
    if fs == [] then [] else [Field(fs[0].key, Stringify(fs[0].value))] + Printed(fs[1..])
  }

  lemma {:induction false} InsertPrinted(f: Field<Json>, fs: Fields)
    ensures Insert(Field(f.key, Stringify(f.value)), Printed(fs)) == Printed(Insert(f, fs))
  {
    hide Stringify, Less;
    if fs == [] || !Less(fs[0].key, f.key) {
      assert ([f] + fs)[1..] == fs;
    } else {
      InsertPrinted(f, fs[1..]);
      assert ([fs[0]] + Insert(f, fs[1..]))[1..] == Insert(f, fs[1..]);
      assert Printed(fs)[1..] == Printed(fs[1..]);
    }
  }

  lemma {:induction false} SortPrinted(fs: Fields)
    ensures SortByKey(Printed(fs)) == Printed(SortByKey(fs))
  {
    hide Stringify;
    if fs != [] {
      SortPrinted(fs[1..]);
      InsertPrinted(fs[0], SortByKey(fs[1..]));
      assert Printed(fs)[1..] == Printed(fs[1..]);
    }
  }

  lemma {:induction false} JoinPrinted(fs: Fields, first: bool)
    requires forall i :: 0 <= i < |fs| ==> !Dropped(fs[i].value)
    ensures JoinMembers(Printed(fs), first) == StringifyFields(fs, first)
  {
    hide Stringify, Member;
    if fs != [] {
      JoinPrinted(fs[1..], false);
      assert Printed(fs)[1..] == Printed(fs[1..]);
    }
  }

  lemma {:induction false} CanonicalizeNormal(v: Json)
    requires WellFormed(v)
    ensures Canonicalize(v) == Stringify(Normal(v))
    decreases v, 1
  {
    match v
    case Arr(es) => CanonicalElemsNormal(es, true);
    case Obj(fs) =>
      CanonicalFieldsNormal(fs);
      SortPrinted(NormalFields(fs));
      NormalFieldsFacts(fs);
      SortSorts(NormalFields(fs));
      var sorted := SortByKey(NormalFields(fs));
      forall i | 0 <= i < |sorted| ensures !Dropped(sorted[i].value) {
        assert sorted[i] in sorted;
      }
      JoinPrinted(sorted, true);
    case _ =>
  }

  lemma {:induction false} CanonicalElemsNormal(es: seq<Json>, first: bool)
    requires forall i :: 0 <= i < |es| ==> WellFormed(es[i])
    ensures CanonicalElems(es, first) == StringifyElems(NormalElems(es), first)
    decreases es, 0
  {
    if es != [] {
      CanonicalizeNormal(es[0]);
      CanonicalElemsNormal(es[1..], false);
      assert NormalElems(es)[1..] == NormalElems(es[1..]);
    }
  }

  lemma {:induction false} CanonicalFieldsNormal(fs: Fields)
    requires forall i :: 0 <= i < |fs| ==> WellFormed(fs[i].value)
    ensures CanonicalFields(fs) == Printed(NormalFields(fs))
    decreases fs, 0
  {
    if fs != [] {
      CanonicalFieldsNormal(fs[1..]);
      if !fs[0].value.Undef? {
        CanonicalizeNormal(fs[0].value);
        assert NormalFields(fs)[1..] == NormalFields(fs[1..]);
      }
    }
  }

  lemma {:induction false} NormalFieldsFacts(fs: Fields)
    requires Distinct(fs)
    ensures Distinct(NormalFields(fs))
    ensures forall g :: g in NormalFields(fs) ==> !Dropped(g.value)
  {
    if fs != [] {
      NormalFieldsFacts(fs[1..]);
      CleanKeys(fs[1..], fs[0].key);
      CleanIsDefined(fs[0].value);
    }
  }

  // ----- normal values

  /** Cleaned, and sorted everywhere. */
  ghost predicate Tidy(v: Json) {
    match v
    case Undef | NonFinite | Func | Date(_) => false
    case Arr(es) => forall i :: 0 <= i < |es| ==> Tidy(es[i])
    case Obj(fs) => Sorted(fs) && forall i :: 0 <= i < |fs| ==> Tidy(fs[i].value)
    case _ => true
  }

  lemma {:induction false} NormalIsTidy(v: Json)
    requires WellFormed(v)
    ensures Tidy(Normal(v))
    decreases v, 1
  {
    match v
    case Arr(es) => NormalElemsTidy(es);
    case Obj(fs) =>
      NormalFieldsTidy(fs);
      NormalFieldsFacts(fs);
      SortSorts(NormalFields(fs));
      var sorted := SortByKey(NormalFields(fs));
      forall i | 0 <= i < |sorted| ensures Tidy(sorted[i].value) {
        assert sorted[i] in sorted;
      }
    case _ =>
  }

  lemma {:induction false} NormalElemsTidy(es: seq<Json>)
    requires forall i :: 0 <= i < |es| ==> WellFormed(es[i])
    ensures forall i :: 0 <= i < |NormalElems(es)| ==> Tidy(NormalElems(es)[i])
    decreases es, 0
  {
    if es != [] {
      NormalIsTidy(es[0]);
      NormalElemsTidy(es[1..]);
    }
  }

  lemma {:induction false} NormalFieldsTidy(fs: Fields)
    requires forall i :: 0 <= i < |fs| ==> WellFormed(fs[i].value)
    ensures forall g :: g in NormalFields(fs) ==> Tidy(g.value)
    decreases fs, 0
  {
    if fs != [] {
      NormalIsTidy(fs[0].value);
      NormalFieldsTidy(fs[1..]);
    }
  }

  lemma {:induction false} TidyIsPlain(v: Json)
    requires Tidy(v)
    ensures Plain(v)
  {
    match v
    case Arr(es) =>
      forall i | 0 <= i < |es| ensures Plain(es[i]) { TidyIsPlain(es[i]); }
    case Obj(fs) =>
      SortedIsDistinct(fs);
      forall i | 0 <= i < |fs| ensures Plain(fs[i].value) { TidyIsPlain(fs[i].value); }
    case _ =>
  }

  // ----- sorting keeps the meaning

  lemma {:induction false} InsertMeaning(f: Field<Json>, fs: Fields)
    requires !f.value.Undef? && forall i :: 0 <= i < |fs| ==> fs[i].key != f.key
    ensures FieldMeanings(Insert(f, fs)) == FieldMeanings(fs)[f.key := MeaningOf(f.value)]
  {
    hide MeaningOf, Less;
    if fs != [] && Less(fs[0].key, f.key) {
      InsertMeaning(f, fs[1..]);
      assert ([fs[0]] + Insert(f, fs[1..]))[1..] == Insert(f, fs[1..]);
    } else {
      assert ([f] + fs)[1..] == fs;
    }
  }

  lemma {:induction false} SortMeaning(fs: Fields)
    requires Distinct(fs) && forall i :: 0 <= i < |fs| ==> !fs[i].value.Undef?
    ensures FieldMeanings(SortByKey(fs)) == FieldMeanings(fs)
  {
    if fs != [] {
      var tail := fs[1..];
      SortMeaning(tail);
      SortSorts(tail);
      var sorted := SortByKey(tail);
      forall i | 0 <= i < |sorted| ensures sorted[i].key != fs[0].key {
        assert sorted[i] in sorted;
        var k :| 0 <= k < |tail| && tail[k] == sorted[i];
        assert fs[k + 1].key != fs[0].key;
      }
      InsertMeaning(fs[0], sorted);
    }
  }

  lemma {:induction false} NormalMeaning(v: Json)
    requires WellFormed(v)
    ensures MeaningOf(Normal(v)) == MeaningOf(v)
    decreases v, 1
  {
    match v
    case Arr(es) => NormalElemMeanings(es);
    case Obj(fs) =>
      NormalFieldMeanings(fs);
      NormalFieldsFacts(fs);
      forall i | 0 <= i < |NormalFields(fs)| ensures !NormalFields(fs)[i].value.Undef? {
        assert NormalFields(fs)[i] in NormalFields(fs);
      }
      SortMeaning(NormalFields(fs));
    case _ =>
  }

  lemma {:induction false} NormalElemMeanings(es: seq<Json>)
    requires forall i :: 0 <= i < |es| ==> WellFormed(es[i])
    ensures ElemMeanings(NormalElems(es)) == ElemMeanings(es)
    decreases es, 0
  {
    if es != [] {
      NormalMeaning(es[0]);
      NormalElemMeanings(es[1..]);
      assert NormalElems(es)[1..] == NormalElems(es[1..]);
    }
  }

  lemma {:induction false} NormalFieldMeanings(fs: Fields)
    requires forall i :: 0 <= i < |fs| ==> WellFormed(fs[i].value)
    ensures FieldMeanings(NormalFields(fs)) == FieldMeanings(fs)
    decreases fs, 0
  {
    if fs != [] {
      NormalFieldMeanings(fs[1..]);
      if !fs[0].value.Undef? {
        NormalMeaning(fs[0].value);
        CleanIsDefined(fs[0].value);
        assert NormalFields(fs)[1..] == NormalFields(fs[1..]);
      }
    }
  }

  // ----- what stringify does not keep

  /** No date anywhere, and no function or symbol but as an element: those are what JSON.stringify and
      canonicalize do not agree on. */
  predicate Portable(v: Json)
    decreases v, 0
  {
    match v
    case Date(_) => false
    case Arr(es) => forall i :: 0 <= i < |es| ==> Portable(es[i])
    case Obj(fs) => forall i :: 0 <= i < |fs| ==> PortableField(fs[i].value)
    case _ => true
  }

  predicate PortableField(v: Json)
    decreases v, 1
  {
    !v.Func? && Portable(v)
  }

  lemma {:induction false} CleanMeaning(v: Json)
    requires WellFormed(v)
    ensures MeaningOf(Clean(v)) == MeaningOf(v) <==> Portable(v)
    decreases v, 1
  {
    match v
    case Arr(es) => CleanElemMeanings(es);
    case Obj(fs) => CleanFieldMeanings(fs);
    case _ =>
  }

  lemma {:induction false} CleanElemMeanings(es: seq<Json>)
    requires forall i :: 0 <= i < |es| ==> WellFormed(es[i])
    ensures ElemMeanings(CleanElems(es)) == ElemMeanings(es) <==> forall i :: 0 <= i < |es| ==> Portable(es[i])
    decreases es, 0
  {
    if es != [] {
      var tail := es[1..];
      CleanMeaning(es[0]);
      CleanElemMeanings(tail);
      hide MeaningOf, Clean, Portable;
      assert CleanElems(es)[1..] == CleanElems(tail);
      SameCons(MeaningOf(Clean(es[0])), ElemMeanings(CleanElems(tail)), MeaningOf(es[0]), ElemMeanings(tail));
      assert forall i :: 0 < i < |es| ==> es[i] == tail[i - 1];
      assert forall i :: 0 <= i < |tail| ==> tail[i] == es[i + 1];
    }
  }

  lemma SameCons<T>(x: T, xs: seq<T>, y: T, ys: seq<T>)
    ensures [x] + xs == [y] + ys <==> x == y && xs == ys
  {
    if [x] + xs == [y] + ys {
      assert ([x] + xs)[0] == ([y] + ys)[0] && ([x] + xs)[1..] == ([y] + ys)[1..];
    }
  }

  lemma {:induction false} NoMeaning(fs: Fields, key: Text)
    requires forall i :: 0 <= i < |fs| ==> fs[i].key != key
    ensures key !in FieldMeanings(fs)
  {
    hide MeaningOf;
    if fs != [] { NoMeaning(fs[1..], key); }
  }

  lemma SamePut(a: map<Text, Meaning>, b: map<Text, Meaning>, key: Text, x: Meaning, y: Meaning)
    requires key !in a && key !in b
    ensures a[key := x] == b[key := y] <==> a == b && x == y
  {
    if a[key := x] == b[key := y] {
      assert a[key := x][key] == b[key := y][key];
      assert a == a[key := x] - {key} && b == b[key := y] - {key};
    }
  }

  lemma {:induction false} CleanFieldMeanings(fs: Fields)
    requires Distinct(fs) && forall i :: 0 <= i < |fs| ==> WellFormed(fs[i].value)
    ensures FieldMeanings(CleanFields(fs)) == FieldMeanings(fs) <==> forall i :: 0 <= i < |fs| ==> PortableField(fs[i].value)
    decreases fs, 0
  {
    if fs != [] {
      var tail, f := fs[1..], fs[0];
      CleanMeaning(f.value);
      CleanFieldMeanings(tail);
      CleanKeys(tail, f.key);
      NoMeaning(tail, f.key);
      NoMeaning(CleanFields(tail), f.key);
      CleanIsDefined(f.value);
      assert forall i :: 0 < i < |fs| ==> fs[i] == tail[i - 1];
      assert forall i :: 0 <= i < |tail| ==> tail[i] == fs[i + 1];
      OneFieldMore(fs, CleanFields(tail));
      if !Dropped(f.value) {
        SamePut(FieldMeanings(CleanFields(tail)), FieldMeanings(tail), f.key, MeaningOf(Clean(f.value)), MeaningOf(f.value));
      }
      hide MeaningOf, Clean, Portable, FieldMeanings, CleanFields, WellFormed;
    }
  }

  lemma OneFieldMore(fs: Fields, clean: Fields)
    requires fs != [] && clean == CleanFields(fs[1..])
    ensures Dropped(fs[0].value) ==> FieldMeanings(CleanFields(fs)) == FieldMeanings(clean)
    ensures !Dropped(fs[0].value) ==> FieldMeanings(CleanFields(fs)) == FieldMeanings(clean)[fs[0].key := MeaningOf(Clean(fs[0].value))]
    ensures fs[0].value.Undef? ==> FieldMeanings(fs) == FieldMeanings(fs[1..])
    ensures !fs[0].value.Undef? ==> FieldMeanings(fs) == FieldMeanings(fs[1..])[fs[0].key := MeaningOf(fs[0].value)]
  {
    hide MeaningOf, Clean;
    CleanIsDefined(fs[0].value);
    assert CleanFields(fs) == if Dropped(fs[0].value) then clean else [Field(fs[0].key, Clean(fs[0].value))] + clean;
  }

  // ----- a tidy value is determined by its meaning

  lemma {:induction false} MeaningKeys(fs: Fields, key: Text)
    requires forall i :: 0 <= i < |fs| ==> !fs[i].value.Undef?
    ensures key in FieldMeanings(fs) <==> exists i :: 0 <= i < |fs| && fs[i].key == key
  {
    hide MeaningOf;
    if fs != [] {
      MeaningKeys(fs[1..], key);
      if key in FieldMeanings(fs[1..]) {
        var i :| 0 <= i < |fs[1..]| && fs[1..][i].key == key;
        assert fs[i + 1].key == key;
      }
      if i :| 0 <= i < |fs| && fs[i].key == key && i > 0 {
        assert fs[1..][i - 1].key == key;
      }
    }
  }

  /** The first field of a sorted object has the least key of its meaning. */
  lemma FirstIsLeast(fs: Fields, key: Text)
    requires fs != [] && Sorted(fs) && forall i :: 0 <= i < |fs| ==> !fs[i].value.Undef?
    ensures fs[0].key in FieldMeanings(fs)
    ensures key in FieldMeanings(fs) ==> key == fs[0].key || Less(fs[0].key, key)
  {
    MeaningKeys(fs, fs[0].key);
    MeaningKeys(fs, key);
    if key in FieldMeanings(fs) {
      var i :| 0 <= i < |fs| && fs[i].key == key;
      if i > 0 {
        assert fs[i] == fs[1..][i - 1];
      }
    }
  }

  lemma {:induction false} TidyDetermined(a: Json, b: Json)
    requires Tidy(a) && Tidy(b) && MeaningOf(a) == MeaningOf(b)
    ensures a == b
    decreases a, 1
  {
    match a
    case Arr(es) => TidyElemsDetermined(es, b.elems);
    case Obj(fs) => TidyFieldsDetermined(fs, b.fields);
    case _ =>
  }

  lemma {:induction false} TidyElemsDetermined(es: seq<Json>, fs: seq<Json>)
    requires forall i :: 0 <= i < |es| ==> Tidy(es[i])
    requires forall i :: 0 <= i < |fs| ==> Tidy(fs[i])
    requires ElemMeanings(es) == ElemMeanings(fs)
    ensures es == fs
    decreases es, 0
  {
    if es != [] {
      assert ElemMeanings(es)[0] == MeaningOf(es[0]) && ElemMeanings(fs)[0] == MeaningOf(fs[0]);
      assert ElemMeanings(es)[1..] == ElemMeanings(es[1..]) && ElemMeanings(fs)[1..] == ElemMeanings(fs[1..]);
      TidyDetermined(es[0], fs[0]);
      TidyElemsDetermined(es[1..], fs[1..]);
      assert es == [es[0]] + es[1..] && fs == [fs[0]] + fs[1..];
    }
  }

  lemma {:induction false} TidyFieldsDetermined(fs: Fields, gs: Fields)
    requires Sorted(fs) && forall i :: 0 <= i < |fs| ==> Tidy(fs[i].value)
    requires Sorted(gs) && forall i :: 0 <= i < |gs| ==> Tidy(gs[i].value)
    requires FieldMeanings(fs) == FieldMeanings(gs)
    ensures fs == gs
    decreases fs, 0
  {
    if fs == [] || gs == [] {
      if fs != [] { FirstIsLeast(fs, []); }
      if gs != [] { FirstIsLeast(gs, []); }
    } else {
      var key := fs[0].key;
      FirstIsLeast(fs, gs[0].key);
      FirstIsLeast(gs, key);
      LessIsOrder(key, gs[0].key);
      TailMeanings(fs);
      TailMeanings(gs);
      TidyDetermined(fs[0].value, gs[0].value);
      TidyFieldsDetermined(fs[1..], gs[1..]);
      assert fs == [fs[0]] + fs[1..] && gs == [gs[0]] + gs[1..];
    }
  }

  lemma TailMeanings(fs: Fields)
    requires fs != [] && Sorted(fs) && forall i :: 0 <= i < |fs| ==> !fs[i].value.Undef?
    ensures FieldMeanings(fs[1..]) == FieldMeanings(fs) - {fs[0].key}
    ensures fs[0].key in FieldMeanings(fs) && FieldMeanings(fs)[fs[0].key] == MeaningOf(fs[0].value)
  {
    hide MeaningOf, Sorted;
    SortedIsDistinct(fs);
    var tail, key := fs[1..], fs[0].key;
    MeaningKeys(tail, key);
    assert forall i :: 0 <= i < |tail| ==> tail[i] == fs[i + 1];
    assert key !in FieldMeanings(tail);
  }

  // ----- the theorems

  /** Two values print alike exactly when they are equal after dropping undefined fields, reading
      undefined elements and non-finite numbers as null, and ignoring the order of keys. */
  lemma CanonicalizeIsFaithful(a: Json, b: Json)
    requires WellFormed(a) && WellFormed(b)
    ensures Canonicalize(a) == Canonicalize(b) <==> MeaningOf(a) == MeaningOf(b)
  {
    CanonicalizeNormal(a);
    CanonicalizeNormal(b);
    NormalIsTidy(a);
    NormalIsTidy(b);
    NormalMeaning(a);
    NormalMeaning(b);
    if Canonicalize(a) == Canonicalize(b) {
      TidyIsPlain(Normal(a));
      TidyIsPlain(Normal(b));
      RoundTrip(Normal(a));
      RoundTrip(Normal(b));
    }
    if MeaningOf(a) == MeaningOf(b) {
      TidyDetermined(Normal(a), Normal(b));
    }
  }

  /** JSON.parse(JSON.stringify(v)) prints canonically as v does, so that a record read back from its
      line hashes the same, exactly if there is no date in it and no field is a function. */
  lemma ReparseKeepsCanonical(v: Json)
    requires WellFormed(v)
    ensures Parse(Stringify(v)) == Some(Clean(v)) && Plain(Clean(v))
    ensures Canonicalize(Clean(v)) == Canonicalize(v) <==> Portable(v)
  {
    StringifyClean(v);
    CleanIsPlain(v);
    RoundTrip(Clean(v));
    CleanMeaning(v);
    PlainIsWellFormed(Clean(v));
    CanonicalizeIsFaithful(Clean(v), v);
  }

  lemma {:induction false} PlainIsWellFormed(v: Json)
    requires Plain(v)
    ensures WellFormed(v)
  {
    match v
    case Arr(es) =>
      forall i | 0 <= i < |es| ensures WellFormed(es[i]) { PlainIsWellFormed(es[i]); }
    case Obj(fs) =>
      forall i | 0 <= i < |fs| ensures WellFormed(fs[i].value) { PlainIsWellFormed(fs[i].value); }
    case _ =>
  }
}
