/** What the audit sink makes of a caller's values before it hashes and writes them. */
module Redact {
  import opened Wrappers
  import opened Numbers
  import opened Texts
  import opened Json
  import opened JsonCanonical

  const MAX_DEPTH := 8

  /** "[redacted]". */
  const REDACTED: Text := [91, 114, 101, 100, 97, 99, 116, 101, 100, 93]

  /** `secret` is the test on keys; the others are the wording of the markers. */
  datatype Options = Options(
    maxString: nat,
    maxArray: nat,
    secret: Text -> bool,
    tooLong: Text -> Text,
    moreItems: nat -> Text,
    described: Text,
    tooDeep: Text)

  /** `walk`; None if it throws, as it does on an invalid date. */
  function Walk(o: Options, v: Json, depth: nat): Option<Json>
    decreases v, 1
  {
    match v
    case Str(s) => Some(Str(if |s| > o.maxString then o.tooLong(s) else s))
    case Func => Some(Str(o.described))
    case Date(iso) =>
      if depth >= MAX_DEPTH then Some(Str(o.tooDeep))
      else if iso.Some? then Some(Str(iso.value))
      else None
    case Arr(es) =>
      if depth >= MAX_DEPTH then Some(Str(o.tooDeep)) else
      var head := WalkElems(o, es, o.maxArray, depth + 1);
      if head.None? then None
      else Some(Arr(head.value + (if |es| > o.maxArray then [Str(o.moreItems(|es| - o.maxArray))] else [])))
    case Obj(fs) =>
      if depth >= MAX_DEPTH then Some(Str(o.tooDeep)) else
      var fields := WalkFields(o, fs, depth + 1);
      if fields.None? then None else Some(Obj(fields.value))
    case _ => Some(v)
  }

  /** The first `n` items. */
  function WalkElems(o: Options, es: seq<Json>, n: nat, depth: nat): (r: Option<seq<Json>>)
    ensures r.Some? ==> |r.value| == Min(n, |es|)
    decreases es, 0
  {
    if es == [] || n == 0 then Some([]) else
    var first, rest := Walk(o, es[0], depth), WalkElems(o, es[1..], n - 1, depth);
    if first.None? || rest.None? then None else Some([first.value] + rest.value)
  }

  function WalkFields(o: Options, fs: Fields, depth: nat): Option<Fields>
    decreases fs, 0
  {
    if fs == [] then Some([]) else
    var value := if o.secret(fs[0].key) then Some(Str(REDACTED)) else Walk(o, fs[0].value, depth);
    var rest := WalkFields(o, fs[1..], depth);
    if value.None? || rest.None? then None else Some([Field(fs[0].key, value.value)] + rest.value)
  }

  // ----- what it is for

  /** Whatever has a secret key is replaced, everywhere. */
  predicate Hidden(o: Options, v: Json) {
    match v
    case Arr(es) => forall i :: 0 <= i < |es| ==> Hidden(o, es[i])
    case Obj(fs) => forall i :: 0 <= i < |fs| ==> (o.secret(fs[i].key) ==> fs[i].value == Str(REDACTED)) && Hidden(o, fs[i].value)
    case _ => true
  }

  /** Arrays and objects are nested no deeper than this, and no array has more than one item, a
      marker, beyond the limit. */
  predicate Bounded(o: Options, v: Json, depth: nat) {
    match v
    case Arr(es) => depth > 0 && |es| <= o.maxArray + 1 && forall i :: 0 <= i < |es| ==> Bounded(o, es[i], depth - 1)
    case Obj(fs) => depth > 0 && forall i :: 0 <= i < |fs| ==> Bounded(o, fs[i].value, depth - 1)
    case _ => true
  }

  predicate Fit(o: Options, v: Json, depth: nat) {
    WellFormed(v) && PortableField(v) && Hidden(o, v) && Bounded(o, v, depth)
  }

  /** Whatever a caller passes: what is written is a value its line can say, hides what has a secret
      key, and is bounded in depth. */
  lemma {:induction false} RedactedIsFit(o: Options, v: Json, depth: nat)
    requires WellFormed(v) && depth <= MAX_DEPTH && Walk(o, v, depth).Some?
    ensures Fit(o, Walk(o, v, depth).value, MAX_DEPTH - depth)
    decreases v, 1
  {
    var r := Walk(o, v, depth).value;
    if v.Arr? && depth < MAX_DEPTH {
      ElemsFit(o, v.elems, o.maxArray, depth + 1);
      var head := WalkElems(o, v.elems, o.maxArray, depth + 1).value;
      hide WalkElems, Fit;
      ArrIsFit(o, r.elems, |head|, MAX_DEPTH - depth);
    } else if v.Obj? && depth < MAX_DEPTH {
      FieldsFit(o, v.fields, depth + 1);
      hide WalkFields, Fit;
      SameKeys(v.fields, r.fields);
      ObjIsFit(o, r.fields, MAX_DEPTH - depth);
    } else {
      LeafIsFit(o, r, MAX_DEPTH - depth);
    }
  }

  lemma LeafIsFit(o: Options, v: Json, depth: nat)
    requires !v.Arr? && !v.Obj? && !v.Func? && !v.Date?
    ensures Fit(o, v, depth)
  {
  }

  lemma SameKeys(fs: Fields, gs: Fields)
    requires Distinct(fs) && |fs| == |gs| && forall i :: 0 <= i < |fs| ==> gs[i].key == fs[i].key
    ensures Distinct(gs)
  {
  }

  lemma ArrIsFit(o: Options, es: seq<Json>, n: nat, depth: nat)
    requires depth > 0 && n <= |es| <= n + 1 <= o.maxArray + 1
    requires (forall i :: 0 <= i < n ==> Fit(o, es[i], depth - 1)) && (|es| > n ==> es[n].Str?)
    ensures Fit(o, Arr(es), depth)
  {
    assert |es| > n ==> Fit(o, es[n], depth - 1);
    assert forall i :: 0 <= i < |es| ==> Fit(o, es[i], depth - 1);
  }

  lemma ObjIsFit(o: Options, fs: Fields, depth: nat)
    requires depth > 0 && Distinct(fs)
    requires forall i :: 0 <= i < |fs| ==> Fit(o, fs[i].value, depth - 1) && (o.secret(fs[i].key) ==> fs[i].value == Str(REDACTED))
    ensures Fit(o, Obj(fs), depth)
  {
    var v: Json := Obj(fs);
    assert forall i :: 0 <= i < |fs| ==> WellFormed(fs[i].value) && PortableField(fs[i].value) && Hidden(o, fs[i].value) && Bounded(o, fs[i].value, depth - 1);
    assert WellFormed(v);
    assert Portable(v);
    assert Hidden(o, v);
    assert Bounded(o, v, depth);
  }

  lemma {:induction false} ElemsFit(o: Options, es: seq<Json>, n: nat, depth: nat)
    requires depth <= MAX_DEPTH && WalkElems(o, es, n, depth).Some? && forall i :: 0 <= i < |es| ==> WellFormed(es[i])
    ensures var r := WalkElems(o, es, n, depth).value; forall i :: 0 <= i < |r| ==> Fit(o, r[i], MAX_DEPTH - depth)
    decreases es, 0
  {
    hide Fit;
    if es != [] && n > 0 {
      RedactedIsFit(o, es[0], depth);
      ElemsFit(o, es[1..], n - 1, depth);
    }
  }

  lemma {:induction false} FieldsFit(o: Options, fs: Fields, depth: nat)
    requires depth <= MAX_DEPTH && WalkFields(o, fs, depth).Some?
    requires Distinct(fs) && forall i :: 0 <= i < |fs| ==> WellFormed(fs[i].value)
    ensures var r := WalkFields(o, fs, depth).value;
      && |r| == |fs| && (forall i :: 0 <= i < |fs| ==> r[i].key == fs[i].key)
      && forall i :: 0 <= i < |r| ==> Fit(o, r[i].value, MAX_DEPTH - depth) && (o.secret(r[i].key) ==> r[i].value == Str(REDACTED))
    decreases fs, 0
  {
    if fs != [] {
      if !o.secret(fs[0].key) { RedactedIsFit(o, fs[0].value, depth); }
      assert Fit(o, Str(REDACTED), MAX_DEPTH - depth);
      hide Fit, Walk;
      FieldsFit(o, fs[1..], depth);
    }
  }

  /** So an event of plain fields, with such a value for its extras, is one the log can hold. */
  lemma RedactedIsPortable(o: Options, v: Json)
    requires WellFormed(v) && Walk(o, v, 0).Some?
    ensures Portable(Walk(o, v, 0).value) && Parse(Stringify(Walk(o, v, 0).value)).Some?
    ensures Canonicalize(Clean(Walk(o, v, 0).value)) == Canonicalize(Walk(o, v, 0).value)
  {
    RedactedIsFit(o, v, 0);
    hide Walk;
    ReparseKeepsCanonical(Walk(o, v, 0).value);
  }
}
