/** JSON as the audit log uses it: JSON.stringify, JSON.parse and the sorted-key printer
    canonicalize, over trees that may hold undefined. */
module Json {
  import opened Wrappers
  import opened Texts

  const QUOTE: Unit := 34
  const PLUS: Unit := 43
  const COMMA: Unit := 44
  const MINUS: Unit := 45
  const DOT: Unit := 46
  const SLASH: Unit := 47
  const COLON: Unit := 58
  const LBRACKET: Unit := 91
  const BACKSLASH: Unit := 92
  const RBRACKET: Unit := 93
  const LOWER_U: Unit := 117
  const LBRACE: Unit := 123
  const RBRACE: Unit := 125

  const NULL: Text := [110, 117, 108, 108]
  const TRUE: Text := [116, 114, 117, 101]
  const FALSE: Text := [102, 97, 108, 115, 101]

  // ----- numbers, as the text JavaScript spells them with

  datatype Scan = Start | Neg | Zero | Int | Dot | Frac | Exp | ExpSign | ExpInt | Bad

  function ScanNext(s: Scan, u: Unit): Scan {
    match s
    case Start => if u == MINUS then Neg else if u == 48 then Zero else if IsDigit(u) then Int else Bad
    case Neg => if u == 48 then Zero else if IsDigit(u) then Int else Bad
    case Zero => if u == DOT then Dot else if u == 101 || u == 69 then Exp else Bad
    case Int => if IsDigit(u) then Int else if u == DOT then Dot else if u == 101 || u == 69 then Exp else Bad
    case Dot => if IsDigit(u) then Frac else Bad
    case Frac => if IsDigit(u) then Frac else if u == 101 || u == 69 then Exp else Bad
    case Exp => if IsDigit(u) then ExpInt else if u == PLUS || u == MINUS then ExpSign else Bad
    case ExpSign => if IsDigit(u) then ExpInt else Bad
    case ExpInt => if IsDigit(u) then ExpInt else Bad
    case Bad => Bad
  }

  function ScanAll(t: Text): Scan {
    if t == [] then Start else ScanNext(ScanAll(t[..|t| - 1]), t[|t| - 1])
  }

  /** The number grammar of JSON. */
  predicate IsNumber(t: Text) {
    var s := ScanAll(t);
    s.Zero? || s.Int? || s.Frac? || s.ExpInt?
  }

  predicate IsNumUnit(u: Unit) {
    IsDigit(u) || u == PLUS || u == MINUS || u == DOT || u == 101 || u == 69
  }

  type NumText = t: Text | IsNumber(t) witness [48]

  // ----- values

  /** `NonFinite` is NaN or an infinity, `Undef` undefined, `Func` a function or a symbol, and `Date`
      a date, with what its toJSON gives; an invalid one gives null. The fields of an object are in
      insertion order. */
  datatype Json =
    | Undef
    | Null
    | Bool(b: bool)
    | Num(n: NumText)
    | NonFinite
    | Str(s: Text)
    | Arr(elems: seq<Json>)
    | Obj(fields: Fields)
    | Func
    | Date(iso: Option<Text>)

  datatype Field<T> = Field(key: Text, value: T)

  type Fields = seq<Field<Json>>

  predicate Distinct<T>(fs: seq<Field<T>>) {
    forall i, j :: 0 <= i < j < |fs| ==> fs[i].key != fs[j].key
  }

  /** No object has the same key twice: what every JavaScript value satisfies. */
  predicate WellFormed(v: Json) {
    match v
    case Arr(es) => forall i :: 0 <= i < |es| ==> WellFormed(es[i])
    case Obj(fs) => Distinct(fs) && forall i :: 0 <= i < |fs| ==> WellFormed(fs[i].value)
    case _ => true
  }

  /** What JSON text can say: no undefined, non-finite number, function or date anywhere. */
  predicate Plain(v: Json) {
    match v
    case Undef | NonFinite | Func | Date(_) => false
    case Arr(es) => forall i :: 0 <= i < |es| ==> Plain(es[i])
    case Obj(fs) => Distinct(fs) && forall i :: 0 <= i < |fs| ==> Plain(fs[i].value)
    case _ => true
  }

  // ----- printing

  function Hex(d: int): Unit
    requires 0 <= d < 16
  {
    if d < 10 then 48 + d else 87 + d
  }

  function EscapeUnit(u: Unit): Text {
    if u == QUOTE || u == BACKSLASH then [BACKSLASH, u]
    else if u == 8 then [BACKSLASH, 98]
    else if u == 9 then [BACKSLASH, 116]
    else if u == 10 then [BACKSLASH, 110]
    else if u == 12 then [BACKSLASH, 102]
    else if u == 13 then [BACKSLASH, 114]
    else if u < 32 || 0xD800 <= u < 0xE000 then
      [BACKSLASH, LOWER_U, Hex(u / 0x1000), Hex(u / 0x100 % 16), Hex(u / 16 % 16), Hex(u % 16)]
    else [u]
  }

  predicate IsPair(s: Text) {
    |s| >= 2 && 0xD800 <= s[0] < 0xDC00 && 0xDC00 <= s[1] < 0xE000
  }

  /** The inside of a string literal: a surrogate pair is printed as it is, a lone surrogate is
      escaped. */
  function Escaped(s: Text): Text {
    if s == [] then []
    else if IsPair(s) then [s[0], s[1]] + Escaped(s[2..])
    else EscapeUnit(s[0]) + Escaped(s[1..])
  }

  function Quoted(s: Text): Text {
    [QUOTE] + Escaped(s) + [QUOTE]
  }

  /** JSON.stringify(v) ?? "null". */
  function Stringify(v: Json): Text {
    match v
    case Undef => NULL
    case Null => NULL
    case NonFinite => NULL
    case Func => NULL
    case Date(iso) => if iso.Some? then Quoted(iso.value) else NULL
    case Bool(b) => if b then TRUE else FALSE
    case Num(n) => n
    case Str(s) => Quoted(s)
    case Arr(es) => [LBRACKET] + StringifyElems(es, true) + [RBRACKET]
    case Obj(fs) => [LBRACE] + StringifyFields(fs, true) + [RBRACE]
  }

  /** JSON.stringify leaves out a field with such a value. */
  predicate Dropped(v: Json) {
    v.Undef? || v.Func?
  }

  function Separator(first: bool): Text {
    if first then [] else [COMMA]
  }

  function StringifyElems(es: seq<Json>, first: bool): Text {
    if es == [] then [] else Separator(first) + Stringify(es[0]) + StringifyElems(es[1..], false)
  }

  function Member(key: Text, value: Text): Text {
    Quoted(key) + [COLON] + value
  }

  function StringifyFields(fs: Fields, first: bool): Text {
    if fs == [] then []
    else if Dropped(fs[0].value) then StringifyFields(fs[1..], first)
    else Separator(first) + Member(fs[0].key, Stringify(fs[0].value)) + StringifyFields(fs[1..], false)
  }

  // ----- canonicalize

  /** `a < b` on JavaScript strings: by code unit. */
  predicate Less(a: Text, b: Text) {
    if b == [] then false
    else if a == [] then true
    else if a[0] != b[0] then a[0] < b[0]
    else Less(a[1..], b[1..])
  }

  function Insert<T>(f: Field<T>, fs: seq<Field<T>>): seq<Field<T>> {
    if fs == [] || !Less(fs[0].key, f.key) then [f] + fs else [fs[0]] + Insert(f, fs[1..])
  }

  function SortByKey<T>(fs: seq<Field<T>>): seq<Field<T>> {
    if fs == [] then [] else Insert(fs[0], SortByKey(fs[1..]))
  }

  function Canonicalize(v: Json): Text {
    match v
    case Arr(es) => [LBRACKET] + CanonicalElems(es, true) + [RBRACKET]
    case Obj(fs) => [LBRACE] + JoinMembers(SortByKey(CanonicalFields(fs)), true) + [RBRACE]
    case Date(_) => [LBRACE, RBRACE]
    case _ => Stringify(v)
  }

  function CanonicalElems(es: seq<Json>, first: bool): Text {
    if es == [] then [] else Separator(first) + Canonicalize(es[0]) + CanonicalElems(es[1..], false)
  }

  /** The defined entries, each value already printed. */
  function CanonicalFields(fs: Fields): seq<Field<Text>> {
    if fs == [] then []
    else if fs[0].value.Undef? then CanonicalFields(fs[1..])
    else [Field(fs[0].key, Canonicalize(fs[0].value))] + CanonicalFields(fs[1..])
  }

  function JoinMembers(ms: seq<Field<Text>>, first: bool): Text {
    if ms == [] then [] else Separator(first) + Member(ms[0].key, ms[0].value) + JoinMembers(ms[1..], false)
  }

  // ----- parsing

  datatype Parsed<+T> = Fail | Done(value: T, rest: Text)

  function HexValue(u: Unit): (r: Option<nat>)
    ensures r.Some? ==> r.value < 16
  {
    if IsDigit(u) then Some(u - 48)
    else if 97 <= u <= 102 then Some(u - 87)
    else if 65 <= u <= 70 then Some(u - 55)
    else None
  }

  /** One escape sequence, with its backslash. */
  function ParseEscape(t: Text): (r: Parsed<Unit>)
    ensures r.Done? ==> |r.rest| < |t|
  {
    if |t| < 2 || t[0] != BACKSLASH then Fail
    else if t[1] == QUOTE || t[1] == BACKSLASH || t[1] == SLASH then Done(t[1], t[2..])
    else if t[1] == 98 then Done(8, t[2..])
    else if t[1] == 116 then Done(9, t[2..])
    else if t[1] == 110 then Done(10, t[2..])
    else if t[1] == 102 then Done(12, t[2..])
    else if t[1] == 114 then Done(13, t[2..])
    else if t[1] == LOWER_U && |t| >= 6 then
      match (HexValue(t[2]), HexValue(t[3]), HexValue(t[4]), HexValue(t[5]))
      case (Some(a), Some(b), Some(c), Some(d)) =>
        Done(a * 0x1000 + b * 0x100 + c * 16 + d, t[6..])
      case _ => Fail
    else Fail
  }

  /** The rest of a string literal, after its opening quote. */
  function ParseString(t: Text): (r: Parsed<Text>)
    ensures r.Done? ==> |r.rest| < |t|
  {
    if t == [] || t[0] < 32 then Fail
    else if t[0] == QUOTE then Done([], t[1..])
    else
      var one := if t[0] == BACKSLASH then ParseEscape(t) else Done(t[0], t[1..]);
      if one.Fail? then Fail else
      var more := ParseString(one.rest);
      if more.Fail? then Fail else Done([one.value] + more.value, more.rest)
  }

  function SkipSpace(t: Text): (r: Text)
    ensures |r| <= |t|
  {
    if t != [] && (t[0] == 32 || t[0] == 9 || t[0] == 10 || t[0] == 13) then SkipSpace(t[1..]) else t
  }

  /** How many number characters `t` starts with. */
  function NumSpan(t: Text): (n: nat)
    ensures n <= |t|
  {
    if t == [] || !IsNumUnit(t[0]) then 0 else 1 + NumSpan(t[1..])
  }

  function ParseLiteral(t: Text, word: Text, v: Json): (r: Parsed<Json>)
    requires |word| > 0
    ensures r.Done? ==> |r.rest| < |t|
  {
    if word <= t then Done(v, t[|word|..]) else Fail
  }

  /** `o[k] = v`: a key already there keeps its place. */
  function Put<T>(fs: seq<Field<T>>, key: Text, value: T): seq<Field<T>> {
    if fs == [] then [Field(key, value)]
    else if fs[0].key == key then [Field(key, value)] + fs[1..]
    else [fs[0]] + Put(fs[1..], key, value)
  }

  function ParseValue(text: Text): (r: Parsed<Json>)
    ensures r.Done? ==> |r.rest| < |text|
    decreases |text|, 0
  {
    var t := SkipSpace(text);
    if t == [] then Fail
    else if t[0] == LBRACE then
      var u := SkipSpace(t[1..]);
      if u != [] && u[0] == RBRACE then Done(Obj([]), u[1..])
      else ParseMember(u, [])
    else if t[0] == LBRACKET then
      var u := SkipSpace(t[1..]);
      if u != [] && u[0] == RBRACKET then Done(Arr([]), u[1..])
      else ParseElem(u, [])
    else if t[0] == QUOTE then
      var s := ParseString(t[1..]);
      if s.Fail? then Fail else Done(Str(s.value), s.rest)
    else if t[0] == NULL[0] then ParseLiteral(t, NULL, Null)
    else if t[0] == TRUE[0] then ParseLiteral(t, TRUE, Bool(true))
    else if t[0] == FALSE[0] then ParseLiteral(t, FALSE, Bool(false))
    else
      var n := NumSpan(t);
      if n > 0 && IsNumber(t[..n]) then Done(Num(t[..n]), t[n..]) else Fail
  }

  /** An array element, then the rest of the array. */
  function ParseElem(t: Text, acc: seq<Json>): (r: Parsed<Json>)
    ensures r.Done? ==> |r.rest| < |t| && r.value.Arr?
    decreases |t|, 1
  {
    var v := ParseValue(t);
    if v.Fail? then Fail else
    var u := SkipSpace(v.rest);
    if u == [] then Fail
    else if u[0] == RBRACKET then Done(Arr(acc + [v.value]), u[1..])
    else if u[0] == COMMA then ParseElem(u[1..], acc + [v.value])
    else Fail
  }

  /** A key and its colon. */
  function ParseKey(text: Text): (r: Parsed<Text>)
    ensures r.Done? ==> |r.rest| < |text|
  {
    var t := SkipSpace(text);
    if t == [] || t[0] != QUOTE then Fail else
    var key := ParseString(t[1..]);
    if key.Fail? then Fail else
    var c := SkipSpace(key.rest);
    if c == [] || c[0] != COLON then Fail else Done(key.value, c[1..])
  }

  /** A key, its value, then the rest of the object. */
  function ParseMember(t: Text, acc: Fields): (r: Parsed<Json>)
    ensures r.Done? ==> |r.rest| < |t| && r.value.Obj?
    decreases |t|, 1
  {
    var key := ParseKey(t);
    if key.Fail? then Fail else
    var v := ParseValue(key.rest);
    if v.Fail? then Fail else
    var u := SkipSpace(v.rest);
    if u == [] then Fail
    else if u[0] == RBRACE then Done(Obj(Put(acc, key.value, v.value)), u[1..])
    else if u[0] == COMMA then ParseMember(u[1..], Put(acc, key.value, v.value))
    else Fail
  }

  /** JSON.parse: one value and nothing after it. */
  function Parse(t: Text): Option<Json> {
    var v := ParseValue(t);
    if v.Done? && SkipSpace(v.rest) == [] then Some(v.value) else None
  }
}
