/** JSON.parse undoes JSON.stringify, and no object's text goes on past an accepted one. */
module JsonRoundTrip {
  import opened Wrappers
  import opened Texts
  import opened Json

  // ----- strings

  lemma HexValueOfHex(d: int)
    requires 0 <= d < 16
    ensures HexValue(Hex(d)) == Some(d)
  {
  }

  lemma HexFour(a: int, b: int, c: int, d: int, rest: Text)
    requires 0 <= a < 16 && 0 <= b < 16 && 0 <= c < 16 && 0 <= d < 16
    ensures ParseEscape([BACKSLASH, LOWER_U, Hex(a), Hex(b), Hex(c), Hex(d)] + rest) == Done(a * 0x1000 + b * 0x100 + c * 16 + d, rest)
  {
    HexValueOfHex(a);
    HexValueOfHex(b);
    HexValueOfHex(c);
    HexValueOfHex(d);
    hide Hex, HexValue;
    var t := [BACKSLASH, LOWER_U, Hex(a), Hex(b), Hex(c), Hex(d)] + rest;
    assert t[6..] == rest;
  }

  lemma SixteenTwice(n: nat)
    ensures n / 16 / 16 == n / 0x100
  {
  }

  lemma SixteenThrice(n: nat)
    ensures n / 0x100 / 16 == n / 0x1000
  {
  }

  lemma Nibbles(u: Unit)
    ensures 0 <= u / 0x1000 < 16 && u / 0x1000 * 0x1000 + u / 0x100 % 16 * 0x100 + u / 16 % 16 * 16 + u % 16 == u
  {
    SixteenTwice(u);
    SixteenThrice(u);
  }

  lemma EscapeParses(u: Unit, rest: Text)
    ensures EscapeUnit(u) == [u] ==> 32 <= u && u != QUOTE && u != BACKSLASH
    ensures EscapeUnit(u) != [u] ==> EscapeUnit(u)[0] == BACKSLASH && ParseEscape(EscapeUnit(u) + rest) == Done(u, rest)
  {
    if |EscapeUnit(u)| == 6 {
      Nibbles(u);
      HexFour(u / 0x1000, u / 0x100 % 16, u / 16 % 16, u % 16, rest);
      hide ParseEscape, Hex;
    } else if |EscapeUnit(u)| == 2 {
      assert (EscapeUnit(u) + rest)[2..] == rest;
    }
  }

  /** One unit of a string literal, raw or escaped, then the rest of it. */
  lemma UnitParses(u: Unit, e: Text, rest: Text)
    requires e == EscapeUnit(u) || (e == [u] && u >= 0xD800)
    ensures ParseString(e + rest) == match ParseString(rest) { case Fail => Fail case Done(s, after) => Done([u] + s, after) }
  {
    hide EscapeUnit, ParseEscape;
    EscapeParses(u, rest);
    var t := e + rest;
    assert t[0] == e[0];
    if e == [u] {
      assert t[1..] == rest;
    }
  }

  lemma StringEnds(rest: Text)
    ensures ParseString([QUOTE] + rest) == Done([], rest)
  {
    assert ([QUOTE] + rest)[1..] == rest;
  }

  lemma {:induction false} StringParses(s: Text, rest: Text)
    ensures ParseString(Escaped(s) + [QUOTE] + rest) == Done(s, rest)
  {
    hide ParseString, EscapeUnit;
    if s == [] {
      StringEnds(rest);
      assert Escaped(s) + [QUOTE] + rest == [QUOTE] + rest;
    } else if IsPair(s) {
      var u := Escaped(s[2..]) + [QUOTE] + rest;
      StringParses(s[2..], rest);
      UnitParses(s[1], [s[1]], u);
      UnitParses(s[0], [s[0]], [s[1]] + u);
      assert Escaped(s) + [QUOTE] + rest == [s[0]] + ([s[1]] + u);
      assert [s[0]] + ([s[1]] + s[2..]) == s;
    } else {
      var u := Escaped(s[1..]) + [QUOTE] + rest;
      StringParses(s[1..], rest);
      UnitParses(s[0], EscapeUnit(s[0]), u);
      assert Escaped(s) + [QUOTE] + rest == EscapeUnit(s[0]) + u;
      assert [s[0]] + s[1..] == s;
    }
  }

  // ----- numbers

  lemma {:induction false} ScanUnits(t: Text)
    requires !ScanAll(t).Bad?
    ensures forall i :: 0 <= i < |t| ==> IsNumUnit(t[i])
    ensures t != [] ==> !ScanAll(t).Start? && (t[0] == MINUS || IsDigit(t[0]))
  {
    if t != [] {
      ScanUnits(t[..|t| - 1]);
    }
  }

  /** What may follow a value: not more of a number. */
  predicate Ends(rest: Text) {
    rest == [] || !IsNumUnit(rest[0])
  }

  lemma {:induction false} SpanIs(n: Text, rest: Text)
    requires Ends(rest) && forall i :: 0 <= i < |n| ==> IsNumUnit(n[i])
    ensures NumSpan(n + rest) == |n|
  {
    if n == [] {
      assert n + rest == rest;
    } else {
      SpanIs(n[1..], rest);
      assert (n + rest)[1..] == n[1..] + rest;
    }
  }

  lemma NumberParses(n: NumText, rest: Text)
    requires Ends(rest)
    ensures ParseValue(n + rest) == Done(Num(n), rest)
  {
    ScanUnits(n);
    SpanIs(n, rest);
    assert n[0] == MINUS || IsDigit(n[0]);
    assert (n + rest)[..|n|] == n && (n + rest)[|n|..] == rest;
  }

  // ----- values

  lemma StartsVisibly(v: Json)
    ensures Stringify(v) != [] && Stringify(v)[0] !in [32, 9, 10, 13, RBRACKET, RBRACE]
  {
    if v.Num? {
      ScanUnits(v.n);
    }
  }

  lemma WordParses(word: Text, v: Json, rest: Text)
    requires (word == NULL && v == Null) || (word == TRUE && v == Bool(true)) || (word == FALSE && v == Bool(false))
    ensures ParseValue(word + rest) == Done(v, rest)
  {
    assert word <= word + rest && (word + rest)[|word|..] == rest;
  }

  /** ParseValue on an array or object that is not empty. */
  lemma BracketStep(t: Text, u: Text)
    requires u != [] && u[0] !in [32, 9, 10, 13, RBRACKET, RBRACE]
    ensures t == [LBRACKET] + u ==> ParseValue(t) == ParseElem(u, [])
    ensures t == [LBRACE] + u ==> ParseValue(t) == ParseMember(u, [])
  {
    assert SkipSpace(u) == u;
    if t == [LBRACKET] + u || t == [LBRACE] + u {
      assert t[1..] == u && SkipSpace(t) == t;
    }
  }

  lemma EmptyParses(rest: Text)
    ensures ParseValue([LBRACKET, RBRACKET] + rest) == Done(Arr([]), rest)
    ensures ParseValue([LBRACE, RBRACE] + rest) == Done(Obj([]), rest)
  {
    assert ([LBRACKET, RBRACKET] + rest)[1..] == [RBRACKET] + rest;
    assert ([LBRACE, RBRACE] + rest)[1..] == [RBRACE] + rest;
    assert ([RBRACKET] + rest)[1..] == rest && ([RBRACE] + rest)[1..] == rest;
  }

  lemma StringValueParses(s: Text, rest: Text)
    ensures ParseValue(Quoted(s) + rest) == Done(Str(s), rest)
  {
    StringParses(s, rest);
    var t := Quoted(s) + rest;
    assert t[1..] == Escaped(s) + [QUOTE] + rest;
    assert SkipSpace(t) == t;
  }

  lemma {:induction false} ValueParses(v: Json, rest: Text)
    requires Plain(v) && Ends(rest)
    ensures ParseValue(Stringify(v) + rest) == Done(v, rest)
    decreases v, 1
  {
    match v
    case Null => WordParses(NULL, v, rest);
    case Bool(b) => WordParses(if b then TRUE else FALSE, v, rest);
    case Num(n) => NumberParses(n, rest);
    case Str(s) => StringValueParses(s, rest);
    case Arr(es) =>
      if es == [] {
        EmptyParses(rest);
        assert Stringify(v) == [LBRACKET, RBRACKET];
      } else {
        ArrayParses(es, rest);
      }
    case Obj(fs) =>
      if fs == [] {
        EmptyParses(rest);
        assert Stringify(v) == [LBRACE, RBRACE];
      } else {
        ObjectParses(fs, rest);
      }
  }

  lemma {:induction false} ArrayParses(es: seq<Json>, rest: Text)
    requires es != [] && forall i :: 0 <= i < |es| ==> Plain(es[i])
    ensures ParseValue(Stringify(Arr(es)) + rest) == Done(Arr(es), rest)
    decreases es, 1
  {
    hide ParseValue, ParseElem, Plain;
    var u := StringifyElems(es, true) + [RBRACKET] + rest;
    StartsVisibly(es[0]);
    assert StringifyElems(es, true)[0] == Stringify(es[0])[0];
    ElemsParse(es, [], rest);
    assert [] + es == es;
    assert Stringify(Arr(es)) + rest == [LBRACKET] + u;
    BracketStep([LBRACKET] + u, u);
  }

  lemma {:induction false} ObjectParses(fs: Fields, rest: Text)
    requires fs != [] && Distinct(fs) && forall i :: 0 <= i < |fs| ==> Plain(fs[i].value)
    ensures ParseValue(Stringify(Obj(fs)) + rest) == Done(Obj(fs), rest)
    decreases fs, 1
  {
    hide ParseValue, ParseMember;
    var u := StringifyFields(fs, true) + [RBRACE] + rest;
    assert StringifyFields(fs, true)[0] == QUOTE;
    assert [] + fs == fs;
    MembersParse(fs, [], rest);
    assert Stringify(Obj(fs)) + rest == [LBRACE] + u;
    BracketStep([LBRACE] + u, u);
  }

  /** ParseElem once its value is known. */
  lemma ElemStep(t: Text, acc: seq<Json>, v: Json, more: Text)
    requires ParseValue(t) == Done(v, more) && more != []
    ensures more[0] == RBRACKET ==> ParseElem(t, acc) == Done(Arr(acc + [v]), more[1..])
    ensures more[0] == COMMA ==> ParseElem(t, acc) == ParseElem(more[1..], acc + [v])
  {
  }

  lemma ElemLast(x: Text, rest: Text, acc: seq<Json>, v: Json)
    requires ParseValue(x + ([RBRACKET] + rest)) == Done(v, [RBRACKET] + rest)
    ensures ParseElem(x + ([RBRACKET] + rest), acc) == Done(Arr(acc + [v]), rest)
  {
    ElemStep(x + ([RBRACKET] + rest), acc, v, [RBRACKET] + rest);
    assert ([RBRACKET] + rest)[1..] == rest;
  }

  lemma ElemComma(x: Text, next: Text, acc: seq<Json>, v: Json)
    requires ParseValue(x + ([COMMA] + next)) == Done(v, [COMMA] + next)
    ensures ParseElem(x + ([COMMA] + next), acc) == ParseElem(next, acc + [v])
  {
    ElemStep(x + ([COMMA] + next), acc, v, [COMMA] + next);
    assert ([COMMA] + next)[1..] == next;
  }

  lemma {:induction false} ElemsText(es: seq<Json>, rest: Text)
    requires es != []
    ensures |es| == 1 ==> StringifyElems(es, true) + [RBRACKET] + rest == Stringify(es[0]) + ([RBRACKET] + rest)
    ensures |es| > 1 ==>
      StringifyElems(es, true) + [RBRACKET] + rest == Stringify(es[0]) + ([COMMA] + (StringifyElems(es[1..], true) + [RBRACKET] + rest))
  {
    assert StringifyElems(es, true) == Stringify(es[0]) + StringifyElems(es[1..], false);
    if |es| > 1 {
      MoreElems(es[1..]);
    }
  }

  lemma {:induction false} ElemsParse(es: seq<Json>, acc: seq<Json>, rest: Text)
    requires es != [] && forall i :: 0 <= i < |es| ==> Plain(es[i])
    ensures ParseElem(StringifyElems(es, true) + [RBRACKET] + rest, acc) == Done(Arr(acc + es), rest)
    decreases es, 0
  {
    hide ParseValue, ParseElem;
    ElemsText(es, rest);
    if |es| == 1 {
      ValueParses(es[0], [RBRACKET] + rest);
      ElemLast(Stringify(es[0]), rest, acc, es[0]);
      assert acc + [es[0]] == acc + es;
    } else {
      var next := StringifyElems(es[1..], true) + [RBRACKET] + rest;
      ValueParses(es[0], [COMMA] + next);
      ElemComma(Stringify(es[0]), next, acc, es[0]);
      ElemsParse(es[1..], acc + [es[0]], rest);
      assert (acc + [es[0]]) + es[1..] == acc + es;
    }
  }

  lemma {:induction false} PutAppends<T>(fs: seq<Field<T>>, key: Text, value: T)
    requires forall i :: 0 <= i < |fs| ==> fs[i].key != key
    ensures Put(fs, key, value) == fs + [Field(key, value)]
  {
    if fs != [] {
      PutAppends(fs[1..], key, value);
    }
  }

  /** ParseKey once its string is known. */
  lemma KeyStep(t: Text, key: Text, rest: Text)
    requires t != [] && t[0] == QUOTE && ParseString(t[1..]) == Done(key, [COLON] + rest)
    ensures ParseKey(t) == Done(key, rest)
  {
    hide ParseString;
    assert ([COLON] + rest)[1..] == rest;
  }

  lemma KeyParses(key: Text, rest: Text)
    ensures ParseKey(Quoted(key) + ([COLON] + rest)) == Done(key, rest)
  {
    hide ParseString, ParseKey, Escaped;
    var t := Quoted(key) + ([COLON] + rest);
    StringParses(key, [COLON] + rest);
    assert t[1..] == Escaped(key) + [QUOTE] + ([COLON] + rest);
    KeyStep(t, key, rest);
  }

  /** ParseMember once its key and value are known. */
  lemma MemberStep(t: Text, acc: Fields, key: Text, c: Text, v: Json, more: Text)
    requires ParseKey(t) == Done(key, c) && ParseValue(c) == Done(v, more) && more != []
    ensures more[0] == RBRACE ==> ParseMember(t, acc) == Done(Obj(Put(acc, key, v)), more[1..])
    ensures more[0] == COMMA ==> ParseMember(t, acc) == ParseMember(more[1..], Put(acc, key, v))
  {
  }

  lemma MemberLast(key: Text, x: Text, rest: Text, acc: Fields, v: Json)
    requires ParseValue(x + ([RBRACE] + rest)) == Done(v, [RBRACE] + rest)
    ensures ParseMember(Member(key, x) + ([RBRACE] + rest), acc) == Done(Obj(Put(acc, key, v)), rest)
  {
    hide ParseMember, ParseValue, ParseKey, Quoted, Put;
    var c := x + ([RBRACE] + rest);
    KeyParses(key, c);
    assert Member(key, x) + ([RBRACE] + rest) == Quoted(key) + ([COLON] + c);
    MemberStep(Quoted(key) + ([COLON] + c), acc, key, c, v, [RBRACE] + rest);
    assert ([RBRACE] + rest)[1..] == rest;
  }

  lemma MemberComma(key: Text, x: Text, next: Text, acc: Fields, v: Json)
    requires ParseValue(x + ([COMMA] + next)) == Done(v, [COMMA] + next)
    ensures ParseMember(Member(key, x) + ([COMMA] + next), acc) == ParseMember(next, Put(acc, key, v))
  {
    hide ParseMember, ParseValue, ParseKey, Quoted, Put;
    var c := x + ([COMMA] + next);
    KeyParses(key, c);
    assert Member(key, x) + ([COMMA] + next) == Quoted(key) + ([COLON] + c);
    MemberStep(Quoted(key) + ([COLON] + c), acc, key, c, v, [COMMA] + next);
    assert ([COMMA] + next)[1..] == next;
  }

  lemma {:induction false} MembersText(fs: Fields, rest: Text)
    requires fs != [] && forall i :: 0 <= i < |fs| ==> !Dropped(fs[i].value)
    ensures var m := Member(fs[0].key, Stringify(fs[0].value));
      StringifyFields(fs, true) + [RBRACE] + rest ==
      m + (if |fs| == 1 then [RBRACE] + rest else [COMMA] + (StringifyFields(fs[1..], true) + [RBRACE] + rest))
  {
    hide Stringify, Member;
    var m := Member(fs[0].key, Stringify(fs[0].value));
    assert StringifyFields(fs, true) == m + StringifyFields(fs[1..], false);
    if |fs| > 1 {
      MoreMembers(fs[1..]);
    }
  }

  lemma PutNew(acc: Fields, fs: Fields)
    requires fs != [] && Distinct(acc + fs)
    ensures Put(acc, fs[0].key, fs[0].value) == acc + [fs[0]]
    ensures acc + [fs[0]] + fs[1..] == acc + fs
  {
    forall i | 0 <= i < |acc| ensures acc[i].key != fs[0].key {
      assert (acc + fs)[i] == acc[i] && (acc + fs)[|acc|] == fs[0];
    }
    PutAppends(acc, fs[0].key, fs[0].value);
  }

  lemma {:induction false} MembersParse(fs: Fields, acc: Fields, rest: Text)
    requires fs != [] && Distinct(acc + fs) && forall i :: 0 <= i < |fs| ==> Plain(fs[i].value)
    ensures ParseMember(StringifyFields(fs, true) + [RBRACE] + rest, acc) == Done(Obj(acc + fs), rest)
    decreases fs, 0
  {
    var key, v := fs[0].key, fs[0].value;
    PutNew(acc, fs);
    hide ParseValue, ParseMember, Put, Distinct;
    MembersText(fs, rest);
    if |fs| == 1 {
      ValueParses(v, [RBRACE] + rest);
      MemberLast(key, Stringify(v), rest, acc, v);
      assert acc + [fs[0]] == acc + fs;
    } else {
      assert acc + [fs[0]] + fs[1..] == acc + fs;
      var next := StringifyFields(fs[1..], true) + [RBRACE] + rest;
      ValueParses(v, [COMMA] + next);
      MemberComma(key, Stringify(v), next, acc, v);
      MembersParse(fs[1..], acc + [fs[0]], rest);
    }
  }

  lemma {:induction false} MoreMembers(fs: Fields)
    requires fs != [] && !Dropped(fs[0].value)
    ensures StringifyFields(fs, false) == [COMMA] + StringifyFields(fs, true)
  {
    var rest := StringifyFields(fs[1..], false);
    assert Separator(true) + Member(fs[0].key, Stringify(fs[0].value)) + rest == Member(fs[0].key, Stringify(fs[0].value)) + rest;
  }

  lemma {:induction false} MoreElems(es: seq<Json>)
    requires es != []
    ensures StringifyElems(es, false) == [COMMA] + StringifyElems(es, true)
  {
    var rest := StringifyElems(es[1..], false);
    assert Separator(true) + Stringify(es[0]) + rest == Stringify(es[0]) + rest;
  }

  /** JSON.parse(JSON.stringify(v)) is v, for every value JSON text can say. */
  lemma RoundTrip(v: Json)
    requires Plain(v)
    ensures Parse(Stringify(v)) == Some(v)
  {
    ValueParses(v, []);
    assert Stringify(v) + [] == Stringify(v);
  }
}
