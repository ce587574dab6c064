/** JSON text is self-delimiting: what follows an accepted value cannot change how it was read, so
    no proper prefix of an object's text is itself accepted. */
module JsonPrefix {
  import opened Wrappers
  import opened Texts
  import opened Json
  import JsonRoundTrip

  // ----- text after a value does not change how the value reads

  lemma {:induction false} SpaceExtends(t: Text, s: Text)
    requires SkipSpace(t) != []
    ensures SkipSpace(t + s) == SkipSpace(t) + s
  {
    if SkipSpace(t) != t {
      SpaceExtends(t[1..], s);
      assert (t + s)[1..] == t[1..] + s;
    }
  }

  lemma EscapeExtends(t: Text, s: Text)
    requires ParseEscape(t).Done?
    ensures ParseEscape(t + s) == Done(ParseEscape(t).value, ParseEscape(t).rest + s)
  {
    hide HexValue;
    assert (t + s)[2..] == t[2..] + s;
    if |t| >= 6 {
      assert (t + s)[6..] == t[6..] + s;
    }
  }

  lemma {:induction false} StringExtends(t: Text, s: Text)
    requires ParseString(t).Done?
    ensures ParseString(t + s) == Done(ParseString(t).value, ParseString(t).rest + s)
  {
    HeadOfConcat(t, s);
    if t[0] == BACKSLASH {
      EscapeExtends(t, s);
      hide ParseEscape;
      StringExtends(ParseEscape(t).rest, s);
    } else if t[0] != QUOTE {
      StringExtends(t[1..], s);
    }
  }

  lemma KeyExtends(t: Text, s: Text)
    requires ParseKey(t).Done?
    ensures ParseKey(t + s) == Done(ParseKey(t).value, ParseKey(t).rest + s)
  {
    hide ParseString;
    var u := SkipSpace(t);
    SpaceExtends(t, s);
    StringExtends(u[1..], s);
    assert (u + s)[1..] == u[1..] + s;
    var c := ParseString(u[1..]).rest;
    SpaceExtends(c, s);
    hide SkipSpace;
    assert (SkipSpace(c) + s)[1..] == SkipSpace(c)[1..] + s;
  }

  lemma {:induction false} NumberExtends(t: Text, s: Text)
    requires NumSpan(t) < |t|
    ensures NumSpan(t + s) == NumSpan(t)
  {
    if IsNumUnit(t[0]) {
      NumberExtends(t[1..], s);
      assert (t + s)[1..] == t[1..] + s;
    }
  }

  /** Strings, words and numbers; a number must not end where `t` does. */
  lemma ScalarExtends(t: Text, s: Text)
    requires t != [] && SkipSpace(t) == t && t[0] != LBRACE && t[0] != LBRACKET && ParseValue(t).Done?
    requires ParseValue(t).rest != [] || !ParseValue(t).value.Num?
    ensures ParseValue(t + s) == Done(ParseValue(t).value, ParseValue(t).rest + s)
  {
    hide ParseString, IsNumber;
    SpaceExtends(t, s);
    HeadOfConcat(t, s);
    if t[0] == QUOTE {
      StringExtends(t[1..], s);
    } else if t[0] == NULL[0] {
      assert (t + s)[4..] == t[4..] + s;
    } else if t[0] == TRUE[0] {
      assert (t + s)[4..] == t[4..] + s;
    } else if t[0] == FALSE[0] {
      assert (t + s)[5..] == t[5..] + s;
    } else {
      var n := NumSpan(t);
      NumberExtends(t, s);
      assert (t + s)[..n] == t[..n] && (t + s)[n..] == t[n..] + s;
    }
  }

  lemma {:induction false} SpaceSkipped(t: Text)
    ensures SkipSpace(SkipSpace(t)) == SkipSpace(t)
    ensures ParseValue(SkipSpace(t)) == ParseValue(t)
  {
    hide ParseElem, ParseMember, ParseString;
    if SkipSpace(t) != t {
      SpaceSkipped(t[1..]);
    }
  }

  /** After an opening bracket. */
  lemma OpenExtends(t: Text, s: Text)
    requires t != [] && SkipSpace(t[1..]) != []
    ensures SkipSpace((t + s)[1..]) == SkipSpace(t[1..]) + s
  {
    SpaceExtends(t[1..], s);
    assert (t + s)[1..] == t[1..] + s;
  }

  /** A value is read the same whatever follows it, unless it is a number that ends with the text. */
  lemma {:induction false} ValueExtends(t: Text, s: Text)
    requires ParseValue(t).Done? && (ParseValue(t).rest != [] || !ParseValue(t).value.Num?)
    ensures ParseValue(t + s) == Done(ParseValue(t).value, ParseValue(t).rest + s)
    decreases |t|, 1
  {
    SpaceSkipped(t);
    SpaceSkipped(t + s);
    var u := SkipSpace(t);
    assert u != [];
    SpaceExtends(t, s);
    if u[0] == LBRACE || u[0] == LBRACKET {
      BracketExtends(u, s);
    } else {
      ScalarExtends(u, s);
    }
  }

  lemma {:induction false} BracketExtends(t: Text, s: Text)
    requires t != [] && SkipSpace(t) == t && (t[0] == LBRACE || t[0] == LBRACKET) && ParseValue(t).Done?
    ensures ParseValue(t + s) == Done(ParseValue(t).value, ParseValue(t).rest + s)
    decreases |t|, 0
  {
    var u := SkipSpace(t[1..]);
    SpaceExtends(t, s);
    assert (t + s)[0] == t[0];
    assert ParseElem([], []).Fail? && ParseMember([], []).Fail?;
    assert u != [];
    OpenExtends(t, s);
    HeadOfConcat(u, s);
    if t[0] == LBRACE && u[0] != RBRACE {
      MemberExtends(u, [], s);
    } else if t[0] == LBRACKET && u[0] != RBRACKET {
      ElemExtends(u, [], s);
    }
  }

  lemma {:induction false} ElemExtends(t: Text, acc: seq<Json>, s: Text)
    requires ParseElem(t, acc).Done?
    ensures ParseElem(t + s, acc) == Done(ParseElem(t, acc).value, ParseElem(t, acc).rest + s)
    decreases |t|, 2
  {
    var v := ParseValue(t);
    var u := SkipSpace(v.rest);
    hide ParseValue, SkipSpace;
    ValueExtends(t, s);
    SpaceExtends(v.rest, s);
    HeadOfConcat(u, s);
    if u[0] == COMMA {
      ElemExtends(u[1..], acc + [v.value], s);
    }
  }

  /** ParseMember once its key, its value and what follows are known. */
  lemma MemberIs(t: Text, acc: Fields, key: Text, c: Text, v: Json, more: Text, u: Text)
    requires ParseKey(t) == Done(key, c) && ParseValue(c) == Done(v, more) && SkipSpace(more) == u
    ensures ParseMember(t, acc) ==
      if u == [] then Fail
      else if u[0] == RBRACE then Done(Obj(Put(acc, key, v)), u[1..])
      else if u[0] == COMMA then ParseMember(u[1..], Put(acc, key, v))
      else Fail
  {
    hide ParseValue, ParseKey, SkipSpace, Put;
  }

  lemma {:induction false} MemberExtends(t: Text, acc: Fields, s: Text)
    requires ParseMember(t, acc).Done?
    ensures ParseMember(t + s, acc) == Done(ParseMember(t, acc).value, ParseMember(t, acc).rest + s)
    decreases |t|, 2
  {
    var key := ParseKey(t);
    var v := ParseValue(key.rest);
    var u := SkipSpace(v.rest);
    MemberIs(t, acc, key.value, key.rest, v.value, v.rest, u);
    hide ParseMember, ParseValue, ParseKey, Put, SkipSpace;
    KeyExtends(t, s);
    ValueExtends(key.rest, s);
    SpaceExtends(v.rest, s);
    MemberIs(t + s, acc, key.value, key.rest + s, v.value, v.rest + s, u + s);
    HeadOfConcat(u, s);
    if u[0] == COMMA {
      MemberExtends(u[1..], Put(acc, key.value, v.value), s);
    }
  }

  lemma ReadsObject(p: Text)
    requires p != [] && p[0] == LBRACE
    ensures ParseValue(p).Done? ==> ParseValue(p).value.Obj?
  {
    assert SkipSpace(p) == p;
  }

  /** A record line cut short anywhere is not accepted: JSON.parse throws on it. */
  lemma PrefixRejected(o: Json, p: Text)
    requires o.Obj? && Plain(o) && p < Stringify(o)
    ensures Parse(p) == None
  {
    var s := Stringify(o)[|p|..];
    assert p + s == Stringify(o);
    JsonRoundTrip.ValueParses(o, []);
    assert Stringify(o) + [] == Stringify(o);
    if Parse(p).Some? {
      ReadsObject(p);
      ValueExtends(p, s);
    }
  }
}
