/** A reader of shell text, as far as sourcing a file of exports needs it: quoting by sections 2.2.1
    and 2.2.2 of the POSIX.1-2017 Shell Command Language, tokens and comments by section 2.3.

    Anything else that means something to a shell when it is not quoted - an expansion, an operator,
    a pattern - makes the reader give up, so text it reads to the end does nothing but what is found
    here. */
module Shell {
  import opened Wrappers

  /** `Escaped(m)` is after a backslash in mode `m`. */
  datatype Mode = Blank | Word | Single | Escaped(inWord: bool) | Comment | GaveUp

  /** The current word, the words of the line before it, what was exported and what else was run. */
  datatype Reader = Reader(
    mode: Mode,
    word: string,
    words: seq<string>,
    env: map<string, string>,
    ran: seq<seq<string>>)

  /** Characters with a meaning of their own outside quotes, besides blanks, quotes and `#`. */
  predicate IsSpecial(c: char) {
    c in "|&;<>()$`\"*?[]{}~!%^" || c == '\0' || c == '\r'
  }

  predicate IsNameStart(c: char) {
    'A' <= c <= 'Z' || 'a' <= c <= 'z' || c == '_'
  }

  predicate IsNameChar(c: char) {
    IsNameStart(c) || '0' <= c <= '9'
  }

  /** A name, by section 3.235 of the Base Definitions of POSIX.1-2017. */
  predicate IsName(s: string) {
    s != [] && IsNameStart(s[0]) && forall i :: 0 <= i < |s| ==> IsNameChar(s[i])
  }

  /** The position of the first `=`, or the length. */
  function EqualsAt(s: string): (n: nat)
    ensures n <= |s|
  {
    if s == [] || s[0] == '=' then 0 else 1 + EqualsAt(s[1..])
  }

  predicate IsAssignment(w: string) {
    EqualsAt(w) < |w| && IsName(w[..EqualsAt(w)])
  }

  function Assign(env: map<string, string>, w: string): map<string, string>
    requires IsAssignment(w)
  {
    env[w[..EqualsAt(w)] := w[EqualsAt(w) + 1..]]
  }

  function AssignAll(env: map<string, string>, ws: seq<string>): map<string, string>
    requires forall i :: 0 <= i < |ws| ==> IsAssignment(ws[i])
    decreases |ws|
  {
    if ws == [] then env else AssignAll(Assign(env, ws[0]), ws[1..])
  }

  /** The end of a line: `export` with assignments exports them, anything else is run. */
  function Execute(r: Reader): Reader {
    if r.words == [] then r
    else if r.words[0] == "export" && |r.words| > 1 && forall i :: 0 <= i < |r.words[1..]| ==> IsAssignment(r.words[1..][i]) then
      r.(env := AssignAll(r.env, r.words[1..]), words := [])
    else r.(ran := r.ran + [r.words], words := [])
  }

  function EndWord(r: Reader): Reader {
    r.(mode := Blank, word := [], words := r.words + [r.word])
  }

  /** One more character. */
  function Feed(r: Reader, c: char): Reader {
    match r.mode
    case Blank =>
      if c == '\n' then Execute(r)
      else if c == ' ' || c == '\t' then r
      else if c == '#' then r.(mode := Comment)
      else if c == '\'' then r.(mode := Single)
      else if c == '\\' then r.(mode := Escaped(false))
      else if IsSpecial(c) then r.(mode := GaveUp)
      else r.(mode := Word, word := [c])
    case Word =>
      if c == '\n' then Execute(EndWord(r))
      else if c == ' ' || c == '\t' then EndWord(r)
      else if c == '\'' then r.(mode := Single)
      else if c == '\\' then r.(mode := Escaped(true))
      else if IsSpecial(c) then r.(mode := GaveUp)
      else r.(word := r.word + [c])
    case Single =>
      if c == '\'' then r.(mode := Word)
      else if c == '\0' then r.(mode := GaveUp)
      else r.(word := r.word + [c])
    case Escaped(inWord) =>
      if c == '\n' then r.(mode := if inWord then Word else Blank)
      else if c == '\0' then r.(mode := GaveUp)
      else r.(mode := Word, word := r.word + [c])
    case Comment => if c == '\n' then Execute(r.(mode := Blank)) else r
    case GaveUp => r
  }

  function Read(r: Reader, t: string): Reader
    decreases |t|
  {
    if t == [] then r else Read(Feed(r, t[0]), t[1..])
  }

  datatype Sourced = Sourced(env: map<string, string>, ran: seq<seq<string>>)

  /** `. file`: what is exported afterwards, and what was run; None if the reader gave up, or the
      text ends within quotes. */
  function Source(t: string, env: map<string, string>): Option<Sourced> {
    var r := Read(Reader(Blank, [], [], env, []), t);
    if r.mode.Single? || r.mode.Escaped? || r.mode.GaveUp? then None
    else
      var last := Execute(if r.mode.Word? then EndWord(r) else r);
      Some(Sourced(last.env, last.ran))
  }

  lemma ReadOne(r: Reader, c: char)
    ensures Read(r, [c]) == Feed(r, c)
  {
    assert [c][1..] == [];
    hide Feed;
  }

  lemma {:induction false} ReadConcat(r: Reader, a: string, b: string)
    ensures Read(r, a + b) == Read(Read(r, a), b)
    decreases |a|
  {
    hide Feed;
    if a == [] {
      assert a + b == b;
    } else {
      ReadConcat(Feed(r, a[0]), a[1..], b);
      assert (a + b)[1..] == a[1..] + b;
    }
  }

  lemma {:induction false} NoWayBack(r: Reader, t: string)
    requires r.mode.GaveUp?
    ensures Read(r, t) == r
    decreases |t|
  {
    if t != [] {
      NoWayBack(r, t[1..]);
    }
  }

  /** A comment runs to the end of its line, quotes in it or not. */
  lemma {:induction false} ReadComment(r: Reader, t: string)
    requires r.mode.Comment? && '\n' !in t
    ensures Read(r, t) == r
    decreases |t|
  {
    if t != [] {
      ReadComment(r, t[1..]);
    }
  }

  /** Characters that mean nothing to the shell are read as they are. */
  predicate IsPlain(t: string) {
    forall i :: 0 <= i < |t| ==> !IsSpecial(t[i]) && t[i] != '\n' && t[i] != ' ' && t[i] != '\t' && t[i] != '\'' && t[i] != '\\'
  }

  lemma {:induction false} ReadPlain(r: Reader, t: string)
    requires r.mode.Word? && IsPlain(t)
    ensures Read(r, t) == r.(word := r.word + t)
    decreases |t|
  {
    hide IsSpecial;
    if t == [] {
      assert r.word + t == r.word;
    } else {
      assert forall i :: 0 <= i < |t[1..]| ==> t[1..][i] == t[i + 1];
      ReadPlain(r.(word := r.word + [t[0]]), t[1..]);
      assert r.word + [t[0]] + t[1..] == r.word + t;
    }
  }

  /** A word that starts here. */
  lemma StartPlain(r: Reader, t: string)
    requires r.mode.Blank? && t != [] && IsPlain(t) && t[0] != '#'
    ensures Read(r, t) == r.(mode := Word, word := t)
  {
    assert forall i :: 0 <= i < |t[1..]| ==> t[1..][i] == t[i + 1];
    hide IsSpecial;
    ReadPlain(r.(mode := Word, word := [t[0]]), t[1..]);
    assert [t[0]] + t[1..] == t;
  }
}
