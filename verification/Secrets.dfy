/** The file of secrets a container sources at boot: how it is printed, and what a shell makes of it. */
module Secrets {
  import opened Wrappers
  import opened Shell

  datatype Entry = Entry(name: string, value: string)

  datatype Result<T> = Ok(value: T) | Err(name: string)

  // The header lines are in pieces, each short enough for the verifier to see that it holds no newline.
  const GENERATED := "# Generated by " + "@berthos/docker-" + "orchestrator, " + "sourced by " + "docker/entrypoint" + ".sh."
  const ONE_BOOT := "# One container" + " boot's " + "credentials. " + "Not in `docker " + "inspect`, not in" + " any"
  const NOT_KEPT := "# image layer, " + "not in a snapshot" + " \U{2014} see " + "docs/secrets-" + "reference.md."
  const HEADER: seq<string> := [GENERATED, ONE_BOOT, NOT_KEPT]

  /** `value.replaceAll("'", "'\\''")`. */
  function EscapeQuotes(value: string): string {
    if value == [] then []
    else (if value[0] == '\'' then "'\\''" else [value[0]]) + EscapeQuotes(value[1..])
  }

  function LineFor(e: Entry): string {
    "export " + e.name + "='" + EscapeQuotes(e.value) + "'"
  }

  function Lines(entries: seq<Entry>): seq<string> {
    if entries == [] then [] else [LineFor(entries[0])] + Lines(entries[1..])
  }

  /** Every line with its newline: the lines joined by newlines, and one more. */
  function Text(lines: seq<string>): string {
    if lines == [] then [] else lines[0] + "\n" + Text(lines[1..])
  }

  function FileText(entries: seq<Entry>): string {
    Text(HEADER + Lines(entries))
  }

  function Join(lines: seq<string>): string {
    if lines == [] then [] else if |lines| == 1 then lines[0] else lines[0] + "\n" + Join(lines[1..])
  }

  lemma {:induction false} JoinIsText(lines: seq<string>)
    requires lines != []
    ensures Join(lines) + "\n" == Text(lines)
  {
    if |lines| == 1 {
      assert lines[1..] == [] && lines[0] + "\n" + [] == lines[0] + "\n";
    } else {
      JoinIsText(lines[1..]);
      assert lines[0] + "\n" + Join(lines[1..]) + "\n" == lines[0] + "\n" + (Join(lines[1..]) + "\n");
    }
  }

  lemma {:induction false} LinesConcat(a: seq<Entry>, e: Entry)
    ensures Lines(a + [e]) == Lines(a) + [LineFor(e)]
  {
    hide LineFor;
    if a == [] {
      assert a + [e] == [e] && [e][1..] == [];
    } else {
      LinesConcat(a[1..], e);
      assert (a + [e])[1..] == a[1..] + [e];
    }
  }

  predicate FirstBad(entries: seq<Entry>, i: nat) {
    i < |entries| && !IsName(entries[i].name) && forall j :: 0 <= j < i ==> IsName(entries[j].name)
  }

  /** The file for these secrets, or the first name no shell can represent. */
  method SerializeSecretsEnvFile(entries: seq<Entry>) returns (r: Result<string>)
    ensures r.Ok? <==> forall i :: 0 <= i < |entries| ==> IsName(entries[i].name)
    ensures r.Ok? ==> r.value == FileText(entries)
    ensures r.Err? ==> exists i :: 0 <= i < |entries| && FirstBad(entries, i) && entries[i].name == r.name
  {
    hide LineFor, IsName;
    var lines := HEADER;
    assert entries[..0] == [] && HEADER + Lines([]) == HEADER;
    for i := 0 to |entries|
      invariant lines == HEADER + Lines(entries[..i])
      invariant forall j :: 0 <= j < i ==> IsName(entries[j].name)
    {
      var e := entries[i];
      if !IsName(e.name) {
        assert FirstBad(entries, i);
        return Err(e.name);
      }
      assert entries[..i + 1] == entries[..i] + [e];
      LinesConcat(entries[..i], e);
      lines := lines + [LineFor(e)];
    }
    assert entries[..|entries|] == entries;
    JoinIsText(lines);
    return Ok(Join(lines) + "\n");
  }

  // ----- what a shell makes of it

  function Exported(env: map<string, string>, entries: seq<Entry>): map<string, string>
    decreases |entries|
  {
    if entries == [] then env else Exported(env[entries[0].name := entries[0].value], entries[1..])
  }

  predicate NoNul(s: string) {
    '\0' !in s
  }

  /** Single-quoted with its quotes escaped, any value is read as it is. */
  lemma {:induction false} ReadEscaped(r: Reader, value: string)
    requires r.mode.Single? && NoNul(value)
    ensures Read(r, EscapeQuotes(value)) == r.(word := r.word + value)
    decreases |value|
  {
    if value == [] {
      assert r.word + value == r.word;
    } else {
      var after := r.(word := r.word + [value[0]]);
      var first := if value[0] == '\'' then "'\\''" else [value[0]];
      assert NoNul(value[1..]);
      ReadConcat(r, first, EscapeQuotes(value[1..]));
      assert Read(r, first) == after by { ReadFirst(r, value[0]); }
      hide Read, Feed;
      ReadEscaped(after, value[1..]);
      assert r.word + [value[0]] + value[1..] == r.word + value;
    }
  }

  lemma ReadFirst(r: Reader, c: char)
    requires r.mode.Single? && c != '\0'
    ensures Read(r, if c == '\'' then "'\\''" else [c]) == r.(word := r.word + [c])
  {
    if c == '\'' {
      assert "'\\''" == ['\''] + (['\\'] + (['\''] + ['\'']));
      var a := Feed(r, '\'');
      var b := Feed(a, '\\');
      var d := Feed(b, '\'');
      ReadOne(r, '\'');
      ReadOne(a, '\\');
      ReadOne(b, '\'');
      ReadOne(d, '\'');
      ReadConcat(r, ['\''], ['\\'] + (['\''] + ['\'']));
      ReadConcat(a, ['\\'], ['\''] + ['\'']);
      ReadConcat(b, ['\''], ['\'']);
    } else {
      ReadOne(r, c);
    }
  }

  /** A NUL anywhere in a value makes the reader give up. */
  lemma {:induction false} ReadNul(r: Reader, value: string)
    requires r.mode.Single? && !NoNul(value)
    ensures Read(r, EscapeQuotes(value)).mode.GaveUp?
    decreases |value|
  {
    var first := if value[0] == '\'' then "'\\''" else [value[0]];
    ReadConcat(r, first, EscapeQuotes(value[1..]));
    if value[0] == '\0' {
      assert [value[0]][1..] == [];
      assert Read(r, first) == r.(mode := GaveUp);
      NoWayBack(r.(mode := GaveUp), EscapeQuotes(value[1..]));
    } else {
      ReadFirst(r, value[0]);
      ReadNul(r.(word := r.word + [value[0]]), value[1..]);
    }
  }

  lemma NameCharIsPlain(c: char)
    requires IsNameChar(c) || c == '='
    ensures !IsSpecial(c) && c != '\n' && c != ' ' && c != '\t' && c != '\'' && c != '\\' && c != '#'
  {
  }

  lemma NameIsPlain(name: string)
    requires IsName(name)
    ensures IsPlain(name + "=") && (name + "=")[0] != '#'
    ensures forall v: string :: EqualsAt(name + "=" + v) == |name|
  {
    hide IsSpecial, IsNameChar;
    forall i | 0 <= i < |name + "="| ensures IsPlain([(name + "=")[i]]) {
      NameCharIsPlain((name + "=")[i]);
    }
    assert forall i :: 0 <= i < |name + "="| ==> [(name + "=")[i]][0] == (name + "=")[i];
    NameCharIsPlain((name + "=")[0]);
    assert '=' !in name by { NoEquals(name); }
    forall v: string ensures EqualsAt(name + "=" + v) == |name| {
      EqualsAfter(name, v);
    }
  }

  lemma NoEquals(name: string)
    requires IsName(name)
    ensures '=' !in name
  {
  }

  lemma {:induction false} EqualsAfter(name: string, v: string)
    requires '=' !in name
    ensures EqualsAt(name + "=" + v) == |name|
    decreases |name|
  {
    if name != [] {
      EqualsAfter(name[1..], v);
      assert (name + "=" + v)[1..] == name[1..] + "=" + v;
    }
  }

  lemma ExportIsPlain()
    ensures IsPlain("export")
  {
    hide IsSpecial;
    var w := "export";
    forall i | 0 <= i < |w| ensures !IsSpecial(w[i]) {
      NameCharIsPlain(w[i]);
    }
  }

  lemma ReadCommand(r: Reader)
    requires r.mode.Blank? && r.word == [] && r.words == []
    ensures Read(r, "export ") == r.(words := ["export"])
  {
    ExportIsPlain();
    hide IsPlain, IsSpecial, Read;
    StartPlain(r, "export");
    ReadOne(r.(mode := Word, word := "export"), ' ');
    ReadConcat(r, "export", " ");
    assert "export" + " " == "export ";
  }

  lemma ReadName(r: Reader, name: string)
    requires r.mode.Blank? && IsName(name)
    ensures Read(r, name + "=" + "'") == r.(mode := Single, word := name + "=")
  {
    NameIsPlain(name);
    hide IsName, EqualsAt;
    StartPlain(r, name + "=");
    ReadOne(r.(mode := Word, word := name + "="), '\'');
    ReadConcat(r, name + "=", "'");
    hide Read;
  }

  /** An export line up to where its value starts. */
  lemma ReadExport(r: Reader, name: string)
    requires r.mode.Blank? && r.word == [] && r.words == [] && IsName(name)
    ensures Read(r, "export " + name + "='") == r.(mode := Single, word := name + "=", words := ["export"])
  {
    hide IsName, Read;
    var command, start := "export ", name + "=" + "'";
    ReadCommand(r);
    ReadName(r.(words := ["export"]), name);
    ReadConcat(r, command, start);
    assert "=" + "'" == "='";
    assert command + name + "='" == command + start;
  }

  lemma ExecuteExport(r: Reader, name: string, value: string)
    requires IsName(name) && r.words == ["export", name + "=" + value]
    ensures Execute(r) == r.(env := r.env[name := value], words := [])
  {
    var w := name + "=" + value;
    NameIsPlain(name);
    assert w[..|name|] == name && w[|name| + 1..] == value;
    hide IsName, EqualsAt;
    var none: seq<string> := [];
    assert r.words[1..] == [w] && [w][1..] == none;
    assert AssignAll(r.env, [w]) == AssignAll(Assign(r.env, w), none);
  }

  /** One line exports its secret and does nothing else. */
  lemma ReadLine(r: Reader, e: Entry)
    requires r.mode.Blank? && r.word == [] && r.words == [] && IsName(e.name) && NoNul(e.value)
    ensures Read(r, LineFor(e) + "\n") == r.(env := r.env[e.name := e.value])
  {
    var start := "export " + e.name + "='";
    var a := r.(mode := Single, word := e.name + "=", words := ["export"]);
    var b := a.(word := e.name + "=" + e.value);
    var c := b.(mode := Word);
    ReadExport(r, e.name);
    ReadConcat(r, start, EscapeQuotes(e.value));
    ReadEscaped(a, e.value);
    ReadConcat(r, start + EscapeQuotes(e.value), "'");
    ReadOne(b, '\'');
    ReadConcat(r, start + EscapeQuotes(e.value) + "'", "\n");
    ReadOne(c, '\n');
    ExecuteExport(EndWord(c), e.name, e.value);
    hide Read, Execute, EscapeQuotes, IsName;
    assert LineFor(e) == start + EscapeQuotes(e.value) + "'";
  }

  /** A line with a NUL in its value. */
  lemma ReadBadLine(r: Reader, e: Entry, rest: string)
    requires r.mode.Blank? && r.word == [] && r.words == [] && IsName(e.name) && !NoNul(e.value)
    ensures Read(r, LineFor(e) + rest).mode.GaveUp?
  {
    var start := "export " + e.name + "='";
    var a := r.(mode := Single, word := e.name + "=", words := ["export"]);
    ReadExport(r, e.name);
    ReadConcat(r, start, EscapeQuotes(e.value));
    ReadNul(a, e.value);
    ReadConcat(r, start + EscapeQuotes(e.value), "'" + rest);
    NoWayBack(Read(a, EscapeQuotes(e.value)), "'" + rest);
    hide Read, EscapeQuotes, IsName;
    assert LineFor(e) + rest == start + EscapeQuotes(e.value) + ("'" + rest);
  }

  lemma FirstLine(entries: seq<Entry>)
    requires entries != []
    ensures var e, rest := entries[0], Text(Lines(entries[1..]));
      Text(Lines(entries)) == (LineFor(e) + "\n") + rest == LineFor(e) + ("\n" + rest)
  {
    assert Lines(entries)[1..] == Lines(entries[1..]);
    hide LineFor;
  }

  lemma {:induction false} ReadLines(r: Reader, entries: seq<Entry>)
    requires r.mode.Blank? && r.word == [] && r.words == []
    requires forall i :: 0 <= i < |entries| ==> IsName(entries[i].name)
    ensures (forall i :: 0 <= i < |entries| ==> NoNul(entries[i].value)) ==>
      Read(r, Text(Lines(entries))) == r.(env := Exported(r.env, entries))
    ensures !(forall i :: 0 <= i < |entries| ==> NoNul(entries[i].value)) ==>
      Read(r, Text(Lines(entries))).mode.GaveUp?
    decreases |entries|
  {
    if entries != [] {
      var e, tail := entries[0], entries[1..];
      var rest := Text(Lines(tail));
      FirstLine(entries);
      hide LineFor, IsName, NoNul, Read, Lines, Text;
      assert forall i :: 0 <= i < |tail| ==> tail[i] == entries[i + 1];
      assert forall i :: 0 < i < |entries| ==> entries[i] == tail[i - 1];
      if NoNul(e.value) {
        ReadLine(r, e);
        ReadConcat(r, LineFor(e) + "\n", rest);
        ReadLines(r.(env := r.env[e.name := e.value]), tail);
      } else {
        ReadBadLine(r, e, "\n" + rest);
      }
    }
  }

  /** A comment line, whatever is in it. */
  lemma ReadCommentLine(r: Reader, line: string)
    requires r.mode.Blank? && r.words == [] && IsCommentLine(line)
    ensures Read(r, line + "\n") == r
  {
    var a := r.(mode := Comment);
    assert line == [line[0]] + line[1..];
    ReadOne(r, '#');
    ReadConcat(r, [line[0]], line[1..]);
    ReadComment(a, line[1..]);
    ReadConcat(r, line, "\n");
    ReadOne(a, '\n');
    hide Read;
  }

  lemma {:induction false} ReadComments(r: Reader, lines: seq<string>, rest: string)
    requires r.mode.Blank? && r.words == []
    requires forall i :: 0 <= i < |lines| ==> IsCommentLine(lines[i])
    ensures Read(r, Text(lines) + rest) == Read(r, rest)
    decreases |lines|
  {
    if lines == [] {
      assert Text(lines) + rest == rest;
    } else {
      ReadCommentLine(r, lines[0]);
      var more := Text(lines[1..]) + rest;
      assert Text(lines) + rest == (lines[0] + "\n") + more;
      hide Read, Text;
      ReadConcat(r, lines[0] + "\n", more);
      ReadComments(r, lines[1..], rest);
    }
  }

  lemma {:induction false} TextConcat(a: seq<string>, b: seq<string>)
    ensures Text(a + b) == Text(a) + Text(b)
    decreases |a|
  {
    if a == [] {
      assert a + b == b;
    } else {
      TextConcat(a[1..], b);
      assert (a + b)[1..] == a[1..] + b && (a + b)[0] == a[0];
      assert a[0] + "\n" + (Text(a[1..]) + Text(b)) == a[0] + "\n" + Text(a[1..]) + Text(b);
    }
  }

  predicate IsCommentLine(line: string) {
    line != [] && line[0] == '#' && '\n' !in line
  }

  lemma GeneratedIsComment()
    ensures IsCommentLine(GENERATED)
  {
  }

  lemma OneBootIsComment()
    ensures IsCommentLine(ONE_BOOT)
  {
  }

  lemma NotKeptIsComment()
    ensures IsCommentLine(NOT_KEPT)
  {
  }

  lemma HeaderIsComments()
    ensures forall i :: 0 <= i < |HEADER| ==> IsCommentLine(HEADER[i])
  {
    GeneratedIsComment();
    OneBootIsComment();
    NotKeptIsComment();
    hide IsCommentLine;
    assert HEADER[0] == GENERATED && HEADER[1] == ONE_BOOT && HEADER[2] == NOT_KEPT;
  }

  /** Sourcing the file exports exactly the secrets, whatever their values hold, and runs nothing:
      exactly when no value holds a NUL, which no environment can. */
  lemma SourcingExports(entries: seq<Entry>, env: map<string, string>)
    requires forall i :: 0 <= i < |entries| ==> IsName(entries[i].name)
    ensures Source(FileText(entries), env) == Some(Sourced(Exported(env, entries), [])) <==>
      forall i :: 0 <= i < |entries| ==> NoNul(entries[i].value)
  {
    var r := Reader(Blank, [], [], env, []);
    TextConcat(HEADER, Lines(entries));
    HeaderIsComments();
    ReadComments(r, HEADER, Text(Lines(entries)));
    ReadLines(r, entries);
    hide Text, Lines, Read, IsName, NoNul;
  }

  /** With distinct names, what is exported is the secrets, over what there was. */
  lemma {:induction false} ExportedIs(env: map<string, string>, entries: seq<Entry>, name: string)
    requires forall i, j :: 0 <= i < j < |entries| ==> entries[i].name != entries[j].name
    ensures (forall i :: 0 <= i < |entries| ==> entries[i].name != name) ==>
      (name in Exported(env, entries) <==> name in env) && (name in env ==> Exported(env, entries)[name] == env[name])
    ensures forall i :: 0 <= i < |entries| && entries[i].name == name ==>
      name in Exported(env, entries) && Exported(env, entries)[name] == entries[i].value
    decreases |entries|
  {
    if entries != [] {
      var tail := entries[1..];
      assert forall i :: 0 <= i < |tail| ==> tail[i] == entries[i + 1];
      assert forall i :: 0 < i < |entries| ==> entries[i] == tail[i - 1];
      ExportedIs(env[entries[0].name := entries[0].value], tail, name);
    }
  }
}
