/** One JSONL file of the audit log: its lines, the records and the chain head read from it. */
module AuditFile {
  import opened Wrappers
  import opened Texts
  import opened Json
  import opened JsonCanonical
  import opened AuditChain
  import JsonPrefix

  const SEQ: Text := [115, 101, 113]

  /** `t.split("\n")`. */
  function Lines(t: Text): (ls: seq<Text>)
    ensures ls != []
  {
    if t == [] then [[]]
    else if t[0] == NEWLINE then [[]] + Lines(t[1..])
    else var ls := Lines(t[1..]); [[t[0]] + ls[0]] + ls[1..]
  }

  /** The file ends at the end of a line. */
  predicate Closed(t: Text) {
    t == [] || t[|t| - 1] == NEWLINE
  }

  /** What readHead leaves behind: a torn last line is closed. */
  function Repair(t: Text): Text {
    if Closed(t) then t else t + [NEWLINE]
  }

  /** A line as a record, if it parses at all; a JSON value that is no object has no fields. */
  function ParseLine(line: Text): Option<Record> {
    if line == [] then None else
    match Parse(line)
    case Some(v) => Some(if v.Obj? then v.fields else [])
    case None => None
  }

  /** The lines that parse, in order: what readAuditFile returns. */
  function RecordsOf(ls: seq<Text>): seq<Record> {
    if ls == [] then []
    else (match ParseLine(ls[0]) case Some(r) => [r] case None => []) + RecordsOf(ls[1..])
  }

  function RecordsIn(t: Text): seq<Record> {
    RecordsOf(Lines(t))
  }

  datatype Head = Head(hash: Text, seqNo: nat)

  /** `seq` as a number; a record without a whole one counts as 0. */
  function SeqOf(r: Record): nat {
    match Lookup(r, SEQ) case Num(n) => (if AllDigits(n) then DigitsValue(n) else 0) case _ => 0
  }

  /** The chain head a line leaves, if it is a record with a string hash. */
  function HeadOfRecord(r: Record): Option<Head> {
    if Lookup(r, HASH).Str? then Some(Head(HashOf(r), SeqOf(r) + 1)) else None
  }

  function HeadOf(line: Text): Option<Head> {
    match ParseLine(line) case Some(r) => HeadOfRecord(r) case None => None
  }

  /** The head of the last line that has one. */
  function LastHead(ls: seq<Text>): Option<Head> {
    if ls == [] then None
    else var h := HeadOf(ls[|ls| - 1]); if h.Some? then h else LastHead(ls[..|ls| - 1])
  }

  // ----- lines

  /** The last line of one text goes on into the first line of the next. */
  function Join(x: seq<Text>, y: seq<Text>): (j: seq<Text>)
    requires x != [] && y != []
    ensures j != []
  {
    x[..|x| - 1] + [x[|x| - 1] + y[0]] + y[1..]
  }

  lemma JoinAfterNewline(x: seq<Text>, y: seq<Text>)
    requires x != [] && y != []
    ensures Join([[]] + x, y) == [[]] + Join(x, y)
  {
    var e: seq<Text> := [[]];
    assert (e + x)[..|x|] == e + x[..|x| - 1];
  }

  lemma JoinAfterUnit(u: Unit, x: seq<Text>, y: seq<Text>)
    requires x != [] && y != []
    ensures Join([[u] + x[0]] + x[1..], y) == [[u] + Join(x, y)[0]] + Join(x, y)[1..]
  {
    var z := [[u] + x[0]] + x[1..];
    if |x| == 1 {
      assert z == [[u] + x[0]] && z[..0] == [];
      assert ([u] + x[0]) + y[0] == [u] + (x[0] + y[0]);
      assert Join(x, y) == [x[0] + y[0]] + y[1..];
    } else {
      assert z[..|x| - 1] == [[u] + x[0]] + x[1..|x| - 1];
      assert x[..|x| - 1] == [x[0]] + x[1..|x| - 1];
    }
  }

  lemma {:induction false} LinesConcat(a: Text, b: Text)
    ensures Lines(a + b) == Join(Lines(a), Lines(b))
  {
    if a == [] {
      assert a + b == b && [] + Lines(b)[0] == Lines(b)[0];
    } else {
      LinesConcat(a[1..], b);
      HeadOfConcat(a, b);
      var x, y := Lines(a[1..]), Lines(b);
      JoinAfterNewline(x, y);
      JoinAfterUnit(a[0], x, y);
      hide Join;
    }
  }

  lemma {:induction false} ClosedLines(t: Text)
    ensures Closed(t) <==> Lines(t)[|Lines(t)| - 1] == []
  {
    if t != [] {
      ClosedLines(t[1..]);
    }
  }

  lemma {:induction false} OneLine(t: Text)
    requires NEWLINE !in t
    ensures Lines(t) == [t]
  {
    if t != [] {
      OneLine(t[1..]);
      assert [t[0]] + t[1..] == t;
    }
  }

  lemma {:induction false} RecordsConcat(a: seq<Text>, b: seq<Text>)
    ensures RecordsOf(a + b) == RecordsOf(a) + RecordsOf(b)
  {
    hide ParseLine;
    if a == [] {
      assert a + b == b;
    } else {
      RecordsConcat(a[1..], b);
      HeadOfConcat(a, b);
    }
  }

  lemma RecordOfLine(line: Text)
    ensures RecordsOf([line]) == match ParseLine(line) case Some(r) => [r] case None => []
  {
    hide ParseLine;
    assert [line][1..] == [] && RecordsOf([]) == [];
  }

  lemma JoinClosed(x: seq<Text>, y: seq<Text>)
    requires x != [] && y != [] && x[|x| - 1] == []
    ensures Join(x, y) == x[..|x| - 1] + y && x == x[..|x| - 1] + [x[|x| - 1]]
  {
    assert x[|x| - 1] + y[0] == y[0];
  }

  lemma EmptyLineAddsNothing(ls: seq<Text>)
    ensures RecordsOf(ls + [[]]) == RecordsOf(ls)
  {
    RecordsConcat(ls, [[]]);
    RecordOfLine([]);
    hide RecordsOf;
  }

  lemma RecordsJoined(x: seq<Text>, y: seq<Text>)
    requires x != [] && y != [] && x[|x| - 1] == []
    ensures RecordsOf(Join(x, y)) == RecordsOf(x) + RecordsOf(y)
  {
    hide RecordsOf, Join;
    JoinClosed(x, y);
    var a := x[..|x| - 1];
    RecordsConcat(a, y);
    EmptyLineAddsNothing(a);
  }

  /** Appending to a file that ends at the end of a line adds the appended records. */
  lemma AppendToClosed(a: Text, b: Text)
    requires Closed(a)
    ensures RecordsIn(a + b) == RecordsIn(a) + RecordsIn(b)
  {
    LinesConcat(a, b);
    ClosedLines(a);
    RecordsJoined(Lines(a), Lines(b));
  }

  /** Closing a torn line changes no record. */
  lemma RepairKeeps(t: Text)
    ensures Closed(Repair(t)) && RecordsIn(Repair(t)) == RecordsIn(t)
  {
    var x := Lines(t);
    LinesConcat(t, [NEWLINE]);
    var empty: Text := [];
    assert [NEWLINE][1..] == [] && Lines([NEWLINE]) == [empty, empty];
    assert x[|x| - 1] + empty == x[|x| - 1];
    assert [empty, empty][1..] == [empty];
    hide Lines;
    assert x[..|x| - 1] + [x[|x| - 1]] + [empty] == x + [empty];
    EmptyLineAddsNothing(x);
  }

  // ----- reading the head from the end

  lemma {:induction false} LastHeadConcat(a: seq<Text>, b: seq<Text>)
    ensures LastHead(a + b) == if LastHead(b).Some? then LastHead(b) else LastHead(a)
    decreases |b|
  {
    hide HeadOf;
    if b == [] {
      assert a + b == a;
    } else {
      assert (a + b)[..|a + b| - 1] == a + b[..|b| - 1];
      LastHeadConcat(a, b[..|b| - 1]);
    }
  }

  /** Walks the lines backwards to the newest record. */
  method NewestHead(lines: seq<Text>) returns (head: Option<Head>)
    ensures head == LastHead(lines)
  {
    hide HeadOf;
    var i := |lines|;
    assert lines[..i] == lines;
    while i > 0
      invariant 0 <= i <= |lines|
      invariant LastHead(lines) == LastHead(lines[..i])
    {
      i := i - 1;
      assert lines[..i + 1][..i] == lines[..i];
      head := HeadOf(lines[i]);
      if head.Some? {
        return;
      }
    }
    return None;
  }

  type Byte = b: int | 0 <= b < 256

  type Bytes = seq<Byte>

  const LF: Byte := 10

  /** A decoding that reads newlines as newlines and does not look past them, whatever else it makes
      of what it is given: as UTF-8 is decoded, also from the middle of a character on. */
  ghost predicate LineWise(decode: Bytes -> Text) {
    && decode([]) == []
    && (forall a, b :: decode(a + [LF] + b) == decode(a) + [NEWLINE] + decode(b))
    && (forall a :: LF !in a ==> NEWLINE !in decode(a))
  }

  lemma DecodeAround(decode: Bytes -> Text, a: Bytes, b: Bytes)
    requires LineWise(decode)
    ensures decode(a + [LF] + b) == decode(a) + [NEWLINE] + decode(b)
  {
  }

  lemma DecodeOneLine(decode: Bytes -> Text, a: Bytes)
    requires LineWise(decode) && LF !in a
    ensures NEWLINE !in decode(a)
  {
  }

  lemma NewlineFirst(z: Text)
    ensures Lines([NEWLINE] + z) == [[]] + Lines(z)
  {
    assert ([NEWLINE] + z)[1..] == z;
  }

  lemma JoinFromNewline(x: seq<Text>, y: seq<Text>)
    requires x != []
    ensures Join(x, [[]] + y) == x + y
  {
    var empty: Text := [];
    assert x[|x| - 1] + empty == x[|x| - 1];
    assert ([empty] + y)[1..] == y;
    assert x[..|x| - 1] + [x[|x| - 1]] + y == x + y;
  }

  lemma LinesAfterNewline(a: Text, z: Text)
    ensures Lines(a + [NEWLINE] + z) == Lines(a) + Lines(z)
    ensures Closed(a + [NEWLINE] + z) == (z == [] || Closed(z))
  {
    hide Lines, Join;
    LinesConcat(a, [NEWLINE] + z);
    assert a + ([NEWLINE] + z) == a + [NEWLINE] + z;
    NewlineFirst(z);
    JoinFromNewline(Lines(a), Lines(z));
  }

  lemma FirstNewline(t: Bytes) returns (i: nat)
    requires LF in t
    ensures i < |t| && LF !in t[..i] && t == t[..i] + [LF] + t[i + 1..]
  {
    i := 0;
    while t[i] != LF
      invariant i < |t| && LF !in t[..i] && LF in t[i..]
      decreases |t| - i
    {
      i := i + 1;
    }
  }

  /** A text whose first line is x has, after it, the last lines of any text that ends the same way. */
  lemma SameLinesAfter(x: Text, a: Text, y: Text)
    requires NEWLINE !in x
    ensures Lines(x + [NEWLINE] + y)[1..] == Lines(y)
    ensures var ls := Lines(a + [NEWLINE] + y); |Lines(y)| <= |ls| && ls[|ls| - |Lines(y)|..] == Lines(y)
    ensures Closed(x + [NEWLINE] + y) == Closed(a + [NEWLINE] + y)
  {
    hide Lines, Closed;
    LinesAfterNewline(a, y);
    LinesAfterNewline(x, y);
    OneLine(x);
    assert ([x] + Lines(y))[1..] == Lines(y);
  }

  /** A window that begins inside the file: its lines but for the first, which may be cut, are the
      last lines of the file, and it ends as the file does. */
  lemma WindowLines(decode: Bytes -> Text, t: Bytes, start: nat)
    requires LineWise(decode) && start <= |t|
    ensures var w, ls := Lines(decode(t[start..]))[1..], Lines(decode(t));
      |w| <= |ls| && ls[|ls| - |w|..] == w && (w != [] ==> Closed(decode(t[start..])) == Closed(decode(t)))
  {
    hide Lines, Closed, LineWise;
    var tail := t[start..];
    if LF in tail {
      var i := FirstNewline(tail);
      var x, y := tail[..i], tail[i + 1..];
      assert t == (t[..start] + x) + [LF] + y;
      DecodeAround(decode, t[..start] + x, y);
      DecodeAround(decode, x, y);
      DecodeOneLine(decode, x);
      SameLinesAfter(decode(x), decode(t[..start] + x), decode(y));
    } else {
      DecodeOneLine(decode, tail);
      OneLine(decode(tail));
    }
  }

  /** A head found in a window is the file's. */
  lemma WindowHead(decode: Bytes -> Text, t: Bytes, start: nat)
    requires LineWise(decode) && start <= |t|
    ensures LastHead(Lines(decode(t[start..]))[1..]).Some? ==>
      && LastHead(Lines(decode(t))) == LastHead(Lines(decode(t[start..]))[1..])
      && Closed(decode(t[start..])) == Closed(decode(t))
  {
    WindowLines(decode, t, start);
    var w, ls := Lines(decode(t[start..]))[1..], Lines(decode(t));
    assert w == [] ==> LastHead(w).None?;
    hide Lines, LastHead, LineWise, Closed;
    assert ls == ls[..|ls| - |w|] + w;
    LastHeadConcat(ls[..|ls| - |w|], w);
  }

  /** The newest record's hash and next seq, read backwards in growing windows of bytes; `after` is
      the file as readHead leaves it, with a torn last line closed. */
  method ReadHead(decode: Bytes -> Text, file: Option<Bytes>) returns (head: Option<Head>, after: Option<Bytes>)
    requires LineWise(decode)
    ensures head == if file.None? then None else LastHead(Lines(decode(file.value)))
    ensures after.Some? <==> file.Some?
    ensures file.Some? ==>
      (after == file || after.value == file.value + [LF]) && decode(after.value) == Repair(decode(file.value))
  {
    if file.None? || file.value == [] {
      return None, file;
    }
    var t := file.value;
    LineAdded(decode, t);
    hide Lines, LastHead, LineWise;
    var size := |t|;
    var window: nat := 64 * 1024;
    while true
      invariant window > 0
      decreases size - window
    {
      var start := if size > window then size - window else 0;
      var tail := t[start..];
      var complete := if start == 0 then Lines(decode(tail)) else Lines(decode(tail))[1..];
      head := NewestHead(complete);
      WindowHead(decode, t, start);
      assert start == 0 ==> tail == t;
      if head.Some? || start == 0 {
        return head, Some(if Closed(decode(tail)) then t else t + [LF]);
      }
      window := window * 4;
    }
  }

  lemma LineAdded(decode: Bytes -> Text, t: Bytes)
    requires LineWise(decode)
    ensures decode(t + [LF]) == decode(t) + [NEWLINE]
  {
    assert t + [LF] == t + [LF] + [];
    assert decode(t) + [NEWLINE] + [] == decode(t) + [NEWLINE];
  }

  /** Reads a file back into records, skipping the lines that do not parse. */
  method ReadAuditFile(file: Option<Text>) returns (records: seq<Record>)
    ensures records == if file.None? then [] else RecordsIn(file.value)
  {
    records := [];
    if file.None? {
      return;
    }
    var lines := Lines(file.value);
    hide ParseLine;
    for i := 0 to |lines|
      invariant records == RecordsOf(lines[..i])
    {
      assert lines[..i + 1] == lines[..i] + [lines[i]];
      RecordsConcat(lines[..i], [lines[i]]);
      RecordOfLine(lines[i]);
      var parsed := ParseLine(lines[i]);
      if parsed.Some? {
        records := records + [parsed.value];
      }
    }
    assert lines[..|lines|] == lines;
  }

  /** When every record has a string hash, the newest head is the last record's. */
  lemma {:induction false} LastHeadIsLast(ls: seq<Text>)
    requires forall r :: r in RecordsOf(ls) ==> HeadOfRecord(r).Some?
    ensures LastHead(ls) == if RecordsOf(ls) == [] then None else HeadOfRecord(RecordsOf(ls)[|RecordsOf(ls)| - 1])
    decreases |ls|
  {
    hide ParseLine, HeadOfRecord;
    if ls != [] {
      var a, b := ls[..|ls| - 1], ls[|ls| - 1];
      assert ls == a + [b];
      RecordsConcat(a, [b]);
      RecordOfLine(b);
      LastHeadIsLast(a);
    }
  }

  lemma NoHead(t: Text)
    requires RecordsIn(t) == []
    ensures LastHead(Lines(t)).None?
  {
    hide RecordsOf, Lines, LastHead, HeadOfRecord;
    LastHeadIsLast(Lines(t));
  }

  lemma LoneHead(t: Text, r: Record)
    requires RecordsIn(t) == [r] && HeadOfRecord(r).Some?
    ensures LastHead(Lines(t)) == HeadOfRecord(r)
  {
    hide RecordsOf, Lines, LastHead, HeadOfRecord;
    LastHeadIsLast(Lines(t));
  }

  // ----- writing a record

  /** An audit event carries no chain fields of its own. */
  predicate Unchained(event: Fields) {
    WellFormed(Obj(event)) && !HasKey(event, PREV_HASH) && !HasKey(event, HASH)
  }

  /** And nothing that its line cannot say: what a caller may put into it is redacted first. */
  predicate IsEvent(event: Fields) {
    Unchained(event) && Portable(Obj(event))
  }

  lemma {:induction false} DecimalIsNumber(n: nat)
    ensures IsNumber(Decimal(n))
    ensures n > 0 ==> ScanAll(Decimal(n)).Int?
  {
    var t := Decimal(n);
    if n >= 10 {
      DecimalIsNumber(n / 10);
      assert t[..|t| - 1] == Decimal(n / 10) && IsDigit(t[|t| - 1]);
    } else {
      assert t[..0] == [] && t == [48 + n];
    }
  }

  function Numeral(n: nat): NumText {
    DecimalIsNumber(n);
    Decimal(n)
  }

  /** The event with the next sequence number: `{ ...event, seq }`. */
  function Payload(event: Fields, seqNo: nat): Fields {
    Put(event, SEQ, Num(Numeral(seqNo)))
  }

  /** The record written after `head`: `{ ...payload, prevHash, hash }`. */
  function MakeRecord(sha: Text -> Text, head: Head, event: Fields): Record {
    var payload := Payload(event, head.seqNo);
    payload + [Field(PREV_HASH, Str(head.hash)), Field(HASH, Str(HashRecord(sha, head.hash, payload)))]
  }

  /** The record as a reader gets it back. */
  function Stored(r: Record): Record {
    CleanFields(r)
  }

  /** One line of the file, with its newline. */
  function LineOf(r: Record): Text {
    Stringify(Obj(r)) + [NEWLINE]
  }

  lemma {:induction false} PutKeeps<T>(fs: seq<Field<T>>, key: Text, value: T, other: Text)
    requires !HasKey(fs, other) && other != key
    ensures !HasKey(Put(fs, key, value), other)
  {
    if fs != [] && fs[0].key != key {
      assert forall i :: 0 <= i < |fs[1..]| ==> fs[1..][i] == fs[i + 1];
      assert !HasKey(fs[1..], other);
      PutKeeps(fs[1..], key, value, other);
      assert forall i :: 0 <= i < |Put(fs[1..], key, value)| ==> Put(fs[1..], key, value)[i].key != other;
    }
  }

  lemma {:induction false} PutWellFormed(fs: Fields, key: Text, value: Json)
    requires WellFormed(Obj(fs)) && WellFormed(value)
    ensures WellFormed(Obj(Put(fs, key, value)))
    ensures Lookup(Put(fs, key, value), key) == value
  {
    if fs != [] {
      var tail := fs[1..];
      assert forall i :: 0 <= i < |tail| ==> tail[i] == fs[i + 1];
      if fs[0].key != key {
        PutWellFormed(tail, key, value);
        assert !HasKey(tail, fs[0].key);
        PutKeeps(tail, key, value, fs[0].key);
        assert forall i :: 0 <= i < |Put(tail, key, value)| ==> Put(tail, key, value)[i].key != fs[0].key;
      }
    }
  }

  // ----- what a reader makes of a written record

  lemma {:induction false} CleanConcat(a: Fields, b: Fields)
    ensures CleanFields(a + b) == CleanFields(a) + CleanFields(b)
  {
    hide Clean;
    if a == [] {
      assert a + b == b;
    } else {
      CleanConcat(a[1..], b);
      HeadOfConcat(a, b);
    }
  }

  lemma {:induction false} LookupConcat(a: Fields, b: Fields, key: Text)
    requires !HasKey(a, key)
    ensures Lookup(a + b, key) == Lookup(b, key)
  {
    if a == [] {
      assert a + b == b;
    } else {
      assert forall i :: 0 <= i < |a[1..]| ==> a[1..][i] == a[i + 1];
      assert !HasKey(a[1..], key);
      LookupConcat(a[1..], b, key);
      HeadOfConcat(a, b);
    }
  }

  lemma {:induction false} LookupFirst(a: Fields, b: Fields, key: Text)
    requires !Lookup(a, key).Undef?
    ensures Lookup(a + b, key) == Lookup(a, key)
  {
    HeadOfConcat(a, b);
    if a[0].key != key {
      LookupFirst(a[1..], b, key);
    }
  }

  lemma {:induction false} LookupClean(fs: Fields, key: Text)
    requires !Dropped(Lookup(fs, key))
    ensures Lookup(CleanFields(fs), key) == Clean(Lookup(fs, key))
  {
    hide Clean;
    if fs[0].key != key {
      LookupClean(fs[1..], key);
      if !Dropped(fs[0].value) {
        HeadOfConcat([Field(fs[0].key, Clean(fs[0].value))], CleanFields(fs[1..]));
        assert CleanFields(fs)[1..] == CleanFields(fs[1..]);
      }
    }
  }

  lemma {:induction false} WithoutConcat(a: Fields, b: Fields, key: Text)
    ensures Without(a + b, key) == Without(a, key) + Without(b, key)
  {
    if a == [] {
      assert a + b == b;
    } else {
      WithoutConcat(a[1..], b, key);
      HeadOfConcat(a, b);
    }
  }

  lemma NoKeyInRest(a: Fields, key: Text)
    requires a != [] && !HasKey(a, key)
    ensures a[0].key != key && !HasKey(a[1..], key)
  {
    forall i | 0 <= i < |a[1..]| ensures a[1..][i].key != key {
      assert a[1..][i] == a[i + 1];
    }
  }

  lemma {:induction false} WithoutNothing(a: Fields, key: Text)
    requires !HasKey(a, key)
    ensures Without(a, key) == a
  {
    hide HasKey;
    if a != [] {
      NoKeyInRest(a, key);
      WithoutNothing(a[1..], key);
      assert a == [a[0]] + a[1..];
    }
  }

  /** A record's chain fields and event, as they are found in it again. */
  lemma ChainFields(payload: Fields, p: Text, h: Text)
    requires !HasKey(payload, PREV_HASH) && !HasKey(payload, HASH)
    ensures var r := payload + [Field(PREV_HASH, Str(p)), Field(HASH, Str(h))];
      Lookup(r, PREV_HASH) == Str(p) && Lookup(r, HASH) == Str(h) && EventOf(r) == payload
  {
    var a, b := Field(PREV_HASH, Str(p)), Field(HASH, Str(h));
    assert [a, b][1..] == [b] && [b][1..] == [];
    LookupConcat(payload, [a, b], PREV_HASH);
    LookupConcat(payload, [a, b], HASH);
    WithoutConcat(payload, [a, b], PREV_HASH);
    WithoutNothing(payload, PREV_HASH);
    assert Without([b], PREV_HASH) == [b];
    assert Without([a, b], PREV_HASH) == [b];
    WithoutConcat(payload, [b], HASH);
    WithoutNothing(payload, HASH);
    assert Without([b], HASH) == [];
  }

  lemma PayloadFacts(event: Fields, seqNo: nat)
    requires Unchained(event)
    ensures var payload := Payload(event, seqNo);
      && WellFormed(Obj(payload)) && Clean(Obj(payload)) == Obj(CleanFields(payload))
      && !HasKey(CleanFields(payload), PREV_HASH) && !HasKey(CleanFields(payload), HASH)
      && !HasKey(payload, PREV_HASH) && !HasKey(payload, HASH)
      && Lookup(CleanFields(payload), SEQ) == Num(Numeral(seqNo)) && SeqOf(CleanFields(payload)) == seqNo
  {
    DecimalRoundTrip(seqNo);
    var value := Num(Numeral(seqNo));
    var payload := Payload(event, seqNo);
    PutWellFormed(event, SEQ, value);
    PutKeeps(event, SEQ, value, PREV_HASH);
    PutKeeps(event, SEQ, value, HASH);
    LookupClean(payload, SEQ);
    CleanKeys(payload, PREV_HASH);
    CleanKeys(payload, HASH);
  }

  lemma RecordWellFormed(payload: Fields, p: Json, h: Json)
    requires WellFormed(Obj(payload)) && !HasKey(payload, PREV_HASH) && !HasKey(payload, HASH) && p.Str? && h.Str?
    ensures WellFormed(Obj(payload + [Field(PREV_HASH, p), Field(HASH, h)]))
  {
    var r := payload + [Field(PREV_HASH, p), Field(HASH, h)];
    forall i, j | 0 <= i < j < |r| ensures r[i].key != r[j].key {
      if j >= |payload| && i < |payload| {
        assert r[i] == payload[i];
      }
    }
  }

  lemma RecordFacts(event: Fields, seqNo: nat, p: Text, h: Text)
    requires Unchained(event)
    ensures var payload := Payload(event, seqNo);
      var r := payload + [Field(PREV_HASH, Str(p)), Field(HASH, Str(h))];
      var s := Stored(r);
      && WellFormed(Obj(r)) && Clean(Obj(r)) == Obj(s)
      && Lookup(r, HASH) == Str(h)
      && Lookup(s, PREV_HASH) == Str(p) && Lookup(s, HASH) == Str(h)
      && EventOf(s) == CleanFields(payload) && SeqOf(s) == seqNo
  {
    var payload := Payload(event, seqNo);
    var fields := [Field(PREV_HASH, Str(p)), Field(HASH, Str(h))];
    PayloadFacts(event, seqNo);
    hide CleanFields, Payload, Lookup, WellFormed, HasKey, EventOf;
    RecordWellFormed(payload, Str(p), Str(h));
    ChainFields(payload, p, h);
    ChainFields(CleanFields(payload), p, h);
    StoredIs(payload, p, h);
    LookupFirst(CleanFields(payload), fields, SEQ);
  }

  lemma MadeRecordFacts(sha: Text -> Text, head: Head, event: Fields)
    requires Unchained(event)
    ensures var r := MakeRecord(sha, head, event);
      var payload := Payload(event, head.seqNo);
      var h := HashRecord(sha, head.hash, payload);
      && WellFormed(Obj(r)) && Clean(Obj(r)) == Obj(Stored(r)) && Lookup(r, HASH) == Str(h)
      && Lookup(Stored(r), PREV_HASH) == Str(head.hash) && Lookup(Stored(r), HASH) == Str(h)
      && EventOf(Stored(r)) == CleanFields(payload) && SeqOf(Stored(r)) == head.seqNo
  {
    RecordFacts(event, head.seqNo, head.hash, HashRecord(sha, head.hash, Payload(event, head.seqNo)));
    hide CleanFields, Payload, HashRecord, EventOf, Lookup, WellFormed, SeqOf, Clean, Stored, Unchained;
  }

  lemma {:induction false} PutPortable(fs: Fields, key: Text, value: Json)
    requires Portable(Obj(fs)) && PortableField(value)
    ensures Portable(Obj(Put(fs, key, value)))
  {
    hide PortableField;
    if fs != [] {
      var tail := fs[1..];
      assert forall i :: 0 <= i < |tail| ==> tail[i] == fs[i + 1];
      if fs[0].key != key { PutPortable(tail, key, value); }
    }
  }

  /** What is hashed when the record is written is hashed when it is verified, exactly if the
      payload is one its line can say. */
  lemma SameHashed(prev: Text, event: Fields, seqNo: nat)
    requires Unchained(event)
    ensures var payload := Payload(event, seqNo);
      Hashed(prev, CleanFields(payload)) == Hashed(prev, payload) <==> Portable(Obj(payload))
  {
    var payload := Payload(event, seqNo);
    PayloadFacts(event, seqNo);
    hide CleanFields, Payload, Canonicalize, Clean, Portable, WellFormed, HasKey, Lookup, SeqOf;
    ReparseKeepsCanonical(Obj(payload));
    SamePrefix(prev, Canonicalize(Obj(CleanFields(payload))), Canonicalize(Obj(payload)));
  }

  lemma SamePrefix<T>(a: seq<T>, x: seq<T>, y: seq<T>)
    ensures a + x == a + y <==> x == y
  {
    assert (a + x)[|a|..] == x && (a + y)[|a|..] == y;
  }

  lemma PayloadPortable(event: Fields, seqNo: nat)
    requires IsEvent(event)
    ensures Portable(Obj(Payload(event, seqNo)))
  {
    PutPortable(event, SEQ, Num(Numeral(seqNo)));
  }

  /** The record a writer makes after `head` links to it, carries its sequence number, and leaves
      the next head. */
  lemma MadeRecordLinks(sha: Text -> Text, head: Head, event: Fields)
    requires IsEvent(event)
    ensures var r := MakeRecord(sha, head, event);
      && WellFormed(Obj(r)) && Clean(Obj(r)) == Obj(Stored(r))
      && Links(sha, Stored(r), head.hash) && SeqOf(Stored(r)) == head.seqNo
      && HeadOfRecord(Stored(r)) == Some(Head(HashOf(r), head.seqNo + 1))
      && HashOf(Stored(r)) == HashOf(r)
  {
    hide CleanFields, Payload, Hashed, EventOf, Lookup, WellFormed, HasKey, SeqOf, Clean, Stored, MakeRecord, Portable;
    PayloadPortable(event, head.seqNo);
    MadeRecordFacts(sha, head, event);
    SameHashed(head.hash, event, head.seqNo);
  }

  /** A record whose payload holds a date, or a function as a field, does not link once it is read
      back, unless two different texts have the same hash. */
  lemma UnportableDoesNotLink(sha: Text -> Text, head: Head, event: Fields)
    requires Unchained(event) && !Portable(Obj(Payload(event, head.seqNo)))
    ensures var payload := Payload(event, head.seqNo);
      var written, verified := Hashed(head.hash, payload), Hashed(head.hash, CleanFields(payload));
      written != verified && (Links(sha, Stored(MakeRecord(sha, head, event)), head.hash) <==> sha(verified) == sha(written))
  {
    hide CleanFields, Payload, Hashed, EventOf, Lookup, WellFormed, HasKey, SeqOf, Clean, Stored, MakeRecord, Portable;
    MadeRecordFacts(sha, head, event);
    SameHashed(head.hash, event, head.seqNo);
  }

  lemma StoredIs(payload: Fields, p: Text, h: Text)
    ensures var fields := [Field(PREV_HASH, Str(p)), Field(HASH, Str(h))];
      CleanFields(payload + fields) == CleanFields(payload) + fields
  {
    var a, b := Field(PREV_HASH, Str(p)), Field(HASH, Str(h));
    CleanConcat(payload, [a] + [b]);
    CleanConcat([a], [b]);
    CleanString(PREV_HASH, p);
    CleanString(HASH, h);
    assert [a] + [b] == [a, b];
  }

  lemma CleanString(key: Text, t: Text)
    ensures CleanFields([Field(key, Str(t))]) == [Field(key, Str(t))]
  {
    assert [Field(key, Str(t))][1..] == [] && CleanFields([]) == [];
  }

  // ----- a record's line, whole or cut short

  predicate Inline(t: Text) {
    NEWLINE !in t
  }

  lemma {:induction false} EscapedInline(s: Text)
    ensures Inline(Escaped(s))
  {
    if s != [] {
      EscapedInline(s[1..]);
      if |s| > 1 { EscapedInline(s[2..]); }
    }
  }

  /** JSON text holds no newline: a record is one line. */
  lemma {:induction false} StringifyInline(v: Json)
    ensures Inline(Stringify(v))
    decreases v, 1
  {
    match v
    case Num(n) => JsonRoundTrip.ScanUnits(n);
    case Str(s) => EscapedInline(s);
    case Date(iso) => if iso.Some? { EscapedInline(iso.value); }
    case Arr(es) => ElemsInline(es, true);
    case Obj(fs) => FieldsInline(fs, true);
    case _ =>
  }

  lemma {:induction false} ElemsInline(es: seq<Json>, first: bool)
    ensures Inline(StringifyElems(es, first))
    decreases es, 0
  {
    if es != [] {
      StringifyInline(es[0]);
      ElemsInline(es[1..], false);
    }
  }

  lemma {:induction false} FieldsInline(fs: Fields, first: bool)
    ensures Inline(StringifyFields(fs, first))
    decreases fs, 0
  {
    if fs != [] {
      EscapedInline(fs[0].key);
      StringifyInline(fs[0].value);
      FieldsInline(fs[1..], first);
      FieldsInline(fs[1..], false);
    }
  }

  /** What a file that ends in part of a record's line holds of that record: nothing, until the
      last brace is there. */
  lemma PrefixOfLine(r: Record, p: Text)
    requires WellFormed(Obj(r)) && Clean(Obj(r)) == Obj(Stored(r)) && p <= LineOf(r)
    ensures RecordsIn(p) == if |p| + 1 >= |LineOf(r)| then [Stored(r)] else []
  {
    var t := Stringify(Obj(r));
    StringifyInline(Obj(r));
    ReparseKeepsCanonical(Obj(r));
    StringifyClean(Obj(r));
    assert t != [];
    hide Stringify, Parse, Lines, RecordsOf, CleanFields;
    var q := if |p| > |t| then t else p;
    if |p| > |t| {
      assert p == t + [NEWLINE];
      assert !Closed(t);
      RepairKeeps(t);
    }
    assert q == t[..|q|] && q <= t;
    OneLine(q);
    RecordOfLine(q);
    if q == t {
    } else {
      JsonPrefix.PrefixRejected(Clean(Obj(r)), q);
    }
  }
}
