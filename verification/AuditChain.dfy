/** The hash chain over audit records, and its two verifiers. A record is a JSON object as it was
    read back from a file; `sha` stands for SHA-256 in hexadecimal. */
module AuditChain {
  import opened Wrappers
  import opened Texts
  import opened Json
  import opened JsonCanonical

  type Record = Fields

  function Zeros(n: nat): (t: Text)
    ensures |t| == n
  {
    if n == 0 then [] else [48] + Zeros(n - 1)
  }

  const GENESIS: Text := Zeros(64)
  const PREV_HASH: Text := [112, 114, 101, 118, 72, 97, 115, 104]
  const HASH: Text := [104, 97, 115, 104]

  /** `o[key]`. */
  function Lookup(fs: Fields, key: Text): Json {
    if fs == [] then Undef else if fs[0].key == key then fs[0].value else Lookup(fs[1..], key)
  }

  function Without(fs: Fields, key: Text): Fields {
    if fs == [] then []
    else if fs[0].key == key then Without(fs[1..], key)
    else [fs[0]] + Without(fs[1..], key)
  }

  /** A record without its chain fields: `{ prevHash, hash, ...event }`. */
  function EventOf(r: Record): Fields {
    Without(Without(r, PREV_HASH), HASH)
  }

  /** What is hashed for an event that follows `prev`. */
  function Hashed(prev: Text, event: Fields): Text {
    prev + Canonicalize(Obj(event))
  }

  function HashRecord(sha: Text -> Text, prev: Text, event: Fields): Text {
    sha(Hashed(prev, event))
  }

  function HashOf(r: Record): Text {
    match Lookup(r, HASH) case Str(h) => h case _ => []
  }

  /** `r` names `prev` as its predecessor, and its hash is that of its own contents after it. */
  predicate Links(sha: Text -> Text, r: Record, prev: Text) {
    Lookup(r, PREV_HASH) == Str(prev) && Lookup(r, HASH) == Str(HashRecord(sha, prev, EventOf(r)))
  }

  /** The chain's head after `rs`. */
  function HeadAfter(rs: seq<Record>, start: Text): Text {
    if rs == [] then start else HashOf(rs[|rs| - 1])
  }

  /** Every record links to the one before it, the first to `start`. */
  predicate Chain(sha: Text -> Text, rs: seq<Record>, start: Text) {
    forall i :: 0 <= i < |rs| ==> Links(sha, rs[i], HeadAfter(rs[..i], start))
  }

  /** How many records link, from the first on. */
  function Verified(sha: Text -> Text, rs: seq<Record>, start: Text): (n: nat)
    ensures n <= |rs|
  {
    if rs == [] || !Links(sha, rs[0], start) then 0 else 1 + Verified(sha, rs[1..], HashOf(rs[0]))
  }

  lemma HeadAfterCons(r: Record, rs: seq<Record>, start: Text)
    ensures HeadAfter([r] + rs, start) == HeadAfter(rs, HashOf(r))
  {
    if rs != [] {
      assert ([r] + rs)[|rs|] == rs[|rs| - 1];
    }
  }

  lemma HeadAfterNone(start: Text)
    ensures HeadAfter([], start) == start
  {
  }

  lemma LinkCons(sha: Text -> Text, r: Record, rs: seq<Record>, start: Text, i: nat)
    requires i < |rs| && Links(sha, rs[i], HeadAfter(rs[..i], HashOf(r)))
    ensures Links(sha, ([r] + rs)[i + 1], HeadAfter(([r] + rs)[..i + 1], start))
  {
    hide Links, HashOf, HeadAfter;
    assert ([r] + rs)[..i + 1] == [r] + rs[..i];
    HeadAfterCons(r, rs[..i], start);
  }

  /** A record in front of a chain. */
  lemma ChainCons(sha: Text -> Text, r: Record, rs: seq<Record>, start: Text)
    requires Links(sha, r, start) && Chain(sha, rs, HashOf(r))
    ensures Chain(sha, [r] + rs, start)
  {
    hide Links, HashOf, HeadAfter;
    var all := [r] + rs;
    forall i | 0 <= i < |all| ensures Links(sha, all[i], HeadAfter(all[..i], start)) {
      if i == 0 {
        assert all[..0] == [];
        HeadAfterNone(start);
      } else {
        LinkCons(sha, r, rs, start, i - 1);
      }
    }
  }

  /** The verified prefix is a chain, and what comes next does not continue it. */
  lemma {:induction false} VerifiedIsLongest(sha: Text -> Text, rs: seq<Record>, start: Text)
    ensures var n := Verified(sha, rs, start);
      && Chain(sha, rs[..n], start)
      && (n < |rs| ==> !Links(sha, rs[n], HeadAfter(rs[..n], start)))
  {
    hide Links, HashOf;
    var n := Verified(sha, rs, start);
    if n == 0 {
      return;
    }
    hide HeadAfter, Chain;
    var tail := rs[1..];
    VerifiedIsLongest(sha, tail, HashOf(rs[0]));
    assert rs[..n] == [rs[0]] + tail[..n - 1];
    ChainCons(sha, rs[0], tail[..n - 1], start);
    HeadAfterCons(rs[0], tail[..n - 1], start);
    if n < |rs| {
      assert rs[n] == tail[n - 1];
    }
  }

  /** Verification of two stretches in turn is verification of both together. */
  lemma {:induction false} VerifiedConcat(sha: Text -> Text, a: seq<Record>, b: seq<Record>, start: Text)
    ensures Verified(sha, a + b, start) ==
      var n := Verified(sha, a, start);
      if n < |a| then n else n + Verified(sha, b, HeadAfter(a, start))
  {
    hide Links, HashOf;
    if a == [] {
      assert a + b == b;
    } else {
      assert (a + b)[0] == a[0] && (a + b)[1..] == a[1..] + b;
      VerifiedConcat(sha, a[1..], b, HashOf(a[0]));
      assert [a[0]] + a[1..] == a;
      HeadAfterCons(a[0], a[1..], start);
    }
  }

  lemma ChainIffVerified(sha: Text -> Text, rs: seq<Record>, start: Text)
    ensures Chain(sha, rs, start) <==> Verified(sha, rs, start) == |rs|
  {
    hide Links;
    VerifiedIsLongest(sha, rs, start);
    assert rs[..|rs|] == rs;
  }

  /** The next record, once all before it are verified. */
  lemma VerifiedNext(sha: Text -> Text, rs: seq<Record>, i: nat, start: Text)
    requires i < |rs| && Verified(sha, rs[..i], start) == i
    ensures Links(sha, rs[i], HeadAfter(rs[..i], start)) ==> Verified(sha, rs[..i + 1], start) == i + 1
    ensures !Links(sha, rs[i], HeadAfter(rs[..i], start)) ==> Verified(sha, rs, start) == i
    ensures HeadAfter(rs[..i + 1], start) == HashOf(rs[i])
  {
    hide Links, HashOf;
    assert rs[..i + 1] == rs[..i] + [rs[i]] && rs == rs[..i] + rs[i..];
    VerifiedConcat(sha, rs[..i], [rs[i]], start);
    VerifiedConcat(sha, rs[..i], rs[i..], start);
  }

  datatype Reason = NotAfterPredecessor | ContentsDoNotMatchHash

  datatype ChainVerification = ChainVerification(valid: bool, brokenAt: int, reason: Option<Reason>, endHash: Text)

  /** The verdict on a record that does not link. */
  function Why(r: Record, prev: Text): Reason {
    if Lookup(r, PREV_HASH) != Str(prev) then NotAfterPredecessor else ContentsDoNotMatchHash
  }

  /** The first record that breaks the chain, if any, and the head before it. */
  function Verdict(sha: Text -> Text, rs: seq<Record>, start: Text): ChainVerification {
    var n := Verified(sha, rs, start);
    var head := HeadAfter(rs[..n], start);
    if n == |rs| then ChainVerification(true, -1, None, head)
    else ChainVerification(false, n, Some(Why(rs[n], head)), head)
  }

  /** Recomputes the chain over `records`. */
  method VerifyAuditChain(sha: Text -> Text, records: seq<Record>, startHash: Text) returns (v: ChainVerification)
    ensures v == Verdict(sha, records, startHash)
    ensures v.valid <==> Chain(sha, records, startHash)
    ensures v.valid <==> v.reason.None?
  {
    ChainIffVerified(sha, records, startHash);
    assert records[..|records|] == records;
    assert HeadAfter(records[..0], startHash) == startHash && Verified(sha, records[..0], startHash) == 0;
    hide Verified, HeadAfter;
    var expected := startHash;
    for i := 0 to |records|
      invariant expected == HeadAfter(records[..i], startHash)
      invariant Verified(sha, records[..i], startHash) == i
    {
      var r := records[i];
      VerifiedNext(sha, records, i, startHash);
      if Lookup(r, PREV_HASH) != Str(expected) {
        return ChainVerification(false, i, Some(NotAfterPredecessor), expected);
      }
      var recomputed := HashRecord(sha, expected, EventOf(r));
      if Lookup(r, HASH) != Str(recomputed) {
        return ChainVerification(false, i, Some(ContentsDoNotMatchHash), expected);
      }
      expected := recomputed;
    }
    return ChainVerification(true, -1, None, expected);
  }

  // ----- rotated segments

  datatype Segment = Segment(name: Text, records: seq<Record>)

  datatype Failure = Failure(segment: Text, brokenAt: int, reason: Reason)

  datatype SegmentVerification = SegmentVerification(
    valid: bool,
    head: Text,
    totalRecords: nat,
    perSegment: seq<(Text, nat)>,
    truncatedStart: bool,
    startedFrom: Text,
    failure: Option<Failure>)

  /** All records, oldest segment first. */
  function Flatten(segments: seq<Segment>): seq<Record> {
    if segments == [] then [] else segments[0].records + Flatten(segments[1..])
  }

  /** The predecessor the oldest record names; a record that names none is held to the genesis. */
  function FirstPrev(rs: seq<Record>): Text {
    if rs == [] then GENESIS else match Lookup(rs[0], PREV_HASH) case Str(h) => h case _ => GENESIS
  }

  function Counts(segments: seq<Segment>): seq<(Text, nat)> {
    if segments == [] then [] else [(segments[0].name, |segments[0].records|)] + Counts(segments[1..])
  }

  function NonEmpty(segments: seq<Segment>): seq<Segment> {
    if segments == [] then []
    else (if segments[0].records == [] then [] else [segments[0]]) + NonEmpty(segments[1..])
  }

  function Total(segments: seq<Segment>): nat {
    if segments == [] then 0 else |segments[0].records| + Total(segments[1..])
  }

  /** Leaving out the empty segments leaves out no record. */
  lemma {:induction false} NonEmptyKeeps(segments: seq<Segment>)
    ensures Flatten(NonEmpty(segments)) == Flatten(segments)
    ensures Total(NonEmpty(segments)) == |Flatten(segments)|
    ensures forall i :: 0 <= i < |NonEmpty(segments)| ==> NonEmpty(segments)[i].records != []
  {
    if segments != [] {
      NonEmptyKeeps(segments[1..]);
      assert ([segments[0]] + NonEmpty(segments[1..]))[1..] == NonEmpty(segments[1..]);
      assert [] + NonEmpty(segments[1..]) == NonEmpty(segments[1..]);
    }
  }

  lemma {:induction false} FlattenConcat(a: seq<Segment>, b: seq<Segment>)
    ensures Flatten(a + b) == Flatten(a) + Flatten(b)
  {
    if a == [] {
      assert a + b == b;
    } else {
      assert (a + b)[0] == a[0] && (a + b)[1..] == a[1..] + b;
      FlattenConcat(a[1..], b);
    }
  }

  lemma FlattenOne(s: Segment)
    ensures Flatten([s]) == s.records
  {
    assert [s][1..] == [] && Flatten([]) == [];
  }

  /** `segments[k]` starts after all the records of the ones before it. */
  lemma FlattenAt(segments: seq<Segment>, k: nat)
    requires k < |segments|
    ensures Flatten(segments[..k + 1]) == Flatten(segments[..k]) + segments[k].records
    ensures Flatten(segments) == Flatten(segments[..k]) + segments[k].records + Flatten(segments[k + 1..])
  {
    hide Flatten;
    FlattenOne(segments[k]);
    FlattenConcat(segments[..k], [segments[k]]);
    FlattenConcat(segments[..k + 1], segments[k + 1..]);
    SplitAt(segments, k);
  }

  lemma SplitAt<T>(s: seq<T>, k: nat)
    requires k < |s|
    ensures s[..k + 1] == s[..k] + [s[k]] && s == s[..k + 1] + s[k + 1..]
  {
  }

  /** Which segment breaks the chain that starts at `first`, if any does. */
  ghost predicate BrokenIn(sha: Text -> Text, segments: seq<Segment>, first: Text, f: Failure) {
    exists k :: 0 <= k < |segments| && BrokenAt(sha, segments, first, f, k)
  }

  ghost predicate BrokenAt(sha: Text -> Text, segments: seq<Segment>, first: Text, f: Failure, k: nat)
    requires k < |segments|
  {
    var whole := Verdict(sha, Flatten(segments), first);
    && f.segment == segments[k].name
    && 0 <= f.brokenAt < |segments[k].records|
    && whole.brokenAt == |Flatten(segments[..k])| + f.brokenAt
    && whole.reason == Some(f.reason)
  }

  lemma HeadAfterConcat(a: seq<Record>, b: seq<Record>, start: Text)
    ensures HeadAfter(a + b, start) == HeadAfter(b, HeadAfter(a, start))
  {
  }

  /** The verdict on a stretch, started from the head of a verified stretch before it. */
  lemma MiddleVerdict(sha: Text -> Text, a: seq<Record>, r: seq<Record>, b: seq<Record>, first: Text)
    requires Verified(sha, a, first) == |a|
    ensures var v := Verdict(sha, r, HeadAfter(a, first));
      var whole := Verdict(sha, a + r + b, first);
      && (v.valid ==> Verified(sha, a + r, first) == |a + r| && v.endHash == HeadAfter(a + r, first))
      && (!v.valid ==> !whole.valid && whole.endHash == v.endHash && whole.reason == v.reason && whole.brokenAt == |a| + v.brokenAt)
  {
    VerifiedConcat(sha, a, r, first);
    VerifiedConcat(sha, a + r, b, first);
    hide Links, HashOf, Why, Verified;
    var n := Verified(sha, r, HeadAfter(a, first));
    HeadAfterConcat(a, r[..n], first);
    hide HeadAfter;
    assert r[..|r|] == r;
    if n < |r| {
      assert (a + r + b)[..|a| + n] == a + r[..n];
      assert (a + r + b)[|a| + n] == r[n];
    }
  }

  /** One more segment: its own verdict, started from the head so far, is the verdict on the whole. */
  lemma SegmentVerdict(sha: Text -> Text, segments: seq<Segment>, k: nat, first: Text)
    requires k < |segments|
    requires Verified(sha, Flatten(segments[..k]), first) == |Flatten(segments[..k])|
    ensures var head := HeadAfter(Flatten(segments[..k]), first);
      var v := Verdict(sha, segments[k].records, head);
      var whole := Verdict(sha, Flatten(segments), first);
      && (v.valid ==>
            && Verified(sha, Flatten(segments[..k + 1]), first) == |Flatten(segments[..k + 1])|
            && v.endHash == HeadAfter(Flatten(segments[..k + 1]), first))
      && (!v.valid ==>
            && !whole.valid && whole.endHash == v.endHash && whole.reason == v.reason
            && whole.brokenAt == |Flatten(segments[..k])| + v.brokenAt)
  {
    FlattenAt(segments, k);
    MiddleVerdict(sha, Flatten(segments[..k]), segments[k].records, Flatten(segments[k + 1..]), first);
    hide Verified, HeadAfter, Verdict, Flatten;
  }

  lemma BreaksAt(sha: Text -> Text, segments: seq<Segment>, first: Text, f: Failure, k: nat, v: ChainVerification)
    requires k < |segments| && !v.valid && v == Verdict(sha, segments[k].records, HeadAfter(Flatten(segments[..k]), first))
    requires Verified(sha, Flatten(segments[..k]), first) == |Flatten(segments[..k])|
    requires f == Failure(segments[k].name, v.brokenAt, v.reason.value)
    ensures BrokenIn(sha, segments, first, f)
  {
    SegmentVerdict(sha, segments, k, first);
    hide Flatten, HeadAfter, Why;
    assert BrokenAt(sha, segments, first, f, k);
  }

  /** The oldest record is the first of the first segment that has any. */
  lemma OldestFirst(sha: Text -> Text, segments: seq<Segment>)
    ensures var nonEmpty, all := NonEmpty(segments), Flatten(segments);
      && (nonEmpty == [] ==> all == [] && FirstPrev(all) == GENESIS && Verdict(sha, all, GENESIS) == ChainVerification(true, -1, None, GENESIS))
      && (nonEmpty != [] ==>
            && nonEmpty[0].records != [] && all != [] && all[0] == nonEmpty[0].records[0]
            && FirstPrev([all[0]]) == FirstPrev(all))
  {
    NonEmptyKeeps(segments);
    var nonEmpty := NonEmpty(segments);
    hide NonEmpty, Links, HashOf, Lookup;
    assert nonEmpty == [] ==> Flatten(nonEmpty) == [];
    assert nonEmpty != [] ==> Flatten(nonEmpty) == nonEmpty[0].records + Flatten(nonEmpty[1..]);
  }

  lemma NothingVerified(sha: Text -> Text, segments: seq<Segment>, first: Text)
    ensures Flatten(segments[..0]) == [] && Verified(sha, [], first) == 0 && HeadAfter([], first) == first
    ensures segments[..|segments|] == segments
  {
  }

  lemma VerdictOfVerified(sha: Text -> Text, rs: seq<Record>, first: Text)
    requires Verified(sha, rs, first) == |rs|
    ensures Verdict(sha, rs, first).valid && Verdict(sha, rs, first).endHash == HeadAfter(rs, first)
  {
    assert rs[..|rs|] == rs;
  }

  /** Verifies a chain across rotated segments, oldest first, from whatever predecessor the oldest
      record names. */
  method VerifyAuditSegments(sha: Text -> Text, segments: seq<Segment>) returns (v: SegmentVerification)
    ensures var all := Flatten(segments);
      var whole := Verdict(sha, all, FirstPrev(all));
      && v.valid == whole.valid && v.head == whole.endHash
      && v.totalRecords == |all| && v.perSegment == Counts(segments)
      && v.startedFrom == FirstPrev(all)
      && v.truncatedStart == (all != [] && Lookup(all[0], PREV_HASH) != Str(GENESIS))
      && (v.failure.None? <==> v.valid)
      && (v.failure.Some? ==> BrokenIn(sha, NonEmpty(segments), FirstPrev(all), v.failure.value))
  {
    hide Flatten, NonEmpty, Counts, Total, FirstPrev, Lookup, Verified, HeadAfter, Verdict, BrokenIn, Chain;
    var nonEmpty := NonEmpty(segments);
    var perSegment := Counts(segments);
    var total := Total(nonEmpty);
    NonEmptyKeeps(segments);
    ghost var all := Flatten(segments);
    OldestFirst(sha, segments);
    if nonEmpty == [] {
      return SegmentVerification(true, GENESIS, 0, perSegment, false, GENESIS, None);
    }
    var oldest := nonEmpty[0].records[0];
    var first := FirstPrev([oldest]);
    var truncatedStart := Lookup(oldest, PREV_HASH) != Str(GENESIS);
    var expected := first;
    NothingVerified(sha, nonEmpty, first);
    for i := 0 to |nonEmpty|
      invariant Verified(sha, Flatten(nonEmpty[..i]), first) == |Flatten(nonEmpty[..i])|
      invariant expected == HeadAfter(Flatten(nonEmpty[..i]), first)
    {
      var s := nonEmpty[i];
      SegmentVerdict(sha, nonEmpty, i, first);
      var result := VerifyAuditChain(sha, s.records, expected);
      if !result.valid {
        var failure := Failure(s.name, result.brokenAt, result.reason.value);
        BreaksAt(sha, nonEmpty, first, failure, i, result);
        return SegmentVerification(false, result.endHash, total, perSegment, truncatedStart, first, Some(failure));
      }
      expected := result.endHash;
    }
    VerdictOfVerified(sha, all, first);
    return SegmentVerification(true, expected, total, perSegment, truncatedStart, first, None);
  }

  // ----- the head commits to the history

  /** What was hashed for record `i` of a chain. */
  function Input(rs: seq<Record>, i: nat, start: Text): Text
    requires i < |rs|
  {
    Hashed(HeadAfter(rs[..i], start), EventOf(rs[i]))
  }

  /** Two different texts hashed for these chains have the same digest, or one's is the genesis. */
  ghost predicate Collision(sha: Text -> Text, rs: seq<Record>, ss: seq<Record>) {
    || (exists i, j :: 0 <= i < |rs| && 0 <= j < |ss| && Input(rs, i, GENESIS) != Input(ss, j, GENESIS)
          && sha(Input(rs, i, GENESIS)) == sha(Input(ss, j, GENESIS)))
    || (exists i :: 0 <= i < |rs| && sha(Input(rs, i, GENESIS)) == GENESIS)
    || (exists j :: 0 <= j < |ss| && sha(Input(ss, j, GENESIS)) == GENESIS)
  }

  ghost predicate SameEvents(rs: seq<Record>, ss: seq<Record>) {
    |rs| == |ss| && forall i :: 0 <= i < |rs| ==> MeaningOf(Obj(EventOf(rs[i]))) == MeaningOf(Obj(EventOf(ss[i])))
  }

  ghost predicate Digests(sha: Text -> Text) {
    forall t :: |sha(t)| == 64
  }

  predicate HasKey<T>(fs: seq<Field<T>>, key: Text) {
    exists i :: 0 <= i < |fs| && fs[i].key == key
  }

  lemma {:induction false} WithoutKeys(fs: Fields, key: Text, other: Text)
    requires !HasKey(fs, other)
    ensures !HasKey(Without(fs, key), other)
  {
    if fs != [] {
      assert forall i :: 0 <= i < |fs[1..]| ==> fs[1..][i] == fs[i + 1];
      assert !HasKey(fs[1..], other);
      WithoutKeys(fs[1..], key, other);
    }
  }

  lemma {:induction false} WithoutWellFormed(fs: Fields, key: Text)
    requires WellFormed(Obj(fs))
    ensures WellFormed(Obj(Without(fs, key)))
  {
    if fs != [] {
      assert forall i :: 0 <= i < |fs[1..]| ==> fs[1..][i] == fs[i + 1];
      WithoutWellFormed(fs[1..], key);
      assert !HasKey(fs[1..], fs[0].key);
      WithoutKeys(fs[1..], key, fs[0].key);
      assert forall i :: 0 <= i < |Without(fs[1..], key)| ==> Without(fs[1..], key)[i].key != fs[0].key;
    }
  }

  lemma EventWellFormed(r: Record)
    requires WellFormed(Obj(r))
    ensures WellFormed(Obj(EventOf(r)))
  {
    WithoutWellFormed(r, PREV_HASH);
    WithoutWellFormed(Without(r, PREV_HASH), HASH);
  }

  /** Every head of a chain from genesis is as long as a digest. */
  lemma HeadLength(sha: Text -> Text, rs: seq<Record>)
    requires Digests(sha) && Chain(sha, rs, GENESIS)
    ensures |HeadAfter(rs, GENESIS)| == 64
    ensures rs != [] ==> HeadAfter(rs, GENESIS) == sha(Input(rs, |rs| - 1, GENESIS))
  {
    hide EventOf, Canonicalize;
    if rs != [] {
      assert Links(sha, rs[|rs| - 1], HeadAfter(rs[..|rs| - 1], GENESIS));
    }
  }

  lemma ShorterChain(sha: Text -> Text, rs: seq<Record>, n: nat)
    requires n <= |rs| && Chain(sha, rs, GENESIS)
    ensures Chain(sha, rs[..n], GENESIS)
    ensures forall i :: 0 <= i < n ==> Input(rs[..n], i, GENESIS) == Input(rs, i, GENESIS)
  {
    hide Links, Hashed, EventOf, HeadAfter;
    forall i | 0 <= i < n ensures rs[..n][..i] == rs[..i] && rs[..n][i] == rs[i] {
    }
    assert forall i :: 0 <= i < n ==> Links(sha, rs[..n][i], HeadAfter(rs[..n][..i], GENESIS));
  }

  lemma CollisionInWhole(sha: Text -> Text, rs: seq<Record>, ss: seq<Record>, m: nat, n: nat)
    requires m <= |rs| && n <= |ss| && Chain(sha, rs, GENESIS) && Chain(sha, ss, GENESIS)
    requires Collision(sha, rs[..m], ss[..n])
    ensures Collision(sha, rs, ss)
  {
    ShorterChain(sha, rs, m);
    ShorterChain(sha, ss, n);
    hide Chain, Input;
  }

  lemma OneMoreEvent(rs: seq<Record>, ss: seq<Record>, m: nat, n: nat)
    requires |rs| == m + 1 && |ss| == n + 1 && SameEvents(rs[..m], ss[..n])
    requires MeaningOf(Obj(EventOf(rs[m]))) == MeaningOf(Obj(EventOf(ss[n])))
    ensures SameEvents(rs, ss)
  {
    hide MeaningOf, EventOf;
    assert forall i :: 0 <= i < m ==> rs[..m][i] == rs[i] && ss[..n][i] == ss[i];
  }

  /** Two chains from genesis that end in the same head record the same events, unless the hash
      function collides on what was hashed for them. */
  lemma {:induction false} HeadCommitsToHistory(sha: Text -> Text, rs: seq<Record>, ss: seq<Record>)
    requires Digests(sha) && Chain(sha, rs, GENESIS) && Chain(sha, ss, GENESIS)
    requires forall i :: 0 <= i < |rs| ==> WellFormed(Obj(rs[i]))
    requires forall i :: 0 <= i < |ss| ==> WellFormed(Obj(ss[i]))
    requires HeadAfter(rs, GENESIS) == HeadAfter(ss, GENESIS)
    ensures SameEvents(rs, ss) || Collision(sha, rs, ss)
    decreases |rs|
  {
    hide Chain, Links, MeaningOf, WellFormed, EventOf, Hashed;
    HeadLength(sha, rs);
    HeadLength(sha, ss);
    if rs != [] && ss != [] {
      var m, n := |rs| - 1, |ss| - 1;
      if Input(rs, m, GENESIS) == Input(ss, n, GENESIS) {
        ShorterChain(sha, rs, m);
        ShorterChain(sha, ss, n);
        HeadLength(sha, rs[..m]);
        HeadLength(sha, ss[..n]);
        SameInput(HeadAfter(rs[..m], GENESIS), HeadAfter(ss[..n], GENESIS), rs[m], ss[n]);
        HeadCommitsToHistory(sha, rs[..m], ss[..n]);
        if SameEvents(rs[..m], ss[..n]) {
          OneMoreEvent(rs, ss, m, n);
        } else {
          CollisionInWhole(sha, rs, ss, m, n);
        }
      }
    }
  }

  lemma SameInput(p: Text, q: Text, r: Record, s: Record)
    requires |p| == |q| && Hashed(p, EventOf(r)) == Hashed(q, EventOf(s))
    requires WellFormed(Obj(r)) && WellFormed(Obj(s))
    ensures p == q && MeaningOf(Obj(EventOf(r))) == MeaningOf(Obj(EventOf(s)))
  {
    EventWellFormed(r);
    EventWellFormed(s);
    hide MeaningOf, Canonicalize, EventOf, WellFormed;
    var a, b := Canonicalize(Obj(EventOf(r))), Canonicalize(Obj(EventOf(s)));
    assert (p + a)[..|p|] == p && (q + b)[..|q|] == q && (p + a)[|p|..] == a && (q + b)[|q|..] == b;
    CanonicalizeIsFaithful(Obj(EventOf(r)), Obj(EventOf(s)));
  }
}
