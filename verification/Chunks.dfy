/** Cutting a text into overlapping windows that prefer to end at a paragraph or a sentence. */
module Chunks {
  import opened Numbers
  import opened Texts

  const PARAGRAPH: Text := [10, 10]
  const SENTENCE: Text := [46, 32]

  /** White space and line terminators, as `trim` takes them off. */
  predicate IsSpace(u: Unit) {
    9 <= u <= 13 || u == 32 || u == 0xA0 || u == 0x1680 || 0x2000 <= u <= 0x200A
    || u == 0x2028 || u == 0x2029 || u == 0x202F || u == 0x205F || u == 0x3000 || u == 0xFEFF
  }

  function TrimStart(t: Text): Text {
    if t != [] && IsSpace(t[0]) then TrimStart(t[1..]) else t
  }

  function TrimEnd(t: Text): Text {
    if t != [] && IsSpace(t[|t| - 1]) then TrimEnd(t[..|t| - 1]) else t
  }

  function Trim(t: Text): Text {
    TrimEnd(TrimStart(t))
  }

  predicate Occurs(t: Text, pair: Text, i: int) {
    0 <= i <= |t| - 2 && |pair| == 2 && t[i..i + 2] == pair
  }

  lemma OccursBefore(t: Text, pair: Text)
    requires |t| >= 2
    ensures forall j :: j <= |t| - 3 ==> Occurs(t[..|t| - 1], pair, j) == Occurs(t, pair, j)
  {
    forall j | j <= |t| - 3 ensures Occurs(t[..|t| - 1], pair, j) == Occurs(t, pair, j) {
      if j >= 0 { assert t[..|t| - 1][j..j + 2] == t[j..j + 2]; }
    }
  }

  /** `t.lastIndexOf(pair)`. */
  function LastIndexOf(t: Text, pair: Text): (i: int)
    requires |pair| == 2
    ensures i == -1 || Occurs(t, pair, i)
    ensures forall j :: Occurs(t, pair, j) ==> j <= i
  {
    if |t| < 2 then -1
    else if t[|t| - 2..] == pair then |t| - 2
    else
      var i := LastIndexOf(t[..|t| - 1], pair);
      OccursBefore(t, pair);
      i
  }

  /** The overlap, clamped to half a window. */
  function Overlap(maxChars: int, overlapChars: int): (r: int)
    ensures maxChars >= 0 && overlapChars >= 0 ==> 0 <= r <= maxChars / 2
  {
    Min(overlapChars, maxChars / 2)
  }

  /** The last paragraph or sentence end in a window; -1 if there is none. */
  function BreakIndex(window: Text): (i: int)
    ensures -1 <= i <= |window| - 2 || (i == -1 && |window| < 2)
  {
    Max(LastIndexOf(window, PARAGRAPH), LastIndexOf(window, SENTENCE))
  }

  /** Where the window from `start` ends: after the last break, if it is past the middle. */
  function WindowEnd(t: Text, maxChars: nat, start: nat): (end: nat)
    requires start <= |t|
    ensures start <= end <= |t| && end <= start + maxChars
  {
    var windowEnd := Min(start + maxChars, |t|);
    if windowEnd == |t| then windowEnd
    else
      var b := BreakIndex(t[start..windowEnd]);
      if 2 * b > maxChars then start + b + 1 else windowEnd
  }

  /** A paragraph or a sentence ends at `i` in the window, past its middle. */
  predicate GoodBreak(window: Text, maxChars: nat, i: int) {
    2 * i > maxChars && (Occurs(window, PARAGRAPH, i) || Occurs(window, SENTENCE, i))
  }

  /** A window that is not the last is full, unless a paragraph or a sentence ends past its middle:
      then it ends with the last that does. */
  lemma EndsAtBreak(t: Text, maxChars: nat, start: nat)
    requires start + maxChars < |t|
    ensures var window, end := t[start..start + maxChars], WindowEnd(t, maxChars, start);
      && ((forall i :: !GoodBreak(window, maxChars, i)) ==> end == start + maxChars)
      && (forall i :: GoodBreak(window, maxChars, i) ==> i <= end - start - 1 && GoodBreak(window, maxChars, end - start - 1))
  {
    hide BreakIndex, GoodBreak;
    LastGoodBreak(t[start..start + maxChars], maxChars);
  }

  /** The break looked for is a good one, and the last, if there is any. */
  lemma LastGoodBreak(window: Text, maxChars: nat)
    ensures forall i :: GoodBreak(window, maxChars, i) ==> i <= BreakIndex(window) && 2 * BreakIndex(window) > maxChars
    ensures 2 * BreakIndex(window) > maxChars ==> GoodBreak(window, maxChars, BreakIndex(window))
  {
    var p, q := LastIndexOf(window, PARAGRAPH), LastIndexOf(window, SENTENCE);
    hide Occurs, LastIndexOf;
  }

  datatype Window = Window(start: nat, end: nat)

  /** A window that is not the last is longer than the overlap, so the next one starts later and the
      fallback for a stalled start is never taken. */
  lemma Advances(t: Text, maxChars: nat, overlapChars: nat, start: nat)
    requires maxChars >= 1 && start < |t|
    ensures start < WindowEnd(t, maxChars, start)
    ensures WindowEnd(t, maxChars, start) < |t| ==> WindowEnd(t, maxChars, start) - Overlap(maxChars, overlapChars) > start
  {
    hide BreakIndex;
  }

  /** With no room at all the start would never move. */
  lemma NoRoomNoProgress(t: Text, overlapChars: nat, start: nat)
    requires start < |t|
    ensures WindowEnd(t, 0, start) == start && Overlap(0, overlapChars) == 0
  {
    assert t[start..start] == [];
  }

  predicate Within(t: Text, ws: seq<Window>) {
    forall i :: 0 <= i < |ws| ==> ws[i].start < ws[i].end <= |t|
  }

  /** The windows from `start` on. */
  function WindowsFrom(t: Text, maxChars: nat, overlapChars: nat, start: nat): (ws: seq<Window>)
    requires maxChars >= 1 && start < |t|
    ensures Within(t, ws) && ws != [] && ws[0] == Window(start, WindowEnd(t, maxChars, start))
    decreases |t| - start
  {
    Advances(t, maxChars, overlapChars, start);
    var end := WindowEnd(t, maxChars, start);
    [Window(start, end)] + (if end >= |t| then [] else WindowsFrom(t, maxChars, overlapChars, end - Overlap(maxChars, overlapChars)))
  }

  /** The windows' texts, trimmed, but for the blank ones. */
  function Contents(t: Text, ws: seq<Window>): seq<Text>
    requires Within(t, ws)
  {
    if ws == [] then []
    else
      var chunk := Trim(t[ws[0].start..ws[0].end]);
      (if chunk == [] then [] else [chunk]) + Contents(t, ws[1..])
  }

  /** Windows within the text, none longer than allowed, the first at `start` and the last up to the
      end; each shares exactly the overlap with the next, which starts later. */
  ghost predicate Tiled(t: Text, maxChars: nat, overlap: int, ws: seq<Window>, start: nat) {
    && ws != [] && ws[0].start == start && ws[|ws| - 1].end == |t|
    && Within(t, ws) && (forall i :: 0 <= i < |ws| ==> ws[i].end <= ws[i].start + maxChars)
    && (forall i :: 0 < i < |ws| ==> ws[i - 1].start < ws[i].start && ws[i].start == ws[i - 1].end - overlap)
  }

  lemma OneTileMore(t: Text, maxChars: nat, overlap: int, w: Window, tail: seq<Window>)
    requires w.start < w.end <= |t| && w.end <= w.start + maxChars && w.end - overlap > w.start
    requires Tiled(t, maxChars, overlap, tail, w.end - overlap)
    ensures Tiled(t, maxChars, overlap, [w] + tail, w.start)
  {
    var ws := [w] + tail;
    assert forall i :: 0 < i < |ws| ==> ws[i] == tail[i - 1];
  }

  lemma LastTile(t: Text, maxChars: nat, overlap: int, w: Window)
    requires w.start < w.end == |t| && w.end <= w.start + maxChars
    ensures Tiled(t, maxChars, overlap, [w], w.start)
  {
  }

  lemma {:induction false} WindowsTile(t: Text, maxChars: nat, overlapChars: nat, start: nat)
    requires maxChars >= 1 && start < |t|
    ensures Tiled(t, maxChars, Overlap(maxChars, overlapChars), WindowsFrom(t, maxChars, overlapChars, start), start)
    decreases |t| - start
  {
    hide WindowEnd, Tiled, Overlap;
    Advances(t, maxChars, overlapChars, start);
    var end := WindowEnd(t, maxChars, start);
    var overlap := Overlap(maxChars, overlapChars);
    if end >= |t| {
      LastTile(t, maxChars, overlap, Window(start, end));
      assert WindowsFrom(t, maxChars, overlapChars, start) == [Window(start, end)];
    } else {
      WindowsTile(t, maxChars, overlapChars, end - overlap);
      OneTileMore(t, maxChars, overlap, Window(start, end), WindowsFrom(t, maxChars, overlapChars, end - overlap));
    }
  }

  /** No unit of the text is missed. */
  lemma {:induction false} Covered(t: Text, maxChars: nat, overlap: nat, ws: seq<Window>, start: nat, p: nat)
    requires Tiled(t, maxChars, overlap, ws, start) && start <= p < |t|
    ensures exists i :: 0 <= i < |ws| && ws[i].start <= p < ws[i].end
    decreases |ws|
  {
    if p >= ws[0].end {
      var tail := ws[1..];
      Covered(t, maxChars, overlap, tail, ws[1].start, p);
      var i :| 0 <= i < |tail| && tail[i].start <= p < tail[i].end;
      assert ws[i + 1] == tail[i];
    }
  }

  /** What the chunks are: the windows' texts, or the whole text if it fits one. */
  ghost predicate Chunked(t: Text, maxChars: nat, overlapChars: nat, chunks: seq<Text>) {
    && (t == [] ==> chunks == [])
    && (0 < |t| <= maxChars ==> chunks == [t])
    && (|t| > maxChars >= 1 ==>
          && Tiled(t, maxChars, Overlap(maxChars, overlapChars), WindowsFrom(t, maxChars, overlapChars, 0), 0)
          && chunks == Contents(t, WindowsFrom(t, maxChars, overlapChars, 0)))
  }

  /** The chunks, if `rounds` windows are enough to get to the end. They are as soon as there is one
      for each unit of the text, unless the windows have no room at all: then they never are. */
  method ChunkText(text: Text, maxChars: nat, overlapChars: nat, rounds: nat) returns (ended: bool, chunks: seq<Text>)
    ensures ended ==> Chunked(Trim(text), maxChars, overlapChars, chunks)
    ensures rounds >= |Trim(text)| ==> (ended <==> maxChars >= 1 || Trim(text) == [])
    ensures maxChars == 0 && Trim(text) != [] ==> !ended
  {
    var overlap := Overlap(maxChars, overlapChars);
    var t := Trim(text);
    hide Trim, WindowEnd, WindowsFrom, Contents, Tiled, Overlap;
    if |t| == 0 {
      return true, [];
    }
    if |t| <= maxChars {
      return true, [t];
    }
    if maxChars >= 1 { WindowsTile(t, maxChars, overlapChars, 0); }
    ghost var all := if maxChars >= 1 then Contents(t, WindowsFrom(t, maxChars, overlapChars, 0)) else [];
    chunks := [];
    var start, left := 0, rounds;
    while start < |t| && left > 0
      invariant 0 <= start < |t| && left <= rounds
      invariant maxChars >= 1 ==> |t| - start <= |t| - rounds + left
      invariant maxChars >= 1 ==> chunks + Contents(t, WindowsFrom(t, maxChars, overlapChars, start)) == all
      invariant maxChars == 0 ==> start == 0
      decreases left
    {
      var end := WindowEnd(t, maxChars, start);
      var chunk := Trim(t[start..end]);
      ghost var before := chunks;
      if chunk != [] {
        chunks := chunks + [chunk];
      }
      if maxChars >= 1 {
        Advances(t, maxChars, overlapChars, start);
        FirstContents(t, maxChars, overlapChars, start);
      } else {
        NoRoomNoProgress(t, overlapChars, start);
      }
      if end >= |t| {
        return true, chunks;
      }
      var nextStart := end - overlap;
      if maxChars >= 1 {
        ChunkAdded(all, before, if chunk == [] then [] else [chunk], Contents(t, WindowsFrom(t, maxChars, overlapChars, nextStart)));
      }
      start := if nextStart > start then nextStart else end;
      left := left - 1;
    }
    return false, chunks;
  }

  lemma ChunkAdded(all: seq<Text>, before: seq<Text>, chunk: seq<Text>, rest: seq<Text>)
    requires before + (chunk + rest) == all
    ensures (before + chunk) + rest == all
  {
  }

  lemma FirstContents(t: Text, maxChars: nat, overlapChars: nat, start: nat)
    requires maxChars >= 1 && start < |t|
    ensures var end, ws := WindowEnd(t, maxChars, start), WindowsFrom(t, maxChars, overlapChars, start);
      var chunk := Trim(t[start..end]);
      && (end >= |t| ==> Contents(t, ws) == (if chunk == [] then [] else [chunk]))
      && (end < |t| && end - Overlap(maxChars, overlapChars) > start ==>
            Contents(t, ws) == (if chunk == [] then [] else [chunk])
              + Contents(t, WindowsFrom(t, maxChars, overlapChars, end - Overlap(maxChars, overlapChars))))
  {
    hide Trim, WindowEnd;
    Advances(t, maxChars, overlapChars, start);
    var end, ws := WindowEnd(t, maxChars, start), WindowsFrom(t, maxChars, overlapChars, start);
    if end < |t| {
      assert ws[1..] == WindowsFrom(t, maxChars, overlapChars, end - Overlap(maxChars, overlapChars));
    } else {
      assert ws[1..] == [] && Contents(t, []) == [];
    }
  }
}
