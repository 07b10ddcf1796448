/**
 `awaitingUser` off the persisted transcript (src/awaitingUserTranscript.ts): complete lines read backward in
 chunks, a region scan that stops at the newest decisive fact, a memo that extends the last scan, and a walk
 over segments. Everything is measured against one forward reading of the bytes, `FileFacts`.
 */
module Transcript {
  import opened Text
  import opened AskState

  newtype Byte = b: int | 0 <= b < 256

  const NEWLINE: Byte := 10

  datatype Line = Line(text: seq<Byte>, start: int, end: int)

  // ---------------------------------------------------------------------------------------------
  // Lines
  // ---------------------------------------------------------------------------------------------

  function NextNewline(file: seq<Byte>, lo: int, hi: int): (i: int)
    requires 0 <= lo <= hi <= |file|
    ensures lo <= i <= hi
    ensures forall j :: lo <= j < i ==> file[j] != NEWLINE
    ensures i < hi ==> file[i] == NEWLINE
    decreases hi - lo
  {
    if lo == hi || file[lo] == NEWLINE then lo else NextNewline(file, lo + 1, hi)
  }

  /** The complete, non-empty lines of [lo, hi), in file order; bytes after the last newline are no line yet. */
  function Lines(file: seq<Byte>, lo: int, hi: int): seq<Line>
    requires 0 <= lo <= hi <= |file|
    decreases hi - lo
  {
    var nl := NextNewline(file, lo, hi);
    if nl == hi then []
    else (if nl > lo then [Line(file[lo..nl], lo, nl)] else []) + Lines(file, nl + 1, hi)
  }

  ghost predicate NoNewline(file: seq<Byte>, lo: int, hi: int)
    requires 0 <= lo <= hi <= |file|
  {
    forall j :: lo <= j < hi ==> file[j] != NEWLINE
  }

  lemma LinesFirst(file: seq<Byte>, lo: int, nl: int, hi: int)
    requires 0 <= lo <= nl < hi <= |file| && NoNewline(file, lo, nl) && file[nl] == NEWLINE
    ensures Lines(file, lo, hi) ==
            (if nl > lo then [Line(file[lo..nl], lo, nl)] else []) + Lines(file, nl + 1, hi)
  {
    var i := NextNewline(file, lo, hi);
    assert i == nl;
  }

  lemma LinesNone(file: seq<Byte>, lo: int, hi: int)
    requires 0 <= lo <= hi <= |file| && NoNewline(file, lo, hi)
    ensures Lines(file, lo, hi) == []
  {
    var i := NextNewline(file, lo, hi);
    assert i == hi;
  }

  predicate LineStart(file: seq<Byte>, at: int) {
    0 <= at <= |file| && (at == 0 || file[at - 1] == NEWLINE)
  }

  lemma {:induction false} LinesSplit(file: seq<Byte>, lo: int, mid: int, hi: int)
    requires 0 <= lo <= mid <= hi <= |file| && (mid == lo || file[mid - 1] == NEWLINE)
    ensures Lines(file, lo, hi) == Lines(file, lo, mid) + Lines(file, mid, hi)
    decreases mid - lo
  {
    if mid == lo {
      LinesNone(file, lo, mid);
    } else {
      var nl := NextNewline(file, lo, hi);
      assert nl <= mid - 1;
      LinesFirst(file, lo, nl, hi);
      LinesFirst(file, lo, nl, mid);
      LinesSplit(file, nl + 1, mid, hi);
      var first := if nl > lo then [Line(file[lo..nl], lo, nl)] else [];
      Assoc(first, Lines(file, nl + 1, mid), Lines(file, mid, hi));
    }
  }

  lemma Assoc<T>(a: seq<T>, b: seq<T>, c: seq<T>)
    ensures a + (b + c) == a + b + c
  {
  }

  lemma {:induction false} LinesPrefix(file: seq<Byte>, more: seq<Byte>, lo: int, hi: int)
    requires 0 <= lo <= hi <= |file| && file <= more
    ensures Lines(more, lo, hi) == Lines(file, lo, hi)
    decreases hi - lo
  {
    var nl := NextNewline(file, lo, hi);
    if nl == hi {
      LinesNone(more, lo, hi);
    } else {
      LinesFirst(more, lo, nl, hi);
      LinesPrefix(file, more, nl + 1, hi);
      assert more[lo..nl] == file[lo..nl];
    }
  }

  function Reverse<T>(s: seq<T>): (r: seq<T>)
    ensures |r| == |s|
    ensures forall i :: 0 <= i < |s| ==> r[i] == s[|s| - 1 - i]
  {
    if s == [] then [] else Reverse(s[1..]) + [s[0]]
  }

  lemma ChunkByte(file: seq<Byte>, pos: int, data: seq<Byte>, i: int)
    requires 0 <= pos && pos + |data| <= |file| && data == file[pos..pos + |data|] && 0 <= i < |data|
    ensures data[i] == file[pos + i]
  {
  }

  lemma ChunkText(file: seq<Byte>, pos: int, data: seq<Byte>, i: int, j: int)
    requires 0 <= pos && pos + |data| <= |file| && data == file[pos..pos + |data|] && 0 <= i <= j <= |data|
    ensures data[i..j] == file[pos + i..pos + j]
  {
    SubSlice(file, pos, pos + |data|, i, j);
  }

  /** At a newline: the text after it is a line, unless it is empty or unfinished. */
  method MeetNewline(ghost file: seq<Byte>, pos: int, data: seq<Byte>, i: int, end: int, ghost hi: int,
                     sawNewline: bool, out0: seq<Line>)
    returns (out: seq<Line>)
    requires 0 <= pos && pos + |data| <= hi <= |file| && data == file[pos..pos + |data|]
    requires 0 <= i < end <= |data| && file[pos + i] == NEWLINE && NoNewline(file, pos + i + 1, pos + end)
    requires Yielded(file, pos + end, hi, sawNewline, out0)
    ensures Yielded(file, pos + i, hi, true, out)
  {
    var text := data[i + 1..end];
    ChunkText(file, pos, data, i + 1, end);
    Meets(file, pos + i, pos + end, hi, sawNewline, out0, text);
    out := if sawNewline && |text| > 0 then out0 + [Line(text, pos + i + 1, pos + end)] else out0;
  }

  /** One chunk, read backward: `data` is the file's bytes at [pos, pos + |data|), its end already carried over. */
  method ScanChunk(file: seq<Byte>, pos: int, data: seq<Byte>, hi: int, saw0: bool, out0: seq<Line>)
    returns (carry: seq<Byte>, sawNewline: bool, out: seq<Line>)
    requires 0 <= pos && pos + |data| <= hi <= |file| && data == file[pos..pos + |data|]
    requires Yielded(file, pos + |data|, hi, saw0, out0)
    ensures pos + |carry| <= hi && carry == file[pos..pos + |carry|]
    ensures NoNewline(file, pos, pos + |carry|)
    ensures Yielded(file, pos + |carry|, hi, sawNewline, out)
  {
    sawNewline, out := saw0, out0;
    var end := |data|;
    var i := |data|;
    while i > 0
      invariant 0 <= i <= end <= |data|
      invariant NoNewline(file, pos + i, pos + end)
      invariant Yielded(file, pos + end, hi, sawNewline, out)
      decreases i
    {
      i := i - 1;
      ChunkByte(file, pos, data, i);
      if data[i] != NEWLINE {
        continue;
      }
      out := MeetNewline(file, pos, data, i, end, hi, sawNewline, out);
      sawNewline := true;
      end := i;
    }
    ChunkText(file, pos, data, 0, end);
    carry := data[..end];
  }

  /**
   `linesBackward`, drained: `chunk` bytes at a time from the end, carrying the unfinished front of each chunk
   into the next. For every chunk size it yields exactly the complete lines, newest first.
   */
  method LinesBackward(file: seq<Byte>, lo: int, hi: int, chunk: int) returns (out: seq<Line>)
    requires 0 <= lo <= hi <= |file| && chunk >= 1
    ensures out == Reverse(Lines(file, lo, hi))
  {
    out := [];
    var pos := hi;
    var carry: seq<Byte> := [];
    var sawNewline := false;
    while pos > lo
      invariant lo <= pos && pos + |carry| <= hi && carry == file[pos..pos + |carry|]
      invariant NoNewline(file, pos, pos + |carry|)
      invariant Yielded(file, pos + |carry|, hi, sawNewline, out)
      decreases pos
    {
      var len := if chunk < pos - lo then chunk else pos - lo;
      pos := pos - len;
      carry, sawNewline, out := ScanChunk(file, pos, file[pos..pos + len] + carry, hi, sawNewline, out);
    }
    if sawNewline {
      LinesFirst(file, lo, lo + |carry|, hi);
      if |carry| > 0 {
        ReverseCons(Line(carry, lo, lo + |carry|), Lines(file, lo + |carry| + 1, hi));
        out := out + [Line(carry, lo, lo + |carry|)];
      }
    } else {
      LinesNone(file, lo, hi);
    }
  }

  /** Everything after the newline at `end` has been yielded; before the first newline is met nothing has. */
  ghost predicate Yielded(file: seq<Byte>, end: int, hi: int, sawNewline: bool, out: seq<Line>)
    requires 0 <= end <= hi <= |file|
  {
    if sawNewline then end < hi && file[end] == NEWLINE && out == Reverse(Lines(file, end + 1, hi))
    else end == hi && out == []
  }

  lemma ReverseCons<T>(x: T, s: seq<T>)
    ensures Reverse([x] + s) == Reverse(s) + [x]
  {
    assert ([x] + s)[1..] == s;
  }

  /** Meeting the newline at `nl` completes the line after it. */
  lemma Meets(file: seq<Byte>, nl: int, end: int, hi: int, sawNewline: bool, out: seq<Line>, text: seq<Byte>)
    requires 0 <= nl < end <= hi <= |file| && file[nl] == NEWLINE && NoNewline(file, nl + 1, end)
    requires Yielded(file, end, hi, sawNewline, out) && text == file[nl + 1..end]
    ensures sawNewline && end > nl + 1 ==> Yielded(file, nl, hi, true, out + [Line(text, nl + 1, end)])
    ensures !(sawNewline && end > nl + 1) ==> Yielded(file, nl, hi, true, out)
  {
    if sawNewline {
      LinesFirst(file, nl + 1, end, hi);
      if end > nl + 1 {
        ReverseCons(Line(file[nl + 1..end], nl + 1, end), Lines(file, end + 1, hi));
      }
    } else {
      LinesNone(file, nl + 1, hi);
    }
  }
}
