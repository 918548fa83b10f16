/**
 The tail of a growing log file (crates/vp-app/src/debug_log.rs:68-137): bytes arrive in arbitrary
 pieces, and only complete lines are decoded. The decoder is the lossy one of the Rust standard library:
 UTF-8 by section 3 of RFC 3629, each maximal ill-formed piece replaced by U+FFFD.
 */
module DebugLog {
  type Byte = x: int | 0 <= x < 256

  type Bytes = seq<Byte>

  const NEWLINE: Byte := 10
  const REPLACEMENT: char := '\U{FFFD}'

  // ----- UTF-8 -----

  predicate At(s: Bytes, k: nat, lo: int, hi: int) {
    k < |s| && lo <= s[k] <= hi
  }

  /** The least and greatest second byte after a lead byte of three or four. */
  function SecondRange(lead: Byte): (int, int) {
    if lead == 0xE0 then (0xA0, 0xBF)
    else if lead == 0xED then (0x80, 0x9F)
    else if lead == 0xF0 then (0x90, 0xBF)
    else if lead == 0xF4 then (0x80, 0x8F)
    else (0x80, 0xBF)
  }

  function Bits(b: Byte, marker: int): int {
    b as int - marker
  }

  /** The first character and how many bytes it takes. */
  function First(s: Bytes): (r: (char, nat))
    requires s != []
    ensures 1 <= r.1 <= |s| && r.1 <= 4
    ensures forall k :: 1 <= k < r.1 ==> s[k] >= 0x80
    ensures s[0] < 0x80 ==> r == (s[0] as char, 1)
  {
    var lead := s[0];
    var (lo, hi) := SecondRange(lead);
    if lead < 0x80 then (lead as char, 1)
    else if 0xC2 <= lead <= 0xDF then
      if At(s, 1, 0x80, 0xBF) then ((Bits(lead, 0xC0) * 64 + Bits(s[1], 0x80)) as char, 2) else (REPLACEMENT, 1)
    else if 0xE0 <= lead <= 0xEF then
      if !At(s, 1, lo, hi) then (REPLACEMENT, 1)
      else if !At(s, 2, 0x80, 0xBF) then (REPLACEMENT, 2)
      else ((Bits(lead, 0xE0) * 4096 + Bits(s[1], 0x80) * 64 + Bits(s[2], 0x80)) as char, 3)
    else if 0xF0 <= lead <= 0xF4 then
      if !At(s, 1, lo, hi) then (REPLACEMENT, 1)
      else if !At(s, 2, 0x80, 0xBF) then (REPLACEMENT, 2)
      else if !At(s, 3, 0x80, 0xBF) then (REPLACEMENT, 3)
      else ((Bits(lead, 0xF0) * 262144 + Bits(s[1], 0x80) * 4096 + Bits(s[2], 0x80) * 64 + Bits(s[3], 0x80)) as char, 4)
    else (REPLACEMENT, 1)
  }

  function Lossy(s: Bytes): string {
    if s == [] then [] else [First(s).0] + Lossy(s[First(s).1..])
  }

  // ----- lines -----

  function Trimmed(s: string): string {
    if s == [] || s[|s| - 1] != '\n' then s
    else if |s| >= 2 && s[|s| - 2] == '\r' then s[..|s| - 2]
    else s[..|s| - 1]
  }

  /** The end of the first line, its line feed included. */
  function Cut(s: string): (n: nat)
    ensures n <= |s| && (s != [] ==> n > 0)
  {
    if s == [] then 0 else if s[0] == '\n' then 1 else 1 + Cut(s[1..])
  }

  /** str::lines: without the line feed and a carriage return before it; a last piece without one is a line too. */
  function Lines(s: string): seq<string>
    decreases |s|
  {
    if s == [] then [] else [Trimmed(s[..Cut(s)])] + Lines(s[Cut(s)..])
  }

  predicate Complete(s: Bytes) {
    s == [] || s[|s| - 1] == NEWLINE
  }

  /** The last line feed of `s` stands just before `n`, or `n` is zero and there is none. */
  predicate EndsAt(s: Bytes, n: nat) {
    n <= |s| && (n > 0 ==> s[n - 1] == NEWLINE) && forall k :: n <= k < |s| ==> s[k] != NEWLINE
  }

  /** How many bytes the complete lines take. */
  function Whole(s: Bytes): (n: nat)
    ensures EndsAt(s, n)
  {
    if s == [] then 0 else if s[|s| - 1] == NEWLINE then |s| else Whole(s[..|s| - 1])
  }

  lemma WholeIsUnique(s: Bytes, n: nat)
    requires EndsAt(s, n)
    ensures Whole(s) == n
  {
    var w := Whole(s);
    assert EndsAt(s, w);
  }

  function LinesOf(s: Bytes): seq<string> {
    Lines(Lossy(s))
  }

  // ----- the tail -----

  /** drain_complete_lines on a buffer, and the append path of tail_loop around it. */
  class Tail {
    var offset: nat
    var partial: Bytes

    constructor (end: nat)
      ensures offset == end && partial == []
    {
      offset := end;
      partial := [];
    }

    method DrainCompleteLines() returns (lines: seq<string>)
      modifies `partial
      ensures partial == old(partial[Whole(partial)..]) && lines == LinesOf(old(partial[..Whole(partial)]))
    {
      var i := |partial|;
      while i > 0 && partial[i - 1] != NEWLINE
        invariant 0 <= i <= |partial|
        invariant forall k :: i <= k < |partial| ==> partial[k] != NEWLINE
      {
        i := i - 1;
      }
      WholeIsUnique(partial, i);
      if i == 0 {
        return [];
      }
      lines := Lines(Lossy(partial[..i]));
      partial := partial[i..];
    }

    /**
     One poll. The file may be gone for a moment, and reading it may fail (`readable`); `reset` tells the display to
     start over, which it does when the file has become shorter.
     */
    method Poll(file: Bytes, present: bool, readable: bool) returns (lines: seq<string>, reset: bool)
      modifies this
      ensures (Memory(offset, partial), lines, reset) ==
        PolledAny(old(Memory(offset, partial)), file, present, readable)
    {
      lines, reset := [], false;
      if !present {
        return;
      }
      if |file| < offset {
        partial := [];
        if readable {
          offset := |file|;
          return Backlog(file), true;
        }
        return;
      }
      if |file| == offset || !readable {
        return;
      }
      var chunk := file[offset..];
      offset := |file|;
      partial := partial + chunk;
      lines := DrainCompleteLines();
    }
  }

  const BACKLOG_BYTES := 64 * 1024

  /** Where read_backlog starts to read. */
  function BacklogStart(file: Bytes): (start: nat)
    ensures start <= |file|
  {
    if |file| <= BACKLOG_BYTES then 0 else |file| - BACKLOG_BYTES
  }

  /** Reading from inside the file, the first line is taken for a piece of one. */
  function WithoutPiece(start: nat, lines: seq<string>): seq<string> {
    if start == 0 || lines == [] then lines else lines[1..]
  }

  /** read_backlog: the last stretch of the file, without the piece of a line that a cut leaves at its front. */
  function Backlog(file: Bytes): seq<string> {
    WithoutPiece(BacklogStart(file), LinesOf(file[BacklogStart(file)..]))
  }

  function PolledAny(m: Memory, file: Bytes, present: bool, readable: bool): (Memory, seq<string>, bool) {
    if !present then (m, [], false)
    else if |file| < m.offset then
      (if readable then (Memory(|file|, []), Backlog(file), true) else (Memory(m.offset, []), [], false))
    else
      var (next, lines) := Polled(m, file, readable);
      (next, lines, false)
  }

  datatype Memory = Memory(offset: nat, partial: Bytes)

  /** What a poll reads. */
  function Chunk(m: Memory, file: Bytes, readable: bool): Bytes
    requires m.offset <= |file|
  {
    if readable then file[m.offset..] else []
  }

  function Polled(m: Memory, file: Bytes, readable: bool): (Memory, seq<string>)
    requires m.offset <= |file|
  {
    var chunk := Chunk(m, file, readable);
    if chunk == [] then (m, [])
    else
      var buffer := m.partial + chunk;
      (Memory(|file|, buffer[Whole(buffer)..]), LinesOf(buffer[..Whole(buffer)]))
  }

  // ----- decoding splits at a line feed -----

  lemma FirstStopsAtNewline(a: Bytes, b: Bytes)
    requires a != [] && Complete(a)
    ensures First(a + b) == First(a)
  {
    var n := First(a + b).1;
    assert (a + b)[0] == a[0] && (a + b)[|a| - 1] == NEWLINE;
    assert forall k :: 0 <= k < |a| ==> (a + b)[k] == a[k];
  }

  lemma {:induction false} LossySplits(a: Bytes, b: Bytes)
    requires Complete(a)
    ensures Lossy(a + b) == Lossy(a) + Lossy(b)
    decreases |a|
  {
    if a == [] {
      assert a + b == b;
    } else {
      FirstStopsAtNewline(a, b);
      var n := First(a).1;
      assert (a + b)[n..] == a[n..] + b;
      LossySplits(a[n..], b);
    }
  }

  lemma {:induction false} LossyEndsWithNewline(a: Bytes)
    requires a != [] && Complete(a)
    ensures var t := Lossy(a); t != [] && t[|t| - 1] == '\n'
    decreases |a|
  {
    var n := First(a).1;
    if n < |a| {
      LossyEndsWithNewline(a[n..]);
    } else {
      assert a[|a| - 1] < 0x80;
    }
  }

  lemma {:induction false} CutStopsAtNewline(s: string, t: string)
    requires s != [] && s[|s| - 1] == '\n'
    ensures Cut(s + t) == Cut(s) && s[Cut(s) - 1] == '\n'
  {
    if s[0] != '\n' {
      assert (s + t)[1..] == s[1..] + t;
      CutStopsAtNewline(s[1..], t);
    }
  }

  lemma LinesUnfold(line: string, rest: string, s: string)
    requires line != [] && s == line + rest && Cut(s) == |line|
    ensures Lines(s) == [Trimmed(line)] + Lines(rest)
  {
    assert s[..|line|] == line && s[|line|..] == rest;
  }

  predicate Ended(s: string) {
    s == [] || s[|s| - 1] == '\n'
  }

  lemma LinesStep(line: string, rest: string, t: string, s: string)
    requires s == line + rest && Ended(s) && line != [] && Cut(s) == |line|
    ensures Lines(s) == [Trimmed(line)] + Lines(rest)
    ensures Lines(s + t) == [Trimmed(line)] + Lines(rest + t)
  {
    CutStopsAtNewline(s, t);
    LinesUnfold(line, rest, s);
    assert s + t == line + (rest + t);
    LinesUnfold(line, rest + t, s + t);
  }

  lemma {:induction false} LinesSplit(s: string, t: string)
    requires Ended(s)
    ensures Lines(s + t) == Lines(s) + Lines(t)
    decreases |s|
  {
    if s == [] {
      assert s + t == t;
    } else {
      var line, rest := s[..Cut(s)], s[Cut(s)..];
      LinesStep(line, rest, t, s);
      LinesSplit(rest, t);
      Associates([Trimmed(line)], Lines(rest), Lines(t));
    }
  }

  lemma Associates<T>(a: seq<T>, b: seq<T>, c: seq<T>)
    ensures (a + b) + c == a + (b + c)
  {
  }

  lemma LinesOfSplits(a: Bytes, b: Bytes)
    requires Complete(a)
    ensures LinesOf(a + b) == LinesOf(a) + LinesOf(b)
  {
    LossySplits(a, b);
    if a != [] {
      LossyEndsWithNewline(a);
    }
    LinesSplit(Lossy(a), Lossy(b));
  }

  function Joined(lines: seq<string>): string {
    if lines == [] then [] else lines[0] + "\n" + Joined(lines[1..])
  }

  predicate PlainLine(line: string) {
    '\n' !in line && (line == [] || line[|line| - 1] != '\r')
  }

  lemma {:induction false} CutOfLine(line: string, rest: string)
    requires '\n' !in line
    ensures Cut(line + "\n" + rest) == |line| + 1
  {
    if line == [] {
    } else {
      assert (line + "\n" + rest)[1..] == line[1..] + "\n" + rest;
      CutOfLine(line[1..], rest);
    }
  }

  lemma LineIsFirst(line: string, rest: string)
    requires PlainLine(line)
    ensures Lines(line + "\n" + rest) == [line] + Lines(rest)
  {
    CutOfLine(line, rest);
    var text := line + "\n" + rest;
    assert text[..|line| + 1] == line + "\n" && text[|line| + 1..] == rest;
    assert (line + "\n")[..|line|] == line;
  }

  /** Lines written one after another, each with its line feed, are read back as they were. */
  lemma {:induction false} LinesRoundTrip(lines: seq<string>)
    requires forall line <- lines :: PlainLine(line)
    ensures Lines(Joined(lines)) == lines
  {
    if lines == [] {
    } else {
      assert PlainLine(lines[0]);
      LineIsFirst(lines[0], Joined(lines[1..]));
      LinesRoundTrip(lines[1..]);
    }
  }

  // ----- any way of polling -----

  datatype Look = Look(file: Bytes, readable: bool)

  /** The file only grows from one poll to the next. */
  predicate Growing(start: nat, looks: seq<Look>) {
    && (forall i :: 0 <= i < |looks| ==> start <= |looks[i].file|)
    && (forall i, j :: 0 <= i <= j < |looks| ==> looks[i].file <= looks[j].file)
  }

  /** The tail's memory, every line shown so far, and everything read so far. */
  datatype Tally = Tally(memory: Memory, lines: seq<string>, stream: Bytes)

  function Looked(t: Tally, look: Look): Tally
    requires t.memory.offset <= |look.file|
  {
    var (next, more) := Polled(t.memory, look.file, look.readable);
    Tally(next, t.lines + more, t.stream + Chunk(t.memory, look.file, look.readable))
  }

  /** After the first `n` polls. */
  function Shown(start: nat, looks: seq<Look>, n: nat): (t: Tally)
    requires Growing(start, looks) && n <= |looks|
    ensures start <= t.memory.offset && (n < |looks| ==> t.memory.offset <= |looks[n].file|)
  {
    if n == 0 then Tally(Memory(start, []), [], [])
    else
      assert n < |looks| ==> looks[n - 1].file <= looks[n].file;
      Looked(Shown(start, looks, n - 1), looks[n - 1])
  }

  lemma OneMoreChunk(stream: Bytes, chunk: Bytes, all: Bytes, rest: Bytes)
    requires all == stream + chunk && rest == stream[Whole(stream)..] + chunk
    ensures all[..Whole(all)] == stream[..Whole(stream)] + rest[..Whole(rest)]
      && all[Whole(all)..] == rest[Whole(rest)..]
  {
    var head := stream[..Whole(stream)];
    assert all == head + rest;
    WholeAfter(head, rest);
  }

  lemma CutsOfTwo(head: Bytes, rest: Bytes, k: nat)
    requires k <= |rest|
    ensures (head + rest)[..|head| + k] == head + rest[..k] && (head + rest)[|head| + k..] == rest[k..]
  {
  }

  lemma EndsAfter(head: Bytes, rest: Bytes, all: Bytes, w: nat)
    requires Complete(head) && EndsAt(rest, w) && all == head + rest
    ensures EndsAt(all, |head| + w)
  {
    if w > 0 {
      assert all[|head| + w - 1] == rest[w - 1];
    } else if head != [] {
      assert all[|head| - 1] == head[|head| - 1];
    }
    forall k | |head| + w <= k < |all| ensures all[k] != NEWLINE {
      assert all[k] == rest[k - |head|];
    }
  }

  lemma WholeAfter(head: Bytes, rest: Bytes)
    requires Complete(head)
    ensures Whole(head + rest) == |head| + Whole(rest)
    ensures (head + rest)[..|head| + Whole(rest)] == head + rest[..Whole(rest)]
    ensures (head + rest)[|head| + Whole(rest)..] == rest[Whole(rest)..]
  {
    var w := Whole(rest);
    EndsAfter(head, rest, head + rest, w);
    WholeIsUnique(head + rest, |head| + w);
    CutsOfTwo(head, rest, w);
  }

  predicate Faithful(t: Tally) {
    t.lines == LinesOf(t.stream[..Whole(t.stream)]) && t.memory.partial == t.stream[Whole(t.stream)..]
  }

  lemma LookedIsFaithful(t: Tally, look: Look)
    requires t.memory.offset <= |look.file| && Faithful(t)
    ensures Faithful(Looked(t, look))
  {
    var chunk := Chunk(t.memory, look.file, look.readable);
    if chunk == [] {
      assert t.stream + chunk == t.stream && t.lines + [] == t.lines;
    } else {
      var rest := t.memory.partial + chunk;
      OneMoreChunk(t.stream, chunk, t.stream + chunk, rest);
      LinesOfSplits(t.stream[..Whole(t.stream)], rest[..Whole(rest)]);
    }
  }

  /**
   However the bytes are cut into polls, the lines shown are the lines of everything read up to its last line
   feed, and the memory holds exactly the bytes after it.
   */
  lemma {:induction false} ChunksDoNotMatter(start: nat, looks: seq<Look>, n: nat)
    requires Growing(start, looks) && n <= |looks|
    ensures Faithful(Shown(start, looks, n))
  {
    if n == 0 {
    } else {
      ChunksDoNotMatter(start, looks, n - 1);
      LookedIsFaithful(Shown(start, looks, n - 1), looks[n - 1]);
    }
  }

  predicate ReadFrom(t: Tally, file: Bytes, start: nat) {
    start <= t.memory.offset <= |file| && t.stream == file[start..t.memory.offset]
  }

  lemma LookedReadsOn(t: Tally, before: Bytes, look: Look, start: nat)
    requires ReadFrom(t, before, start) && before <= look.file
    ensures ReadFrom(Looked(t, look), look.file, start)
  {
    assert before[start..t.memory.offset] == look.file[start..t.memory.offset];
  }

  /** And what was read is the file from where the tail started, up to its offset. */
  lemma {:induction false} StreamIsTheFile(start: nat, looks: seq<Look>, n: nat)
    requires Growing(start, looks) && 0 < n <= |looks|
    ensures ReadFrom(Shown(start, looks, n), looks[n - 1].file, start)
  {
    if n == 1 {
      LookedReadsOn(Shown(start, looks, 0), looks[0].file, looks[0], start);
    } else {
      StreamIsTheFile(start, looks, n - 1);
      LookedReadsOn(Shown(start, looks, n - 1), looks[n - 2].file, looks[n - 1], start);
    }
  }

  lemma LinesContinue(head: Bytes, stream: Bytes, read: Bytes)
    requires Complete(head) && read == head + stream
    ensures LinesOf(head) + LinesOf(stream[..Whole(stream)]) == LinesOf(read[..Whole(read)])
    ensures stream[Whole(stream)..] == read[Whole(read)..]
  {
    WholeAfter(head, stream);
    LinesOfSplits(head, stream[..Whole(stream)]);
  }

  // ----- a backlog that ends inside a line -----

  /** Not empty, and without a line feed before its last byte. */
  predicate OneLine(s: Bytes) {
    s != [] && forall k :: 0 <= k < |s| - 1 ==> s[k] != NEWLINE
  }

  predicate OneTextLine(t: string) {
    t != [] && forall k :: 0 <= k < |t| - 1 ==> t[k] != '\n'
  }

  lemma FirstIsNoNewline(s: Bytes)
    requires s != [] && s[0] != NEWLINE
    ensures First(s).0 != '\n'
  {
  }

  lemma {:induction false} LossyOfOneLine(s: Bytes)
    requires OneLine(s)
    ensures OneTextLine(Lossy(s))
    decreases |s|
  {
    var first := First(s);
    if first.1 == |s| {
      assert Lossy(s[first.1..]) == [];
    } else {
      LossyOfOneLine(s[first.1..]);
      FirstIsNoNewline(s);
    }
  }

  lemma {:induction false} CutOfOneLine(t: string)
    requires OneTextLine(t)
    ensures Cut(t) == |t|
  {
    if |t| == 1 {
    } else {
      CutOfOneLine(t[1..]);
    }
  }

  lemma OneLineIsOne(s: Bytes)
    requires OneLine(s)
    ensures |LinesOf(s)| == 1
  {
    var t := Lossy(s);
    LossyOfOneLine(s);
    CutOfOneLine(t);
    LinesUnfold(t, [], t);
  }

  lemma {:induction false} FirstLine(s: Bytes) returns (line: Bytes, rest: Bytes)
    requires s != [] && Complete(s)
    ensures s == line + rest && OneLine(line) && Complete(line) && Complete(rest)
  {
    if s[0] == NEWLINE {
      line, rest := s[..1], s[1..];
    } else {
      line, rest := FirstLine(s[1..]);
      line := [s[0]] + line;
    }
  }

  lemma CountJoined(a: Bytes, b: Bytes, all: Bytes)
    requires Complete(a) && all == a + b
    ensures |LinesOf(all)| == |LinesOf(a)| + |LinesOf(b)|
  {
    LinesOfSplits(a, b);
  }

  lemma PieceWithLine(piece: Bytes, line: Bytes, joined: Bytes)
    requires OneLine(piece) && !Complete(piece) && OneLine(line) && Complete(line) && joined == piece + line
    ensures Complete(joined) && |LinesOf(joined)| == 1
  {
    OneLineIsOne(joined);
  }

  /** A piece of a line in front of complete lines makes no line more. */
  lemma PieceAddsNoLine(piece: Bytes, s: Bytes, all: Bytes)
    requires OneLine(piece) && !Complete(piece) && Complete(s) && s != [] && all == piece + s
    ensures |LinesOf(s)| == |LinesOf(all)|
  {
    var line, rest := FirstLine(s);
    PieceWithLine(piece, line, piece + line);
    assert all == (piece + line) + rest;
    CountJoined(line, rest, s);
    CountJoined(piece + line, rest, all);
    OneLineIsOne(line);
  }

  lemma WholeWithPiece(piece: Bytes, stream: Bytes)
    requires OneLine(piece) && !Complete(piece)
    ensures Whole(piece + stream) == if Whole(stream) == 0 then 0 else |piece| + Whole(stream)
  {
    WholeIsUnique(piece + stream, if Whole(stream) == 0 then 0 else |piece| + Whole(stream));
  }

  lemma PieceContinued(piece: Bytes, stream: Bytes, tail: Bytes)
    requires OneLine(piece) && !Complete(piece) && tail == piece + stream
    ensures |LinesOf(stream[..Whole(stream)])| == |LinesOf(tail[..Whole(tail)])|
  {
    WholeWithPiece(piece, stream);
    if Whole(stream) == 0 {
      assert stream[..Whole(stream)] == tail[..Whole(tail)];
    } else {
      PieceAddsNoLine(piece, stream[..Whole(stream)], tail[..Whole(tail)]);
    }
  }

  lemma PieceBreaksALine(head: Bytes, piece: Bytes, stream: Bytes, read: Bytes)
    requires Complete(head) && OneLine(piece) && !Complete(piece) && read == head + (piece + stream)
    ensures |LinesOf(head + piece)| + |LinesOf(stream[..Whole(stream)])| == |LinesOf(read[..Whole(read)])| + 1
  {
    CountJoined(head, piece, head + piece);
    OneLineIsOne(piece);
    LinesContinue(head, piece + stream, read);
    PieceContinued(piece, stream, piece + stream);
  }

  // ----- any run, rotations included -----

  datatype Poll = Poll(file: Bytes, present: bool, readable: bool)

  /** The tail's memory and what the display shows. */
  datatype Watch = Watch(memory: Memory, display: seq<string>)

  function Watched(w: Watch, p: Poll): Watch {
    var (next, lines, reset) := PolledAny(w.memory, p.file, p.present, p.readable);
    Watch(next, if reset then lines else w.display + lines)
  }

  /** A run of the tail: what it remembers and shows before, between and after the polls. */
  predicate Watching(vs: seq<Watch>, polls: seq<Poll>) {
    |vs| == |polls| + 1 && forall i :: 0 <= i < |polls| ==> vs[i + 1] == Watched(vs[i], polls[i])
  }

  /** Just rebuilt from the file's backlog, as at the start of watching. */
  function Rebuilt(file: Bytes): Watch {
    Watch(Memory(|file|, []), Backlog(file))
  }

  /** The poll finds the file shorter than what has been read of it. */
  predicate Rotates(w: Watch, p: Poll) {
    p.present && p.readable && |p.file| < w.memory.offset
  }

  lemma RotationRebuilds(w: Watch, p: Poll)
    requires Rotates(w, p)
    ensures Watched(w, p) == Rebuilt(p.file)
  {
  }

  /** A file that fits the backlog is then shown with all its lines. */
  lemma RotationIsReadWhole(m: Memory, file: Bytes)
    requires |file| < m.offset && |file| <= BACKLOG_BYTES
    ensures PolledAny(m, file, true, true) == (Memory(|file|, []), LinesOf(file), true)
  {
    assert file[0..] == file;
  }

  /** Whenever it is there the file has grown, from `file` towards `whole`. */
  predicate Grows(polls: seq<Poll>, from: nat, to: nat, file: Bytes, whole: Bytes)
    requires to <= |polls|
  {
    && file <= whole
    && (forall i :: from <= i < to && polls[i].present ==> file <= polls[i].file <= whole)
    && (forall i, j :: from <= i <= j < to && polls[i].present && polls[j].present ==>
          |polls[i].file| <= |polls[j].file|)
  }

  predicate HasRead(t: Tally, start: nat, whole: Bytes) {
    start <= t.memory.offset <= |whole| && t.stream == whole[start..t.memory.offset]
  }

  lemma SlicesJoin<T>(s: seq<T>, from: nat, middle: nat, to: nat)
    requires from <= middle <= to <= |s|
    ensures s[from..to] == s[from..middle] + s[..to][middle..]
  {
  }

  lemma ReadsOn(t: Tally, look: Look, start: nat, whole: Bytes)
    requires HasRead(t, start, whole) && t.memory.offset <= |look.file| && look.file <= whole
    ensures HasRead(Looked(t, look), start, whole)
  {
    SlicesJoin(whole, start, t.memory.offset, |look.file|);
    assert look.file == whole[..|look.file|];
  }

  /** One poll of the file, present or not, adds its lines to the display and its bytes to the stream. */
  lemma OneMorePoll(w: Watch, before: Tally, p: Poll, shown: seq<string>, start: nat, whole: Bytes) returns (t: Tally)
    requires w == Watch(before.memory, shown + before.lines) && Faithful(before) && HasRead(before, start, whole)
    requires p.present ==> before.memory.offset <= |p.file| && p.file <= whole
    ensures Watched(w, p) == Watch(t.memory, shown + t.lines) && Faithful(t) && HasRead(t, start, whole)
    ensures t.memory.offset == before.memory.offset || (p.present && t.memory.offset == |p.file|)
  {
    t := before;
    if p.present {
      var look := Look(p.file, p.readable);
      LookedIsFaithful(before, look);
      ReadsOn(before, look, start, whole);
      Associates(shown, before.lines, Polled(before.memory, p.file, p.readable).1);
      t := Looked(before, look);
    }
  }

  /** The tally accounts for the display after `n` polls, rebuilt from `file` at some time before. */
  predicate Accounts(v: Watch, t: Tally, polls: seq<Poll>, n: nat, to: nat, file: Bytes, whole: Bytes)
    requires n <= to <= |polls|
  {
    && v == Watch(t.memory, Backlog(file) + t.lines) && Faithful(t) && HasRead(t, |file|, whole)
    && forall i :: n <= i < to && polls[i].present ==> t.memory.offset <= |polls[i].file|
  }

  lemma AccountsAtFirst(polls: seq<Poll>, from: nat, to: nat, file: Bytes, whole: Bytes) returns (t: Tally)
    requires from <= to <= |polls| && Grows(polls, from, to, file, whole)
    ensures Accounts(Rebuilt(file), t, polls, from, to, file, whole)
  {
    t := Tally(Memory(|file|, []), [], []);
  }

  lemma AccountsOn(v: Watch, before: Tally, polls: seq<Poll>, from: nat, n: nat, to: nat, file: Bytes, whole: Bytes)
    returns (t: Tally)
    requires from <= n < to <= |polls| && Grows(polls, from, to, file, whole)
    requires Accounts(v, before, polls, n, to, file, whole)
    ensures Accounts(Watched(v, polls[n]), t, polls, n + 1, to, file, whole)
  {
    t := OneMorePoll(v, before, polls[n], Backlog(file), |file|, whole);
  }

  /** After the display was rebuilt from `file`, polls of the growing file add to it what a tally of them adds. */
  lemma {:induction false} Continues(vs: seq<Watch>, polls: seq<Poll>, from: nat, n: nat, to: nat, file: Bytes,
      whole: Bytes)
    returns (t: Tally)
    requires Watching(vs, polls) && from <= n <= to <= |polls| && vs[from] == Rebuilt(file)
    requires Grows(polls, from, to, file, whole)
    ensures Accounts(vs[n], t, polls, n, to, file, whole)
    decreases n
  {
    if n == from {
      t := AccountsAtFirst(polls, from, to, file, whole);
    } else {
      var before := Continues(vs, polls, from, n - 1, to, file, whole);
      t := AccountsOn(vs[n - 1], before, polls, from, n - 1, to, file, whole);
      assert vs[n - 1 + 1] == vs[n];
    }
  }

  /** Nothing of the file between the backlog and the offset is lost, doubled or held back but a last piece. */
  lemma DisplayContinues(vs: seq<Watch>, polls: seq<Poll>, from: nat, n: nat, file: Bytes, whole: Bytes)
    requires Watching(vs, polls) && from <= n <= |polls| && vs[from] == Rebuilt(file)
    requires Grows(polls, from, n, file, whole)
    ensures |file| <= vs[n].memory.offset <= |whole|
    ensures var read := whole[|file|..vs[n].memory.offset];
      vs[n].display == Backlog(file) + LinesOf(read[..Whole(read)]) && vs[n].memory.partial == read[Whole(read)..]
  {
    var _ := Continues(vs, polls, from, n, n, file, whole);
  }

  // ----- when the display is right -----

  /** The complete lines of what was read since the start of the backlog, without the piece at its front. */
  function Proper(start: nat, read: Bytes): seq<string> {
    WithoutPiece(start, LinesOf(read[..Whole(read)]))
  }

  lemma CompleteHasLines(s: Bytes)
    requires s != [] && Complete(s)
    ensures LinesOf(s) != []
  {
    LossyEndsWithNewline(s);
  }

  lemma CompleteBacklogJoins(start: nat, slice: Bytes, stream: Bytes, read: Bytes)
    requires Complete(slice) && (start > 0 ==> slice != []) && read == slice + stream
    ensures WithoutPiece(start, LinesOf(slice)) + LinesOf(stream[..Whole(stream)]) == Proper(start, read)
  {
    LinesContinue(slice, stream, read);
    if slice != [] {
      CompleteHasLines(slice);
    }
  }

  lemma BrokenBacklogJoins(start: nat, slice: Bytes, stream: Bytes, read: Bytes)
    requires !Complete(slice) && read == slice + stream
    ensures WithoutPiece(start, LinesOf(slice)) + LinesOf(stream[..Whole(stream)]) == Proper(start, read)
      <==> start > 0 && Whole(read) == 0
  {
    var head, piece := slice[..Whole(slice)], slice[Whole(slice)..];
    assert slice == head + piece && read == head + (piece + stream);
    PieceBreaksALine(head, piece, stream, read);
    if Whole(read) > 0 {
      CompleteHasLines(read[..Whole(read)]);
    }
  }

  /** The display shows the complete lines of all that was read since the start of the file's backlog. */
  predicate IsProper(v: Watch, file: Bytes, whole: Bytes) {
    && |file| <= v.memory.offset <= |whole|
    && v.display == Proper(BacklogStart(file), whole[BacklogStart(file)..v.memory.offset])
  }

  /** The file ends with a line feed, or its backlog lies inside one line that has not ended up to the offset. */
  predicate EndsWell(file: Bytes, whole: Bytes, offset: nat) {
    || Complete(file)
    || (|file| > BACKLOG_BYTES && |file| <= offset <= |whole| && Whole(whole[BacklogStart(file)..offset]) == 0)
  }

  /**
   From the moment the display was rebuilt from a file it shows the complete lines since the start of the backlog
   exactly when that file ended with a line feed — a piece of a line at its end is shown by itself and never
   joined — or when the backlog lies inside one line that has not ended yet.
   */
  lemma DisplayIsProperExactlyWhen(vs: seq<Watch>, polls: seq<Poll>, from: nat, n: nat, file: Bytes, whole: Bytes)
    requires Watching(vs, polls) && from <= n <= |polls| && vs[from] == Rebuilt(file)
    requires Grows(polls, from, n, file, whole)
    ensures IsProper(vs[n], file, whole) <==> EndsWell(file, whole, vs[n].memory.offset)
  {
    DisplayContinues(vs, polls, from, n, file, whole);
    ProperExactlyWhen(vs[n], file, whole);
  }

  lemma ProperExactlyWhen(v: Watch, file: Bytes, whole: Bytes)
    requires file <= whole && |file| <= v.memory.offset <= |whole|
    requires var stream := whole[|file|..v.memory.offset];
      v.display == Backlog(file) + LinesOf(stream[..Whole(stream)])
    ensures IsProper(v, file, whole) <==> EndsWell(file, whole, v.memory.offset)
  {
    var start := BacklogStart(file);
    var slice, stream := file[start..], whole[|file|..v.memory.offset];
    assert whole[start..v.memory.offset] == slice + stream;
    assert file != [] ==> slice != [] && slice[|slice| - 1] == file[|file| - 1];
    if Complete(file) {
      CompleteBacklogJoins(start, slice, stream, slice + stream);
    } else {
      BrokenBacklogJoins(start, slice, stream, slice + stream);
    }
  }

  /** In any run of polls, a rotation rebuilds the display, and from then on it is right under that same condition. */
  lemma RotationStartsOverExactlyWhen(vs: seq<Watch>, polls: seq<Poll>, r: nat, n: nat, whole: Bytes)
    requires Watching(vs, polls) && r < n <= |polls| && Rotates(vs[r], polls[r])
    requires Grows(polls, r + 1, n, polls[r].file, whole)
    ensures IsProper(vs[n], polls[r].file, whole) <==> EndsWell(polls[r].file, whole, vs[n].memory.offset)
  {
    RotationRebuilds(vs[r], polls[r]);
    DisplayIsProperExactlyWhen(vs, polls, r + 1, n, polls[r].file, whole);
  }

  // ----- text -----

  function Encoded(c: char): (s: Bytes)
    ensures s != []
  {
    var n := c as int;
    if n < 0x80 then [n]
    else if n < 0x800 then [0xC0 + n / 64, 0x80 + n % 64]
    else if n < 0x10000 then [0xE0 + n / 4096, 0x80 + n / 64 % 64, 0x80 + n % 64]
    else [0xF0 + n / 262144, 0x80 + n / 4096 % 64, 0x80 + n / 64 % 64, 0x80 + n % 64]
  }

  function Utf8(t: string): Bytes {
    if t == [] then [] else Encoded(t[0]) + Utf8(t[1..])
  }

  lemma SixBitDigits(n: nat)
    ensures n == n / 64 * 64 + n % 64
    ensures n == n / 4096 * 4096 + n / 64 % 64 * 64 + n % 64
    ensures n == n / 262144 * 262144 + n / 4096 % 64 * 4096 + n / 64 % 64 * 64 + n % 64
  {
    assert n / 64 / 64 == n / 4096;
    assert n / 4096 / 64 == n / 262144;
  }

  lemma FirstOfEncoded(c: char, rest: Bytes)
    ensures First(Encoded(c) + rest) == (c, |Encoded(c)|)
  {
    var n := c as int;
    SixBitDigits(n);
    var s := Encoded(c) + rest;
    assert forall k :: 0 <= k < |Encoded(c)| ==> s[k] == Encoded(c)[k];
    if n < 0x80 {
    } else if n < 0x800 {
      assert Bits(s[0], 0xC0) * 64 + Bits(s[1], 0x80) == n;
    } else if n < 0x10000 {
      assert Bits(s[0], 0xE0) * 4096 + Bits(s[1], 0x80) * 64 + Bits(s[2], 0x80) == n;
    } else {
      assert Bits(s[0], 0xF0) * 262144 + Bits(s[1], 0x80) * 4096 + Bits(s[2], 0x80) * 64 + Bits(s[3], 0x80) == n;
    }
  }

  lemma {:induction false} LossyOfUtf8(t: string)
    ensures Lossy(Utf8(t)) == t
  {
    if t == [] {
    } else {
      FirstOfEncoded(t[0], Utf8(t[1..]));
      assert Utf8(t)[|Encoded(t[0])|..] == Utf8(t[1..]);
      LossyOfUtf8(t[1..]);
    }
  }

  lemma {:induction false} Utf8Splits(t: string, u: string)
    ensures Utf8(t + u) == Utf8(t) + Utf8(u)
  {
    if t == [] {
      assert t + u == u;
    } else {
      assert (t + u)[1..] == t[1..] + u;
      Utf8Splits(t[1..], u);
    }
  }

  /** The part of a text up to its last line feed. */
  function WholeText(t: string): (n: nat)
    ensures n <= |t| && (n > 0 ==> t[n - 1] == '\n') && forall k :: n <= k < |t| ==> t[k] != '\n'
  {
    if t == [] then 0 else if t[|t| - 1] == '\n' then |t| else WholeText(t[..|t| - 1])
  }

  lemma EncodedNewline(c: char)
    ensures forall k :: 0 <= k < |Encoded(c)| && Encoded(c)[k] == NEWLINE ==> c == '\n'
    ensures c == '\n' ==> Encoded(c) == [NEWLINE]
  {
  }

  lemma {:induction false} NoNewlineInside(t: string)
    requires forall k :: 0 <= k < |t| ==> t[k] != '\n'
    ensures forall k :: 0 <= k < |Utf8(t)| ==> Utf8(t)[k] != NEWLINE
  {
    if t == [] {
    } else {
      EncodedNewline(t[0]);
      NoNewlineInside(t[1..]);
    }
  }

  lemma NewlineAtEnd(t: string)
    requires t != [] && t[|t| - 1] == '\n'
    ensures Utf8(t) != [] && Utf8(t)[|Utf8(t)| - 1] == NEWLINE
  {
    assert t == t[..|t| - 1] + [t[|t| - 1]];
    Utf8Splits(t[..|t| - 1], ['\n']);
    assert Utf8(['\n']) == [NEWLINE] + Utf8([]);
  }

  lemma WholeOfUtf8(t: string)
    ensures var w := WholeText(t);
      var bytes, n := Utf8(t), Whole(Utf8(t)); bytes[..n] == Utf8(t[..w]) && bytes[n..] == Utf8(t[w..])
  {
    var w := WholeText(t);
    assert t == t[..w] + t[w..];
    Utf8Splits(t[..w], t[w..]);
    NoNewlineInside(t[w..]);
    if w > 0 {
      NewlineAtEnd(t[..w]);
    }
    WholeOfTwo(Utf8(t[..w]), Utf8(t[w..]));
  }

  lemma WholeOfTwo(head: Bytes, rest: Bytes)
    requires Complete(head) && forall k :: 0 <= k < |rest| ==> rest[k] != NEWLINE
    ensures Whole(head + rest) == |head| && (head + rest)[..|head|] == head && (head + rest)[|head|..] == rest
  {
    assert (head + rest)[..|head|] == head;
    WholeIsUnique(head + rest, |head|);
  }

  /**
   No character is cut: if the bytes read so far encode a text, however they were cut, the lines shown are those
   of the text up to its last line feed, and the memory encodes the rest of it.
   */
  lemma TextIsShownWhole(start: nat, looks: seq<Look>, n: nat, t: string)
    requires Growing(start, looks) && n <= |looks| && Shown(start, looks, n).stream == Utf8(t)
    ensures Shown(start, looks, n).lines == Lines(t[..WholeText(t)])
    ensures Shown(start, looks, n).memory.partial == Utf8(t[WholeText(t)..])
  {
    ChunksDoNotMatter(start, looks, n);
    WholeOfUtf8(t);
    LossyOfUtf8(t[..WholeText(t)]);
  }
}
