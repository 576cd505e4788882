/**
 * Inbound body lines before storage: dot-unstuffing (section 4.5.2 of RFC 5321)
 * and folding of overlong lines (section 2.2.3 of RFC 5322), chunk by chunk.
 */
module LineFolder {
  import opened ByteCodec

  const MAX_LINE := 2048
  const CR: Byte := 13
  const LF: Byte := 10
  const SPACE: Byte := 32
  const DOT: Byte := 46
  const CRLF: Bytes := [CR, LF]

  // ---------------------------------------------------------------- lines

  predicate EndsAt(s: Bytes, i: nat) { i + 1 < |s| && s[i] == CR && s[i + 1] == LF }

  /** The first line end at or after `from`. */
  function Find(s: Bytes, from: nat): (r: Option<nat>)
    ensures r.Some? ==> from <= r.value && EndsAt(s, r.value) && forall i :: from <= i < r.value ==> !EndsAt(s, i)
    ensures r.None? ==> forall i :: from <= i ==> !EndsAt(s, i)
    decreases |s| - from
  {
    if from + 1 >= |s| then None else if EndsAt(s, from) then Some(from) else Find(s, from + 1)
  }

  function Unstuff(line: Bytes): Bytes {
    if line != [] && line[0] == DOT then line[1..] else line
  }

  // ---------------------------------------------------------------- folding

  /** A byte inside a UTF-8 sequence. */
  predicate Continuation(b: Byte) { 128 <= b < 192 }

  /** Backs up to a byte that is not inside a sequence, or to the start of the line. */
  function Boundary(line: Bytes, at: nat): (cut: nat)
    requires at < |line|
    ensures cut <= at && (cut == 0 || !Continuation(line[cut]))
    ensures forall i :: cut < i <= at ==> Continuation(line[i])
  {
    if at == 0 || !Continuation(line[at]) then at else Boundary(line, at - 1)
  }

  function Budget(first: bool): nat { if first then MAX_LINE else MAX_LINE - 1 }

  /** One turn of the folding loop: none when the rest fits, otherwise where the next segment starts. */
  function Turn(line: Bytes, start: nat, first: bool): (next: Option<nat>)
    requires start <= |line|
    ensures next.Some? ==> next.value < |line|
  {
    var budget := Budget(first);
    if |line| - start <= budget then None
    else
      var cut := Boundary(line, start + budget);
      Some(if cut == start then start + budget else cut)
  }

  predicate AllInside(line: Bytes, from: nat, to: nat)
    requires to < |line|
  {
    forall i :: from <= i <= to ==> Continuation(line[i])
  }

  /** The lines whose folding never ends. */
  predicate Diverges(line: Bytes) {
    || (|line| > 4095 && AllInside(line, 1, 4095))
    || exists p :: 0 < p < |line| - 4094 && LongRun(line, p)
  }

  predicate LongRun(line: Bytes, p: nat)
    requires p + 4094 < |line|
  {
    !Continuation(line[p]) && AllInside(line, p + 1, p + 4094)
  }

  /** Where a segment can start: at a sequence boundary, or a whole budget into a run. */
  predicate Fine(line: Bytes, start: nat) {
    && start <= |line|
    && (0 < start < |line| && Continuation(line[start]) ==>
          var p := Boundary(line, start); start == p + Budget(p == 0))
  }

  /** A segment that would end before it starts comes only from those lines. */
  lemma BackwardsDiverges(line: Bytes, start: nat)
    requires Fine(line, start) && start + Budget(start == 0) < |line|
    requires Boundary(line, start + Budget(start == 0)) < start
    ensures Diverges(line)
  {
    var h := start + Budget(start == 0);
    BoundaryJoins(line, start, h);
    var p := Boundary(line, start);
    if p == 0 { assert AllInside(line, 1, 4095); } else { assert LongRun(line, p); }
  }

  /** Outside those lines every turn moves on. */
  lemma TurnAdvances(line: Bytes, start: nat)
    requires !Diverges(line) && Fine(line, start) && Turn(line, start, start == 0).Some?
    ensures var next := Turn(line, start, start == 0).value;
            start < next <= start + Budget(start == 0) && Fine(line, next)
  {
    var h := start + Budget(start == 0);
    var cut := Boundary(line, h);
    if cut < start {
      BackwardsDiverges(line, start);
    } else if cut == start {
      BoundaryAt(line, h, start);
    } else {
      BoundaryAt(line, cut, cut);
    }
  }

  lemma BoundaryAt(line: Bytes, at: nat, p: nat)
    requires p <= at < |line| && (p == 0 || !Continuation(line[p])) && forall i :: p < i <= at ==> Continuation(line[i])
    ensures Boundary(line, at) == p
  {}

  lemma BoundaryJoins(line: Bytes, start: nat, h: nat)
    requires start <= h < |line| && Boundary(line, h) < start
    ensures Boundary(line, start) == Boundary(line, h)
  {
    BoundaryAt(line, start, Boundary(line, h));
  }

  // ---------------------------------------------------------------- exactly which lines can be folded

  /** Whether the loop ends within `n` turns. */
  predicate Ends(line: Bytes, start: nat, first: bool, n: nat)
    requires start <= |line|
    decreases n
  {
    match Turn(line, start, first)
    case None => true
    case Some(next) => n > 0 && Ends(line, next, false, n - 1)
  }

  predicate EndsWithin(line: Bytes, n: nat) { Ends(line, 0, true, n) }

  lemma {:induction false} FoldingEnds(line: Bytes, start: nat)
    requires !Diverges(line) && Fine(line, start)
    ensures Ends(line, start, start == 0, |line| - start)
    decreases |line| - start
  {
    match Turn(line, start, start == 0)
    case None =>
    case Some(next) =>
      TurnAdvances(line, start);
      FoldingEnds(line, next);
      EndsLater(line, next, false, |line| - next, |line| - start - 1);
  }

  lemma {:induction false} EndsLater(line: Bytes, start: nat, first: bool, n: nat, m: nat)
    requires start <= |line| && n <= m && Ends(line, start, first, n)
    ensures Ends(line, start, first, m)
    decreases n
  {
    match Turn(line, start, first)
    case None =>
    case Some(next) => EndsLater(line, next, false, n - 1, m - 1);
  }

  /** Inside a run this long the loop jumps between its first byte and a budget further. */
  lemma {:induction false} Cycles(line: Bytes, p: nat, n: nat)
    requires p + 4094 < |line| && (p == 0 || !Continuation(line[p])) && AllInside(line, p + 1, p + 4094)
    ensures !Ends(line, p, false, n) && !Ends(line, p + 2047, false, n)
  {
    BoundaryAt(line, p + 2047, p);
    BoundaryAt(line, p + 4094, p);
    if n > 0 { Cycles(line, p, n - 1); }
  }

  lemma {:induction false} RunTraps(line: Bytes, p: nat, start: nat, first: bool, n: nat)
    requires 0 < p && p + 4094 < |line| && LongRun(line, p) && start <= p && (first ==> start == 0)
    ensures !Ends(line, start, first, n)
    decreases n
  {
    var h := start + Budget(first);
    if n > 0 {
      if h <= p {
        RunTraps(line, p, Turn(line, start, first).value, false, n - 1);
      } else {
        BoundaryAt(line, h, p);
        Cycles(line, p, n - 1);
      }
    }
  }

  lemma StartTraps(line: Bytes, n: nat)
    requires |line| > 4095 && AllInside(line, 1, 4095)
    ensures !Ends(line, 0, true, n)
  {
    BoundaryAt(line, 2048, 0);
    BoundaryAt(line, 4095, 0);
    if n > 0 {
      assert Ends(line, 0, true, n) == Ends(line, 2048, false, n - 1);
      if n > 1 { Cycles(line, 0, n - 2); }
    }
  }

  /**
   * Folding a line ends exactly when it has no boundary byte followed by 4094
   * continuation bytes, and bytes 1 to 4095 of a longer line are not all
   * continuation bytes.
   */
  lemma FoldingEndsExactly(line: Bytes)
    ensures (exists n: nat :: EndsWithin(line, n)) <==> !Diverges(line)
  {
    if !Diverges(line) {
      FoldingEnds(line, 0);
      assert EndsWithin(line, |line|);
    } else {
      forall n: nat ensures !EndsWithin(line, n) {
        if |line| > 4095 && AllInside(line, 1, 4095) {
          StartTraps(line, n);
        } else {
          var p: nat :| 0 < p < |line| - 4094 && LongRun(line, p);
          RunTraps(line, p, 0, true, n);
        }
      }
    }
  }

  const INSIDE: Bytes := seq(4096, i => 0x80)

  /** A line whose folding never ends: 4096 continuation bytes. */
  lemma NeverEnds(n: nat)
    ensures Diverges(INSIDE) && !EndsWithin(INSIDE, n)
  {
    assert AllInside(INSIDE, 1, 4095);
    FoldingEndsExactly(INSIDE);
  }

  // ---------------------------------------------------------------- what folding produces

  /** The segments of a line from `start` on. */
  function Segments(line: Bytes, start: nat): (r: seq<Bytes>)
    requires !Diverges(line) && Fine(line, start)
    ensures r != []
    decreases |line| - start
  {
    match Turn(line, start, start == 0)
    case None => [line[start..]]
    case Some(next) =>
      TurnAdvances(line, start);
      [line[start..next]] + Segments(line, next)
  }

  /** Segments as stored: each but the first behind a line end and a space. */
  function Joined(segments: seq<Bytes>): Bytes
    requires segments != []
  {
    if |segments| == 1 then segments[0] else segments[0] + (CRLF + ([SPACE] + Joined(segments[1..])))
  }

  function Folded(line: Bytes): Bytes
    requires !Diverges(line)
  {
    Joined(Segments(line, 0))
  }

  /** Segments give the line back, respect the budget, and start at sequence boundaries unless the run is a budget long. */
  lemma {:induction false} SegmentsExact(line: Bytes, start: nat)
    requires !Diverges(line) && Fine(line, start)
    ensures Flatten(Segments(line, start)) == line[start..]
    ensures |Segments(line, start)[0]| <= Budget(start == 0)
    ensures forall i :: 1 <= i < |Segments(line, start)| ==> |Segments(line, start)[i]| <= MAX_LINE - 1
    decreases |line| - start
  {
    match Turn(line, start, start == 0)
    case None => assert Flatten([line[start..]]) == line[start..] + Flatten([]);
    case Some(next) =>
      TurnAdvances(line, start);
      SegmentsExact(line, next);
      assert line[start..] == line[start..next] + line[next..];
      var rest := Segments(line, next);
      assert Segments(line, start)[1..] == rest;
      forall i | 1 <= i < |Segments(line, start)| ensures |Segments(line, start)[i]| <= MAX_LINE - 1 {
        assert Segments(line, start)[i] == rest[i - 1];
      }
  }

  // ---------------------------------------------------------------- the stored lines

  /** The stored bytes cut at their line ends. */
  function Split(s: Bytes): seq<Bytes>
    decreases |s|
  {
    match Find(s, 0)
    case None => [s]
    case Some(nl) => [s[..nl]] + Split(s[nl + 2..])
  }

  /** Undoing the folding: the line ends go, and the space behind each. */
  function Unfold(s: Bytes): Bytes {
    Flatten(Unspaced(Split(s)))
  }

  function Unspaced(lines: seq<Bytes>): seq<Bytes>
    ensures |Unspaced(lines)| == |lines|
  {
    seq(|lines|, i requires 0 <= i < |lines| => if i == 0 || lines[i] == [] then lines[i] else lines[i][1..])
  }

  predicate OneLine(s: Bytes) { forall i :: 0 <= i < |s| ==> !EndsAt(s, i) }

  function Spaced(segments: seq<Bytes>): seq<Bytes>
    ensures |Spaced(segments)| == |segments|
  {
    seq(|segments|, i requires 0 <= i < |segments| => [SPACE] + segments[i])
  }

  lemma FindEnd(a: Bytes, b: Bytes)
    requires OneLine(a)
    ensures Find(a + (CRLF + b), 0) == Some(|a|)
  {
    var s := a + (CRLF + b);
    assert EndsAt(s, |a|);
    forall i | 0 <= i < |a| ensures !EndsAt(s, i) {
      if i + 1 < |a| { assert !EndsAt(a, i); }
    }
  }

  lemma SplitEnd(a: Bytes, b: Bytes)
    requires OneLine(a)
    ensures Split(a + (CRLF + b)) == [a] + Split(b)
  {
    var s := a + (CRLF + b);
    FindEnd(a, b);
    assert s[..|a|] == a && s[|a| + 2..] == b;
  }

  /** Splitting joined segments gives them back, each but the first behind its space. */
  lemma {:induction false} SplitJoined(lead: Bytes, segments: seq<Bytes>)
    requires segments != [] && OneLine(lead + segments[0])
    requires forall i :: 1 <= i < |segments| ==> OneLine([SPACE] + segments[i])
    ensures Split(lead + Joined(segments)) == [lead + segments[0]] + Spaced(segments[1..])
    decreases |segments|
  {
    var a := lead + segments[0];
    if |segments| == 1 {
      assert Find(a, 0).None?;
    } else {
      var rest := segments[1..];
      assert lead + Joined(segments) == a + (CRLF + ([SPACE] + Joined(rest)));
      SplitEnd(a, [SPACE] + Joined(rest));
      SplitJoined([SPACE], rest);
      assert Spaced(rest) == [[SPACE] + rest[0]] + Spaced(rest[1..]);
    }
  }

  lemma PartOneLine(line: Bytes, from: nat, to: nat)
    requires OneLine(line) && from <= to <= |line|
    ensures OneLine(line[from..to]) && OneLine([SPACE] + line[from..to])
  {
    var part := line[from..to];
    forall i | 0 <= i < |part| ensures !EndsAt(part, i) { assert !EndsAt(line, from + i); }
    forall i | 0 <= i <= |part| ensures !EndsAt([SPACE] + part, i) {
      if i > 0 { assert !EndsAt(part, i - 1); }
    }
  }

  lemma {:induction false} SegmentsOneLine(line: Bytes, start: nat)
    requires OneLine(line) && !Diverges(line) && Fine(line, start)
    ensures forall i :: 0 <= i < |Segments(line, start)| ==>
              OneLine(Segments(line, start)[i]) && OneLine([SPACE] + Segments(line, start)[i])
    decreases |line| - start
  {
    hide OneLine;
    match Turn(line, start, start == 0)
    case None =>
      PartOneLine(line, start, |line|);
      assert line[start..|line|] == line[start..];
    case Some(next) =>
      TurnAdvances(line, start);
      PartOneLine(line, start, next);
      SegmentsOneLine(line, next);
      var rest := Segments(line, next);
      forall i | 0 <= i < |Segments(line, start)|
        ensures OneLine(Segments(line, start)[i]) && OneLine([SPACE] + Segments(line, start)[i])
      {
        if i > 0 { assert Segments(line, start)[i] == rest[i - 1]; }
      }
  }

  /** The stored lines are the segments. */
  lemma FoldedLines(line: Bytes)
    requires OneLine(line) && !Diverges(line)
    ensures var segments := Segments(line, 0); Split(Folded(line)) == [segments[0]] + Spaced(segments[1..])
  {
    var segments := Segments(line, 0);
    SegmentsOneLine(line, 0);
    hide OneLine, Diverges, Segments, Split;
    assert [] + segments[0] == segments[0] && [] + Joined(segments) == Joined(segments);
    SplitJoined([], segments);
  }

  lemma UnspacedSpaced(segments: seq<Bytes>)
    requires segments != []
    ensures Unspaced([segments[0]] + Spaced(segments[1..])) == segments
  {
    var lines := [segments[0]] + Spaced(segments[1..]);
    forall i | 0 <= i < |segments| ensures Unspaced(lines)[i] == segments[i] {
      if i > 0 { assert lines[i] == [SPACE] + segments[i]; }
    }
  }

  /**
   * Every stored line is at most 2048 bytes, the space of a continuation
   * included, and undoing the folding gives the line back.
   */
  lemma FoldedExact(line: Bytes)
    requires OneLine(line) && !Diverges(line)
    ensures forall i :: 0 <= i < |Split(Folded(line))| ==> |Split(Folded(line))[i]| <= MAX_LINE
    ensures Unfold(Folded(line)) == line
  {
    var segments := Segments(line, 0);
    FoldedLines(line);
    SegmentsExact(line, 0);
    UnspacedSpaced(segments);
    hide OneLine, Diverges, Segments, Split, Folded, Unspaced;
    assert line[0..] == line;
  }

  // ---------------------------------------------------------------- sequences stay whole

  /** No `n` continuation bytes in a row. */
  predicate ShortRuns(line: Bytes, n: nat) {
    forall i :: 0 <= i <= |line| - n ==> Interrupted(line, i, n)
  }

  predicate Interrupted(line: Bytes, from: nat, n: nat)
    requires from + n <= |line|
  {
    exists j :: from <= j < from + n && !Continuation(line[j])
  }

  /** The places where a line is cut. */
  function Cuts(line: Bytes, start: nat): seq<nat>
    requires !Diverges(line) && Fine(line, start)
    decreases |line| - start
  {
    match Turn(line, start, start == 0)
    case None => []
    case Some(next) =>
      TurnAdvances(line, start);
      [next] + Cuts(line, next)
  }

  /** No sequence boundary after `cut` fits in the budget of the segment from `from`. */
  predicate Latest(line: Bytes, from: nat, cut: nat) {
    from < cut < |line| && forall i :: cut < i <= from + Budget(from == 0) && i < |line| ==> Continuation(line[i])
  }

  /** Each cut is as late as it can be, counting from the one before it. */
  predicate AllLatest(line: Bytes, from: nat, cuts: seq<nat>)
    decreases |cuts|
  {
    cuts != [] ==> Latest(line, from, cuts[0]) && AllLatest(line, cuts[0], cuts[1..])
  }

  /** A line is folded exactly when it is too long, and each time as late as a sequence boundary allows. */
  lemma {:induction false} FoldsLate(line: Bytes, start: nat)
    requires !Diverges(line) && Fine(line, start)
    ensures Cuts(line, start) == [] <==> |line| - start <= Budget(start == 0)
    ensures |Segments(line, start)| == |Cuts(line, start)| + 1
    ensures AllLatest(line, start, Cuts(line, start))
    decreases |line| - start
  {
    assert start <= |line|;
    hide Diverges, Fine, Latest, Continuation;
    match Turn(line, start, start == 0)
    case None =>
    case Some(next) =>
      TurnAdvances(line, start);
      TurnLatest(line, start);
      FoldsLate(line, next);
      assert Cuts(line, start)[1..] == Cuts(line, next);
  }

  lemma TurnLatest(line: Bytes, start: nat)
    requires !Diverges(line) && Fine(line, start) && Turn(line, start, start == 0).Some?
    ensures Latest(line, start, Turn(line, start, start == 0).value)
  {
    TurnAdvances(line, start);
    hide Diverges, Fine;
  }

  /** In particular a line of at most 2048 bytes is stored as it is. */
  lemma ShortStays(line: Bytes)
    requires |line| <= MAX_LINE
    ensures !Diverges(line) && Folded(line) == line
  {
    assert Segments(line, 0) == [line[0..]];
    assert line[0..] == line;
  }

  lemma ShortRunsEnd(line: Bytes)
    ensures Diverges(line) ==> !ShortRuns(line, 2047)
  {
    if |line| > 4095 && AllInside(line, 1, 4095) {
      assert !Interrupted(line, 1, 2047);
    } else if Diverges(line) {
      var p :| 0 < p < |line| - 4094 && LongRun(line, p);
      assert !Interrupted(line, p + 1, 2047);
    }
  }

  /** Without a run of 2047 continuation bytes, folding ends and no UTF-8 sequence is cut. */
  lemma {:induction false} SequencesWhole(line: Bytes, start: nat)
    requires ShortRuns(line, 2047) && !Diverges(line) && Fine(line, start)
    ensures forall i :: 0 <= i < |Cuts(line, start)| ==> Cuts(line, start)[i] < |line| && !Continuation(line[Cuts(line, start)[i]])
    decreases |line| - start
  {
    match Turn(line, start, start == 0)
    case None =>
    case Some(next) =>
      TurnAdvances(line, start);
      var budget := Budget(start == 0);
      var cut := Boundary(line, start + budget);
      assert Interrupted(line, start + 1, 2047);
      var j :| start + 1 <= j < start + 1 + 2047 && !Continuation(line[j]);
      assert cut >= j;
      SequencesWhole(line, next);
  }

  /** In particular for text whose sequences are as UTF-8 has them, at most three continuation bytes in a row. */
  lemma TextStaysWhole(line: Bytes)
    requires ShortRuns(line, 4)
    ensures !Diverges(line)
    ensures forall i :: 0 <= i < |Cuts(line, 0)| ==> Cuts(line, 0)[i] < |line| && !Continuation(line[Cuts(line, 0)[i]])
  {
    forall i | 0 <= i <= |line| - 2047 ensures Interrupted(line, i, 2047) {
      assert Interrupted(line, i, 4);
      var j :| i <= j < i + 4 && !Continuation(line[j]);
      assert i <= j < i + 2047;
    }
    ShortRunsEnd(line);
    SequencesWhole(line, 0);
  }

  /** The UTF-8 sequence of a code point (section 3 of RFC 3629). */
  function Utf8(c: nat): (r: Bytes)
    requires c < 0x11_0000
    ensures 1 <= |r| <= 4 && !Continuation(r[0]) && forall i :: 1 <= i < |r| ==> Continuation(r[i])
  {
    if c < 0x80 then [c]
    else if c < 0x800 then [0xC0 + c / 64, 0x80 + c % 64]
    else if c < 0x1_0000 then [0xE0 + c / 4096, 0x80 + c / 64 % 64, 0x80 + c % 64]
    else [0xF0 + c / 262144, 0x80 + c / 4096 % 64, 0x80 + c / 64 % 64, 0x80 + c % 64]
  }

  function Text(chars: seq<nat>): Bytes
    requires forall i :: 0 <= i < |chars| ==> chars[i] < 0x11_0000
  {
    if chars == [] then [] else Utf8(chars[0]) + Text(chars[1..])
  }

  /** Four bytes of text never lie inside one sequence. */
  lemma {:induction false} TextInterrupted(chars: seq<nat>, from: nat)
    requires forall i :: 0 <= i < |chars| ==> chars[i] < 0x11_0000
    requires from + 4 <= |Text(chars)|
    ensures Interrupted(Text(chars), from, 4)
  {
    var head, rest := Utf8(chars[0]), Text(chars[1..]);
    var text := Text(chars);
    hide Utf8;
    if from == 0 {
      assert text[0] == head[0];
    } else if |head| <= from {
      TextInterrupted(chars[1..], from - |head|);
      var j :| from - |head| <= j < from - |head| + 4 && !Continuation(rest[j]);
      assert text[|head| + j] == rest[j];
    } else {
      TextStarts(chars[1..]);
      assert text[|head|] == rest[0];
    }
  }

  lemma TextStarts(chars: seq<nat>)
    requires forall i :: 0 <= i < |chars| ==> chars[i] < 0x11_0000
    ensures Text(chars) != [] ==> !Continuation(Text(chars)[0])
  {
    hide Utf8;
  }

  predicate BetweenCharacters(chars: seq<nat>, at: nat)
    requires forall i :: 0 <= i < |chars| ==> chars[i] < 0x11_0000
  {
    exists n :: 0 <= n < |chars| && at == |Text(chars[..n])|
  }

  /** A byte of text that does not continue a sequence starts a character. */
  lemma {:induction false} StartsCharacter(chars: seq<nat>, at: nat)
    requires forall i :: 0 <= i < |chars| ==> chars[i] < 0x11_0000
    requires at < |Text(chars)| && !Continuation(Text(chars)[at])
    ensures BetweenCharacters(chars, at)
  {
    var head, rest := Utf8(chars[0]), Text(chars[1..]);
    hide Utf8;
    if at < |head| {
      assert Text(chars)[at] == head[at];
      assert at == |Text(chars[..0])|;
    } else {
      assert Text(chars)[at] == rest[at - |head|];
      StartsCharacter(chars[1..], at - |head|);
      var n :| 0 <= n < |chars[1..]| && at - |head| == |Text(chars[1..][..n])|;
      assert chars[..n + 1][1..] == chars[1..][..n];
      assert at == |Text(chars[..n + 1])|;
    }
  }

  /** Whatever UTF-8 text a line holds, folding it ends and cuts only between characters. */
  lemma CharactersStayWhole(chars: seq<nat>)
    requires forall i :: 0 <= i < |chars| ==> chars[i] < 0x11_0000
    ensures !Diverges(Text(chars))
    ensures forall i :: 0 <= i < |Cuts(Text(chars), 0)| ==> BetweenCharacters(chars, Cuts(Text(chars), 0)[i])
  {
    var line := Text(chars);
    forall p | 0 <= p <= |line| - 4 ensures Interrupted(line, p, 4) { TextInterrupted(chars, p); }
    TextStaysWhole(line);
    hide Diverges, Text, Cuts, Utf8, BetweenCharacters;
    forall i | 0 <= i < |Cuts(line, 0)| ensures BetweenCharacters(chars, Cuts(line, 0)[i]) {
      StartsCharacter(chars, Cuts(line, 0)[i]);
    }
  }

  // ---------------------------------------------------------------- the stream

  /** One complete line as stored, unless its folding never ends. */
  function Stored(line: Bytes): Option<Bytes> {
    var text := Unstuff(line);
    if Diverges(text) then None else Some(Folded(text))
  }

  /** One stored line in front of what the rest gives. */
  function Then(line: Option<Bytes>, rest: Option<(Bytes, Bytes)>): Option<(Bytes, Bytes)> {
    if line.None? || rest.None? then None else Some(((line.value + CRLF) + rest.value.0, rest.value.1))
  }

  /** The complete lines of `s` as stored, and the half line after them. */
  function Consume(s: Bytes): Option<(Bytes, Bytes)>
    decreases |s|
  {
    match Find(s, 0)
    case None => Some(([], s))
    case Some(nl) => Then(Stored(s[..nl]), Consume(s[nl + 2..]))
  }

  /** What a buffer gives behind what has gone out. */
  function After(out: Bytes, r: Option<(Bytes, Bytes)>): Option<(Bytes, Bytes)> {
    match r case None => None case Some(p) => Some((out + p.0, p.1))
  }

  /** What ends the stream: the half line, without a line end. */
  function Last(carry: Bytes): Option<Bytes> {
    if carry == [] then Some([]) else Stored(carry)
  }

  /** The whole input at once. */
  function Whole(s: Bytes): Option<Bytes> {
    match Consume(s)
    case None => None
    case Some(r) =>
      match Last(r.1)
      case None => None
      case Some(end) => Some(r.0 + end)
  }

  /** Chunk after chunk: what the calls return, concatenated, and the half line kept. */
  function FeedAll(carry: Bytes, chunks: seq<Bytes>): Option<(Bytes, Bytes)>
    decreases |chunks|
  {
    if chunks == [] then Some(([], carry))
    else match Consume(carry + chunks[0])
      case None => None
      case Some(r) => After(r.0, FeedAll(r.1, chunks[1..]))
  }

  lemma ConsumeLine(s: Bytes)
    requires Find(s, 0).Some?
    ensures var nl := Find(s, 0).value; Consume(s) == Then(Stored(s[..nl]), Consume(s[nl + 2..]))
  {}

  lemma ConsumeHalf(s: Bytes)
    requires Find(s, 0).None?
    ensures Consume(s) == Some(([], s))
  {}

  /** More input never moves the first line end. */
  lemma FindStays(s: Bytes, more: Bytes)
    requires Find(s, 0).Some?
    ensures Find(s + more, 0) == Find(s, 0)
  {
    var nl := Find(s, 0).value;
    assert EndsAt(s + more, nl);
    forall i | 0 <= i < nl ensures !EndsAt(s + more, i) { assert !EndsAt(s, i); }
  }

  /** Consuming part of the input and then the rest behind what was kept is consuming all of it. */
  lemma {:induction false} ConsumeMore(s: Bytes, more: Bytes)
    ensures Consume(s + more) == match Consume(s) case None => None case Some(r) => After(r.0, Consume(r.1 + more))
    decreases |s|
  {
    hide Stored, Consume, Find;
    match Find(s, 0)
    case None =>
      ConsumeHalf(s);
      AfterNothing(Consume(s + more));
    case Some(nl) =>
      FindEnds(s, 0);
      FindStays(s, more);
      assert (s + more)[..nl] == s[..nl] && (s + more)[nl + 2..] == s[nl + 2..] + more;
      ConsumeLine(s);
      ConsumeLine(s + more);
      ConsumeMore(s[nl + 2..], more);
      if Stored(s[..nl]).Some? && Consume(s[nl + 2..]).Some? {
        var r := Consume(s[nl + 2..]).value;
        ThenAfter(Stored(s[..nl]).value, r.0, Consume(r.1 + more));
      }
  }

  lemma ThenAfter(line: Bytes, out: Bytes, rest: Option<(Bytes, Bytes)>)
    ensures Then(Some(line), After(out, rest)) == After((line + CRLF) + out, rest)
  {
    if rest.Some? { Regroup(line + CRLF, out, rest.value.0); }
  }

  lemma Regroup(a: Bytes, b: Bytes, c: Bytes)
    ensures (a + b) + c == a + (b + c)
  {}

  lemma {:induction false} FeedAllConsumes(carry: Bytes, chunks: seq<Bytes>)
    requires Find(carry, 0).None?
    ensures FeedAll(carry, chunks) == Consume(carry + Flatten(chunks))
    decreases |chunks|
  {
    if chunks == [] {
      assert carry + [] == carry;
    } else {
      var s, more := carry + chunks[0], Flatten(chunks[1..]);
      assert carry + Flatten(chunks) == s + more;
      ConsumeMore(s, more);
      KeptIsHalf(s);
      if Consume(s).Some? { FeedAllConsumes(Consume(s).value.1, chunks[1..]); }
    }
  }

  /** What is kept never holds a line end. */
  lemma {:induction false} KeptIsHalf(s: Bytes)
    ensures Consume(s).Some? ==> Find(Consume(s).value.1, 0).None?
    decreases |s|
  {
    if Find(s, 0).Some? { KeptIsHalf(s[Find(s, 0).value + 2..]); }
  }

  /**
   * However the input is cut into chunks, the outputs together with the final
   * one are those of the whole input; and if a line's folding never ends, no
   * cutting avoids it.
   */
  lemma ChunkingIrrelevant(chunks: seq<Bytes>)
    ensures Whole(Flatten(chunks)) ==
      match FeedAll([], chunks)
      case None => None
      case Some(r) =>
        match Last(r.1)
        case None => None
        case Some(end) => Some(r.0 + end)
  {
    FeedAllConsumes([], chunks);
    assert [] + Flatten(chunks) == Flatten(chunks);
  }

  // ---------------------------------------------------------------- the stored stream

  predicate Bounded(s: Bytes) { forall i :: 0 <= i < |Split(s)| ==> |Split(s)[i]| <= MAX_LINE }

  lemma {:induction false} SplitAppend(a: Bytes, b: Bytes)
    ensures Split(a + (CRLF + b)) == Split(a) + Split(b)
    decreases |a|
  {
    match Find(a, 0)
    case None => SplitEnd(a, b);
    case Some(nl) =>
      var s := a + (CRLF + b);
      FindStays(a, CRLF + b);
      assert s[..nl] == a[..nl] && s[nl + 2..] == a[nl + 2..] + (CRLF + b);
      SplitAppend(a[nl + 2..], b);
  }

  lemma StoredBounded(line: Bytes)
    requires OneLine(line) && Stored(line).Some?
    ensures Bounded(Stored(line).value)
  {
    var text := Unstuff(line);
    assert OneLine(text) by {
      if text != line {
        PartOneLine(line, 1, |line|);
        assert line[1..|line|] == line[1..];
      }
    }
    FoldedExact(text);
    hide Folded, Diverges, Split;
  }

  lemma BoundedAppend(line: Bytes, rest: Bytes, end: Bytes)
    requires Bounded(line) && Bounded(rest + end)
    ensures Bounded(((line + CRLF) + rest) + end)
  {
    hide Split;
    assert ((line + CRLF) + rest) + end == line + (CRLF + (rest + end));
    SplitAppend(line, rest + end);
  }

  lemma FirstLine(s: Bytes)
    requires Find(s, 0).Some?
    ensures OneLine(s[..Find(s, 0).value])
  {
    var nl := Find(s, 0).value;
    forall i | 0 <= i < nl ensures !EndsAt(s[..nl], i) { assert !EndsAt(s, i); }
  }

  lemma {:induction false} ConsumeBounded(s: Bytes, end: Bytes)
    requires Consume(s).Some? && Bounded(end)
    ensures Bounded(Consume(s).value.0 + end)
    decreases |s|
  {
    hide Stored, Consume, Bounded, OneLine;
    match Find(s, 0)
    case None =>
      ConsumeHalf(s);
      assert [] + end == end;
    case Some(nl) =>
      ConsumeLine(s);
      FirstLine(s);
      StoredBounded(s[..nl]);
      ConsumeBounded(s[nl + 2..], end);
      BoundedAppend(Stored(s[..nl]).value, Consume(s[nl + 2..]).value.0, end);
  }

  /** No line of the stored text exceeds 2048 bytes, whatever the input. */
  lemma WholeBounded(s: Bytes)
    requires Whole(s).Some?
    ensures Bounded(Whole(s).value)
  {
    var carry := Consume(s).value.1;
    KeptIsHalf(s);
    if carry != [] { StoredBounded(carry); }
    hide Stored;
    ConsumeBounded(s, Last(carry).value);
  }

  // ---------------------------------------------------------------- what the sender stuffed

  /** The sender puts a dot in front of every line that starts with one. */
  function Stuffed(line: Bytes): Bytes { if line != [] && line[0] == DOT then [DOT] + line else line }

  /** Lines as the sender transmits them, each stuffed and ended. */
  function StuffedText(lines: seq<Bytes>): Bytes {
    if lines == [] then [] else Stuffed(lines[0]) + (CRLF + StuffedText(lines[1..]))
  }

  ghost predicate Foldable(lines: seq<Bytes>) {
    forall i :: 0 <= i < |lines| ==> OneLine(lines[i]) && !Diverges(lines[i])
  }

  /** The original lines, each folded and ended. */
  ghost function FoldedText(lines: seq<Bytes>): Bytes
    requires Foldable(lines)
  {
    if lines == [] then [] else (Folded(lines[0]) + CRLF) + FoldedText(lines[1..])
  }

  /** A stuffed line is stored as the line the sender had, and so is one that needed no stuffing. */
  lemma StoredOriginal(line: Bytes)
    requires !Diverges(line)
    ensures Stored([DOT] + line) == Some(Folded(line))
    ensures line == [] || line[0] != DOT ==> Stored(line) == Some(Folded(line))
    ensures Stored(Stuffed(line)) == Some(Folded(line))
  {
    assert ([DOT] + line)[1..] == line;
  }

  lemma StuffedOneLine(line: Bytes)
    requires OneLine(line)
    ensures OneLine(Stuffed(line))
  {
    forall i | 0 <= i <= |line| ensures !EndsAt([DOT] + line, i) {
      if i > 0 && i <= |line| - 1 { assert !EndsAt(line, i - 1); }
    }
  }

  /**
   * Reception undoes the sender's stuffing (section 4.5.2 of RFC 5321): whatever
   * lines the sender had, transmitted stuffed, and a last line without an end,
   * they are stored as they were, each folded.
   */
  lemma {:induction false} StuffingUndone(lines: seq<Bytes>, last: Bytes)
    requires Foldable(lines) && OneLine(last) && !Diverges(last)
    ensures Whole(StuffedText(lines) + Stuffed(last)) == Some(FoldedText(lines) + Folded(last))
    decreases |lines|
  {
    hide Folded, Stored, Diverges, Consume, OneLine, Find, Stuffed;
    if lines == [] {
      var half := Stuffed(last);
      assert [] + half == half && [] + Folded(last) == Folded(last);
      HalfStored(last);
    } else {
      var rest := lines[1..];
      var line, tail := Stuffed(lines[0]), StuffedText(rest) + Stuffed(last);
      assert StuffedText(lines) + Stuffed(last) == line + (CRLF + tail);
      assert Foldable(rest);
      StuffingUndone(rest, last);
      StuffedOneLine(lines[0]);
      StoredOriginal(lines[0]);
      WholeLine(line, tail);
      Regroup(Folded(lines[0]) + CRLF, FoldedText(rest), Folded(last));
    }
  }

  lemma HalfStored(last: Bytes)
    requires OneLine(last) && !Diverges(last)
    ensures Whole(Stuffed(last)) == Some(Folded(last))
  {
    var half := Stuffed(last);
    StuffedOneLine(last);
    StoredOriginal(last);
    assert Find(half, 0).None?;
    ConsumeHalf(half);
    if half == [] { assert last == [] && Folded([]) == []; }
    assert [] + Folded(last) == Folded(last);
  }

  lemma WholeLine(line: Bytes, tail: Bytes)
    requires OneLine(line) && Stored(line).Some? && Whole(tail).Some?
    ensures Whole(line + (CRLF + tail)) == Some((Stored(line).value + CRLF) + Whole(tail).value)
  {
    var s := line + (CRLF + tail);
    FindEnd(line, tail);
    assert s[..|line|] == line && s[|line| + 2..] == tail;
    ConsumeLine(s);
    hide Stored, Consume, Find;
    Regroup(Stored(line).value + CRLF, Consume(tail).value.0, Last(Consume(tail).value.1).value);
  }

  // ---------------------------------------------------------------- the object

  class Folder {
    var carry: Bytes

    constructor ()
      ensures carry == []
    {
      carry := [];
    }

    method FindEndOfLine(from: nat) returns (r: Option<nat>)
      ensures r == Find(carry, from)
    {
      var i := from;
      while i + 1 < |carry|
        invariant from <= i && Find(carry, from) == Find(carry, i)
        decreases |carry| - i
      {
        if carry[i] == CR && carry[i + 1] == LF { return Some(i); }
        i := i + 1;
      }
      return None;
    }

    static method Utf8Boundary(line: Bytes, at: nat) returns (cut: nat)
      requires at < |line|
      ensures cut == Boundary(line, at)
    {
      cut := at;
      while cut > 0 && Continuation(line[cut])
        invariant cut <= at && Boundary(line, at) == Boundary(line, cut)
      {
        cut := cut - 1;
      }
    }

    /** The folding loop, watched for `turns` turns: exactly whether it has ended by then, and with what. */
    static method AppendFolded(line: Bytes, turns: nat) returns (done: bool, out: Bytes)
      ensures done <==> EndsWithin(line, turns)
      ensures done ==> !Diverges(line) && out == Folded(line)
    {
      out := [];
      var start: nat, first, n: nat := 0, true, turns;
      while |line| - start > Budget(first)
        invariant start <= |line| && n <= turns
        invariant Watch(line, 0, true, turns, []) == Watch(line, start, first, n, out)
        decreases n
      {
        if n == 0 {
          WatchEnds(line, 0, true, turns, []);
          return false, out;
        }
        var cut := Utf8Boundary(line, start + Budget(first));
        if cut == start { cut := start + Budget(first); }
        // A cut before the start takes all the rest: the length wraps around.
        out := out + (if cut < start then line[start..] else line[start..cut]) + CRLF + [SPACE];
        start, first, n := cut, false, n - 1;
      }
      out := out + line[start..];
      done := true;
      WatchEnds(line, 0, true, turns, []);
      EndsFolded(line, turns);
    }

    /** Takes one complete line out of the buffer. */
    method NextLine(pos: nat, nl: nat, turns: nat) returns (done: bool, stored: Bytes)
      requires pos <= |carry| && Find(carry, pos) == Some(nl)
      ensures done ==> Stored(carry[pos..nl]) == Some(stored)
      ensures turns >= |carry| ==> (done <==> Stored(carry[pos..nl]).Some?)
    {
      var line := carry[pos..nl];
      if line != [] && line[0] == DOT { line := line[1..]; }
      done, stored := AppendFolded(line, turns);
      if turns >= |carry| { LongEnough(line, turns); }
    }

    /**
     * Complete lines go out as stored, the half line after them stays. A call
     * that some line keeps from ending is not done, however long it is watched.
     */
    method Feed(data: Bytes, turns: nat) returns (done: bool, out: Bytes)
      modifies this
      ensures done ==> Consume(old(carry) + data) == Some((out, carry))
      ensures !done ==> carry == old(carry) + data
      ensures turns >= |old(carry) + data| ==> (done <==> Consume(old(carry) + data).Some?)
    {
      hide Consume, Find, Stored;
      carry := carry + data;
      out := [];
      var pos := 0;
      assert carry[0..] == carry;
      AfterNothing(Consume(carry));
      var nl := FindEndOfLine(0);
      while nl.Some?
        invariant carry == old(carry) + data && pos <= |carry| && nl == Find(carry, pos)
        invariant Consume(carry) == After(out, Consume(carry[pos..]))
        decreases |carry| - pos
      {
        FindEnds(carry, pos);
        FindShift(carry, pos);
        ConsumeLine(carry[pos..]);
        assert carry[pos..][..nl.value - pos] == carry[pos..nl.value];
        assert carry[pos..][nl.value - pos + 2..] == carry[nl.value + 2..];
        var ended, stored := NextLine(pos, nl.value, turns);
        if !ended { return false, out; }
        AfterThen(out, stored, Consume(carry[nl.value + 2..]));
        out := out + (stored + CRLF);
        pos := nl.value + 2;
        nl := FindEndOfLine(pos);
      }
      FindShift(carry, pos);
      ConsumeHalf(carry[pos..]);
      assert out + [] == out;
      carry := carry[pos..];
      done := true;
    }

    /** The half line left at the end, without a line end. */
    method Flush(turns: nat) returns (done: bool, out: Bytes)
      modifies this
      ensures done ==> Last(old(carry)) == Some(out) && carry == []
      ensures !done ==> carry == old(carry)
      ensures turns >= |old(carry)| ==> (done <==> Last(old(carry)).Some?)
    {
      if carry == [] { return true, []; }
      var line := carry;
      if line[0] == DOT { line := line[1..]; }
      done, out := AppendFolded(line, turns);
      if turns >= |carry| { LongEnough(line, turns); }
      if done { carry := []; }
    }
  }

  /** The loop for `n` more turns: whether it has ended, and what it has written. */
  function Watch(line: Bytes, start: nat, first: bool, n: nat, out: Bytes): (bool, Bytes)
    requires start <= |line|
    decreases n
  {
    match Turn(line, start, first)
    case None => (true, out + line[start..])
    case Some(next) =>
      if n == 0 then (false, out)
      else Watch(line, next, false, n - 1, out + (if next < start then line[start..] else line[start..next]) + CRLF + [SPACE])
  }

  lemma {:induction false} WatchEnds(line: Bytes, start: nat, first: bool, n: nat, out: Bytes)
    requires start <= |line|
    ensures Watch(line, start, first, n, out).0 <==> Ends(line, start, first, n)
    decreases n
  {
    match Turn(line, start, first)
    case None =>
    case Some(next) =>
      if n > 0 {
        WatchEnds(line, next, false, n - 1, out + (if next < start then line[start..] else line[start..next]) + CRLF + [SPACE]);
      }
  }

  /** A loop that has ended has written the segments. */
  lemma {:induction false} WatchFolds(line: Bytes, start: nat, n: nat, out: Bytes)
    requires !Diverges(line) && Fine(line, start) && Ends(line, start, start == 0, n)
    ensures Watch(line, start, start == 0, n, out).1 == out + Joined(Segments(line, start))
    decreases n
  {
    match Turn(line, start, start == 0)
    case None =>
    case Some(next) =>
      TurnAdvances(line, start);
      WatchFolds(line, next, n - 1, out + line[start..next] + CRLF + [SPACE]);
      assert Segments(line, start)[1..] == Segments(line, next);
      Regrouped(out, line[start..next], Joined(Segments(line, next)));
  }

  lemma EndsFolded(line: Bytes, turns: nat)
    requires EndsWithin(line, turns)
    ensures !Diverges(line) && Watch(line, 0, true, turns, []).1 == Folded(line)
  {
    FoldingEndsExactly(line);
    WatchFolds(line, 0, turns, []);
    assert [] + Folded(line) == Folded(line);
  }

  /** As many turns as bytes are enough to tell. */
  lemma LongEnough(line: Bytes, turns: nat)
    requires turns >= |line|
    ensures EndsWithin(line, turns) <==> !Diverges(line)
  {
    FoldingEndsExactly(line);
    if !Diverges(line) {
      FoldingEnds(line, 0);
      EndsLater(line, 0, true, |line|, turns);
    }
  }

  lemma AfterNothing(r: Option<(Bytes, Bytes)>)
    ensures After([], r) == r
  {
    if r.Some? { assert [] + r.value.0 == r.value.0; }
  }

  lemma AfterThen(out: Bytes, stored: Bytes, rest: Option<(Bytes, Bytes)>)
    ensures After(out, Then(Some(stored), rest)) == After(out + (stored + CRLF), rest)
  {
    if rest.Some? { Regroup(out, stored + CRLF, rest.value.0); }
  }

  lemma FindEnds(s: Bytes, from: nat)
    requires Find(s, from).Some?
    ensures from <= Find(s, from).value && Find(s, from).value + 2 <= |s|
  {}

  lemma Regrouped(out: Bytes, part: Bytes, rest: Bytes)
    ensures out + (part + (CRLF + ([SPACE] + rest))) == (out + part + CRLF + [SPACE]) + rest
  {}

  lemma FindShift(s: Bytes, pos: nat)
    requires pos <= |s|
    ensures Find(s[pos..], 0) == match Find(s, pos) case None => None case Some(nl) => Some(nl - pos)
  {
    match Find(s, pos)
    case None =>
      forall i: nat ensures !EndsAt(s[pos..], i) { assert !EndsAt(s, pos + i); }
    case Some(nl) =>
      assert EndsAt(s[pos..], nl - pos);
      forall i | 0 <= i < nl - pos ensures !EndsAt(s[pos..], i) { assert !EndsAt(s, pos + i); }
  }
}
