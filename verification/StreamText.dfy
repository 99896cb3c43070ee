/** agent/stream_text.go: cutting a reply into the pieces it is streamed in, without losing
    anything but whitespace. */
module StreamTexts {
  import opened Text

  predicate IsSeparator(c: char) {
    c in "。！？.!?;；：:，,"
  }

  /** The sentence and clause marks a reply is cut after. */
  lemma Separators(c: char)
    ensures IsSeparator(c) <==>
            c == '。' || c == '！' || c == '？' || c == '.' || c == '!' || c == '?' || c == ';' || c == '；'
            || c == '：' || c == ':' || c == '，' || c == ','
  {
  }

  /** Where the first separator stands, or the length. */
  function FirstSeparator(s: string): (k: nat)
    ensures k <= |s| && (k < |s| ==> IsSeparator(s[k]))
    ensures forall i :: 0 <= i < k ==> !IsSeparator(s[i])
  {
    if s == "" || IsSeparator(s[0]) then 0 else 1 + FirstSeparator(s[1..])
  }

  function FirstNewline(s: string): (k: nat)
    ensures k <= |s| && (k < |s| ==> s[k] == '\n')
    ensures forall i :: 0 <= i < k ==> s[i] != '\n'
  {
    if s == "" || s[0] == '\n' then 0 else 1 + FirstNewline(s[1..])
  }

  /** strings.Split at newlines. */
  function Lines(s: string): (r: seq<string>)
    ensures r != []
    decreases |s|
  {
    var k := FirstNewline(s);
    if k == |s| then [s] else [s[..k]] + Lines(s[k + 1..])
  }

  /** A part is kept trimmed, unless it is blank. */
  function Piece(part: string): seq<string> {
    if Trim(part) == "" then [] else [Trim(part)]
  }

  /** A line cut after each of its separators. */
  function Pieces(line: string): seq<string>
    decreases |line|
  {
    if line == "" then []
    else
      var k := FirstSeparator(line);
      var cut := if k < |line| then k + 1 else k;
      Piece(line[..cut]) + Pieces(line[cut..])
  }

  function LinePieces(lines: seq<string>): seq<string> {
    if lines == [] then [] else Pieces(Trim(lines[0])) + LinePieces(lines[1..])
  }

  /** splitStreamText. */
  function Chunks(text: string): seq<string> {
    var t := Trim(text);
    var pieces := LinePieces(Lines(t));
    if t == "" then [] else if pieces == [] then [t] else pieces
  }

  function Joined(parts: seq<string>): string {
    if parts == [] then "" else parts[0] + Joined(parts[1..])
  }

  // ------------------------------------------------------------------- conservation

  lemma {:induction false} JoinedConcat(a: seq<string>, b: seq<string>)
    ensures Joined(a + b) == Joined(a) + Joined(b)
  {
    if a == [] {
      assert a + b == b;
    } else {
      assert (a + b)[1..] == a[1..] + b;
      JoinedConcat(a[1..], b);
    }
  }

  lemma NothingJoined()
    ensures Joined([]) == "" && Ink("") == ""
  {
  }

  lemma PieceKeepsInk(part: string)
    ensures Ink(Joined(Piece(part))) == Ink(part)
  {
    hide Trim, Ink;
    TrimLaws(part);
    var t := Trim(part);
    assert [t][1..] == [];
    assert Joined([]) == "";
    assert t + "" == t;
  }

  lemma {:induction false} PiecesKeepInk(line: string)
    ensures Ink(Joined(Pieces(line))) == Ink(line)
    decreases |line|
  {
    hide Ink, Piece, Joined, IsSeparator, FirstSeparator;
    NothingJoined();
    if line != "" {
      var k := FirstSeparator(line);
      var cut := if k < |line| then k + 1 else k;
      PiecesKeepInk(line[cut..]);
      PieceKeepsInk(line[..cut]);
      JoinedConcat(Piece(line[..cut]), Pieces(line[cut..]));
      InkConcat(Joined(Piece(line[..cut])), Joined(Pieces(line[cut..])));
      InkConcat(line[..cut], line[cut..]);
      assert line == line[..cut] + line[cut..];
    }
  }

  lemma LinesUnfold(s: string)
    ensures var k := FirstNewline(s);
            LinePieces(Lines(s)) ==
            if k == |s| then Pieces(Trim(s)) else Pieces(Trim(s[..k])) + LinePieces(Lines(s[k + 1..]))
  {
    hide Pieces, Trim, FirstNewline;
    var k := FirstNewline(s);
    if k == |s| {
      assert [s][1..] == [];
      assert Pieces(Trim(s)) + [] == Pieces(Trim(s));
    } else {
      assert Lines(s)[1..] == Lines(s[k + 1..]);
    }
  }

  lemma {:induction false} LinesKeepInk(s: string)
    ensures Ink(Joined(LinePieces(Lines(s)))) == Ink(s)
    decreases |s|
  {
    hide Ink, Pieces, Trim, Joined, LinePieces, Lines;
    var k := FirstNewline(s);
    LinesUnfold(s);
    TrimLaws(s[..k]);
    PiecesKeepInk(Trim(s[..k]));
    if k == |s| {
      assert s == s[..k];
    } else {
      var head, tail := s[..k], s[k + 1..];
      LinesKeepInk(tail);
      JoinedConcat(Pieces(Trim(head)), LinePieces(Lines(tail)));
      InkConcat(Joined(Pieces(Trim(head))), Joined(LinePieces(Lines(tail))));
      assert s == head + (['\n'] + tail);
      InkConcat(head, ['\n'] + tail);
      InkConcat(['\n'], tail);
      NewlineHasNoInk();
    }
  }

  lemma NewlineHasNoInk()
    ensures Ink(['\n']) == ""
  {
    assert IsSpace('\n');
    assert Ink(['\n'][..0]) == "";
  }

  lemma InkOfBlank(s: string)
    ensures Trim(s) == "" <==> Ink(s) == ""
  {
    hide Trim;
    TrimLaws(s);
    var t := Trim(s);
    if t != "" {
      assert !IsSpace(t[0]);
      InkConcat([t[0]], t[1..]);
      assert t == [t[0]] + t[1..];
      assert [t[0]][..0] == [];
      assert Ink([t[0]]) == [t[0]];
    }
  }

  /** Nothing but whitespace is lost, and text that is not blank is always cut by the loop,
      never passed on whole by the fallback. */
  lemma ChunksConserve(text: string)
    ensures Ink(Joined(Chunks(text))) == Ink(text)
    ensures Trim(text) != "" ==> Chunks(text) == LinePieces(Lines(Trim(text)))
  {
    hide Trim, LinePieces, Lines, Ink;
    TrimLaws(text);
    InkOfBlank(text);
    LinesKeepInk(Trim(text));
    assert Joined([]) == "";
    assert Ink("") == "" by {
      InkOfBlank("");
      TrimLaws("");
    }
  }

  // ------------------------------------------------------------------ shape of chunks

  /** Not blank, trimmed, on one line, and with no separator before its last character. */
  predicate GoodChunk(chunk: string) {
    && chunk != "" && Trimmed(chunk)
    && '\n' !in chunk
    && forall i :: 0 <= i < |chunk| - 1 ==> !IsSeparator(chunk[i])
  }

  lemma {:induction false} TrimLeftSlice(s: string) returns (i: nat)
    ensures i <= |s| && TrimLeft(s) == s[i..]
  {
    if s != [] && IsSpace(s[0]) {
      i := TrimLeftSlice(s[1..]);
      i := i + 1;
    } else {
      i := 0;
    }
  }

  lemma {:induction false} TrimRightSlice(s: string) returns (j: nat)
    ensures j <= |s| && TrimRight(s) == s[..j]
  {
    if s != [] && IsSpace(s[|s| - 1]) {
      j := TrimRightSlice(s[..|s| - 1]);
    } else {
      j := |s|;
    }
  }

  lemma TrimSlice(s: string) returns (i: nat, j: nat)
    ensures i <= j <= |s| && Trim(s) == s[i..j]
  {
    i := TrimLeftSlice(s);
    j := TrimRightSlice(TrimLeft(s));
    j := i + j;
  }

  lemma PieceGood(part: string)
    requires '\n' !in part && forall i :: 0 <= i < |part| - 1 ==> !IsSeparator(part[i])
    ensures forall c :: c in Piece(part) ==> GoodChunk(c)
    ensures part != "" && IsSeparator(part[|part| - 1]) ==>
              Piece(part) != [] && IsSeparator(Piece(part)[0][|Piece(part)[0]| - 1])
  {
    hide Trim, IsSeparator;
    TrimLaws(part);
    var i, j := TrimSlice(part);
    if part != "" && IsSeparator(part[|part| - 1]) {
      SeparatorSurvives(part);
    }
  }

  lemma SeparatorIsInk(c: char)
    requires IsSeparator(c)
    ensures !IsSpace(c) && c != '\n'
  {
  }

  lemma SeparatorSurvives(part: string)
    requires part != "" && IsSeparator(part[|part| - 1])
    ensures Trim(part) != "" && Trim(part)[|Trim(part)| - 1] == part[|part| - 1]
  {
    SeparatorIsInk(part[|part| - 1]);
    TrimLeftLaws(part);
    LeftKeepsEnd(part);
  }

  lemma {:induction false} LeftKeepsEnd(s: string)
    requires s != "" && !IsSpace(s[|s| - 1])
    ensures TrimLeft(s) != ""
  {
    if IsSpace(s[0]) {
      LeftKeepsEnd(s[1..]);
    }
  }

  /** Every piece of a line is a good chunk, and every piece but the last ends in a separator. */
  lemma {:induction false} PiecesGood(line: string)
    requires '\n' !in line
    ensures forall c :: c in Pieces(line) ==> GoodChunk(c)
    ensures forall i :: 0 <= i < |Pieces(line)| - 1 ==>
              Pieces(line)[i] != "" && IsSeparator(Pieces(line)[i][|Pieces(line)[i]| - 1])
    decreases |line|
  {
    hide IsSeparator, GoodChunk, Piece;
    if line != "" {
      var k := FirstSeparator(line);
      var cut := if k < |line| then k + 1 else k;
      var first, rest := Piece(line[..cut]), Pieces(line[cut..]);
      assert Pieces(line) == first + rest;
      PiecesGood(line[cut..]);
      PieceGood(line[..cut]);
      PieceSize(line[..cut]);
      if k < |line| {
        assert line[..cut][|line[..cut]| - 1] == line[k];
      }
    }
  }

  lemma PieceSize(part: string)
    ensures |Piece(part)| <= 1 && (Piece(part) != [] ==> Piece(part)[0] != "")
  {
  }

  lemma {:induction false} LinePiecesGood(lines: seq<string>)
    requires forall l :: l in lines ==> '\n' !in l
    ensures forall c :: c in LinePieces(lines) ==> GoodChunk(c)
  {
    hide GoodChunk, Pieces, Trim;
    if lines != [] {
      LinePiecesGood(lines[1..]);
      var i, j := TrimSlice(lines[0]);
      assert lines[0] in lines;
      PiecesGood(Trim(lines[0]));
    }
  }

  lemma {:induction false} LinesHoldNoNewline(s: string)
    ensures forall l :: l in Lines(s) ==> '\n' !in l
    decreases |s|
  {
    var k := FirstNewline(s);
    if k < |s| {
      LinesHoldNoNewline(s[k + 1..]);
    }
  }

  /** Every streamed chunk is good. */
  lemma ChunksGood(text: string)
    ensures forall c :: c in Chunks(text) ==> GoodChunk(c)
  {
    hide GoodChunk, LinePieces, Lines, Trim;
    ChunksConserve(text);
    LinesHoldNoNewline(Trim(text));
    LinePiecesGood(Lines(Trim(text)));
  }

  // ---------------------------------------------------------------------- the loops

  method SplitLines(text: string) returns (lines: seq<string>)
    ensures lines == Lines(text)
  {
    lines := [];
    var rest := text;
    while FirstNewline(rest) < |rest|
      invariant lines + Lines(rest) == Lines(text)
      decreases |rest|
    {
      var k := FirstNewline(rest);
      assert Lines(rest) == [rest[..k]] + Lines(rest[k + 1..]);
      lines, rest := lines + [rest[..k]], rest[k + 1..];
    }
    lines := lines + [rest];
  }

  /** A part that ends at its first separator is one piece of what is left. */
  lemma PiecesCut(line: string, start: nat, i: nat)
    requires start <= i < |line| && IsSeparator(line[i]) && forall j :: start <= j < i ==> !IsSeparator(line[j])
    ensures Pieces(line[start..]) == Piece(line[start..i + 1]) + Pieces(line[i + 1..])
  {
    hide IsSeparator, Piece;
    var rest := line[start..];
    assert rest[i - start] == line[i];
    FirstIs(rest, i - start);
    assert rest[..i - start + 1] == line[start..i + 1];
    assert rest[i - start + 1..] == line[i + 1..];
  }

  lemma PiecesEnd(line: string, start: nat)
    requires start < |line| && forall j :: start <= j < |line| ==> !IsSeparator(line[j])
    ensures Pieces(line[start..]) == Piece(line[start..])
  {
    hide IsSeparator, Piece;
    var rest := line[start..];
    assert forall j :: 0 <= j < |rest| ==> rest[j] == line[start + j];
    assert FirstSeparator(rest) == |rest|;
    assert rest[..|rest|] == rest && rest[|rest|..] == "";
    assert Pieces(rest) == Piece(rest) + Pieces("");
    NoPieces();
  }

  /** The scan of one trimmed line: `start` is where the current part begins. */
  method SplitLine(line: string) returns (chunks: seq<string>)
    ensures chunks == Pieces(line)
  {
    hide IsSeparator, Trim, Pieces;
    chunks := [];
    var start := 0;
    assert line[0..] == line;
    for i := 0 to |line|
      invariant 0 <= start <= i
      invariant forall j :: start <= j < i ==> !IsSeparator(line[j])
      invariant chunks + Pieces(line[start..]) == Pieces(line)
    {
      if IsSeparator(line[i]) {
        PiecesCut(line, start, i);
        var part := Trim(line[start..i + 1]);
        if part != "" {
          chunks := chunks + [part];
        }
        start := i + 1;
      }
    }
    NoPieces();
    assert line[|line|..] == "";
    if start < |line| {
      PiecesEnd(line, start);
      var part := Trim(line[start..]);
      if part != "" {
        chunks := chunks + [part];
      }
    }
  }

  lemma FirstIs(s: string, k: nat)
    requires k < |s| && IsSeparator(s[k]) && forall j :: 0 <= j < k ==> !IsSeparator(s[j])
    ensures FirstSeparator(s) == k
  {
    hide IsSeparator;
  }

  /** splitStreamText: nothing but whitespace is lost and every chunk is good. */
  method SplitStreamText(text: string) returns (chunks: seq<string>)
    ensures chunks == Chunks(text)
    ensures Ink(Joined(chunks)) == Ink(text)
    ensures forall c :: c in chunks ==> GoodChunk(c)
  {
    hide Trim, Pieces, GoodChunk, Ink, Joined, LinePieces, Lines;
    ChunksConserve(text);
    ChunksGood(text);
    var t := Trim(text);
    if t == "" {
      return [];
    }
    var lines := SplitLines(t);
    chunks := [];
    NoLines();
    assert lines[0..] == lines;
    for i := 0 to |lines|
      invariant chunks + LinePieces(lines[i..]) == LinePieces(lines)
    {
      LinePiecesStep(lines, i);
      var line := Trim(lines[i]);
      if line == "" {
        NoPieces();
        continue;
      }
      var pieces := SplitLine(line);
      chunks := chunks + pieces;
    }
    assert lines[|lines|..] == [];
    if |chunks| == 0 {
      return [t];
    }
  }

  lemma LinePiecesStep(lines: seq<string>, i: nat)
    requires i < |lines|
    ensures LinePieces(lines[i..]) == Pieces(Trim(lines[i])) + LinePieces(lines[i + 1..])
  {
    hide Pieces, Trim;
    assert lines[i..][1..] == lines[i + 1..];
  }

  lemma NoLines()
    ensures LinePieces([]) == []
  {
  }

  lemma NoPieces()
    ensures Pieces("") == []
  {
  }
}
