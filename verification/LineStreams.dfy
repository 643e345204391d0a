/**
 The incremental line splitter of execution-plane/llm-router/src/index.ts.

 Chunks are taken as already decoded text.  `Lines` is the reference: it sees the whole text at
 once, splits it on newline, trims every piece and drops the empty ones.
 */
module LineStreams {
  import opened Options

  /** What the reader delivers: some chunks, then the end of the stream or an error. */
  datatype Body = Body(chunks: seq<string>, fails: bool)

  /** The white space and line terminators that `String.prototype.trim` removes. */
  predicate IsSpace(c: char) {
    '\t' <= c <= '\r' || c == ' ' || c == '\U{a0}' || c == '\U{1680}' || '\U{2000}' <= c <= '\U{200a}' ||
    c == '\U{2028}' || c == '\U{2029}' || c == '\U{202f}' || c == '\U{205f}' || c == '\U{3000}' || c == '\U{feff}'
  }

  function TrimStart(s: string): string {
    if s != "" && IsSpace(s[0]) then TrimStart(s[1..]) else s
  }

  function TrimEnd(s: string): string {
    if s != "" && IsSpace(s[|s| - 1]) then TrimEnd(s[..|s| - 1]) else s
  }

  function Trim(s: string): string {
    TrimEnd(TrimStart(s))
  }

  /** `indexOf("\n")`, with the length of the text for "not found". */
  function IndexOfNewline(s: string): (k: nat)
    ensures k <= |s| && '\n' !in s[..k]
    ensures k < |s| ==> s[k] == '\n'
  {
    if s == "" || s[0] == '\n' then 0
    else
      var k := 1 + IndexOfNewline(s[1..]);
      assert s[..k] == [s[0]] + s[1..][..k - 1];
      k
  }

  function Concat(chunks: seq<string>): string {
    if chunks == [] then "" else Concat(chunks[..|chunks| - 1]) + chunks[|chunks| - 1]
  }

  // ----- The reference -----

  /** `text.split("\n")` */
  function Pieces(text: string): (ps: seq<string>)
    ensures ps != []
  {
    var k := IndexOfNewline(text);
    if k == |text| then [text] else [text[..k]] + Pieces(text[k + 1..])
  }

  /** The trimmed pieces that are not empty, in order. */
  function Clean(ps: seq<string>): seq<string> {
    if ps == [] then []
    else if Trim(ps[0]) == "" then Clean(ps[1..])
    else [Trim(ps[0])] + Clean(ps[1..])
  }

  function Lines(text: string): seq<string> {
    Clean(Pieces(text))
  }

  function Join(ps: seq<string>): string
    requires ps != []
  {
    if |ps| == 1 then ps[0] else ps[0] + "\n" + Join(ps[1..])
  }

  /** `Pieces` is the split on newline: joining restores the text, and no piece contains a newline. */
  lemma {:induction false} PiecesAreTheSplit(text: string)
    ensures Join(Pieces(text)) == text
    ensures forall i :: 0 <= i < |Pieces(text)| ==> '\n' !in Pieces(text)[i]
  {
    var k := IndexOfNewline(text);
    if k == |text| {
      assert text[..k] == text;
    } else {
      var rest := Pieces(text[k + 1..]);
      PiecesAreTheSplit(text[k + 1..]);
      assert ([text[..k]] + rest)[1..] == rest;
      assert text == text[..k] + "\n" + text[k + 1..];
    }
  }

  /** `t` is the text of `s` between two runs of white space, and neither begins nor ends with any. */
  predicate Trimmed(s: string, t: string) {
    && (exists i, j :: 0 <= i <= j <= |s| && t == s[i..j] && AllSpace(s, 0, i) && AllSpace(s, j, |s|))
    && (t != "" ==> !IsSpace(t[0]) && !IsSpace(t[|t| - 1]))
  }

  predicate AllSpace(s: string, from: nat, to: nat)
    requires from <= to <= |s|
  {
    forall k :: from <= k < to ==> IsSpace(s[k])
  }

  lemma {:induction false} TrimStartDrops(s: string) returns (i: nat)
    ensures i <= |s| && TrimStart(s) == s[i..] && AllSpace(s, 0, i)
    ensures TrimStart(s) != "" ==> !IsSpace(TrimStart(s)[0])
  {
    hide IsSpace;
    if s != "" && IsSpace(s[0]) {
      var rest := TrimStartDrops(s[1..]);
      i := rest + 1;
      assert s[1..][rest..] == s[i..];
      forall k | 0 <= k < i ensures IsSpace(s[k]) {
        assert k > 0 ==> s[k] == s[1..][k - 1];
      }
    } else {
      i := 0;
    }
  }

  lemma {:induction false} TrimEndDrops(s: string) returns (j: nat)
    ensures j <= |s| && TrimEnd(s) == s[..j] && AllSpace(s, j, |s|)
    ensures TrimEnd(s) != "" ==> !IsSpace(TrimEnd(s)[|TrimEnd(s)| - 1])
  {
    hide IsSpace;
    var n := |s|;
    if s != "" && IsSpace(s[n - 1]) {
      j := TrimEndDrops(s[..n - 1]);
      assert s[..n - 1][..j] == s[..j];
      forall k | j <= k < n ensures IsSpace(s[k]) {
        assert k < n - 1 ==> s[k] == s[..n - 1][k];
      }
    } else {
      j := n;
    }
  }

  lemma {:induction false} TrimIsTrimmed(s: string)
    ensures Trimmed(s, Trim(s))
  {
    hide TrimStart, TrimEnd, IsSpace;
    var u := TrimStart(s);
    var i := TrimStartDrops(s);
    var j := TrimEndDrops(u);
    assert u[..j] == s[i..i + j];
    assert AllSpace(s, i + j, |s|) by {
      forall k | i + j <= k < |s| ensures IsSpace(s[k]) {
        assert s[k] == u[k - i];
      }
    }
  }

  /** The white space and line terminators of ECMAScript, by their code points. */
  lemma SpacesAre(c: char)
    ensures IsSpace(c) <==>
      c as int in {0x9, 0xa, 0xb, 0xc, 0xd, 0x20, 0xa0, 0x1680, 0x2000, 0x2001, 0x2002, 0x2003, 0x2004, 0x2005, 0x2006,
                   0x2007, 0x2008, 0x2009, 0x200a, 0x2028, 0x2029, 0x202f, 0x205f, 0x3000, 0xfeff}
  {
  }

  /** Whatever else it holds, a piece gives a line exactly if something in it is not white space. */
  lemma {:induction false} LineIff(piece: string)
    ensures Clean([piece]) == if AllSpace(piece, 0, |piece|) then [] else [Trim(piece)]
  {
    hide IsSpace;
    var t := Trim(piece);
    TrimIsTrimmed(piece);
    var i, j :| 0 <= i <= j <= |piece| && t == piece[i..j] && AllSpace(piece, 0, i) && AllSpace(piece, j, |piece|);
    if t != "" {
      assert t[0] == piece[i];
    }
    assert Clean([piece]) == if t == "" then [] else [t];
  }

  // ----- Carriage returns -----

  /** The text with a carriage return before every newline. */
  function WithReturns(text: string): string {
    if text == "" then "" else (if text[0] == '\n' then "\r" else "") + [text[0]] + WithReturns(text[1..])
  }

  lemma {:induction false} TrimStartPush(s: string, c: char)
    requires IsSpace(c)
    ensures TrimStart(s + [c]) == if TrimStart(s) == "" then "" else TrimStart(s) + [c]
  {
    hide IsSpace;
    if s == "" {
      assert TrimStart([c]) == TrimStart([c][1..]) == "";
    } else if IsSpace(s[0]) {
      assert (s + [c])[1..] == s[1..] + [c];
      TrimStartPush(s[1..], c);
    }
  }

  lemma TrimPush(s: string, c: char)
    requires IsSpace(c)
    ensures Trim(s + [c]) == Trim(s)
  {
    hide IsSpace, TrimStart;
    TrimStartPush(s, c);
    var u := TrimStart(s);
    assert (u + [c])[..|u|] == u;
  }

  lemma CleanPieceWithReturn(piece: string)
    ensures Clean([piece + "\r"]) == Clean([piece])
  {
    hide Trim;
    TrimPush(piece, '\r');
    assert [piece + "\r"][1..] == [] && [piece][1..] == [];
  }

  lemma {:induction false} ReturnsAt(text: string, k: nat)
    requires k <= |text| && '\n' !in text[..k] && (k < |text| ==> text[k] == '\n')
    ensures WithReturns(text) == text[..k] + if k < |text| then "\r\n" + WithReturns(text[k + 1..]) else ""
  {
    if k > 0 {
      assert text[0] == text[..k][0];
      assert text[..k] == [text[0]] + text[1..][..k - 1];
      ReturnsAt(text[1..], k - 1);
    }
  }

  /** It makes no difference to the lines whether the stream ends them with a newline or with a carriage return and a newline. */
  lemma {:induction false} ReturnsMakeNoDifference(text: string)
    ensures Lines(WithReturns(text)) == Lines(text)
    decreases |text|
  {
    var k := IndexOfNewline(text);
    ReturnsAt(text, k);
    if k == |text| {
      assert WithReturns(text) == text;
    } else {
      var crlf, rest := WithReturns(text), text[k + 1..];
      var piece := text[..k] + "\r";
      assert crlf[..k + 1] == piece && crlf[k + 1] == '\n' && crlf[k + 2..] == WithReturns(rest);
      hide WithReturns, Clean, IndexOfNewline;
      FirstNewline(crlf, k + 1);
      LinesStep(crlf, k + 1);
      LinesStep(text, k);
      CleanPieceWithReturn(text[..k]);
      ReturnsMakeNoDifference(rest);
    }
  }

  lemma LinesStep(text: string, k: nat)
    requires k == IndexOfNewline(text) < |text|
    ensures Lines(text) == Clean([text[..k]]) + Lines(text[k + 1..])
  {
    hide Clean, IndexOfNewline;
    CleanPush([text[..k]], Pieces(text[k + 1..]));
  }

  // ----- The incremental splitter -----

  /** The lines that end in a newline. */
  function Completed(text: string): seq<string> {
    var k := IndexOfNewline(text);
    if k == |text| then [] else Clean([text[..k]]) + Completed(text[k + 1..])
  }

  /** What follows the last newline. */
  function Rest(text: string): string {
    var k := IndexOfNewline(text);
    if k == |text| then text else Rest(text[k + 1..])
  }

  lemma {:induction false} CleanPush(ps: seq<string>, qs: seq<string>)
    ensures Clean(ps + qs) == Clean(ps) + Clean(qs)
  {
    if ps == [] {
      assert ps + qs == qs;
    } else {
      assert (ps + qs)[1..] == ps[1..] + qs;
      CleanPush(ps[1..], qs);
    }
  }

  lemma {:induction false} LinesAreCompletedAndRest(text: string)
    ensures Lines(text) == Completed(text) + Clean([Rest(text)])
  {
    var k := IndexOfNewline(text);
    if k < |text| {
      LinesAreCompletedAndRest(text[k + 1..]);
      CleanPush([text[..k]], Pieces(text[k + 1..]));
    }
  }

  lemma {:induction false} FirstNewline(s: string, k: nat)
    requires k < |s| && s[k] == '\n' && '\n' !in s[..k]
    ensures IndexOfNewline(s) == k
  {
    if k > 0 {
      assert s[..k] == [s[0]] + s[1..][..k - 1];
      FirstNewline(s[1..], k - 1);
    }
  }

  lemma NewlineStays(a: string, b: string)
    requires IndexOfNewline(a) < |a|
    ensures IndexOfNewline(a + b) == IndexOfNewline(a)
  {
    var k := IndexOfNewline(a);
    assert (a + b)[..k] == a[..k] && (a + b)[k] == '\n';
    FirstNewline(a + b, k);
  }

  lemma CompletedStep(text: string, k: nat)
    requires k == IndexOfNewline(text) < |text|
    ensures Completed(text) == Clean([text[..k]]) + Completed(text[k + 1..]) && Rest(text) == Rest(text[k + 1..])
  {
  }

  /** Splitting may stop after `a` and go on with what was left over. */
  lemma {:induction false} SplitResumes(a: string, b: string)
    ensures Completed(a + b) == Completed(a) + Completed(Rest(a) + b)
    ensures Rest(a + b) == Rest(Rest(a) + b)
    decreases |a|
  {
    var k := IndexOfNewline(a);
    if k < |a| {
      hide Completed, Rest, Clean, IndexOfNewline;
      var tail := a[k + 1..];
      NewlineStays(a, b);
      assert (a + b)[..k] == a[..k];
      assert (a + b)[k + 1..] == tail + b;
      CompletedStep(a, k);
      CompletedStep(a + b, k);
      SplitResumes(tail, b);
    }
  }

  lemma ConcatPush(chunks: seq<string>, i: nat)
    requires i < |chunks|
    ensures Concat(chunks[..i + 1]) == Concat(chunks[..i]) + chunks[i]
  {
    assert chunks[..i + 1][..i] == chunks[..i];
  }

  /** The text up to and including its last newline. */
  function Done(text: string): string {
    var k := IndexOfNewline(text);
    if k == |text| then "" else text[..k + 1] + Done(text[k + 1..])
  }

  lemma DoneStep(text: string, k: nat)
    requires k == IndexOfNewline(text) < |text|
    ensures Done(text) == text[..k + 1] + Done(text[k + 1..])
  {
    hide IndexOfNewline, Rest;
  }

  lemma LineSplitsOff(text: string, k: nat)
    requires k < |text| && text[k] == '\n'
    ensures text == text[..k + 1] + text[k + 1..] && text[..k + 1][k] == '\n'
  {
  }

  lemma NothingDone(text: string)
    requires IndexOfNewline(text) == |text|
    ensures Done(text) == "" && Rest(text) == text && '\n' !in text
  {
    assert text[..|text|] == text;
  }

  lemma {:induction false} DoneAndRest(text: string)
    ensures text == Done(text) + Rest(text) && '\n' !in Rest(text)
    ensures Done(text) == "" || Done(text)[|Done(text)| - 1] == '\n'
    decreases |text|
  {
    hide Done, Rest, IndexOfNewline;
    var k := IndexOfNewline(text);
    if k == |text| {
      NothingDone(text);
    } else {
      DoneStep(text, k);
      CompletedStep(text, k);
      LineSplitsOff(text, k);
      DoneAndRest(text[k + 1..]);
      var line, tail, rest := text[..k + 1], Done(text[k + 1..]), Rest(text);
      assert line + (tail + rest) == (line + tail) + rest;
      assert tail == "" ==> line + tail == line;
    }
  }

  /** The completed lines are those of the text up to and including its last newline. */
  lemma {:induction false} CompletedIsUpToLastNewline(text: string)
    ensures Completed(text) == Lines(Done(text))
    decreases |text|
  {
    var k := IndexOfNewline(text);
    if k == |text| {
      LinesOfNothing();
    } else {
      var done := Done(text);
      var rest := Done(text[k + 1..]);
      assert done == text[..k + 1] + rest;
      hide Completed, Lines, Done, IndexOfNewline, Clean;
      CompletedIsUpToLastNewline(text[k + 1..]);
      CompletedStep(text, k);
      assert done[..k] == text[..k] && done[k] == '\n' && done[k + 1..] == rest;
      FirstNewline(done, k);
      LinesStep(done, k);
    }
  }

  lemma LinesOfNothing()
    ensures Lines("") == []
  {
  }

  /** What has been yielded after some of the chunks is a prefix of what the whole text yields. */
  lemma {:induction false} YieldsArePrefixes(chunks: seq<string>, i: nat)
    requires i <= |chunks|
    ensures Completed(Concat(chunks[..i])) <= Lines(Concat(chunks))
    decreases |chunks| - i
  {
    hide Completed, Rest, Lines, Concat, Clean;
    if i == |chunks| {
      assert chunks[..i] == chunks;
      LinesAreCompletedAndRest(Concat(chunks));
    } else {
      ConcatPush(chunks, i);
      SplitResumes(Concat(chunks[..i]), chunks[i]);
      YieldsArePrefixes(chunks, i + 1);
    }
  }

  lemma NothingYet()
    ensures Concat([]) == "" && Completed("") == [] && Rest("") == ""
  {
  }

  lemma {:induction false} TakeLine(buffer: string)
    requires IndexOfNewline(buffer) < |buffer|
    ensures var k := IndexOfNewline(buffer);
      && Completed(buffer) == (if Trim(buffer[..k]) == "" then [] else [Trim(buffer[..k])]) + Completed(buffer[k + 1..])
      && Rest(buffer) == Rest(buffer[k + 1..])
  {
    var k := IndexOfNewline(buffer);
    assert Clean([buffer[..k]]) == if Trim(buffer[..k]) == "" then [] else [Trim(buffer[..k])];
  }

  lemma NoLineLeft(buffer: string)
    requires IndexOfNewline(buffer) == |buffer|
    ensures Completed(buffer) == [] && Rest(buffer) == buffer
  {
  }

  /**
   The yielded lines depend only on the concatenated text, not on the chunk boundaries: they are
   the reference split of the whole text, or of its completed lines when the reader fails.
   */
  method StreamLines(body: Option<Body>) returns (lines: seq<string>, threw: bool)
    ensures body.None? ==> lines == [] && !threw
    ensures body.Some? ==> threw == body.value.fails
    ensures body.Some? && !threw ==> lines == Lines(Concat(body.value.chunks))
    ensures body.Some? && threw ==> lines == Completed(Concat(body.value.chunks))
  {
    hide Trim, Lines, Concat, Completed, Rest, IndexOfNewline;
    lines := [];
    if body.None? {
      return [], false;
    }
    var chunks := body.value.chunks;
    var buffer := "";
    NothingYet();
    for i := 0 to |chunks|
      invariant lines == Completed(Concat(chunks[..i]))
      invariant buffer == Rest(Concat(chunks[..i]))
    {
      ConcatPush(chunks, i);
      SplitResumes(Concat(chunks[..i]), chunks[i]);
      buffer := buffer + chunks[i];
      var idx := IndexOfNewline(buffer);
      while idx < |buffer|
        invariant idx == IndexOfNewline(buffer)
        invariant lines + Completed(buffer) == Completed(Concat(chunks[..i + 1]))
        invariant Rest(buffer) == Rest(Concat(chunks[..i + 1]))
        decreases |buffer|
      {
        var line := Trim(buffer[..idx]);
        TakeLine(buffer);
        buffer := buffer[idx + 1..];
        if line != "" {
          lines := lines + [line];
        }
        idx := IndexOfNewline(buffer);
      }
      NoLineLeft(buffer);
    }
    assert chunks[..|chunks|] == chunks;
    if body.value.fails {
      return lines, true;
    }
    LinesAreCompletedAndRest(Concat(chunks));
    var remainder := Trim(buffer);
    assert Clean([Rest(Concat(chunks))]) == if remainder == "" then [] else [remainder];
    if remainder != "" {
      lines := lines + [remainder];
    }
    return lines, false;
  }
}
