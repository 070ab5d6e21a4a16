/** Interactive prompts on standard input: a single line or a block between triple
    quotes, a query up to its ';', and a PEM block from its BEGIN line to its END
    line (RFC 7468 section 2). The input is the sequence of lines the reader
    returns, each with its newline; a read error is ignored by the prompts, so the
    input must hold the line that ends the block. */
module Prompt {
  import opened Base

  const TripleQuote := "\"\"\""
  const PemStart := "-----BEGIN "
  const PemEnd := "-----END "

  /** The trimmed lines. */
  function Trims(lines: seq<string>): (r: seq<string>)
    ensures |r| == |lines|
    decreases |lines|
  {
    if |lines| == 0 then [] else Trims(lines[..|lines| - 1]) + [TrimSpace(lines[|lines| - 1])]
  }

  /** Each trimmed line is its line trimmed. */
  lemma {:induction false} TrimsAt(lines: seq<string>, i: nat)
    requires i < |lines|
    ensures Trims(lines)[i] == TrimSpace(lines[i])
    decreases |lines|
  {
    var n := |lines| - 1;
    if i < n {
      TrimsAt(lines[..n], i);
    }
  }

  /** The first trimmed line that ends with the terminator, or the number of lines
      when there is none. */
  function FirstClosing(ts: seq<string>, terminator: string): (c: nat)
    ensures c <= |ts|
    ensures c < |ts| ==> HasSuffix(ts[c], terminator)
    ensures forall k :: 0 <= k < c ==> !HasSuffix(ts[k], terminator)
    decreases |ts|
  {
    if |ts| == 0 then 0
    else if HasSuffix(ts[0], terminator) then 0
    else 1 + FirstClosing(ts[1..], terminator)
  }

  /** Some trimmed line ends with the terminator. */
  predicate HasClosing(ts: seq<string>, terminator: string) {
    FirstClosing(ts, terminator) < |ts|
  }

  /** One write to the builder: a newline first once it is not empty, then the
      text. */
  function Write(out: string, text: string): string {
    (if |out| > 0 then out + "\n" else out) + text
  }

  /** The builder after some trimmed lines, each written in turn. */
  function Block(ts: seq<string>): string
    decreases |ts|
  {
    if |ts| == 0 then "" else Write(Block(ts[..|ts| - 1]), ts[|ts| - 1])
  }

  /** The block's text: the trimmed lines before the closing one, then the closing
      line without its terminator. */
  function BlockText(ts: seq<string>, terminator: string): string
    requires HasClosing(ts, terminator)
  {
    var c := FirstClosing(ts, terminator);
    Write(Block(ts[..c]), ts[c][..|ts[c]| - |terminator|])
  }

  /** Once the first line is not blank, the block is the lines joined by newlines. */
  lemma {:induction false} BlockIsJoin(ts: seq<string>)
    requires |ts| > 0 && ts[0] != ""
    ensures Block(ts) == Join(ts, "\n")
    ensures |Block(ts)| >= |ts[0]|
    decreases |ts|
  {
    var n := |ts| - 1;
    if n == 0 {
      assert ts[..n] == [];
    } else {
      BlockIsJoin(ts[..n]);
      assert ts[..n] + [ts[n]] == ts;
      JoinSnoc(ts[..n], ts[n], "\n");
    }
  }

  /** Blank lines at the head of the block leave no trace: the newline is written
      only once the builder holds something. */
  lemma {:induction false} BlockSkipsLeadingBlank(ts: seq<string>)
    ensures Block([""] + ts) == Block(ts)
    decreases |ts|
  {
    if |ts| == 0 {
      assert ([""] + ts)[..0] == [];
    } else {
      var n := |ts| - 1;
      BlockSkipsLeadingBlank(ts[..n]);
      assert ([""] + ts)[..n + 1] == [""] + ts[..n];
    }
  }

  /** The loop shared by the triple-quote block and the query: it reads lines until
      one, trimmed, ends with the terminator. */
  method ReadBlock(lines: seq<string>, terminator: string) returns (text: string)
    requires HasClosing(Trims(lines), terminator)
    ensures text == BlockText(Trims(lines), terminator)
  {
    ghost var ts := Trims(lines);
    ghost var c := FirstClosing(ts, terminator);
    var out := "";
    var i := 0;
    while true
      invariant 0 <= i <= c < |ts| == |lines|
      invariant out == Block(ts[..i])
      decreases c - i
    {
      var line := TrimSpace(lines[i]);
      TrimsAt(lines, i);
      assert line == ts[i];
      if HasSuffix(line, terminator) {
        assert i == c;
        return Write(out, line[..|line| - |terminator|]);
      }
      BlockStep(ts, i);
      out := Write(out, line);
      i := i + 1;
    }
  }

  /** One more trimmed line written to the builder. */
  lemma BlockStep(ts: seq<string>, i: nat)
    requires i < |ts|
    ensures Block(ts[..i + 1]) == Write(Block(ts[..i]), ts[i])
  {
    assert ts[..i + 1][..i] == ts[..i];
  }

  /** The input a triple-quote prompt needs: a first line, and after a `"""`
      opener a line ending with `"""`. */
  predicate PromptInput(lines: seq<string>) {
    |lines| > 0 && (TrimSpace(lines[0]) == TripleQuote ==> HasClosing(Trims(lines[1..]), TripleQuote))
  }

  /** A prompt's answer: the trimmed first line, or, after a first line that is
      `"""`, the block up to the line ending with `"""`, whose text before the
      quotes is kept. */
  method Prompt(lines: seq<string>) returns (text: string)
    requires PromptInput(lines)
    ensures TrimSpace(lines[0]) != TripleQuote ==> text == TrimSpace(lines[0])
    ensures TrimSpace(lines[0]) == TripleQuote ==> text == BlockText(Trims(lines[1..]), TripleQuote)
  {
    text := TrimSpace(lines[0]);
    if text == TripleQuote {
      text := ReadBlock(lines[1..], TripleQuote);
    }
  }

  /** A query: the lines up to the first one ending with ';', trimmed and joined,
      without the ';'. */
  method PromptQuery(lines: seq<string>) returns (text: string)
    requires HasClosing(Trims(lines), ";")
    ensures text == BlockText(Trims(lines), ";")
  {
    text := ReadBlock(lines, ";");
  }

  /** A single-line block: `text"""` gives `text`. */
  lemma PromptOneLine(text: string)
    ensures HasClosing([text + TripleQuote], TripleQuote)
    ensures BlockText([text + TripleQuote], TripleQuote) == text
  {
    var ts := [text + TripleQuote];
    assert HasSuffix(ts[0], TripleQuote);
    assert FirstClosing(ts, TripleQuote) == 0;
    assert ts[..0] == [];
  }

  /** A block whose lines are not blank, closed by a bare terminator line, is the
      lines joined by newlines followed by one more newline. */
  lemma BlockTextOfLines(ts: seq<string>, terminator: string)
    requires |ts| > 0 && ts[0] != "" && |terminator| > 0
    requires forall k :: 0 <= k < |ts| ==> !HasSuffix(ts[k], terminator)
    ensures HasClosing(ts + [terminator], terminator)
    ensures BlockText(ts + [terminator], terminator) == Join(ts, "\n") + "\n"
  {
    var all := ts + [terminator];
    assert HasSuffix(all[|ts|], terminator);
    var c := FirstClosing(all, terminator);
    assert all[..c] == ts;
    BlockIsJoin(ts);
  }

  // ---------------------------------------------------------------------------
  // PEM

  /** The first line that starts with the END boundary. */
  function FirstEnd(lines: seq<string>): (e: nat)
    requires exists k :: 0 <= k < |lines| && HasPrefix(lines[k], PemEnd)
    ensures e < |lines| && HasPrefix(lines[e], PemEnd)
    ensures forall k :: 0 <= k < e ==> !HasPrefix(lines[k], PemEnd)
    decreases |lines|
  {
    if HasPrefix(lines[0], PemEnd) then 0
    else
      assert exists k :: 0 <= k < |lines[1..]| && HasPrefix(lines[1..][k], PemEnd) by {
        var k :| 0 <= k < |lines| && HasPrefix(lines[k], PemEnd);
        assert lines[1..][k - 1] == lines[k];
      }
      1 + FirstEnd(lines[1..])
  }

  /** The input a PEM prompt needs: a first line, and after a BEGIN line a line
      with the END boundary. */
  predicate PemInput(lines: seq<string>) {
    |lines| > 0
    && (HasPrefix(lines[0], PemStart) ==> exists k :: 0 <= k < |lines| && HasPrefix(lines[k], PemEnd))
  }

  /** A PEM block: a first line that does not start with the BEGIN boundary is
      returned with an error; otherwise the lines up to and including the first
      END line, untrimmed and each with its own newline, joined by one more
      newline. */
  method PromptPem(lines: seq<string>) returns (text: string, err: Option<string>)
    requires PemInput(lines)
    ensures !HasPrefix(lines[0], PemStart) ==>
              text == lines[0] && err == Some("pem must start from '" + PemStart + "'")
    ensures HasPrefix(lines[0], PemStart) ==>
              err.None? && text == Join(lines[..FirstEnd(lines) + 1], "\n")
  {
    if !HasPrefix(lines[0], PemStart) {
      return lines[0], Some("pem must start from '" + PemStart + "'");
    }
    ghost var e := FirstEnd(lines);
    var out := "";
    var i := 0;
    while true
      invariant 0 <= i <= e
      invariant i > 0 ==> out == Join(lines[..i], "\n")
      invariant i == 0 ==> out == ""
      decreases e - i
    {
      var line := lines[i];
      if i > 0 {
        assert lines[..i + 1] == lines[..i] + [line];
        JoinSnoc(lines[..i], line, "\n");
        out := out + "\n";
      } else {
        assert lines[..1] == [line];
      }
      out := out + line;
      if HasPrefix(line, PemEnd) {
        assert i == e;
        return out, None;
      }
      i := i + 1;
    }
  }

  /** A BEGIN line does not also carry the END boundary. */
  lemma BeginIsNotEnd(line: string)
    requires HasPrefix(line, PemStart)
    ensures !HasPrefix(line, PemEnd)
  {
    assert line[..|PemStart|][5] == 'B';
  }

  /** The PEM text starts with the BEGIN line and ends with the END line; the END
      line comes after the first line. */
  lemma PemBlockShape(lines: seq<string>)
    requires PemInput(lines) && HasPrefix(lines[0], PemStart)
    ensures var e := FirstEnd(lines);
            e >= 1 && HasPrefix(Join(lines[..e + 1], "\n"), lines[0])
            && HasSuffix(Join(lines[..e + 1], "\n"), lines[e])
  {
    BeginIsNotEnd(lines[0]);
    var e := FirstEnd(lines);
    JoinEnds(lines[..e + 1]);
  }

  /** A join of pieces starts with the first and ends with the last. */
  lemma {:induction false} JoinEnds(parts: seq<string>)
    requires |parts| > 0
    ensures HasPrefix(Join(parts, "\n"), parts[0])
    ensures HasSuffix(Join(parts, "\n"), parts[|parts| - 1])
    decreases |parts|
  {
    if |parts| > 1 {
      JoinEnds(parts[1..]);
      var rest := Join(parts[1..], "\n");
      assert Join(parts, "\n") == parts[0] + "\n" + rest;
      assert (parts[0] + "\n" + rest)[..|parts[0]|] == parts[0];
      assert (parts[0] + "\n" + rest)[|parts[0] + "\n" + rest| - |parts[|parts| - 1]|..]
             == rest[|rest| - |parts[|parts| - 1]|..];
    }
  }
}
