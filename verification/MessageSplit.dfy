/** Splitting a long message into chunks, preferring line breaks, then spaces. */
module MessageSplit {
  import opened Text

  /** `s.rfind(c)`. */
  function RFind(s: string, c: char): (k: int)
    ensures -1 <= k < |s|
    ensures k >= 0 ==> s[k] == c
    ensures forall j :: k < j < |s| ==> s[j] != c
  {
    if s == "" then -1
    else if s[|s| - 1] == c then |s| - 1
    else RFind(s[..|s| - 1], c)
  }

  /** Where to cut a text longer than the limit. */
  function CutAt(content: string, maxLen: nat): int
    requires maxLen < |content|
  {
    var cut := content[..maxLen];
    var line := RFind(cut, '\n');
    if line > 0 then line
    else
      var space := RFind(cut, ' ');
      if space > 0 then space else maxLen
  }

  function Split(content: string, maxLen: nat): seq<string>
    requires maxLen >= 1
    decreases |content|
  {
    if content == "" then []
    else if |content| <= maxLen then [content]
    else
      var pos := CutAt(content, maxLen);
      LstripDropsSpace(content[pos..]);
      [content[..pos]] + Split(Lstrip(content[pos..]), maxLen)
  }

  method SplitMessage(content: string, maxLen: nat) returns (chunks: seq<string>)
    requires maxLen >= 1
    ensures chunks == Split(content, maxLen)
  {
    if content == "" { return []; }
    if |content| <= maxLen { return [content]; }
    chunks := [];
    var rest := content;
    while rest != ""
      invariant chunks + Split(rest, maxLen) == Split(content, maxLen)
      decreases |rest|
    {
      if |rest| <= maxLen {
        chunks := chunks + [rest];
        break;
      }
      var pos := FindCut(rest, maxLen);
      LstripDropsSpace(rest[pos..]);
      chunks := chunks + [rest[..pos]];
      rest := Lstrip(rest[pos..]);
    }
  }

  method FindCut(content: string, maxLen: nat) returns (pos: int)
    requires 1 <= maxLen < |content|
    ensures pos == CutAt(content, maxLen) && 1 <= pos <= maxLen
  {
    var cut := content[..maxLen];
    pos := RFind(cut, '\n');
    if pos <= 0 { pos := RFind(cut, ' '); }
    if pos <= 0 { pos := maxLen; }
  }

  /** The chunks with what was removed after each of them. */
  function Interleave(chunks: seq<string>, gaps: seq<string>): string
    requires |chunks| == |gaps|
  {
    if chunks == [] then "" else chunks[0] + gaps[0] + Interleave(chunks[1..], gaps[1..])
  }

  /** What the splitting removes after each chunk. */
  function Gaps(content: string, maxLen: nat): (gaps: seq<string>)
    requires maxLen >= 1
    ensures |gaps| == |Split(content, maxLen)|
    decreases |content|
  {
    if content == "" then []
    else if |content| <= maxLen then [""]
    else
      var rest := content[CutAt(content, maxLen)..];
      LstripDropsSpace(rest);
      [rest[..|rest| - |Lstrip(rest)|]] + Gaps(Lstrip(rest), maxLen)
  }

  lemma InterleaveCons(chunk: string, gap: string, chunks: seq<string>, gaps: seq<string>)
    requires |chunks| == |gaps|
    ensures Interleave([chunk] + chunks, [gap] + gaps) == chunk + gap + Interleave(chunks, gaps)
  {
    assert ([chunk] + chunks)[1..] == chunks && ([gap] + gaps)[1..] == gaps;
  }

  lemma Reassemble(content: string, pos: nat, gap: string, left: string)
    requires pos <= |content| && content[pos..] == gap + left
    ensures content[..pos] + gap + left == content
  {
    assert content == content[..pos] + content[pos..];
  }

  /** The content is the chunks in order with the gaps between them. */
  lemma {:induction false} ChunksCoverContent(content: string, maxLen: nat)
    requires maxLen >= 1
    ensures Interleave(Split(content, maxLen), Gaps(content, maxLen)) == content
    decreases |content|
  {
    if content != "" && |content| <= maxLen {
      InterleaveCons(content, "", [], []);
    } else if content != "" {
      var pos := CutAt(content, maxLen);
      var rest := content[pos..];
      LstripDropsSpace(rest);
      var left := Lstrip(rest);
      var chunk, gap := content[..pos], rest[..|rest| - |left|];
      ChunksCoverContent(left, maxLen);
      InterleaveCons(chunk, gap, Split(left, maxLen), Gaps(left, maxLen));
      assert Split(content, maxLen) == [chunk] + Split(left, maxLen);
      assert Gaps(content, maxLen) == [gap] + Gaps(left, maxLen);
      Reassemble(content, pos, gap, left);
    }
  }

  /** Only whitespace is removed. */
  lemma {:induction false} GapsAreSpace(content: string, maxLen: nat)
    requires maxLen >= 1
    ensures forall i :: 0 <= i < |Gaps(content, maxLen)| ==> AllSpace(Gaps(content, maxLen)[i])
    decreases |content|
  {
    if content != "" && |content| > maxLen {
      var rest := content[CutAt(content, maxLen)..];
      LstripDropsSpace(rest);
      var gap := rest[..|rest| - |Lstrip(rest)|];
      GapsAreSpace(Lstrip(rest), maxLen);
      assert Gaps(content, maxLen) == [gap] + Gaps(Lstrip(rest), maxLen);
    }
  }

  /** Every chunk is non-empty and within the limit. */
  lemma {:induction false} ChunksFit(content: string, maxLen: nat)
    requires maxLen >= 1
    ensures forall i :: 0 <= i < |Split(content, maxLen)| ==> 1 <= |Split(content, maxLen)[i]| <= maxLen
    decreases |content|
  {
    if content != "" && |content| > maxLen {
      var rest := content[CutAt(content, maxLen)..];
      LstripDropsSpace(rest);
      ChunksFit(Lstrip(rest), maxLen);
    }
  }

  /** A cut is at the last newline of the window past its start; without one, at the last such
      space; without either, at the limit. */
  lemma CutPrefersBreaks(content: string, maxLen: nat)
    requires 1 <= maxLen < |content|
    ensures var pos := CutAt(content, maxLen);
      && 1 <= pos <= maxLen
      && (forall j :: pos < j < maxLen && content[pos] == '\n' && pos < maxLen ==> content[j] != '\n')
      && ((exists j :: 1 <= j < maxLen && content[j] == '\n') <==> pos < maxLen && content[pos] == '\n')
      && (!(exists j :: 1 <= j < maxLen && content[j] == '\n') ==>
            && ((exists j :: 1 <= j < maxLen && content[j] == ' ') <==> pos < maxLen)
            && (pos < maxLen ==> content[pos] == ' ' && forall j :: pos < j < maxLen ==> content[j] != ' '))
  {
    var cut := content[..maxLen];
    assert forall j :: 0 <= j < maxLen ==> cut[j] == content[j];
  }
}
