/** SEARCH/REPLACE edit blocks: parsing and applying (apps/agents/src/coach.ts). */
module EditBlocks {
  import opened Common

  datatype EditBlock = EditBlock(path: string, search: string, replace: string)

  /** The opening marker, the separator and the end mark of a block. */
  datatype Marks = Marks(open: string, separator: string, close: string)

  const Aider := Marks("\n<<<<<<< SEARCH\n", "\n=======\n", "\n>>>>>>> REPLACE")

  /** All the parser needs of its markers: the first ends a line, and the last does not. */
  predicate GoodMarks(k: Marks) {
    k.open != "" && Terminator(k.open[0]) && k.separator != "" && k.close != "" && !Terminator(k.close[|k.close| - 1])
  }

  // ── Substring search ─────────────────────────────────────────────────────────

  predicate OccursAt(s: string, w: string, i: nat) {
    i + |w| <= |s| && s[i..i + |w|] == w
  }

  /** `indexOf`: the first occurrence. */
  function IndexOf(s: string, w: string): (at: Option<nat>)
    ensures at.Some? ==> OccursAt(s, w, at.value) && forall i :: 0 <= i < at.value ==> !OccursAt(s, w, i)
    ensures at.None? ==> forall i :: 0 <= i <= |s| ==> !OccursAt(s, w, i)
  {
    Scan(s, w, 0)
  }

  function Scan(s: string, w: string, from: nat): (at: Option<nat>)
    requires forall i :: 0 <= i < from ==> !OccursAt(s, w, i)
    requires from <= |s| + 1
    ensures at.Some? ==> OccursAt(s, w, at.value) && forall i :: 0 <= i < at.value ==> !OccursAt(s, w, i)
    ensures at.None? ==> forall i :: 0 <= i <= |s| ==> !OccursAt(s, w, i)
    decreases |s| + 1 - from
  {
    if from > |s| then None else if OccursAt(s, w, from) then Some(from) else Scan(s, w, from + 1)
  }

  lemma FirstOccurrence(s: string, w: string, i: nat)
    requires OccursAt(s, w, i) && forall j :: 0 <= j < i ==> !OccursAt(s, w, j)
    ensures IndexOf(s, w) == Some(i)
  {
    assert IndexOf(s, w).Some?;
  }

  // ── Parsing ──────────────────────────────────────────────────────────────────

  /** What `.` does not match and after which a multiline `^` does. */
  predicate Terminator(c: char) {
    c == '\n' || c == '\r' || c as int == 0x2028 || c as int == 0x2029
  }

  /** Length of the longest prefix without a line terminator. */
  function LineLength(s: string): (n: nat)
    ensures n <= |s|
  {
    if s == [] || Terminator(s[0]) then 0 else 1 + LineLength(s[1..])
  }

  datatype Match = Match(block: EditBlock, length: nat)

  /** The two bodies after the opening marker: up to the first separator, then up to the first end mark. */
  function Bodies(k: Marks, s: string): (r: Option<(string, string)>)
    ensures r.Some? ==> |r.value.0| + |k.separator| + |r.value.1| + |k.close| <= |s|
  {
    var sep := IndexOf(s, k.separator);
    if sep.None? then None
    else
      var tail := s[sep.value + |k.separator|..];
      var end := IndexOf(tail, k.close);
      if end.None? then None else Some((s[..sep.value], tail[..end.value]))
  }

  /** The block expression on one line and what follows it: the opening marker, then the bodies. */
  function MatchLine(k: Marks, line: string, rest: string): (m: Option<Match>)
    ensures m.Some? ==> 0 < m.value.length <= |line| + |rest|
  {
    if line == "" || !(k.open <= rest) then None
    else
      var bodies := Bodies(k, rest[|k.open|..]);
      if bodies.None? then None
      else Some(Match(EditBlock(Trim(line), bodies.value.0, bodies.value.1),
                      |line| + |k.open| + |bodies.value.0| + |k.separator| + |bodies.value.1| + |k.close|))
  }

  function MatchSuffix(k: Marks, s: string): (m: Option<Match>)
    ensures m.Some? ==> 0 < m.value.length <= |s|
  {
    MatchLine(k, s[..LineLength(s)], s[LineLength(s)..])
  }

  /** A match of the multiline expression at position `p`: only where a line starts, and with the whole line. */
  function MatchAt(k: Marks, raw: string, p: nat): (m: Option<Match>)
    requires p <= |raw|
    ensures m.Some? ==> 0 < m.value.length <= |raw| - p
  {
    if p == 0 || Terminator(raw[p - 1]) then MatchSuffix(k, raw[p..]) else None
  }

  type Matcher = (string, nat) -> Option<Match>

  ghost predicate Proper(f: Matcher) {
    forall raw: string, p: nat :: p <= |raw| && f(raw, p).Some? ==> 0 < f(raw, p).value.length <= |raw| - p
  }

  function BlockMatcher(k: Marks): (f: Matcher)
    ensures Proper(f)
  {
    (raw: string, p: nat) => if p <= |raw| then MatchAt(k, raw, p) else None
  }

  /** The blocks a global expression finds from position `p` on: leftmost first, each search from the last end. */
  ghost function FindAll(f: Matcher, raw: string, p: nat): seq<EditBlock>
    requires Proper(f) && p <= |raw|
    decreases |raw| - p
  {
    var m := f(raw, p);
    if m.Some? then [m.value.block] + FindAll(f, raw, p + m.value.length)
    else if p == |raw| then [] else FindAll(f, raw, p + 1)
  }

  /** `exec` from `lastIndex`: the leftmost match at or after it. */
  method Exec(f: Matcher, raw: string, lastIndex: nat) returns (m: Option<Match>, at: nat)
    requires Proper(f) && lastIndex <= |raw|
    ensures m.Some? ==> lastIndex <= at && at + m.value.length <= |raw| && m.value.length > 0
                        && FindAll(f, raw, lastIndex) == [m.value.block] + FindAll(f, raw, at + m.value.length)
    ensures m.None? ==> FindAll(f, raw, lastIndex) == []
  {
    at := lastIndex;
    while true
      invariant lastIndex <= at <= |raw| && FindAll(f, raw, at) == FindAll(f, raw, lastIndex)
      decreases |raw| - at
    {
      m := f(raw, at);
      if m.Some? || at == |raw| { return; }
      at := at + 1;
    }
  }

  method FindAllLoop(f: Matcher, raw: string) returns (out: seq<EditBlock>)
    requires Proper(f)
    ensures out == FindAll(f, raw, 0)
  {
    out := [];
    var lastIndex := 0;
    while true
      invariant lastIndex <= |raw| && FindAll(f, raw, 0) == out + FindAll(f, raw, lastIndex)
      decreases |raw| - lastIndex
    {
      var m, at := Exec(f, raw, lastIndex);
      if m.None? { return; }
      out := out + [m.value.block];
      lastIndex := at + m.value.length;
    }
  }

  method ParseEditBlocks(raw: string) returns (out: seq<EditBlock>)
    ensures out == FindAll(BlockMatcher(Aider), raw, 0)
  {
    out := FindAllLoop(BlockMatcher(Aider), raw);
  }

  // ── Round trip ───────────────────────────────────────────────────────────────

  function PrintBlock(k: Marks, b: EditBlock): string {
    b.path + k.open + b.search + k.separator + b.replace + k.close
  }

  /** The blocks one after another, each on its own lines. */
  function Print(k: Marks, blocks: seq<EditBlock>): string {
    if blocks == [] then "" else PrintBlock(k, blocks[0]) + "\n" + Print(k, blocks[1..])
  }

  /** The path is one trimmed line, and no marker inside a body ends it early. */
  predicate Printable(k: Marks, b: EditBlock) {
    && b.path != "" && (forall i :: 0 <= i < |b.path| ==> !Terminator(b.path[i])) && Trim(b.path) == b.path
    && (forall i :: 0 <= i < |b.search| ==> !OccursAt(b.search + k.separator, k.separator, i))
    && (forall i :: 0 <= i < |b.replace| ==> !OccursAt(b.replace + k.close, k.close, i))
  }

  /** The first `w` in `body + w + rest` is the one after `body`, when `body + w` holds none earlier. */
  lemma MarkerFound(body: string, w: string, rest: string)
    requires forall i :: 0 <= i < |body| ==> !OccursAt(body + w, w, i)
    ensures IndexOf(body + w + rest, w) == Some(|body|)
  {
    var s := body + w + rest;
    assert s[|body|..|body| + |w|] == w;
    forall i | 0 <= i < |body| ensures !OccursAt(s, w, i) {
      assert !OccursAt(body + w, w, i);
      assert s[i..i + |w|] == (body + w)[i..i + |w|];
    }
    FirstOccurrence(s, w, |body|);
  }

  lemma {:induction false} LineFound(line: string, rest: string)
    requires (forall i :: 0 <= i < |line| ==> !Terminator(line[i])) && rest != "" && Terminator(rest[0])
    ensures LineLength(line + rest) == |line|
    decreases |line|
  {
    if line == "" {
      assert line + rest == rest;
    } else {
      LineFound(line[1..], rest);
      assert (line + rest)[1..] == line[1..] + rest;
    }
  }

  lemma BodiesFound(k: Marks, b: EditBlock, rest: string)
    requires Printable(k, b)
    ensures Bodies(k, b.search + k.separator + (b.replace + k.close + rest)) == Some((b.search, b.replace))
  {
    var tail := b.replace + k.close + rest;
    var body := b.search + k.separator + tail;
    MarkerFound(b.search, k.separator, tail);
    assert body[..|b.search|] == b.search && body[|b.search| + |k.separator|..] == tail;
    MarkerFound(b.replace, k.close, rest);
    assert tail[..|b.replace|] == b.replace;
  }

  lemma LineMatches(k: Marks, b: EditBlock, rest: string)
    requires Printable(k, b)
    ensures MatchLine(k, b.path, k.open + (b.search + k.separator + (b.replace + k.close + rest)))
            == Some(Match(b, |PrintBlock(k, b)|))
  {
    var body := b.search + k.separator + (b.replace + k.close + rest);
    Cut(k.open, body);
    BodiesFound(k, b, rest);
    PrintLength(k, b);
  }

  lemma PrintLength(k: Marks, b: EditBlock)
    ensures |PrintBlock(k, b)| == |b.path| + |k.open| + |b.search| + |k.separator| + |b.replace| + |k.close|
  {
  }

  lemma PrintShape(k: Marks, b: EditBlock, rest: string)
    ensures PrintBlock(k, b) + rest == b.path + (k.open + (b.search + k.separator + (b.replace + k.close + rest)))
  {
  }

  lemma Cut(a: string, c: string)
    ensures (a + c)[..|a|] == a && (a + c)[|a|..] == c
  {
  }

  lemma SuffixMatches(k: Marks, b: EditBlock, rest: string)
    requires GoodMarks(k) && Printable(k, b)
    ensures MatchSuffix(k, PrintBlock(k, b) + rest) == Some(Match(b, |PrintBlock(k, b)|))
  {
    var after := k.open + (b.search + k.separator + (b.replace + k.close + rest));
    PrintShape(k, b, rest);
    LineFound(b.path, after);
    Cut(b.path, after);
    LineMatches(k, b, rest);
  }

  function Document(k: Marks, pre: string, b: EditBlock, rest: string): string {
    pre + (PrintBlock(k, b) + rest)
  }

  /** A printed block that starts a line is matched as itself, and no match starts where it ends. */
  lemma BlockMatches(k: Marks, pre: string, b: EditBlock, rest: string)
    requires GoodMarks(k) && Printable(k, b) && (pre == "" || Terminator(pre[|pre| - 1]))
    ensures MatchAt(k, Document(k, pre, b, rest), |pre|) == Some(Match(b, |PrintBlock(k, b)|))
    ensures MatchAt(k, Document(k, pre, b, rest), |pre| + |PrintBlock(k, b)|).None?
  {
    var raw, text := Document(k, pre, b, rest), PrintBlock(k, b);
    Cut(pre, text + rest);
    SuffixMatches(k, b, rest);
    assert |pre| > 0 ==> raw[|pre| - 1] == pre[|pre| - 1];
    assert raw[|pre| + |text| - 1] == text[|text| - 1] == k.close[|k.close| - 1];
  }

  /** All the round trip needs of a matcher. */
  ghost predicate ReadsBlocks(f: Matcher, k: Marks) {
    && Proper(f) && (forall raw :: f(raw, |raw|).None?)
    && forall pre, b, rest {:trigger Document(k, pre, b, rest)} ::
         Printable(k, b) && (pre == "" || Terminator(pre[|pre| - 1])) ==>
           && f(Document(k, pre, b, rest), |pre|) == Some(Match(b, |PrintBlock(k, b)|))
           && f(Document(k, pre, b, rest), |pre| + |PrintBlock(k, b)|).None?
  }

  lemma NothingAtEnd(k: Marks, raw: string)
    ensures BlockMatcher(k)(raw, |raw|).None?
  {
    assert raw[|raw|..] == "";
  }

  lemma MatcherIs(k: Marks, raw: string, p: nat)
    requires p <= |raw|
    ensures BlockMatcher(k)(raw, p) == MatchAt(k, raw, p)
  {
  }

  lemma DocumentLength(k: Marks, pre: string, b: EditBlock, rest: string)
    ensures |Document(k, pre, b, rest)| == |pre| + |PrintBlock(k, b)| + |rest|
  {
  }

  lemma MatcherReadsBlocks(k: Marks)
    requires GoodMarks(k)
    ensures ReadsBlocks(BlockMatcher(k), k)
  {
    var f := BlockMatcher(k);
    forall raw: string ensures f(raw, |raw|).None? { NothingAtEnd(k, raw); }
    forall pre: string, b: EditBlock, rest: string | Printable(k, b) && (pre == "" || Terminator(pre[|pre| - 1]))
      ensures f(Document(k, pre, b, rest), |pre|) == Some(Match(b, |PrintBlock(k, b)|))
      ensures f(Document(k, pre, b, rest), |pre| + |PrintBlock(k, b)|).None?
    {
      BlockMatches(k, pre, b, rest);
      DocumentLength(k, pre, b, rest);
      MatcherIs(k, Document(k, pre, b, rest), |pre|);
      MatcherIs(k, Document(k, pre, b, rest), |pre| + |PrintBlock(k, b)|);
    }
  }

  /** From the start of a block the search takes it and goes on with the next line. */
  lemma TakesBlock(f: Matcher, raw: string, p: nat, m: Match)
    requires Proper(f) && p <= |raw| && f(raw, p) == Some(m) && p + m.length < |raw| && f(raw, p + m.length).None?
    ensures FindAll(f, raw, p) == [m.block] + FindAll(f, raw, p + m.length + 1)
  {
  }

  lemma TakesFirst(f: Matcher, k: Marks, pre: string, b: EditBlock, rest: string)
    requires ReadsBlocks(f, k) && Printable(k, b) && (pre == "" || Terminator(pre[|pre| - 1]))
    ensures var longer := pre + PrintBlock(k, b) + "\n";
            FindAll(f, longer + rest, |pre|) == [b] + FindAll(f, longer + rest, |longer|)
  {
    DocumentShape(k, pre, b, rest);
    TakesDocument(f, k, pre, b, "\n" + rest);
  }

  lemma TakesDocument(f: Matcher, k: Marks, pre: string, b: EditBlock, rest: string)
    requires ReadsBlocks(f, k) && Printable(k, b) && (pre == "" || Terminator(pre[|pre| - 1])) && rest != ""
    ensures var raw, p := Document(k, pre, b, rest), |pre| + |PrintBlock(k, b)|;
            p < |raw| && FindAll(f, raw, |pre|) == [b] + FindAll(f, raw, p + 1)
  {
    TakesBlock(f, Document(k, pre, b, rest), |pre|, Match(b, |PrintBlock(k, b)|));
  }

  lemma DocumentShape(k: Marks, pre: string, b: EditBlock, rest: string)
    ensures pre + PrintBlock(k, b) + "\n" + rest == Document(k, pre, b, "\n" + rest)
    ensures |Document(k, pre, b, "\n" + rest)| == |pre| + |PrintBlock(k, b)| + 1 + |rest|
  {
  }

  lemma PrintNext(k: Marks, pre: string, blocks: seq<EditBlock>)
    requires blocks != []
    ensures pre + Print(k, blocks) == (pre + PrintBlock(k, blocks[0]) + "\n") + Print(k, blocks[1..])
  {
  }

  lemma {:induction false} FindsPrinted(f: Matcher, k: Marks, pre: string, blocks: seq<EditBlock>)
    requires ReadsBlocks(f, k) && forall i :: 0 <= i < |blocks| ==> Printable(k, blocks[i])
    requires pre == "" || Terminator(pre[|pre| - 1])
    ensures FindAll(f, pre + Print(k, blocks), |pre|) == blocks
    decreases |blocks|
  {
    if blocks == [] {
      assert pre + Print(k, blocks) == pre;
    } else {
      PrintNext(k, pre, blocks);
      TakesFirst(f, k, pre, blocks[0], Print(k, blocks[1..]));
      FindsPrinted(f, k, pre + PrintBlock(k, blocks[0]) + "\n", blocks[1..]);
    }
  }

  lemma FindsFromStart(f: Matcher, k: Marks, blocks: seq<EditBlock>)
    requires ReadsBlocks(f, k) && forall i :: 0 <= i < |blocks| ==> Printable(k, blocks[i])
    ensures FindAll(f, Print(k, blocks), 0) == blocks
  {
    FindsPrinted(f, k, "", blocks);
    assert "" + Print(k, blocks) == Print(k, blocks);
  }

  /** Any printed list of printable blocks is read back as it was. */
  lemma RoundTrip(k: Marks, blocks: seq<EditBlock>)
    requires GoodMarks(k) && forall i :: 0 <= i < |blocks| ==> Printable(k, blocks[i])
    ensures FindAll(BlockMatcher(k), Print(k, blocks), 0) == blocks
  {
    MatcherReadsBlocks(k);
    FindsFromStart(BlockMatcher(k), k, blocks);
  }

  lemma AiderMarksGood()
    ensures GoodMarks(Aider)
  {
  }

  /** `parseEditBlocks` on a printed list of blocks gives the list back. */
  method ParsePrinted(blocks: seq<EditBlock>) returns (out: seq<EditBlock>)
    requires forall i :: 0 <= i < |blocks| ==> Printable(Aider, blocks[i])
    ensures out == blocks
  {
    out := ParseEditBlocks(Print(Aider, blocks));
    AiderMarksGood();
    RoundTrip(Aider, blocks);
  }

  // ── Applying ─────────────────────────────────────────────────────────────────

  /** One edit: the first occurrence replaced; None when it must be refused. */
  function ApplyOne(content: string, b: EditBlock): Option<string> {
    if b.search == "" || IndexOf(content, b.search).None? then None
    else
      var at := IndexOf(content, b.search).value;
      Some(content[..at] + b.replace + content[at + |b.search|..])
  }

  /** What stands before and after the first occurrence stays, and the occurrence itself is replaced. */
  lemma ReplacesFirst(before: string, b: EditBlock, after: string)
    requires b.search != ""
    requires forall i :: 0 <= i < |before| ==> !OccursAt(before + b.search + after, b.search, i)
    ensures ApplyOne(before + b.search + after, b) == Some(before + b.replace + after)
  {
    var content := before + b.search + after;
    assert content[|before|..|before| + |b.search|] == b.search;
    FirstOccurrence(content, b.search, |before|);
    assert content[..|before|] == before && content[|before| + |b.search|..] == after;
  }

  /** An edit is refused exactly when it searches for nothing or for what is not there. */
  lemma RefusedExactly(content: string, b: EditBlock)
    ensures ApplyOne(content, b).None?
            <==> b.search == "" || forall i :: 0 <= i <= |content| ==> !OccursAt(content, b.search, i)
  {
  }

  function ApplyAll(content: string, blocks: seq<EditBlock>): Option<string> {
    if blocks == [] then Some(content)
    else
      var before := ApplyAll(content, blocks[..|blocks| - 1]);
      if before.None? then None else ApplyOne(before.value, blocks[|blocks| - 1])
  }

  datatype ApplyResult = ApplyResult(ok: bool, content: string, applied: nat)

  /** `applyEditBlocks`: the left fold of the single edits, or the content untouched. */
  method ApplyEditBlocks(content: string, blocks: seq<EditBlock>) returns (r: ApplyResult)
    ensures r.ok <==> ApplyAll(content, blocks).Some?
    ensures r.ok ==> r.content == ApplyAll(content, blocks).value && r.applied == |blocks|
    ensures !r.ok ==> r.content == content && r.applied == 0
  {
    var out, applied := content, 0;
    for i := 0 to |blocks|
      invariant ApplyAll(content, blocks[..i]) == Some(out) && applied == i
    {
      var b := blocks[i];
      assert blocks[..i + 1][..i] == blocks[..i];
      if b.search == "" || IndexOf(out, b.search).None? {
        assert ApplyAll(content, blocks[..i + 1]).None?;
        Refused(content, blocks, i + 1);
        return ApplyResult(false, content, 0);
      }
      var idx := IndexOf(out, b.search).value;
      out := out[..idx] + b.replace + out[idx + |b.search|..];
      applied := applied + 1;
    }
    assert blocks[..|blocks|] == blocks;
    return ApplyResult(true, out, applied);
  }

  /** Once an edit is refused the whole list is. */
  lemma {:induction false} Refused(content: string, blocks: seq<EditBlock>, n: nat)
    requires n <= |blocks| && ApplyAll(content, blocks[..n]).None?
    ensures ApplyAll(content, blocks).None?
    decreases |blocks| - n
  {
    if n == |blocks| {
      assert blocks[..n] == blocks;
    } else {
      assert blocks[..n + 1][..n] == blocks[..n];
      Refused(content, blocks, n + 1);
    }
  }

  function Growth(blocks: seq<EditBlock>): int {
    if blocks == [] then 0
    else Growth(blocks[..|blocks| - 1]) + |blocks[|blocks| - 1].replace| - |blocks[|blocks| - 1].search|
  }

  /** A successful application changes the length by exactly the sum of |replace| - |search|. */
  lemma {:induction false} ApplyLength(content: string, blocks: seq<EditBlock>)
    requires ApplyAll(content, blocks).Some?
    ensures |ApplyAll(content, blocks).value| == |content| + Growth(blocks)
    decreases |blocks|
  {
    if blocks != [] { ApplyLength(content, blocks[..|blocks| - 1]); }
  }
}
