/**
 * The block of non-urgent notes in the morning briefing and what it acknowledges (apps/bot/src/briefing.ts).
 * A char stands for one UTF-16 code unit, as JavaScript counts lengths.
 */
module Briefing {
  import opened Common

  datatype Note = Note(key: string, text: string)

  datatype Block = Block(text: string, shownKeys: seq<string>)

  const LINE_MAX := 160
  const TAIL_ROOM := 16
  const SEPARATORS := 4
  const TG_BUDGET := 3500

  /** Whether cutting before this position would split a surrogate pair. */
  type Splits = (string, nat) -> bool

  /** `cutAt`: the longest prefix of whole characters within the limit. */
  function CutAt(text: string, limit: nat, splits: Splits): (r: string)
    ensures |r| <= limit
  {
    if |text| <= limit then text
    else if limit > 0 && splits(text, limit) then text[..limit - 1] else text[..limit]
  }

  function CutLine(text: string, splits: Splits): (r: string)
    ensures |r| <= LINE_MAX
    ensures |text| <= LINE_MAX ==> r == text
  {
    if |text| <= LINE_MAX then text else TrimEnd(CutAt(text, LINE_MAX - 1, splits)) + "…"
  }

  /** A long text keeps its first 159 characters, one less where a pair would be split, without trailing white space. */
  lemma LineKeepsStart(text: string, splits: Splits)
    requires |text| > 160
    ensures var n := if splits(text, 159) then 158 else 159;
            && CutLine(text, splits) <= TrimEnd(text[..n]) + "…"
            && CutLine(text, splits)[|CutLine(text, splits)| - 1] == '…'
            && CutLine(text, splits)[..|CutLine(text, splits)| - 1] <= text
  {
    var n := if splits(text, 159) then 158 else 159;
    assert CutAt(text, 159, splits) == text[..n];
    assert TrimEnd(text[..n]) <= text[..n] <= text;
  }

  // ── Grouping by text ─────────────────────────────────────────────────────────

  /** The distinct non-blank texts, trimmed, in order of first appearance. */
  function Texts(notes: seq<Note>): (r: seq<string>)
  {
    if notes == [] then []
    else
      var before := Texts(notes[..|notes| - 1]);
      var t := Trim(notes[|notes| - 1].text);
      if t == "" || t in before then before else before + [t]
  }

  /** The keys of the notes with this text, in order. */
  function KeysOf(notes: seq<Note>, text: string): seq<string> {
    if notes == [] then []
    else
      var n := |notes| - 1;
      KeysOf(notes[..n], text) + if Trim(notes[n].text) == text then [notes[n].key] else []
  }

  lemma {:induction false} TextsDistinct(notes: seq<Note>)
    ensures Distinct(Texts(notes))
    decreases |notes|
  {
    if notes != [] { TextsDistinct(notes[..|notes| - 1]); }
  }

  lemma {:induction false} TextsCover(notes: seq<Note>, i: nat)
    requires i < |notes| && Trim(notes[i].text) != ""
    ensures Trim(notes[i].text) in Texts(notes)
    decreases |notes|
  {
    if i < |notes| - 1 { TextsCover(notes[..|notes| - 1], i); }
  }

  lemma {:induction false} TextsComeFrom(notes: seq<Note>, t: string)
    requires t in Texts(notes)
    ensures t != "" && exists i :: 0 <= i < |notes| && Trim(notes[i].text) == t
    decreases |notes|
  {
    var n := |notes| - 1;
    if t in Texts(notes[..n]) {
      TextsComeFrom(notes[..n], t);
      var i :| 0 <= i < n && Trim(notes[..n][i].text) == t;
      assert Trim(notes[i].text) == t;
    } else {
      assert Trim(notes[n].text) == t;
    }
  }

  datatype Group = Group(line: string, keys: seq<string>)

  /** The map the first loop builds, in insertion order. */
  function Groups(notes: seq<Note>, splits: Splits): seq<Group> {
    var texts := Texts(notes);
    seq(|texts|, i requires 0 <= i < |texts| => Group(CutLine(texts[i], splits), KeysOf(notes, texts[i])))
  }

  // ── Packing ──────────────────────────────────────────────────────────────────

  predicate Fits(used: int, budget: Option<int>) {
    budget.None? || used <= budget.value
  }

  /** How many groups the packing loop takes from `i` on with `used` characters spent. */
  function Fit(groups: seq<Group>, i: nat, used: int, limit: int, budget: Option<int>): (n: nat)
    requires i <= |groups|
    ensures i <= n <= |groups|
    decreases |groups| - i
  {
    if i < |groups| && i < limit
       && Fits(used + |groups[i].line| + 1 + (if i + 1 < |groups| then TAIL_ROOM else 0), budget)
    then Fit(groups, i + 1, used + |groups[i].line| + 1, limit, budget)
    else i
  }

  function Lines(groups: seq<Group>): string {
    if groups == [] then "" else Lines(groups[..|groups| - 1]) + "\n" + groups[|groups| - 1].line
  }

  function Keys(groups: seq<Group>): seq<string> {
    if groups == [] then [] else Keys(groups[..|groups| - 1]) + groups[|groups| - 1].keys
  }

  function Tail(rest: nat): string {
    if rest == 0 then "" else "\n…и ещё " + Decimal(rest)
  }

  function Shown(notes: seq<Note>, limit: int, budget: Option<int>, header: string, splits: Splits): (n: nat)
    ensures n <= |Texts(notes)|
  {
    Fit(Groups(notes, splits), 0, |header|, limit, budget)
  }

  /** The block: header, the first lines that fit, and the count of the rest; None when nothing fits. */
  function Format(notes: seq<Note>, limit: int, budget: Option<int>, header: string, splits: Splits): Option<Block> {
    var groups := Groups(notes, splits);
    var n := Shown(notes, limit, budget, header, splits);
    Finish(header + Lines(groups[..n]), Keys(groups[..n]), n, |groups|)
  }

  /** No line, no block: an empty header would say nothing and acknowledge nothing. */
  function Finish(text: string, keys: seq<string>, shown: nat, total: nat): Option<Block>
    requires shown <= total
  {
    if shown == 0 then None else Some(Block(text + Tail(total - shown), keys))
  }

  lemma KeysNext(notes: seq<Note>, n: nat, text: string)
    requires n < |notes|
    ensures KeysOf(notes[..n + 1], text)
            == KeysOf(notes[..n], text) + if Trim(notes[n].text) == text then [notes[n].key] else []
  {
    assert notes[..n + 1][..n] == notes[..n];
  }

  /** What the map holds for the first `n` notes. */
  ghost predicate Grouped(notes: seq<Note>, n: nat, texts: seq<string>, groups: seq<Group>, splits: Splits)
    requires n <= |notes|
  {
    && texts == Texts(notes[..n]) && |groups| == |texts|
    && forall i :: 0 <= i < |texts| ==> groups[i] == Group(CutLine(texts[i], splits), KeysOf(notes[..n], texts[i]))
  }

  function AddKey(groups: seq<Group>, i: nat, key: string): seq<Group>
    requires i < |groups|
  {
    groups[i := groups[i].(keys := groups[i].keys + [key])]
  }

  lemma GroupNext(notes: seq<Note>, n: nat, texts: seq<string>, groups: seq<Group>, splits: Splits, texts': seq<string>,
                  groups': seq<Group>)
    requires n < |notes| && Grouped(notes, n, texts, groups, splits)
    requires var text := Trim(notes[n].text);
             if text == "" then texts' == texts && groups' == groups
             else if text in texts then
               && texts' == texts
               && exists i :: 0 <= i < |texts| && texts[i] == text && groups' == AddKey(groups, i, notes[n].key)
             else texts' == texts + [text] && groups' == groups + [Group(CutLine(text, splits), [notes[n].key])]
    ensures Grouped(notes, n + 1, texts', groups', splits)
  {
    assert notes[..n + 1][..n] == notes[..n];
    var text := Trim(notes[n].text);
    TextsDistinct(notes[..n]);
    if text !in texts && text != "" {
      forall i | 0 <= i < n ensures Trim(notes[..n][i].text) != text {
        if Trim(notes[..n][i].text) != "" { TextsCover(notes[..n], i); }
      }
      NoKeys(notes[..n], text);
    }
    forall i | 0 <= i < |texts'|
      ensures groups'[i] == Group(CutLine(texts'[i], splits), KeysOf(notes[..n + 1], texts'[i]))
    {
      KeysNext(notes, n, texts'[i]);
      if i < |texts| { TextsComeFrom(notes[..n], texts[i]); }
    }
  }

  /** The first loop: a map from text to its group, filled in order of appearance. */
  method GroupNotes(notes: seq<Note>, splits: Splits) returns (groups: seq<Group>)
    ensures groups == Groups(notes, splits)
  {
    var texts: seq<string> := [];
    groups := [];
    for n := 0 to |notes|
      invariant Grouped(notes, n, texts, groups, splits)
    {
      ghost var texts0, groups0 := texts, groups;
      var text := Trim(notes[n].text);
      if text != "" {
        if text in texts {
          var i :| 0 <= i < |texts| && texts[i] == text;
          groups := AddKey(groups, i, notes[n].key);
        } else {
          texts := texts + [text];
          groups := groups + [Group(CutLine(text, splits), [notes[n].key])];
        }
      }
      GroupNext(notes, n, texts0, groups0, splits, texts, groups);
    }
    assert notes[..|notes|] == notes;
  }

  lemma {:induction false} NoKeys(notes: seq<Note>, text: string)
    requires forall i :: 0 <= i < |notes| ==> Trim(notes[i].text) != text
    ensures KeysOf(notes, text) == []
    decreases |notes|
  {
    if notes != [] { NoKeys(notes[..|notes| - 1], text); }
  }

  /** The second loop. */
  method Pack(groups: seq<Group>, limit: int, budget: Option<int>, header: string)
    returns (text: string, shownKeys: seq<string>, i: nat)
    ensures i == Fit(groups, 0, |header|, limit, budget)
    ensures text == header + Lines(groups[..i]) && shownKeys == Keys(groups[..i])
  {
    text, shownKeys, i := header, [], 0;
    var used := |header|;
    while i < |groups| && i < limit
      invariant 0 <= i <= |groups| && text == header + Lines(groups[..i]) && shownKeys == Keys(groups[..i])
      invariant Fit(groups, i, used, limit, budget) == Fit(groups, 0, |header|, limit, budget)
    {
      var need := |groups[i].line| + 1;
      if !Fits(used + need + (if i + 1 < |groups| then TAIL_ROOM else 0), budget) { break; }
      assert groups[..i + 1][..i] == groups[..i];
      text := text + "\n" + groups[i].line;
      shownKeys := shownKeys + groups[i].keys;
      used := used + need;
      i := i + 1;
    }
  }

  method FormatBriefingNotes(notes: seq<Note>, limit: int, budget: Option<int>, header: string, splits: Splits)
    returns (r: Option<Block>)
    ensures r == Format(notes, limit, budget, header, splits)
  {
    var groups := GroupNotes(notes, splits);
    if |groups| == 0 { return None; }
    var text, shownKeys, i := Pack(groups, limit, budget, header);
    return Finish(text, shownKeys, i, |groups|);
  }

  function NotesToAck(block: Option<Block>, delivered: bool): seq<string> {
    if delivered && block.Some? then block.value.shownKeys else []
  }

  // ── The budget ───────────────────────────────────────────────────────────────

  /** The reserve for the tail is enough exactly below 10^8 hidden texts. */
  lemma TailRoom(rest: nat)
    requires rest > 0
    ensures |Tail(rest)| <= TAIL_ROOM <==> rest < Pow10(8)
  {
    assert |Tail(rest)| == 8 + |Decimal(rest)|;
    DecimalLength(rest, 8);
  }

  function LinesLength(groups: seq<Group>): nat {
    if groups == [] then 0 else LinesLength(groups[..|groups| - 1]) + 1 + |groups[|groups| - 1].line|
  }

  lemma {:induction false} LinesHaveLength(groups: seq<Group>)
    ensures |Lines(groups)| == LinesLength(groups)
    decreases |groups|
  {
    if groups != [] { LinesHaveLength(groups[..|groups| - 1]); }
  }

  /** What the loop took fits the budget, with the tail's reserve when something is left. */
  lemma {:induction false} FitKeepsBudget(groups: seq<Group>, i: nat, used: int, limit: int, budget: Option<int>)
    requires i <= |groups|
    ensures var n := Fit(groups, i, used, limit, budget);
            n > i ==> Fits(used + LinesLength(groups[..n]) - LinesLength(groups[..i])
                             + (if n < |groups| then TAIL_ROOM else 0), budget)
    decreases |groups| - i
  {
    var n := Fit(groups, i, used, limit, budget);
    if n > i {
      assert groups[..i + 1][..i] == groups[..i];
      FitKeepsBudget(groups, i + 1, used + |groups[i].line| + 1, limit, budget);
    }
  }

  /** The block fits its budget whenever fewer than 10^8 distinct texts stay hidden. */
  lemma BlockFits(notes: seq<Note>, limit: int, budget: int, header: string, splits: Splits)
    requires Format(notes, limit, Some(budget), header, splits).Some?
    requires |Texts(notes)| - Shown(notes, limit, Some(budget), header, splits) < Pow10(8)
    ensures |Format(notes, limit, Some(budget), header, splits).value.text| <= budget
  {
    var groups := Groups(notes, splits);
    var n := Shown(notes, limit, Some(budget), header, splits);
    FitKeepsBudget(groups, 0, |header|, limit, Some(budget));
    LinesHaveLength(groups[..n]);
    FinishLength(header + Lines(groups[..n]), Keys(groups[..n]), n, |groups|);
  }

  lemma FinishLength(text: string, keys: seq<string>, n: nat, total: nat)
    requires n <= total && total - n < Pow10(8) && Finish(text, keys, n, total).Some?
    ensures |Finish(text, keys, n, total).value.text| <= |text| + if n < total then TAIL_ROOM else 0
  {
    if n < total { TailRoom(total - n); }
  }

  function NotesBudget(briefing: string, staff: Option<string>): nat {
    var room := TG_BUDGET - |briefing| - (if staff.Some? then |staff.value| else 0) - SEPARATORS;
    if room < 0 then 0 else room
  }

  /** Two parts with a blank line between them, unless one is empty. */
  function JoinParts(a: string, b: string): string {
    if a == "" then b else if b == "" then a else a + "\n\n" + b
  }

  /** The briefing message: the summary, the block and the staff line, with empty parts left out. */
  function Message(briefing: string, block: Option<Block>, staff: Option<string>): string {
    JoinParts(briefing, JoinParts(if block.Some? then block.value.text else "",
                                  if staff.Some? then staff.value else ""))
  }

  lemma JoinLength(a: string, b: string)
    ensures |JoinParts(a, b)| <= |a| + |b| + 2
  {
  }

  /** The message fits exactly when the summary and the staff line fit by themselves: notes never push it over. */
  lemma MessageFits(notes: seq<Note>, limit: int, header: string, splits: Splits, briefing: string,
                    staff: Option<string>)
    requires |Texts(notes)| < Pow10(8)
    ensures var block := Format(notes, limit, Some(NotesBudget(briefing, staff)), header, splits);
            |Message(briefing, block, staff)| <= TG_BUDGET
            <==> |JoinParts(briefing, if staff.Some? then staff.value else "")| <= TG_BUDGET
  {
    var budget := NotesBudget(briefing, staff);
    var block := Format(notes, limit, Some(budget), header, splits);
    if block.Some? {
      var line := if staff.Some? then staff.value else "";
      BlockFits(notes, limit, budget, header, splits);
      BlockNotEmpty(notes, limit, Some(budget), header, splits);
      JoinLength(block.value.text, line);
      JoinLength(briefing, JoinParts(block.value.text, line));
      JoinLength(briefing, line);
    }
  }

  lemma BlockNotEmpty(notes: seq<Note>, limit: int, budget: Option<int>, header: string, splits: Splits)
    requires Format(notes, limit, budget, header, splits).Some?
    ensures |Format(notes, limit, budget, header, splits).value.text| > 0
  {
    LinesHaveLength(Groups(notes, splits)[..Shown(notes, limit, budget, header, splits)]);
  }

  /** A summary over the budget by itself makes a message Telegram refuses, with or without notes. */
  lemma OverlongSummary(notes: seq<Note>, header: string, splits: Splits)
    requires |Texts(notes)| < Pow10(8)
    ensures var summary := seq(TG_BUDGET + 1, i => 'x');
            |Message(summary, Format(notes, 12, Some(NotesBudget(summary, None)), header, splits), None)| > TG_BUDGET
  {
    MessageFits(notes, 12, header, splits, seq(TG_BUDGET + 1, i => 'x'), None);
  }

  /** The tail tells how many texts are hidden, in decimal. */
  lemma TailTells(rest: nat)
    requires rest > 0
    ensures |Tail(rest)| > 8 && ReadDecimal(Tail(rest)[8..]) == rest
  {
    var head := "\n…и ещё ";
    assert |head| == 8 && Tail(rest) == head + Decimal(rest);
    assert Tail(rest)[8..] == Decimal(rest);
    DecimalReads(rest);
  }

  /** A block is the header, the shown lines and, when texts are hidden, the tail; without a line there is no block. */
  lemma BlockSays(notes: seq<Note>, limit: int, budget: Option<int>, header: string, splits: Splits)
    ensures var n := Shown(notes, limit, budget, header, splits);
            var block := Format(notes, limit, budget, header, splits);
            var body := header + Lines(Groups(notes, splits)[..n]);
            && (n == 0 <==> block.None?)
            && (n == |Texts(notes)| && n > 0 ==> block.value.text == body)
            && (0 < n < |Texts(notes)| ==>
                  && body <= block.value.text && |block.value.text| > |body| + 8
                  && ReadDecimal(block.value.text[|body| + 8..]) == |Texts(notes)| - n)
  {
    hide Finish, Tail, ReadDecimal, Lines, Keys, Shown, Texts;
    var n := Shown(notes, limit, budget, header, splits);
    var groups := Groups(notes, splits)[..n];
    FinishSays(header + Lines(groups), Keys(groups), n, |Texts(notes)|);
  }

  lemma FinishSays(body: string, keys: seq<string>, n: nat, total: nat)
    requires n <= total
    ensures var block := Finish(body, keys, n, total);
            && (n == 0 <==> block.None?)
            && (n == total && n > 0 ==> block.value.text == body)
            && (0 < n < total ==>
                  && body <= block.value.text && |block.value.text| > |body| + 8
                  && ReadDecimal(block.value.text[|body| + 8..]) == total - n)
  {
    assert n == total ==> body + Tail(0) == body;
    hide Tail, ReadDecimal;
    if 0 < n < total {
      TailTells(total - n);
      assert (body + Tail(total - n))[|body| + 8..] == Tail(total - n)[8..];
    }
  }

  /** Every shown line stands on a line of its own, in order. */
  lemma {:induction false} LinesInOrder(groups: seq<Group>, i: nat)
    requires i < |groups|
    ensures var at := LinesLength(groups[..i]);
            && at + 1 + |groups[i].line| <= |Lines(groups)|
            && Lines(groups)[at..at + 1 + |groups[i].line|] == "\n" + groups[i].line
    decreases |groups|
  {
    var n := |groups| - 1;
    LinesHaveLength(groups[..n]);
    if i == n {
      assert Lines(groups)[LinesLength(groups[..n])..] == "\n" + groups[n].line;
    } else {
      LinesInOrder(groups[..n], i);
      assert groups[..n][..i] == groups[..i];
    }
  }

  /** A block that uses its whole budget fills the message up to the limit: the budget could not be larger. */
  lemma BudgetIsTight(briefing: string, staff: string, block: Block)
    requires briefing != "" && staff != "" && block.text != ""
    requires |block.text| == NotesBudget(briefing, Some(staff))
    ensures |Message(briefing, Some(block), Some(staff))| == 3500
    ensures Message(briefing, Some(block), Some(staff)) == briefing + "\n\n" + (block.text + "\n\n" + staff)
  {
  }

  /** Without a staff line two characters of the reserve for the blank lines stay unused. */
  lemma BudgetWithoutStaff(briefing: string, block: Block)
    requires briefing != "" && block.text != "" && |block.text| == NotesBudget(briefing, None)
    ensures |Message(briefing, Some(block), None)| == 3498
    ensures Message(briefing, Some(block), None) == briefing + "\n\n" + block.text
  {
  }

  // ── What is acknowledged ─────────────────────────────────────────────────────

  /** The texts a block shows. */
  function ShownTexts(notes: seq<Note>, limit: int, budget: Option<int>, header: string, splits: Splits): seq<string> {
    Texts(notes)[..Shown(notes, limit, budget, header, splits)]
  }

  /** The keys of every note whose trimmed text is among `texts`, in order of the notes. */
  function KeysWith(notes: seq<Note>, texts: seq<string>): seq<string> {
    if notes == [] then []
    else
      var n := |notes| - 1;
      KeysWith(notes[..n], texts) + if Trim(notes[n].text) in texts then [notes[n].key] else []
  }

  lemma LastKey(notes: seq<Note>, texts: seq<string>, t: string)
    requires notes != []
    ensures var n := |notes| - 1;
            var x, key := Trim(notes[n].text), multiset{notes[n].key};
            && multiset(KeysWith(notes, texts))
                 == multiset(KeysWith(notes[..n], texts)) + (if x in texts then key else multiset{})
            && multiset(KeysOf(notes, t)) == multiset(KeysOf(notes[..n], t)) + (if x == t then key else multiset{})
  {
  }

  lemma {:induction false} KeysWithOneMore(notes: seq<Note>, texts: seq<string>, t: string)
    requires t !in texts
    ensures multiset(KeysWith(notes, texts + [t])) == multiset(KeysWith(notes, texts)) + multiset(KeysOf(notes, t))
    decreases |notes|
  {
    if notes != [] {
      KeysWithOneMore(notes[..|notes| - 1], texts, t);
      LastKey(notes, texts, t);
      LastKey(notes, texts + [t], t);
    }
  }

  lemma {:induction false} KeysWithNone(notes: seq<Note>)
    ensures KeysWith(notes, []) == []
    decreases |notes|
  {
    if notes != [] { KeysWithNone(notes[..|notes| - 1]); }
  }

  lemma KeysOneMore(notes: seq<Note>, n: nat, splits: Splits)
    requires n < |Texts(notes)|
    ensures Keys(Groups(notes, splits)[..n + 1]) == Keys(Groups(notes, splits)[..n]) + KeysOf(notes, Texts(notes)[n])
  {
    var groups := Groups(notes, splits);
    assert groups[..n + 1][..n] == groups[..n];
  }

  function KeysOfTexts(notes: seq<Note>, texts: seq<string>): seq<string> {
    if texts == [] then [] else KeysOfTexts(notes, texts[..|texts| - 1]) + KeysOf(notes, texts[|texts| - 1])
  }

  lemma {:induction false} KeysByText(notes: seq<Note>, n: nat, splits: Splits)
    requires n <= |Texts(notes)|
    ensures Keys(Groups(notes, splits)[..n]) == KeysOfTexts(notes, Texts(notes)[..n])
    decreases n
  {
    if n > 0 {
      KeysByText(notes, n - 1, splits);
      KeysOneMore(notes, n - 1, splits);
      KeysOfTextsNext(notes, Texts(notes), n - 1);
    }
  }

  lemma KeysOfTextsNext(notes: seq<Note>, texts: seq<string>, n: nat)
    requires n < |texts|
    ensures KeysOfTexts(notes, texts[..n + 1]) == KeysOfTexts(notes, texts[..n]) + KeysOf(notes, texts[n])
  {
    assert texts[..n + 1][..n] == texts[..n];
  }

  predicate Distinct(texts: seq<string>) {
    forall i, j :: 0 <= i < j < |texts| ==> texts[i] != texts[j]
  }

  lemma {:induction false} KeysAreExact(notes: seq<Note>, texts: seq<string>)
    requires Distinct(texts)
    ensures multiset(KeysOfTexts(notes, texts)) == multiset(KeysWith(notes, texts))
    decreases |texts|
  {
    if texts == [] {
      KeysWithNone(notes);
    } else {
      var front, t := texts[..|texts| - 1], texts[|texts| - 1];
      KeysAreExact(notes, front);
      KeysWithOneMore(notes, front, t);
      assert texts == front + [t];
    }
  }

  /** Acknowledged are exactly the keys of the notes whose text is shown, and only after a delivery. */
  lemma AckedExactly(notes: seq<Note>, limit: int, budget: Option<int>, header: string, splits: Splits, delivered: bool)
    ensures multiset(NotesToAck(Format(notes, limit, budget, header, splits), delivered))
            == if delivered then multiset(KeysWith(notes, ShownTexts(notes, limit, budget, header, splits)))
               else multiset{}
  {
    KeysByText(notes, Shown(notes, limit, budget, header, splits), splits);
    TextsDistinct(notes);
    KeysAreExact(notes, ShownTexts(notes, limit, budget, header, splits));
  }

  lemma {:induction false} SetSize(s: seq<string>)
    requires Distinct(s)
    ensures |set t | t in s| == |s|
    decreases |s|
  {
    if s != [] {
      var front, x := s[..|s| - 1], s[|s| - 1];
      SetSize(front);
      assert (set t | t in s) == (set t | t in front) + {x};
    }
  }

  /** The texts after the first `n`. */
  function Hidden(texts: seq<string>, n: nat): set<string>
    requires n <= |texts|
  {
    set t | t in texts && t !in texts[..n]
  }

  lemma HiddenCount(texts: seq<string>, n: nat)
    requires Distinct(texts) && n <= |texts|
    ensures |Hidden(texts, n)| == |texts| - n
  {
    var shown, rest := texts[..n], texts[n..];
    SetSize(rest);
    assert texts == shown + rest;
    assert Hidden(texts, n) == set t | t in rest;
  }

  /** The tail counts exactly the distinct texts left hidden. */
  lemma TailCountsHidden(notes: seq<Note>, limit: int, budget: Option<int>, header: string, splits: Splits)
    ensures var n := Shown(notes, limit, budget, header, splits);
            var groups := Groups(notes, splits)[..n];
            Format(notes, limit, budget, header, splits)
            == Finish(header + Lines(groups), Keys(groups), n, n + |Hidden(Texts(notes), n)|)
  {
    TextsDistinct(notes);
    HiddenCount(Texts(notes), Shown(notes, limit, budget, header, splits));
  }

  // ── Repeated rounds ──────────────────────────────────────────────────────────

  datatype Round = Round(limit: int, budget: int)

  /** Room for the header, one line of any length and the tail. */
  predicate HasRoom(r: Round, header: string) {
    r.limit >= 1 && r.budget >= |header| + 1 + LINE_MAX + TAIL_ROOM
  }

  function Remaining(notes: seq<Note>, acked: seq<string>): seq<Note> {
    if notes == [] then []
    else
      var n := |notes| - 1;
      Remaining(notes[..n], acked) + if notes[n].key in acked then [] else [notes[n]]
  }

  /** What one delivered briefing leaves pending in Core. */
  function AfterRound(notes: seq<Note>, r: Round, header: string, splits: Splits): seq<Note> {
    Remaining(notes, NotesToAck(Format(notes, r.limit, Some(r.budget), header, splits), true))
  }

  function AfterRounds(notes: seq<Note>, rounds: seq<Round>, header: string, splits: Splits): seq<Note>
    decreases |rounds|
  {
    if rounds == [] then notes
    else AfterRounds(AfterRound(notes, rounds[0], header, splits), rounds[1..], header, splits)
  }

  lemma {:induction false} RemainingFrom(notes: seq<Note>, acked: seq<string>, x: Note)
    requires x in Remaining(notes, acked)
    ensures x in notes && x.key !in acked
    decreases |notes|
  {
    var n := |notes| - 1;
    if x in Remaining(notes[..n], acked) {
      RemainingFrom(notes[..n], acked, x);
      assert x in notes[..n];
    }
  }

  lemma {:induction false} KeysWithHas(notes: seq<Note>, texts: seq<string>, i: nat)
    requires i < |notes| && Trim(notes[i].text) in texts
    ensures notes[i].key in KeysWith(notes, texts)
    decreases |notes|
  {
    if i < |notes| - 1 { KeysWithHas(notes[..|notes| - 1], texts, i); }
  }

  ghost function TextSet(notes: seq<Note>): set<string> {
    set t | t in Texts(notes)
  }

  /** A delivered round drops every note of a shown text and adds none. */
  lemma RoundDropsShown(notes: seq<Note>, r: Round, header: string, splits: Splits, t: string)
    requires t in TextSet(AfterRound(notes, r, header, splits))
    ensures t in TextSet(notes) && t !in ShownTexts(notes, r.limit, Some(r.budget), header, splits)
  {
    var acked := NotesToAck(Format(notes, r.limit, Some(r.budget), header, splits), true);
    var shown := ShownTexts(notes, r.limit, Some(r.budget), header, splits);
    var left := Remaining(notes, acked);
    TextsComeFrom(left, t);
    var j :| 0 <= j < |left| && Trim(left[j].text) == t;
    RemainingFrom(notes, acked, left[j]);
    var i :| 0 <= i < |notes| && notes[i] == left[j];
    TextsCover(notes, i);
    AckedExactly(notes, r.limit, Some(r.budget), header, splits, true);
    assert forall key :: key in acked <==> key in multiset(acked);
    if t in shown { KeysWithHas(notes, shown, i); }
  }

  lemma RoomShowsFirst(notes: seq<Note>, r: Round, header: string, splits: Splits)
    requires HasRoom(r, header) && Texts(notes) != []
    ensures Texts(notes)[0] in ShownTexts(notes, r.limit, Some(r.budget), header, splits)
  {
    var groups := Groups(notes, splits);
    assert |groups[0].line| <= LINE_MAX;
    assert Shown(notes, r.limit, Some(r.budget), header, splits) >= 1;
  }

  /** Delivered rounds with room for one line acknowledge every non-blank note in the end. */
  lemma {:induction false} EveryNoteIsDelivered(notes: seq<Note>, rounds: seq<Round>, header: string, splits: Splits)
    requires forall i :: 0 <= i < |rounds| ==> HasRoom(rounds[i], header)
    requires |rounds| >= |TextSet(notes)|
    ensures forall x :: x in AfterRounds(notes, rounds, header, splits) ==> Trim(x.text) == ""
    decreases |rounds|
  {
    if Texts(notes) == [] {
      StaysEmpty(notes, rounds, header, splits);
    } else {
      assert Texts(notes)[0] in TextSet(notes);
      var next := AfterRound(notes, rounds[0], header, splits);
      RoomShowsFirst(notes, rounds[0], header, splits);
      forall t | t in TextSet(next) ensures t in TextSet(notes) - {Texts(notes)[0]} {
        RoundDropsShown(notes, rounds[0], header, splits, t);
      }
      Fewer(TextSet(next), TextSet(notes) - {Texts(notes)[0]});
      EveryNoteIsDelivered(next, rounds[1..], header, splits);
    }
  }

  lemma {:induction false} Fewer(a: set<string>, b: set<string>)
    requires a <= b
    ensures |a| <= |b|
  {
    if a != {} {
      var x :| x in a;
      Fewer(a - {x}, b - {x});
    }
  }

  lemma {:induction false} StaysEmpty(notes: seq<Note>, rounds: seq<Round>, header: string, splits: Splits)
    requires Texts(notes) == []
    ensures forall x :: x in AfterRounds(notes, rounds, header, splits) ==> Trim(x.text) == ""
    decreases |rounds|
  {
    if rounds == [] {
      forall x | x in notes ensures Trim(x.text) == "" {
        var i :| 0 <= i < |notes| && notes[i] == x;
        if Trim(x.text) != "" { TextsCover(notes, i); }
      }
    } else {
      var next := AfterRound(notes, rounds[0], header, splits);
      if Texts(next) != [] { RoundDropsShown(notes, rounds[0], header, splits, Texts(next)[0]); }
      StaysEmpty(next, rounds[1..], header, splits);
    }
  }
}
