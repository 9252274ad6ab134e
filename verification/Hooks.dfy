/** Passport hooks: parsing, the trip through Core's stored card, and the pre-run gate (apps/agents/src/hooks.ts). */
module Hooks {
  import opened Common

  datatype Number = Fin(value: real) | PosInf | NegInf | NaN

  /** The only fields either reader looks at; any other field of an object is ignored. */
  datatype Field = Kind | Run | MaxAgeHours | MaxAgeHoursSnake | From | To | Raw | Broken
                 | PreRun | PreRunSnake | PostRun | PostRunSnake

  /** A YAML or JSON value; a number also carries the text `String(n)` prints. */
  datatype Json =
    | Null
    | Bool(b: bool)
    | Num(n: Number, text: string)
    | Str(s: string)
    | Arr(items: seq<Json>)
    | Obj(fields: map<Field, Json>)

  datatype PreRunHook =
    | SourceFresh(run: string, maxAge: Number, maxAgeText: string)
    | QuietHours(from: string, to: string)
    | UnknownPre(raw: string, broken: bool)

  datatype PostRunHook = CoachLite | UnknownPost(raw: string)

  datatype AgentHooks = AgentHooks(preRun: seq<PreRunHook>, postRun: seq<PostRunHook>)

  const NoHooks := AgentHooks([], [])

  // ── JavaScript helpers ───────────────────────────────────────────────────────

  /** `String(v)`. */
  function JsString(v: Json): string {
    match v
    case Null => "null"
    case Bool(b) => if b then "true" else "false"
    case Num(_, text) => text
    case Str(s) => s
    case Arr(items) => Join(items)
    case Obj(_) => "[object Object]"
  }

  /** `items.join(",")`, where null elements print as nothing. */
  function Join(items: seq<Json>): string {
    if items == [] then ""
    else
      var head := if items[0].Null? then "" else JsString(items[0]);
      if |items| == 1 then head else head + "," + Join(items[1..])
  }

  /** One more item follows a comma, and a null prints as nothing. */
  lemma {:induction false} JoinNext(items: seq<Json>, x: Json)
    ensures Join(items + [x]) == if items == [] then OrEmpty(x) else Join(items) + "," + OrEmpty(x)
    decreases |items|
  {
    hide JsString;
    if items == [] {
      assert items + [x] == [x];
    } else {
      assert (items + [x])[1..] == items[1..] + [x];
      JoinNext(items[1..], x);
      assert |items| > 1 <==> items[1..] != [];
    }
  }

  lemma BoolPrints(b: bool)
    ensures JsString(Bool(b)) == (if b then ['t', 'r', 'u', 'e'] else ['f', 'a', 'l', 's', 'e'])
  {
  }

  function Get(o: map<Field, Json>, f: Field): Json {
    if f in o then o[f] else Null
  }

  /** `String(v ?? "")`. */
  function OrEmpty(v: Json): string {
    if v.Null? then "" else JsString(v)
  }

  predicate Positive(n: Number) {
    n.PosInf? || (n.Fin? && n.value > 0.0)
  }

  predicate IsDigit(c: char) { '0' <= c <= '9' }

  /** `HHMM`. */
  predicate IsClock(s: string) {
    && |s| == 5 && IsDigit(s[0]) && IsDigit(s[1]) && s[2] == ':' && IsDigit(s[3]) && IsDigit(s[4])
    && (s[0] <= '1' || (s[0] == '2' && s[1] <= '3')) && s[3] <= '5'
  }

  predicate RunChar(c: char) {
    'a' <= c <= 'z' || 'A' <= c <= 'Z' || IsDigit(c) || c == '_' || c == '-'
  }

  /** `RUN_REF`: `agent/skill`. */
  predicate IsRunRef(s: string) {
    exists at :: 0 < at < |s| - 1 && s[at] == '/'
                 && (forall i :: 0 <= i < at ==> RunChar(s[i]))
                 && (forall i :: at < i < |s| ==> RunChar(s[i]) || s[i] == ':')
  }

  // ── Reading ──────────────────────────────────────────────────────────────────

  datatype Section = Unreadable | Entries(items: seq<Json>)

  function ListOf(v: Json): Section {
    if v.Null? then Entries([]) else if v.Arr? then Entries(v.items) else Unreadable
  }

  /** The first non-empty of the two spellings; an unreadable one spoils the section. */
  function Pick(a: Json, b: Json): Section {
    if ListOf(a).Unreadable? || ListOf(b).Unreadable? then Unreadable
    else if ListOf(a).items != [] then ListOf(a) else ListOf(b)
  }

  /** One pre_run entry of a passport. */
  function PassportEntry(e: Json): PreRunHook {
    if !e.Obj? then UnknownPre(JsString(e), false)
    else
      var h := e.fields;
      var kind := OrEmpty(Get(h, Kind));
      if kind == "source_fresh" then
        var run := if Get(h, Run).Str? then h[Run].s else "";
        var hours := Get(h, MaxAgeHoursSnake);
        if IsRunRef(run) && hours.Num? && Positive(hours.n) then SourceFresh(run, hours.n, hours.text)
        else UnknownPre(kind, true)
      else if kind == "quiet_hours" then
        var from, to := OrEmpty(Get(h, From)), OrEmpty(Get(h, To));
        if IsClock(from) && IsClock(to) then QuietHours(from, to) else UnknownPre(kind, true)
      else UnknownPre(kind, false)
  }

  /** One post_run entry; what is not an object guards nothing and is skipped. */
  function PostEntry(e: Json, stored: bool): seq<PostRunHook> {
    if !e.Obj? then []
    else
      var kind := OrEmpty(Get(e.fields, Kind));
      if kind == "coach_lite" then [CoachLite]
      else if stored && kind == "unknown" && Get(e.fields, Raw).Str? then [UnknownPost(e.fields[Raw].s)]
      else [UnknownPost(kind)]
  }

  function PostReader(stored: bool): Json -> seq<PostRunHook> {
    (e: Json) => PostEntry(e, stored)
  }

  function PostEntries(items: seq<Json>, read: Json -> seq<PostRunHook>): seq<PostRunHook> {
    if items == [] then [] else PostEntries(items[..|items| - 1], read) + read(items[|items| - 1])
  }

  function PreEntries(s: Section, read: Json -> PreRunHook): seq<PreRunHook> {
    if s.Unreadable? then [UnknownPre("pre_run", true)]
    else seq(|s.items|, i requires 0 <= i < |s.items| => read(s.items[i]))
  }

  function PostSection(s: Section, stored: bool): seq<PostRunHook> {
    if s.Unreadable? then [] else PostEntries(s.items, PostReader(stored))
  }

  /** What a passport's `hooks:` section means. */
  function Passport(raw: Json): AgentHooks {
    if raw.Null? then NoHooks
    else if !raw.Obj? then AgentHooks([UnknownPre("hooks", true)], [])
    else AgentHooks(PreEntries(Pick(Get(raw.fields, PreRunSnake), Get(raw.fields, PreRun)), PassportEntry),
                    PostSection(Pick(Get(raw.fields, PostRunSnake), Get(raw.fields, PostRun)), false))
  }

  /** One pre_run entry of a stored card. */
  function CardEntry(e: Json): PreRunHook {
    if !e.Obj? then UnknownPre(JsString(e), false)
    else
      var h := e.fields;
      if !Get(h, Kind).Str? then UnknownPre(if Get(h, Kind).Null? then "без kind" else JsString(h[Kind]), false)
      else
        var kind := h[Kind].s;
        var maxAge := if Get(h, MaxAgeHours).Num? then h[MaxAgeHours] else Get(h, MaxAgeHoursSnake);
        if kind == "source_fresh" && Get(h, Run).Str? && IsRunRef(h[Run].s) && maxAge.Num? && Positive(maxAge.n) then
          SourceFresh(h[Run].s, maxAge.n, maxAge.text)
        else if kind == "quiet_hours" && Get(h, From).Str? && IsClock(h[From].s) && Get(h, To).Str?
                && IsClock(h[To].s) then
          QuietHours(h[From].s, h[To].s)
        else if kind == "unknown" then
          UnknownPre(if Get(h, Raw).Str? then h[Raw].s else kind, Get(h, Broken) == Bool(true))
        else UnknownPre(kind, kind == "source_fresh" || kind == "quiet_hours")
  }

  /** What a stored card means to the runtime; None is "no hooks". */
  function Card(raw: Json): Option<AgentHooks> {
    if !raw.Obj? then None
    else
      var hooks := AgentHooks(PreEntries(Pick(Get(raw.fields, PreRun), Get(raw.fields, PreRunSnake)), CardEntry),
                              PostSection(Pick(Get(raw.fields, PostRun), Get(raw.fields, PostRunSnake)), true));
      if hooks == NoHooks then None else Some(hooks)
  }

  method ParseHooks(raw: Json) returns (hooks: AgentHooks)
    ensures hooks == Passport(raw)
  {
    if raw.Null? { return NoHooks; }
    if !raw.Obj? { return AgentHooks([UnknownPre("hooks", true)], []); }
    var pre := Pick(Get(raw.fields, PreRunSnake), Get(raw.fields, PreRun));
    var post := Pick(Get(raw.fields, PostRunSnake), Get(raw.fields, PostRun));
    var preRun := ReadPre(pre, PassportEntry);
    var postRun := ReadPost(post, false);
    return AgentHooks(preRun, postRun);
  }

  method HooksFromCore(raw: Json) returns (hooks: Option<AgentHooks>)
    ensures hooks == Card(raw)
  {
    if !raw.Obj? { return None; }
    var preRun := ReadPre(Pick(Get(raw.fields, PreRun), Get(raw.fields, PreRunSnake)), CardEntry);
    var postRun := ReadPost(Pick(Get(raw.fields, PostRun), Get(raw.fields, PostRunSnake)), true);
    return if preRun == [] && postRun == [] then None else Some(AgentHooks(preRun, postRun));
  }

  method ReadPre(s: Section, read: Json -> PreRunHook) returns (out: seq<PreRunHook>)
    ensures out == PreEntries(s, read)
  {
    if s.Unreadable? { return [UnknownPre("pre_run", true)]; }
    out := [];
    for i := 0 to |s.items|
      invariant |out| == i && forall j :: 0 <= j < i ==> out[j] == read(s.items[j])
    {
      out := out + [read(s.items[i])];
    }
  }

  method ReadPost(s: Section, stored: bool) returns (out: seq<PostRunHook>)
    ensures out == PostSection(s, stored)
  {
    out := [];
    if s.Unreadable? { return; }
    for i := 0 to |s.items|
      invariant out == PostEntries(s.items[..i], PostReader(stored))
    {
      assert s.items[..i + 1][..i] == s.items[..i];
      var e := s.items[i];
      if !e.Obj? { continue; }
      var kind := OrEmpty(Get(e.fields, Kind));
      if kind == "coach_lite" { out := out + [CoachLite]; }
      else if stored && kind == "unknown" && Get(e.fields, Raw).Str? { out := out + [UnknownPost(e.fields[Raw].s)]; }
      else { out := out + [UnknownPost(kind)]; }
    }
    assert s.items[..|s.items|] == s.items;
  }

  // ── What a passport writes ───────────────────────────────────────────────────

  /** A known hook as an owner writes it. */
  function Written(h: PreRunHook): Json
    requires !h.UnknownPre?
  {
    match h
    case SourceFresh(run, age, text) =>
      Obj(map[Kind := Str("source_fresh"), Run := Str(run), MaxAgeHoursSnake := Num(age, text)])
    case QuietHours(from, to) => Obj(map[Kind := Str("quiet_hours"), From := Str(from), To := Str(to)])
  }

  /** What is written well is read as it was meant. */
  lemma WrittenReads(h: PreRunHook)
    requires !h.UnknownPre? && WellFormed(h)
    ensures PassportEntry(Written(h)) == h
  {
  }

  /** A freshness limit must be a positive number of hours, if only an infinite one. */
  lemma LimitMustBePositive(run: string, age: Number, text: string)
    requires IsRunRef(run)
    ensures var entry := Obj(map[Kind := Str("source_fresh"), Run := Str(run), MaxAgeHoursSnake := Num(age, text)]);
            PassportEntry(entry).SourceFresh? <==> age.PosInf? || (age.Fin? && age.value > 0.0)
  {
  }

  /** An entry counts as broken when its kind is known and its parameters are not readable. */
  lemma BrokenMeansKnownKind(e: Json)
    ensures var h := PassportEntry(e);
            h.UnknownPre? ==>
              (h.broken <==> e.Obj? && OrEmpty(Get(e.fields, Kind)) in {"source_fresh", "quiet_hours"})
              && (e.Obj? ==> h.raw == OrEmpty(Get(e.fields, Kind))) && (!e.Obj? ==> h.raw == JsString(e))
  {
  }

  /** `agent/skill`: two non-empty names, and only the skill may hold a colon. */
  lemma RunRefParts(agent: string, skill: string)
    requires forall i :: 0 <= i < |agent| ==> agent[i] != '/'
    ensures IsRunRef(agent + ['/'] + skill)
            <==> agent != "" && skill != "" && (forall i :: 0 <= i < |agent| ==> RunChar(agent[i]))
                 && (forall i :: 0 <= i < |skill| ==> RunChar(skill[i]) || skill[i] == ':')
  {
    var s, n := agent + ['/'] + skill, |agent|;
    assert forall i :: 0 <= i < n ==> s[i] == agent[i] && s[i] != '/';
    assert s[n] == '/' && !RunChar(s[n]);
    assert forall i :: 0 <= i < |skill| ==> s[n + 1 + i] == skill[i];
    if IsRunRef(s) {
      var at :| 0 < at < |s| - 1 && s[at] == '/' && (forall i :: 0 <= i < at ==> RunChar(s[i]))
                && (forall i :: at < i < |s| ==> RunChar(s[i]) || s[i] == ':');
      assert at == n;
    }
  }

  /** Latin letters, digits, the underscore and the hyphen. */
  lemma RunChars(c: char)
    ensures RunChar(c) <==> || 97 <= c as int <= 122 || 65 <= c as int <= 90 || 48 <= c as int <= 57
                            || c == '_' || c == '-'
  {
  }

  /** The entries count in order, and of two spellings of a section the passport's own one, unless it is empty. */
  lemma SectionReads(pre: seq<Json>, otherPre: seq<Json>, post: seq<Json>, otherPost: seq<Json>)
    ensures var h := Passport(Obj(map[PreRunSnake := Arr(pre), PreRun := Arr(otherPre), PostRunSnake := Arr(post),
                                      PostRun := Arr(otherPost)]));
            var (entries, posts) := (if pre != [] then pre else otherPre, if post != [] then post else otherPost);
            && |h.preRun| == |entries| && (forall i :: 0 <= i < |entries| ==> h.preRun[i] == PassportEntry(entries[i]))
            && h.postRun == PostEntries(posts, PostReader(false))
    ensures var c := Card(Obj(map[PreRun := Arr(pre), PreRunSnake := Arr(otherPre), PostRun := Arr(post),
                                  PostRunSnake := Arr(otherPost)]));
            var (entries, posts) := (if pre != [] then pre else otherPre, if post != [] then post else otherPost);
            c.Some? ==>
              && |c.value.preRun| == |entries|
              && (forall i :: 0 <= i < |entries| ==> c.value.preRun[i] == CardEntry(entries[i]))
              && c.value.postRun == PostEntries(posts, PostReader(true))
  {
  }

  /** A section that is no list blocks every run. */
  lemma UnreadableBlocks(section: Json, other: Json)
    requires !section.Null? && !section.Arr?
    ensures Passport(Obj(map[PreRunSnake := section, PreRun := other])).preRun == [UnknownPre("pre_run", true)]
    ensures Passport(Obj(map[PreRunSnake := other, PreRun := section])).preRun == [UnknownPre("pre_run", true)]
  {
  }

  // ── The trip passport → Core → runtime ───────────────────────────────────────

  /** JSON has no infinities: `JSON.stringify` writes null. */
  function JsonNumber(n: Number, text: string): Json {
    if n.Fin? then Num(n, text) else Null
  }

  function StoredPre(h: PreRunHook): Json {
    match h
    case SourceFresh(run, age, text) =>
      Obj(map[Kind := Str("source_fresh"), Run := Str(run), MaxAgeHours := JsonNumber(age, text)])
    case QuietHours(from, to) => Obj(map[Kind := Str("quiet_hours"), From := Str(from), To := Str(to)])
    case UnknownPre(raw, broken) =>
      if broken then Obj(map[Kind := Str("unknown"), Raw := Str(raw), Broken := Bool(true)])
      else Obj(map[Kind := Str("unknown"), Raw := Str(raw)])
  }

  function StoredPost(h: PostRunHook): Json {
    match h
    case CoachLite => Obj(map[Kind := Str("coach_lite")])
    case UnknownPost(raw) => Obj(map[Kind := Str("unknown"), Raw := Str(raw)])
  }

  function StoredPosts(hooks: seq<PostRunHook>): seq<Json> {
    seq(|hooks|, i requires 0 <= i < |hooks| => StoredPost(hooks[i]))
  }

  /** The card Core keeps for parsed hooks. */
  function StoredCard(h: AgentHooks): Json {
    Obj(map[PreRun := Arr(seq(|h.preRun|, i requires 0 <= i < |h.preRun| => StoredPre(h.preRun[i]))),
            PostRun := Arr(StoredPosts(h.postRun))])
  }

  predicate FiniteAges(h: AgentHooks) {
    forall i :: 0 <= i < |h.preRun| && h.preRun[i].SourceFresh? ==> h.preRun[i].maxAge.Fin?
  }

  /** Only well-formed parameters ever make a known hook. */
  predicate WellFormed(h: PreRunHook) {
    && (h.SourceFresh? ==> IsRunRef(h.run) && Positive(h.maxAge))
    && (h.QuietHours? ==> IsClock(h.from) && IsClock(h.to))
  }

  /** What is left of a hook after the trip. */
  function Back(h: PreRunHook): PreRunHook {
    if h.SourceFresh? && !h.maxAge.Fin? then UnknownPre("source_fresh", true) else h
  }

  function AfterTrip(h: AgentHooks): AgentHooks {
    AgentHooks(seq(|h.preRun|, i requires 0 <= i < |h.preRun| => Back(h.preRun[i])), h.postRun)
  }

  lemma EntryTrip(h: PreRunHook)
    requires WellFormed(h)
    ensures CardEntry(StoredPre(h)) == Back(h)
  {
  }

  lemma PostTrip(hooks: seq<PostRunHook>)
    ensures PostEntries(StoredPosts(hooks), PostReader(true)) == hooks
  {
    var items := StoredPosts(hooks);
    forall i | 0 <= i < |hooks| ensures PostReader(true)(items[i]) == [hooks[i]] { PostEntryTrip(hooks[i]); }
    ReadOneByOne(items, hooks, PostReader(true));
  }

  lemma {:induction false} ReadOneByOne(items: seq<Json>, hooks: seq<PostRunHook>, read: Json -> seq<PostRunHook>)
    requires |items| == |hooks| && forall i :: 0 <= i < |hooks| ==> read(items[i]) == [hooks[i]]
    ensures PostEntries(items, read) == hooks
    decreases |hooks|
  {
    if hooks != [] {
      var n := |hooks| - 1;
      ReadOneByOne(items[..n], hooks[..n], read);
      assert hooks == hooks[..n] + [hooks[n]];
    }
  }

  lemma PostEntryTrip(h: PostRunHook)
    ensures PostEntry(StoredPost(h), true) == [h]
  {
  }

  /**
   * Hooks survive the trip unchanged exactly when no freshness limit is infinite; an infinite one comes back
   * as a blocking entry, never as a missing one.
   */
  lemma TripKeepsHooks(raw: Json)
    ensures var h := Passport(raw);
            var back := Card(StoredCard(h));
            && (FiniteAges(h) <==> back == if h == NoHooks then None else Some(h))
            && (h != NoHooks ==> back.Some? && |back.value.preRun| == |h.preRun| && back.value.postRun == h.postRun)
            && (forall i :: 0 <= i < |h.preRun| && h.preRun[i].SourceFresh? && !h.preRun[i].maxAge.Fin? ==>
                  back.value.preRun[i] == UnknownPre("source_fresh", true))
  {
    var h := Passport(raw);
    PassportWellFormed(raw);
    CardTrip(h);
    if FiniteAges(h) { assert AfterTrip(h).preRun == h.preRun; }
  }

  /** What a card of well-formed hooks reads back. */
  lemma CardTrip(h: AgentHooks)
    requires forall i :: 0 <= i < |h.preRun| ==> WellFormed(h.preRun[i])
    ensures Card(StoredCard(h)) == if AfterTrip(h) == NoHooks then None else Some(AfterTrip(h))
  {
    var stored := seq(|h.preRun|, i requires 0 <= i < |h.preRun| => StoredPre(h.preRun[i]));
    var post := StoredPosts(h.postRun);
    PostTrip(h.postRun);
    assert Pick(Arr(stored), Null) == Entries(stored) && Pick(Arr(post), Null) == Entries(post);
    var pre := PreEntries(Entries(stored), CardEntry);
    forall i | 0 <= i < |h.preRun| ensures pre[i] == AfterTrip(h).preRun[i] { EntryTrip(h.preRun[i]); }
    assert pre == AfterTrip(h).preRun;
  }

  /** A passport with an infinite freshness limit: the hooks of its card never let a run start. */
  lemma InfiniteLimitBlocks(raw: Json, clock: Clock, journal: Journal)
    requires !FiniteAges(Passport(raw))
    ensures var card := Card(StoredCard(Passport(raw)));
            && card.Some? && (forall i :: 0 <= i < |card.value.preRun| ==> WellFormed(card.value.preRun[i]))
            && !Starts(card.value, clock, journal)
  {
    TripKeepsHooks(raw);
    CardWellFormed(StoredCard(Passport(raw)));
    var h, card := Passport(raw), Card(StoredCard(Passport(raw)));
    var i :| 0 <= i < |h.preRun| && h.preRun[i].SourceFresh? && !h.preRun[i].maxAge.Fin?;
    assert !Passes(card.value.preRun[i], clock, journal);
  }

  const InfiniteEntry := Obj(map[Kind := Str("source_fresh"), Run := Str("a/b"),
                                 MaxAgeHoursSnake := Num(PosInf, "Infinity")])

  /** A passport with `max_age_hours: .inf`: its own hooks let every run start once the source has run. */
  lemma InfiniteLimitCouldPass(clock: Clock, journal: Journal)
    requires journal("a", "b") == Ran(true, Some(0.0))
    ensures var h := Passport(Obj(map[PreRunSnake := Arr([InfiniteEntry])]));
            && h == AgentHooks([SourceFresh("a/b", PosInf, "Infinity")], [])
            && WellFormed(h.preRun[0]) && !FiniteAges(h) && Starts(h, clock, journal)
  {
    var raw := Obj(map[PreRunSnake := Arr([InfiniteEntry])]);
    InfiniteEntryReads();
    assert Pick(Get(raw.fields, PreRunSnake), Get(raw.fields, PreRun)) == Entries([InfiniteEntry]);
    assert Pick(Get(raw.fields, PostRunSnake), Get(raw.fields, PostRun)) == Entries([]);
    assert Passport(raw).preRun == [PassportEntry(InfiniteEntry)] && Passport(raw).postRun == [];
    assert !Passport(raw).preRun[0].maxAge.Fin?;
    NoLimitPasses(clock, journal);
  }

  lemma InfiniteEntryReads()
    ensures PassportEntry(InfiniteEntry) == SourceFresh("a/b", PosInf, "Infinity") && IsRunRef("a/b")
  {
    var run := "a/b";
    assert run[1] == '/' && RunChar(run[0]) && RunChar(run[2]);
    assert IsRunRef(run);
  }

  lemma NoLimitPasses(clock: Clock, journal: Journal)
    requires journal("a", "b") == Ran(true, Some(0.0))
    ensures Fresh("a/b", PosInf, clock.ms, journal)
  {
    var run := "a/b";
    IndexOfBounds(run, '/');
    assert run[1] == '/' && IndexOf(run, '/') == 1;
    assert run[..1] == "a" && run[2..] == "b";
  }

  lemma PassportWellFormed(raw: Json)
    ensures forall i :: 0 <= i < |Passport(raw).preRun| ==> WellFormed(Passport(raw).preRun[i])
  {
    forall e ensures WellFormed(PassportEntry(e)) { EntryWellFormed(e); }
  }

  lemma EntryWellFormed(e: Json)
    ensures WellFormed(PassportEntry(e)) && WellFormed(CardEntry(e))
  {
  }

  // ── The pre-run gate ─────────────────────────────────────────────────────────

  /** What Core's journal says about the last run of a skill. */
  datatype LastRun = JournalDown | NeverRan | Ran(executed: bool, finishedAt: Option<real>)

  type Journal = (string, string) -> LastRun

  datatype Clock = Clock(minute: nat, ms: real)

  const HOUR_MS := 3600000.0

  function DigitOf(c: char): nat
    requires IsDigit(c)
  {
    c as nat - '0' as nat
  }

  /** `minutes`: minute of the day of an `HH:MM` text. */
  function Minutes(s: string): (m: nat)
    requires IsClock(s)
    ensures m < 1440
  {
    (DigitOf(s[0]) * 10 + DigitOf(s[1])) * 60 + DigitOf(s[3]) * 10 + DigitOf(s[4])
  }

  predicate InQuietHours(cur: nat, a: nat, b: nat) {
    if a <= b then a <= cur < b else a <= cur || cur < b
  }

  function IndexOf(s: string, c: char): int {
    if s == [] then -1 else if s[0] == c then 0
    else var rest := IndexOf(s[1..], c); if rest < 0 then -1 else rest + 1
  }

  lemma {:induction false} IndexOfBounds(s: string, c: char)
    ensures -1 <= IndexOf(s, c) < |s|
    ensures IndexOf(s, c) >= 0 ==> s[IndexOf(s, c)] == c
    ensures forall i :: 0 <= i < |s| && s[i] == c ==> 0 <= IndexOf(s, c) <= i
  {
    if s != [] && s[0] != c {
      IndexOfBounds(s[1..], c);
      forall i | 0 <= i < |s| && s[i] == c ensures 0 <= IndexOf(s, c) <= i { assert s[1..][i - 1] == c; }
    }
  }

  predicate OlderThan(age: real, limit: Number) {
    match limit
    case Fin(v) => age > v
    case NegInf => true
    case _ => false
  }

  /** The journal confirms that the source ran to the end within the allowed age. */
  predicate Fresh(run: string, limit: Number, now: real, journal: Journal) {
    var at := IndexOf(run, '/');
    IndexOfBounds(run, '/');
    at >= 0 &&
    var last := journal(run[..at], run[at + 1..]);
    last.Ran? && last.executed && last.finishedAt.Some? && !OlderThan((now - last.finishedAt.value) / HOUR_MS, limit)
  }

  predicate Passes(h: PreRunHook, clock: Clock, journal: Journal)
    requires WellFormed(h)
  {
    match h
    case UnknownPre(_, _) => false
    case QuietHours(from, to) => !InQuietHours(clock.minute, Minutes(from), Minutes(to))
    case SourceFresh(run, limit, _) => Fresh(run, limit, clock.ms, journal)
  }

  /** A clock text of that hour and minute. */
  function ClockText(hour: nat, minute: nat): string
    requires hour < 24 && minute < 60
  {
    [Digit(hour / 10), Digit(hour % 10), ':', Digit(minute / 10), Digit(minute % 10)]
  }

  /** A clock text reads as its minute of the day. */
  lemma ClockReads(hour: nat, minute: nat)
    requires hour < 24 && minute < 60
    ensures IsClock(ClockText(hour, minute)) && Minutes(ClockText(hour, minute)) == 60 * hour + minute
  {
    assert hour == 10 * (hour / 10) + hour % 10 && minute == 10 * (minute / 10) + minute % 10;
  }

  lemma {:induction false} IndexOfFirst(head: string, c: char, tail: string)
    requires forall i :: 0 <= i < |head| ==> head[i] != c
    ensures IndexOf(head + [c] + tail, c) == |head|
    decreases |head|
  {
    if head == [] {
      assert head + [c] + tail == [c] + tail;
    } else {
      IndexOfFirst(head[1..], c, tail);
      assert (head + [c] + tail)[1..] == head[1..] + [c] + tail;
    }
  }

  /** A source is fresh exactly when its last run was executed and ended within the limit, counted in hours. */
  lemma SourceIsFresh(agent: string, skill: string, hours: real, now: real, journal: Journal)
    requires forall i :: 0 <= i < |agent| ==> agent[i] != '/'
    ensures var last := journal(agent, skill);
            Fresh(agent + ['/'] + skill, Fin(hours), now, journal)
            <==> last.Ran? && last.executed && last.finishedAt.Some?
                 && now - last.finishedAt.value <= hours * 3600000.0
  {
    var run := agent + ['/'] + skill;
    IndexOfFirst(agent, '/', skill);
    IndexOfBounds(run, '/');
    assert run[..|agent|] == agent && run[|agent| + 1..] == skill;
  }

  /** `runPreRunHooks`: the run starts exactly when every hook passes. */
  method RunPreRunHooks(hooks: AgentHooks, clock: Clock, journal: Journal) returns (ok: bool)
    requires forall i :: 0 <= i < |hooks.preRun| ==> WellFormed(hooks.preRun[i])
    ensures ok <==> forall i :: 0 <= i < |hooks.preRun| ==> Passes(hooks.preRun[i], clock, journal)
  {
    for i := 0 to |hooks.preRun|
      invariant forall j :: 0 <= j < i ==> Passes(hooks.preRun[j], clock, journal)
    {
      var h := hooks.preRun[i];
      if h.UnknownPre? { return false; }
      if h.QuietHours? {
        if InQuietHours(clock.minute, Minutes(h.from), Minutes(h.to)) { return false; }
        continue;
      }
      RefHasSlash(h.run);
      var at := IndexOf(h.run, '/');
      var last := journal(h.run[..at], h.run[at + 1..]);
      if last.JournalDown? || last.NeverRan? || !last.executed || last.finishedAt.None? { return false; }
      if OlderThan((clock.ms - last.finishedAt.value) / HOUR_MS, h.maxAge) { return false; }
    }
    return true;
  }

  lemma RefHasSlash(s: string)
    requires IsRunRef(s)
    ensures 0 <= IndexOf(s, '/') < |s|
  {
    IndexOfBounds(s, '/');
  }

  /** The entries a passport lists under pre_run, in either spelling. */
  function PreRunEntries(raw: Json): seq<Json> {
    if raw.Obj? && Pick(Get(raw.fields, PreRunSnake), Get(raw.fields, PreRun)).Entries?
    then Pick(Get(raw.fields, PreRunSnake), Get(raw.fields, PreRun)).items else []
  }

  /** An entry the engine understands: a known kind with readable parameters. */
  predicate Understood(e: Json) {
    e.Obj? &&
    var h := e.fields;
    var kind := OrEmpty(Get(h, Kind));
    || (kind == "source_fresh" && Get(h, Run).Str? && IsRunRef(h[Run].s)
        && Get(h, MaxAgeHoursSnake).Num? && Positive(h[MaxAgeHoursSnake].n))
    || (kind == "quiet_hours" && IsClock(OrEmpty(Get(h, From))) && IsClock(OrEmpty(Get(h, To))))
  }

  predicate Starts(hooks: AgentHooks, clock: Clock, journal: Journal)
    requires forall i :: 0 <= i < |hooks.preRun| ==> WellFormed(hooks.preRun[i])
  {
    forall i :: 0 <= i < |hooks.preRun| ==> Passes(hooks.preRun[i], clock, journal)
  }

  /** No pre_run entry is dropped, and one the engine does not understand blocks for every clock and journal. */
  lemma NothingDropped(raw: Json, clock: Clock, journal: Journal)
    ensures var hooks := Passport(raw);
            && (forall i :: 0 <= i < |hooks.preRun| ==> WellFormed(hooks.preRun[i]))
            && |hooks.preRun| >= |PreRunEntries(raw)|
            && ((exists i :: 0 <= i < |PreRunEntries(raw)| && !Understood(PreRunEntries(raw)[i])) ==>
                  !Starts(hooks, clock, journal))
            && (raw.Obj? && Pick(Get(raw.fields, PreRunSnake), Get(raw.fields, PreRun)).Unreadable? ==>
                  !Starts(hooks, clock, journal))
            && (!raw.Obj? && !raw.Null? ==> !Starts(hooks, clock, journal))
  {
    PassportWellFormed(raw);
    var hooks := Passport(raw);
    var entries := PreRunEntries(raw);
    if i :| 0 <= i < |entries| && !Understood(entries[i]) {
      assert hooks.preRun[i] == PassportEntry(entries[i]) && hooks.preRun[i].UnknownPre?;
    }
    if (raw.Obj? && Pick(Get(raw.fields, PreRunSnake), Get(raw.fields, PreRun)).Unreadable?)
       || (!raw.Obj? && !raw.Null?) {
      assert hooks.preRun[0].UnknownPre?;
    }
  }

  /**
   * After the trip through Core the gate is never weaker: what starts with the card's hooks starts with the passport's.
   */
  lemma TripNeverWeakens(raw: Json, clock: Clock, journal: Journal)
    requires Card(StoredCard(Passport(raw))).Some?
    ensures var card := Card(StoredCard(Passport(raw))).value;
            && (forall i :: 0 <= i < |Passport(raw).preRun| ==> WellFormed(Passport(raw).preRun[i]))
            && (forall i :: 0 <= i < |card.preRun| ==> WellFormed(card.preRun[i]))
            && (Starts(card, clock, journal) ==> Starts(Passport(raw), clock, journal))
  {
    PassportWellFormed(raw);
    CardWellFormed(StoredCard(Passport(raw)));
    TripKeepsHooks(raw);
    var h, card := Passport(raw), Card(StoredCard(Passport(raw))).value;
    if Starts(card, clock, journal) {
      forall i | 0 <= i < |h.preRun| ensures h.preRun[i].SourceFresh? ==> h.preRun[i].maxAge.Fin? {
        assert Passes(card.preRun[i], clock, journal);
      }
      assert FiniteAges(h);
    }
  }

  lemma CardWellFormed(raw: Json)
    requires Card(raw).Some?
    ensures forall i :: 0 <= i < |Card(raw).value.preRun| ==> WellFormed(Card(raw).value.preRun[i])
  {
    forall e ensures WellFormed(CardEntry(e)) { EntryWellFormed(e); }
  }

  // ── Quiet hours ──────────────────────────────────────────────────────────────

  /** [from, to) and [to, from) split the day. */
  lemma QuietSplitsTheDay(cur: nat, a: nat, b: nat)
    requires cur < 1440 && a < 1440 && b < 1440
    ensures a != b ==> (InQuietHours(cur, a, b) <==> !InQuietHours(cur, b, a))
    ensures a == b ==> !InQuietHours(cur, a, b)
  {
  }

  predicate Between(a: nat, m: nat, b: nat) { a <= m < b }

  function Interval(a: nat, b: nat): set<nat> {
    set m: nat | m < b && Between(a, m, b)
  }

  lemma {:induction false} IntervalSize(a: nat, b: nat)
    requires a <= b
    ensures |Interval(a, b)| == b - a
  {
    if a < b {
      IntervalSize(a, b - 1);
      assert Interval(a, b) == Interval(a, b - 1) + {b - 1};
    } else {
      assert Interval(a, b) == {};
    }
  }

  function QuietMinutes(a: nat, b: nat): set<nat> {
    set cur: nat | cur < 1440 && InQuietHours(cur, a, b)
  }

  /** The quiet minutes of a day number (to - from) mod 1440. */
  lemma QuietMinutesCount(a: nat, b: nat)
    requires a < 1440 && b < 1440
    ensures |QuietMinutes(a, b)| == (b - a) % 1440
  {
    if a <= b {
      IntervalSize(a, b);
      assert QuietMinutes(a, b) == Interval(a, b);
    } else {
      IntervalSize(a, 1440);
      IntervalSize(0, b);
      assert QuietMinutes(a, b) == Interval(a, 1440) + Interval(0, b);
      assert Interval(a, 1440) !! Interval(0, b);
    }
  }
}
