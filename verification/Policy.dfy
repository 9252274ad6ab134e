/**
 * Autonomy tiers and the floors a skill's files put under it (apps/agents/src/policy.ts, tools.ts,
 * skill-loader.ts).
 */
module Policy {
  import opened Common

  /** `Unlisted` is any value outside the five: it counts as the most dangerous. */
  datatype Tier = T0 | T1 | T2 | T3 | T4 | Unlisted

  function TierRank(t: Tier): (r: nat)
    ensures r <= 5
  {
    match t case T0 => 0 case T1 => 1 case T2 => 2 case T3 => 3 case T4 => 4 case Unlisted => 5
  }

  predicate AtLeast(t: Tier, floor: Tier) {
    TierRank(floor) <= TierRank(t)
  }

  lemma RankInjective(a: Tier, b: Tier)
    ensures TierRank(a) == TierRank(b) <==> a == b
  {
  }

  /** `best` is the strictest of `tiers`, or T0 when none is stricter than T0. */
  predicate Strictest(tiers: seq<Tier>, best: Tier) {
    && (best == T0 || best in tiers)
    && forall i :: 0 <= i < |tiers| ==> AtLeast(best, tiers[i])
  }

  /** The strictest tier, as the loop finds it. */
  function MaxTier(tiers: seq<Tier>): (best: Tier)
    ensures Strictest(tiers, best)
  {
    if tiers == [] then T0
    else
      var before := MaxTier(tiers[..|tiers| - 1]);
      var t := tiers[|tiers| - 1];
      if TierRank(t) > TierRank(before) then t else before
  }

  method MaxTierLoop(tiers: seq<Tier>) returns (best: Tier)
    ensures Strictest(tiers, best) && best == MaxTier(tiers)
  {
    best := T0;
    for i := 0 to |tiers|
      invariant best == MaxTier(tiers[..i])
    {
      assert tiers[..i + 1][..i] == tiers[..i];
      if TierRank(tiers[i]) > TierRank(best) { best := tiers[i]; }
    }
    assert tiers[..|tiers|] == tiers;
  }

  function EffectiveActionTier(agentDefault: Tier, skillFloor: Option<Tier>): (t: Tier)
    ensures AtLeast(t, agentDefault) && (skillFloor.Some? ==> AtLeast(t, skillFloor.value))
    ensures t == agentDefault || skillFloor == Some(t)
  {
    if skillFloor.None? then agentDefault else StricterOf(agentDefault, skillFloor.value)
  }

  predicate RequiresApproval(action: Tier, threshold: Tier) {
    threshold == T0 || TierRank(action) > TierRank(threshold)
  }

  // ── Tools ────────────────────────────────────────────────────────────────────

  datatype ToolType = Read | Net | Write | Exec | Money | Contract

  function ToolTypeMin(t: ToolType): Tier {
    match t case Read => T0 case Net => T1 case Write => T2 case Exec => T3 case Money => T3 case Contract => T4
  }

  /** The tools whose use alone needs no approval under a threshold. */
  function Unattended(threshold: Tier): set<ToolType> {
    match threshold
    case T0 => {}
    case T1 => {Read, Net}
    case T2 => {Read, Net, Write}
    case T3 => {Read, Net, Write, Exec, Money}
    case T4 => {Read, Net, Write, Exec, Money, Contract}
    case Unlisted => {Read, Net, Write, Exec, Money, Contract}
  }

  /** A skill of one tool runs without approval exactly under the thresholds that leave that tool unattended. */
  lemma ToolNeedsApproval(tool: ToolType, threshold: Tier)
    ensures RequiresApproval(EffectiveActionTier(T0, Some(ToolTierFloor([tool]))), threshold)
            <==> tool !in Unattended(threshold)
  {
    ToolFloorIsDemanded([tool]);
    assert ToolTierFloor([tool]) == ToolTypeMin([tool][0]);
  }

  /** A skill file; its tools are given by the class their name falls into. */
  datatype SkillMeta = SkillMeta(name: string, requiresApproval: Option<Tier>, allowedTools: seq<ToolType>)

  /** A tier that this file demands: the declared one, or that of one of its tools. */
  predicate Demands(m: SkillMeta, t: Tier) {
    m.requiresApproval == Some(t) || exists i :: 0 <= i < |m.allowedTools| && ToolTypeMin(m.allowedTools[i]) == t
  }

  function ToolTierFloor(tools: seq<ToolType>): Tier {
    MaxTier(seq(|tools|, i requires 0 <= i < |tools| => ToolTypeMin(tools[i])))
  }

  /** `skillFloor`: the strictest tier the file demands; None when it demands nothing. */
  function SkillFloor(m: SkillMeta): (floor: Option<Tier>)
    ensures floor.None? <==> forall t :: !Demands(m, t)
    ensures floor.Some? ==> forall t :: Demands(m, t) ==> AtLeast(floor.value, t)
    ensures floor.Some? ==> Demands(m, floor.value)
  {
    var toolFloor := ToolTierFloor(m.allowedTools);
    ToolFloorIsDemanded(m.allowedTools);
    assert m.allowedTools != [] ==> Demands(m, toolFloor);
    assert m.requiresApproval.Some? ==> Demands(m, m.requiresApproval.value);
    if m.requiresApproval.None? then
      if m.allowedTools == [] then None else Some(toolFloor)
    else if m.allowedTools == [] then m.requiresApproval
    else Some(StricterOf(m.requiresApproval.value, toolFloor))
  }

  lemma ToolFloorIsDemanded(tools: seq<ToolType>)
    ensures forall i :: 0 <= i < |tools| ==> AtLeast(ToolTierFloor(tools), ToolTypeMin(tools[i]))
    ensures tools != [] ==> exists i :: 0 <= i < |tools| && ToolTypeMin(tools[i]) == ToolTierFloor(tools)
  {
    var mins := seq(|tools|, i requires 0 <= i < |tools| => ToolTypeMin(tools[i]));
    assert Strictest(mins, MaxTier(mins));
    assert forall i :: 0 <= i < |tools| ==> mins[i] == ToolTypeMin(tools[i]);
    if tools != [] && MaxTier(mins) == T0 { assert mins[0] == T0; }
  }

  /** The floor of every name is the strictest tier that any file of that name demands. */
  ghost predicate FloorsOf(metas: seq<SkillMeta>, floors: map<string, Tier>) {
    && (forall i, t :: 0 <= i < |metas| && Demands(metas[i], t) ==>
          metas[i].name in floors && AtLeast(floors[metas[i].name], t))
    && (forall name :: name in floors ==>
          exists i :: 0 <= i < |metas| && metas[i].name == name && Demands(metas[i], floors[name]))
  }

  method SkillTierFloors(metas: seq<SkillMeta>) returns (floors: map<string, Tier>)
    ensures FloorsOf(metas, floors)
  {
    floors := map[];
    for n := 0 to |metas|
      invariant FloorsOf(metas[..n], floors)
    {
      var m := metas[n];
      var floor := SkillFloor(m);
      assert metas[..n] + [m] == metas[..n + 1];
      if floor.None? {
        FloorSkipped(metas[..n], m, floors);
        continue;
      }
      ghost var before := floors;
      floors := floors[m.name := if m.name in floors then StricterOf(floors[m.name], floor.value) else floor.value];
      FloorAdded(metas[..n], m, before, floors);
    }
    assert metas[..|metas|] == metas;
  }

  /** `maxTier([a, b])`. */
  function StricterOf(a: Tier, b: Tier): (t: Tier)
    ensures AtLeast(t, a) && AtLeast(t, b) && (t == a || t == b)
  {
    var both := [a, b];
    assert both[0] == a && both[1] == b;
    MaxTier(both)
  }

  lemma FloorSkipped(metas: seq<SkillMeta>, m: SkillMeta, floors: map<string, Tier>)
    requires FloorsOf(metas, floors) && SkillFloor(m).None?
    ensures FloorsOf(metas + [m], floors)
  {
    var all := metas + [m];
    assert forall i :: 0 <= i < |metas| ==> all[i] == metas[i];
    forall name | name in floors
      ensures exists i :: 0 <= i < |all| && all[i].name == name && Demands(all[i], floors[name])
    {
      var i :| 0 <= i < |metas| && metas[i].name == name && Demands(metas[i], floors[name]);
      assert all[i] == metas[i];
    }
  }

  lemma FloorAdded(metas: seq<SkillMeta>, m: SkillMeta, before: map<string, Tier>, floors: map<string, Tier>)
    requires FloorsOf(metas, before) && SkillFloor(m).Some?
    requires m.name in floors && floors == before[m.name := floors[m.name]]
    requires AtLeast(floors[m.name], SkillFloor(m).value)
             && (m.name in before ==> AtLeast(floors[m.name], before[m.name]))
    requires floors[m.name] == SkillFloor(m).value || (m.name in before && floors[m.name] == before[m.name])
    ensures FloorsOf(metas + [m], floors)
  {
    var all := metas + [m];
    forall i, t | 0 <= i < |all| && Demands(all[i], t)
      ensures all[i].name in floors && AtLeast(floors[all[i].name], t)
    {
      if i < |metas| { assert all[i] == metas[i]; }
    }
    forall name | name in floors
      ensures exists i :: 0 <= i < |all| && all[i].name == name && Demands(all[i], floors[name])
    {
      if name == m.name && floors[name] == SkillFloor(m).value {
        assert all[|metas|] == m;
      } else {
        var i :| 0 <= i < |metas| && metas[i].name == name && Demands(metas[i], before[name]);
        assert all[i] == metas[i];
      }
    }
  }

  /** The floor map does not depend on the order in which the files are read. */
  lemma FloorsIgnoreOrder(a: seq<SkillMeta>, b: seq<SkillMeta>, f: map<string, Tier>, g: map<string, Tier>)
    requires multiset(a) == multiset(b) && FloorsOf(a, f) && FloorsOf(b, g)
    ensures f == g
  {
    FloorsBelow(a, b, f, g);
    FloorsBelow(b, a, g, f);
    assert f.Keys == g.Keys;
    forall name | name in f ensures f[name] == g[name] { RankInjective(f[name], g[name]); }
  }

  lemma FloorsBelow(a: seq<SkillMeta>, b: seq<SkillMeta>, f: map<string, Tier>, g: map<string, Tier>)
    requires multiset(a) == multiset(b) && FloorsOf(a, f) && FloorsOf(b, g)
    ensures forall name :: name in f ==> name in g && AtLeast(g[name], f[name])
  {
    forall name | name in f ensures name in g && AtLeast(g[name], f[name]) {
      var i :| 0 <= i < |a| && a[i].name == name && Demands(a[i], f[name]);
      assert a[i] in multiset(a);
      assert a[i] in multiset(b);
      var j :| 0 <= j < |b| && b[j] == a[i];
    }
  }
}
