/** The quick-start builds of presets.js: the `PRESETS` table and `applyPreset`, which builds a
    fresh record from a preset's level matrix. The file write is left out: the record it writes
    is the function's second result. */
module Presets {
  import opened Wrappers
  import opened Text
  import opened TalentManager
  import opened XpTracker

  /** One entry of `PRESETS` (display name, description, recommendations and unlock notes left
      out). */
  datatype Preset = Preset(key: string, specialization: Option<string>, talents: seq<Branch>)

  /** The slots of one branch of the catalog, at the given levels. */
  function Slots(ids: seq<string>, levels: seq<int>): (slots: seq<Slot>)
    requires |ids| == |levels|
    ensures |slots| == |ids| && TalentIds(slots) == ids
    ensures forall j :: 0 <= j < |slots| ==> slots[j].level == levels[j]
  {
    seq(|ids|, j requires 0 <= j < |ids| => Slot(ids[j], levels[j]))
  }

  /** A level matrix in the shape of `TREES`: three levels per branch. */
  function Matrix(security: seq<int>, development: seq<int>, automation: seq<int>, research: seq<int>): (t: seq<Branch>)
    requires |security| == |development| == |automation| == |research| == 3
    ensures CatalogShaped(t)
  {
    [Branch("security", Slots(TREES[0].talents, security)),
     Branch("development", Slots(TREES[1].talents, development)),
     Branch("automation", Slots(TREES[2].talents, automation)),
     Branch("research", Slots(TREES[3].talents, research))]
  }

  const SECURITY_ANALYST := Preset("security-analyst", Some("security"), Matrix([5, 5, 5], [0, 0, 0], [0, 0, 0], [0, 0, 0]))
  const FULL_STACK_DEV := Preset("full-stack-dev", Some("development"), Matrix([0, 0, 0], [5, 5, 5], [0, 0, 0], [0, 0, 0]))
  const AUTOMATION_EXPERT := Preset("automation-expert", Some("automation"), Matrix([0, 0, 0], [0, 0, 0], [5, 5, 5], [0, 0, 0]))
  const RESEARCHER := Preset("researcher", Some("research"), Matrix([0, 0, 0], [0, 0, 0], [0, 0, 0], [5, 5, 5]))
  const BALANCED := Preset("balanced", None, Matrix([2, 2, 1], [2, 2, 1], [2, 2, 1], [2, 2, 1]))
  const DEVOPS := Preset("devops", Some("automation"), Matrix([2, 1, 0], [3, 4, 2], [5, 5, 3], [1, 0, 0]))

  /** `PRESETS`, in declaration order. */
  const PRESETS: seq<Preset> := [SECURITY_ANALYST, FULL_STACK_DEV, AUTOMATION_EXPERT, RESEARCHER, BALANCED, DEVOPS]

  function PresetKeys(): seq<string> {
    seq(|PRESETS|, i requires 0 <= i < |PRESETS| => PRESETS[i].key)
  }

  /** `presetName.toLowerCase().replace(/[_\s]/g, '-')` */
  function PresetKey(name: string): string {
    seq(|name|, i requires 0 <= i < |name| =>
      if LowerChar(name[i]) == '_' || IsSpace(LowerChar(name[i])) then '-' else LowerChar(name[i]))
  }

  /** `PRESETS[key]` */
  function FindPreset(key: string): (r: Option<Preset>)
    ensures r.Some? <==> key in PresetKeys()
    ensures r.Some? ==> r.value in PRESETS && r.value.key == key
  {
    match IndexOf(PresetKeys(), key)
    case None => None
    case Some(k) => Some(PRESETS[k])
  }

  lemma SlotSumOfThree(s: seq<Slot>)
    requires |s| == 3
    ensures SlotSum(s) == s[0].level + s[1].level + s[2].level
  {
    assert s[..2][..1] == s[..1] && s[..1][..0] == [];
    assert SlotSum(s[..1]) == s[0].level;
    assert SlotSum(s[..2]) == s[0].level + s[1].level;
  }

  /** The sum of the levels of a matrix of the catalog's shape; its levels lie in 0..5 when the
      given ones do. */
  lemma MatrixTotal(a: seq<int>, b: seq<int>, c: seq<int>, d: seq<int>)
    requires |a| == |b| == |c| == |d| == 3
    ensures GrandTotal(Matrix(a, b, c, d)) == a[0] + a[1] + a[2] + b[0] + b[1] + b[2] + c[0] + c[1] + c[2] + d[0] + d[1] + d[2]
    ensures (forall x :: x in a + b + c + d ==> 0 <= x <= 5) ==> LevelsInRange(Matrix(a, b, c, d))
  {
    var t := Matrix(a, b, c, d);
    SlotSumOfThree(t[0].slots);
    SlotSumOfThree(t[1].slots);
    SlotSumOfThree(t[2].slots);
    SlotSumOfThree(t[3].slots);
    assert t[..3][..2] == t[..2] && t[..2][..1] == t[..1] && t[..1][..0] == [];
    assert GrandTotal(t[..1]) == SlotSum(t[0].slots);
    assert GrandTotal(t[..2]) == SlotSum(t[0].slots) + SlotSum(t[1].slots);
    assert GrandTotal(t[..3]) == SlotSum(t[0].slots) + SlotSum(t[1].slots) + SlotSum(t[2].slots);
    if forall x :: x in a + b + c + d ==> 0 <= x <= 5 {
      forall i, j | 0 <= i < |t| && 0 <= j < |t[i].slots|
        ensures 0 <= t[i].slots[j].level <= 5
      {
        var levels := [a, b, c, d][i];
        assert t[i].slots[j].level == levels[j];
        assert levels[j] in a + b + c + d;
      }
    }
  }

  /** The level sums of the presets, in table order (the points `listPresets` shows). */
  const PRESET_POINTS: seq<int> := [15, 15, 15, 15, 20, 26]

  /** One preset's matrix has levels in 0..5 and the given level sum. */
  predicate PresetSound(p: Preset, points: int) {
    CatalogShaped(p.talents) && LevelsInRange(p.talents) && GrandTotal(p.talents) == points
  }

  lemma SecurityAnalystSound()
    ensures PresetSound(SECURITY_ANALYST, 15)
  {
    MatrixTotal([5, 5, 5], [0, 0, 0], [0, 0, 0], [0, 0, 0]);
  }

  lemma FullStackDevSound()
    ensures PresetSound(FULL_STACK_DEV, 15)
  {
    MatrixTotal([0, 0, 0], [5, 5, 5], [0, 0, 0], [0, 0, 0]);
  }

  lemma AutomationExpertSound()
    ensures PresetSound(AUTOMATION_EXPERT, 15)
  {
    MatrixTotal([0, 0, 0], [0, 0, 0], [5, 5, 5], [0, 0, 0]);
  }

  lemma ResearcherSound()
    ensures PresetSound(RESEARCHER, 15)
  {
    MatrixTotal([0, 0, 0], [0, 0, 0], [0, 0, 0], [5, 5, 5]);
  }

  lemma BalancedSound()
    ensures PresetSound(BALANCED, 20)
  {
    MatrixTotal([2, 2, 1], [2, 2, 1], [2, 2, 1], [2, 2, 1]);
  }

  lemma DevopsSound()
    ensures PresetSound(DEVOPS, 26)
  {
    MatrixTotal([2, 1, 0], [3, 4, 2], [5, 5, 3], [1, 0, 0]);
  }

  lemma PresetFacts(k: nat)
    requires k < |PRESETS|
    ensures PresetSound(PRESETS[k], PRESET_POINTS[k])
  {
    if k == 0 {
      SecurityAnalystSound();
    } else if k == 1 {
      FullStackDevSound();
    } else if k == 2 {
      AutomationExpertSound();
    } else if k == 3 {
      ResearcherSound();
    } else if k == 4 {
      BalancedSound();
    } else {
      DevopsSound();
    }
  }

  /** Every preset has the catalog's shape and levels in 0..5. */
  lemma PresetTable()
    ensures |PRESETS| == |PRESET_POINTS| == 6
    ensures forall k :: 0 <= k < |PRESETS| ==> PresetSound(PRESETS[k], PRESET_POINTS[k])
  {
    forall k | 0 <= k < |PRESETS|
      ensures PresetSound(PRESETS[k], PRESET_POINTS[k])
    {
      PresetFacts(k);
    }
  }

  datatype PresetResult =
    | PresetNotFound
    | PresetDone(preset: string, specialization: Option<string>, totalPoints: int)

  /** The sum of a matrix's levels, as the two `reduce` expressions compute it. */
  function PresetPoints(p: Preset): int {
    GrandTotal(p.talents)
  }

  /** `applyPreset(presetName, currentData)`: the record it writes, and its result. */
  function ApplyPreset(presetName: string, current: Option<TalentData>, now: string): (r: (PresetResult, Option<TalentData>))
    ensures r.1.None? <==> r.0.PresetNotFound?
    ensures r.1.Some? ==>
      var d := r.1.value;
      && d.pointsAvailable == 0 && d.combosUnlocked == [] && d.preset == Some(presetName)
      && d.lastActivity == now && d.history == [PresetApplied(presetName, now)]
  {
    match FindPreset(PresetKey(presetName))
    case None => (PresetNotFound, None)
    case Some(p) =>
      var sum := PresetPoints(p);
      var d := TalentData(
        version := "1.0.0",
        specialization := p.specialization,
        pointsAvailable := 0,
        totalXP := sum * 100,
        level := 1 + sum / 3,
        talents := p.talents,
        combosUnlocked := [],
        achievements := ["preset_applied"],
        history := [PresetApplied(presetName, now)],
        created := if current.Some? && current.value.created != "" then current.value.created else now,
        lastActivity := now,
        preset := Some(presetName));
      (PresetDone(p.key, p.specialization, d.totalXP / 100), Some(d))
  }

  /** A preset is found exactly when the normalized name is a key of the table; a name that is
      not writes nothing. */
  lemma ApplyPresetFinds(presetName: string, current: Option<TalentData>, now: string)
    ensures var (res, written) := ApplyPreset(presetName, current, now);
      && (res.PresetDone? <==> PresetKey(presetName) in PresetKeys())
      && (written.None? <==> res.PresetNotFound?)
  {
  }

  /** The written record holds the preset's own matrix, spends every point the XP implies on it,
      keeps every level in 0..5, and starts a new history; the reported points are the level
      sum; the creation time is kept when the current record has one. */
  lemma ApplyPresetRecord(presetName: string, current: Option<TalentData>, now: string)
    requires PresetKey(presetName) in PresetKeys()
    ensures var (res, written) := ApplyPreset(presetName, current, now);
      var p, d := FindPreset(PresetKey(presetName)).value, written.value;
      && d.talents == p.talents && CatalogShaped(d.talents) && LevelsInRange(d.talents)
      && d.pointsAvailable == 0
      && d.pointsAvailable + GrandTotal(d.talents) == PointsFor(d.totalXP)
      && res.totalPoints == GrandTotal(d.talents)
      && d.level == 1 + GrandTotal(d.talents) / 3
      && d.combosUnlocked == [] && d.achievements == ["preset_applied"]
      && d.history == [PresetApplied(presetName, now)] && UpgradeCount(d.history) == 0
      && (current.Some? && current.value.created != "" ==> d.created == current.value.created)
      && (current.None? || current.value.created == "" ==> d.created == now)
      && d.preset == Some(presetName) && d.specialization == p.specialization
  {
    var k := IndexOf(PresetKeys(), PresetKey(presetName)).value;
    PresetFacts(k);
    var sum := GrandTotal(PRESETS[k].talents);
    assert sum * 100 / 100 == sum;
    assert UpgradeCount([PresetApplied(presetName, now)]) == 0 by {
      assert [PresetApplied(presetName, now)][..0] == [];
    }
  }

  /** Names differing only in case, underscores or spaces find the same preset. */
  lemma PresetKeyExample()
    ensures PresetKey("Full_Stack Dev") == "full-stack-dev"
  {
  }

  /** The devops preset sets level 9 from its 26 points, while its 2600 XP gives level 6 under
      the XP formula: the preset's level is ahead of its XP. */
  lemma DevopsLevelAheadOfXp(current: Option<TalentData>, now: string)
    ensures var (_, written) := ApplyPreset("devops", current, now);
      && written.Some? && written.value.level == 9 && written.value.totalXP == 2600
      && LevelFor(written.value.totalXP) == 6
  {
    DevopsSound();
    FindDevops();
  }

  /** "devops" names the last preset. */
  lemma FindDevops()
    ensures FindPreset(PresetKey("devops")) == Some(DEVOPS)
  {
    assert PresetKey("devops") == "devops";
    var keys := PresetKeys();
    assert keys[5] == "devops";
    assert forall i :: 0 <= i < 5 ==> |keys[i]| != 6;
    var k := IndexOf(keys, "devops").value;
    assert k == 5;
  }

  /** So the next task award lowers the level of a devops record from 9 to 6. */
  method DevopsThenTask(current: Option<TalentData>, now: string, later: string)
    returns (levelBefore: int, levelAfter: int)
    ensures levelBefore == 9 && levelAfter == 6
  {
    DevopsLevelAheadOfXp(current, now);
    var (_, written) := ApplyPreset("devops", current, now);
    levelBefore := written.value.level;
    var res, saved := AwardTaskXP(written, "normal", later);
    levelAfter := saved.value.level;
  }
}
