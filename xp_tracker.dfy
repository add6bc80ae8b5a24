/** The XP award policy of xp-tracker.js: the skill classifier and its specialization bonus, task
    and achievement awards, the once-a-day bonus, and the combo unlocker. As in the talent
    manager, each operation receives the record the load returned and returns the record the save
    wrote (`None` when nothing was written); `now` is the time of the call. */
module XpTracker {
  import opened Wrappers
  import opened Text
  import opened TalentManager

  // ---------------------------------------------------------------------------------------
  // XP_REWARDS

  const SKILL_USE := 5
  const SKILL_SPECIALIZATION := 10
  const TASK_COMPLETE := 25
  const TASK_COMPLEX := 50
  const DAILY_BONUS := 1
  const ACHIEVEMENT := 50
  const COMBO_UNLOCK := 100

  // ---------------------------------------------------------------------------------------
  // The skill classifier (xp-tracker.js:29-37)

  /** `skillName.toLowerCase().replace(/-/g, '_')` */
  function NormalizeSkill(skill: string): string {
    HyphensToUnderscores(ToLower(skill))
  }

  /** Whether keyword `k` of a keyword table, with its hyphens underscored, occurs in `name`. */
  predicate KeywordMatches(table: seq<(string, string)>, name: string, k: nat)
    requires k < |table|
  {
    Contains(name, HyphensToUnderscores(table[k].0))
  }

  /** The first keyword of `table` at or after position `i` that occurs in `name`. */
  function FirstKeywordFrom(table: seq<(string, string)>, name: string, i: nat): (r: Option<nat>)
    requires i <= |table|
    ensures r.Some? ==> i <= r.value < |table| && KeywordMatches(table, name, r.value)
    ensures r.Some? ==> forall k :: i <= k < r.value ==> !KeywordMatches(table, name, k)
    ensures r.None? <==> forall k :: i <= k < |table| ==> !KeywordMatches(table, name, k)
    decreases |table| - i
  {
    if i == |table| then None
    else if KeywordMatches(table, name, i) then Some(i)
    else FirstKeywordFrom(table, name, i + 1)
  }

  /** A keyword that matches, with none matching before it, is the one found. */
  lemma FirstMatch(table: seq<(string, string)>, name: string, k: nat)
    requires k < |table| && KeywordMatches(table, name, k)
    requires forall j :: 0 <= j < k ==> !KeywordMatches(table, name, j)
    ensures FirstKeywordFrom(table, name, 0) == Some(k)
  {
  }

  /** The branch of a skill: that of the first keyword, in declaration order, found in it. */
  function Classify(skill: string): Option<string> {
    match FirstKeywordFrom(SKILL_TO_BRANCH, NormalizeSkill(skill), 0)
    case None => None
    case Some(k) => Some(SKILL_TO_BRANCH[k].1)
  }

  /** "git-audit" is a security skill: "audit" is declared before "git". */
  lemma ClassifyGitAudit()
    ensures Classify("git-audit") == Some("security")
  {
    var name := NormalizeSkill("git-audit");
    ToLowerFixed("git-audit");
    assert "git-audit" == "git" + "-" + "audit";
    HyphenJoined("git", "audit");
    assert name == "git_audit";
    KeywordsBeforeGit(name);
    LeadingKeywords();
    assert SKILL_TO_BRANCH[7] == SKILL_TO_BRANCH[..9][7];
    NoHyphensFixed("audit");
    ContainsAt(name, "audit", 4);
    FirstMatch(SKILL_TO_BRANCH, name, 7);
  }

  /** The first nine entries of the keyword table. */
  lemma LeadingKeywords()
    ensures |SKILL_TO_BRANCH| == 34
    ensures SKILL_TO_BRANCH[..9] == [
      ("clawdstrike", "security"), ("skillguard", "security"), ("prompt-guard", "security"),
      ("healthcheck", "security"), ("security", "security"), ("agent-security", "security"),
      ("threat", "security"), ("audit", "security"), ("git", "development")]
  {
  }

  /** None of the seven keywords declared before "audit" occurs in a name built only from the
      letters g, i, t, a, u, d and the underscore. */
  lemma KeywordsBeforeGit(name: string)
    requires forall c :: c in name ==> c in "git_audit"
    ensures forall k :: 0 <= k < 7 ==> !KeywordMatches(SKILL_TO_BRANCH, name, k)
  {
    LeadingKeywords();
    forall k | 0 <= k < 7
      ensures !KeywordMatches(SKILL_TO_BRANCH, name, k)
    {
      assert SKILL_TO_BRANCH[k] == SKILL_TO_BRANCH[..9][k];
      var c := if k == 2 then 'p' else if k == 3 || k == 6 then 'h' else if k == 0 then 'c' else 's';
      assert c in SKILL_TO_BRANCH[k].0;
      KeywordAbsent(name, k, c);
    }
  }

  /** Keyword `k` holds a character, other than a hyphen, that `name` lacks, so it does not
      match. */
  lemma KeywordAbsent(name: string, k: nat, c: char)
    requires k < |SKILL_TO_BRANCH| && c in SKILL_TO_BRANCH[k].0 && c != '-' && c !in name
    ensures !KeywordMatches(SKILL_TO_BRANCH, name, k)
  {
    var raw := SKILL_TO_BRANCH[k].0;
    var i :| 0 <= i < |raw| && raw[i] == c;
    assert HyphensToUnderscores(raw)[i] == c;
    MissingChar(name, HyphensToUnderscores(raw), c);
  }

  // ---------------------------------------------------------------------------------------
  // awardSkillXP (xp-tracker.js:24-81)

  /** The XP per use: 5, or `Math.floor(5 * 1.2) + 10` in the specialization's branch. The
      floating-point product is exactly 6, which is `5 * 12 / 10` on integers. */
  function SkillAward(specialization: Option<string>, branch: string): (xp: int)
    ensures specialization == Some(branch) ==> xp == 16
    ensures specialization != Some(branch) ==> xp == SKILL_USE == 5
  {
    if specialization == Some(branch) then SKILL_USE * 12 / 10 + SKILL_SPECIALIZATION else SKILL_USE
  }

  datatype SkillResult =
    | SkillNoData
    | SkillUnmapped
    | SkillAwarded(awarded: int, branch: string, totalXP: int, level: int, leveledUp: bool, newPoint: bool)

  /** How the award sets the points held: the code overwrites them with the points crossed; the
      evident intent is to add the points crossed, as `addXP` does. */
  datatype PointRule = Overwrite | Accumulate

  function SkillPoints(rule: PointRule, d: TalentData, xp: int): int {
    var total := d.totalXP + xp;
    var crossed := PointsFor(total) - PointsFor(total - xp);
    match rule
    case Overwrite => crossed
    case Accumulate => d.pointsAvailable + crossed
  }

  /** The record after a skill of `branch` earned `xp`, before the save stamps it. */
  function SkillRecord(rule: PointRule, d: TalentData, skill: string, branch: string, xp: int, now: string): TalentData {
    var total := d.totalXP + xp;
    d.(totalXP := total,
       level := LevelFor(total),
       pointsAvailable := SkillPoints(rule, d, xp),
       history := d.history + [SkillXp(skill, branch, xp, now)])
  }

  /** What `awardSkillXP(skill)` returns and saves under the given point rule. */
  function SkillOutcome(rule: PointRule, data: Option<TalentData>, skill: string, now: string): (r: (SkillResult, Option<TalentData>))
    ensures r.1.None? <==> data.None? || Classify(skill).None?
    ensures r.1.Some? ==> r.0.SkillAwarded? && r.1.value.talents == data.value.talents && r.1.value.lastActivity == now
  {
    if data.None? then (SkillNoData, None)
    else match Classify(skill)
      case None => (SkillUnmapped, None)
      case Some(branch) =>
        var (res, d') := SkillGain(rule, data.value, skill, branch, now);
        (res, Some(Saved(d', now)))
  }

  /** The award of a skill classified into `branch`, and the record after it. */
  function SkillGain(rule: PointRule, d: TalentData, skill: string, branch: string, now: string): (SkillResult, TalentData) {
    var xp := SkillAward(d.specialization, branch);
    var d' := SkillRecord(rule, d, skill, branch, xp, now);
    (SkillAwarded(xp, branch, d'.totalXP, d'.level, d'.level > d.level, d'.pointsAvailable > d.pointsAvailable), d')
  }

  /** The classifier loop: tries the keywords in declaration order and stops at the first one
      that occurs in the normalized name. */
  method ClassifySkill(skillName: string) returns (branch: Option<string>)
    ensures branch == Classify(skillName)
  {
    var normalizedSkill := NormalizeSkill(skillName);
    branch := None;
    var i := 0;
    while i < |SKILL_TO_BRANCH|
      invariant 0 <= i <= |SKILL_TO_BRANCH|
      invariant branch.None?
      invariant FirstKeywordFrom(SKILL_TO_BRANCH, normalizedSkill, 0) == FirstKeywordFrom(SKILL_TO_BRANCH, normalizedSkill, i)
    {
      if Contains(normalizedSkill, HyphensToUnderscores(SKILL_TO_BRANCH[i].0)) {
        branch := Some(SKILL_TO_BRANCH[i].1);
        break;
      }
      i := i + 1;
    }
  }

  /** `awardSkillXP(skillName)`: the classifier loop, then the award, with the points crossed
      added to those held (the code as written overwrites them; see `SkillAwardDiscardsHeldPoints`). */
  method AwardSkillXP(data: Option<TalentData>, skillName: string, now: string)
    returns (res: SkillResult, saved: Option<TalentData>)
    ensures (res, saved) == SkillOutcome(Accumulate, data, skillName, now)
  {
    if data.None? {
      return SkillNoData, None;
    }
    var branch := ClassifySkill(skillName);
    if branch.None? {
      return SkillUnmapped, None;
    }
    var d;
    res, d := ApplySkillXp(data.value, skillName, branch.value, now);
    saved := Some(Saved(d, now));
  }

  /** The bonus and the update of `awardSkillXP`, once the branch is known. */
  method ApplySkillXp(data: TalentData, skillName: string, branch: string, now: string)
    returns (res: SkillResult, d: TalentData)
    ensures (res, d) == SkillGain(Accumulate, data, skillName, branch, now)
  {
    d := data;
    var xp := SKILL_USE;
    if d.specialization == Some(branch) {
      xp := xp * 12 / 10;
      xp := xp + SKILL_SPECIALIZATION;
    }
    var oldLevel := d.level;
    var oldPoints := d.pointsAvailable;
    d := d.(totalXP := d.totalXP + xp);
    d := d.(level := LevelFor(d.totalXP));
    d := d.(pointsAvailable := d.pointsAvailable + PointsFor(d.totalXP) - PointsFor(d.totalXP - xp));
    d := d.(history := d.history + [SkillXp(skillName, branch, xp, now)]);
    res := SkillAwarded(xp, branch, d.totalXP, d.level, d.level > oldLevel, d.pointsAvailable > oldPoints);
  }

  /** An awarded skill adds 5 or 16 XP (16 exactly in the specialization's branch) to the total,
      sets the level from the total and logs one event; an unmapped skill, or a missing record,
      writes nothing. Under the code's rule the points held become 0 or 1. */
  lemma SkillOutcomeProperties(rule: PointRule, data: Option<TalentData>, skill: string, now: string)
    ensures var (res, saved) := SkillOutcome(rule, data, skill, now);
      && (saved.None? <==> data.None? || Classify(skill).None?)
      && (res.SkillAwarded? ==>
            data.Some? && saved.Some? &&
            var d, d' := data.value, saved.value;
            && Classify(skill) == Some(res.branch)
            && res.awarded == (if d.specialization == Some(res.branch) then 16 else 5)
            && d'.totalXP == res.totalXP == d.totalXP + res.awarded
            && LevelConsistent(d') && d'.level == res.level
            && d'.history == d.history + [SkillXp(skill, res.branch, res.awarded, now)]
            && d'.talents == d.talents
            && (rule == Overwrite ==> 0 <= d'.pointsAvailable <= 1))
  {
    var (res, saved) := SkillOutcome(rule, data, skill, now);
    if res.SkillAwarded? {
      var d := data.value;
      var t := d.totalXP + res.awarded;
      assert t - res.awarded == d.totalXP;
      assert PointsFor(t) <= PointsFor(d.totalXP) + 1 by {
        assert t < 100 * (PointsFor(d.totalXP) + 2);
      }
    }
  }

  /** As written, a skill award discards every point held: the ledger drops by exactly the
      points the record held before the award. */
  lemma SkillAwardDiscardsHeldPoints(data: Option<TalentData>, skill: string, now: string)
    requires data.Some? && Classify(skill).Some?
    ensures var (_, saved) := SkillOutcome(Overwrite, data, skill, now);
      Ledger(saved.value) == Ledger(data.value) - data.value.pointsAvailable
  {
    var d, branch := data.value, Classify(skill).value;
    var xp := SkillAward(d.specialization, branch);
    assert d.totalXP + xp - xp == d.totalXP;
    LedgerAfterEvent(d, SkillXp(skill, branch, xp, now));
  }

  /** A player holding 3 unspent points who uses a git skill is left with none. */
  lemma SkillAwardLosesPointsExample(now: string)
    ensures var d := TalentData("1.0.0", None, 3, 0, 1, [], [], [], [], "", "", None);
      var (res, saved) := SkillOutcome(Overwrite, Some(d), "git", now);
      res.SkillAwarded? && saved.value.pointsAvailable == 0 && Ledger(saved.value) == Ledger(d) - 3
  {
    ClassifyGit();
    var d := TalentData("1.0.0", None, 3, 0, 1, [], [], [], [], "", "", None);
    SkillAwardDiscardsHeldPoints(Some(d), "git", now);
    assert SkillAward(None, "development") == 5;
    assert PointsFor(5) == 0;
  }

  /** "git" is a development skill. */
  lemma ClassifyGit()
    ensures Classify("git") == Some("development")
  {
    var name := NormalizeSkill("git");
    ToLowerFixed("git");
    NoHyphensFixed("git");
    assert name == "git";
    KeywordsBeforeGit(name);
    LeadingKeywords();
    assert SKILL_TO_BRANCH[7] == SKILL_TO_BRANCH[..9][7];
    NoHyphensFixed("audit");
    MissingChar(name, "audit", 'a');
    assert SKILL_TO_BRANCH[8] == SKILL_TO_BRANCH[..9][8];
    assert name <= name;
    assert KeywordMatches(SKILL_TO_BRANCH, name, 8);
    FirstMatch(SKILL_TO_BRANCH, name, 8);
    assert KeywordMatches(SKILL_TO_BRANCH, name, 8);
  }

  /** With the points crossed added instead, a skill award keeps the ledger and never lowers the
      points held, like `addXP`. */
  lemma AccumulatedSkillAwardKeepsLedger(data: Option<TalentData>, skill: string, now: string)
    requires data.Some? && Classify(skill).Some?
    ensures var (_, saved) := SkillOutcome(Accumulate, data, skill, now);
      && Ledger(saved.value) == Ledger(data.value)
      && saved.value.pointsAvailable >= data.value.pointsAvailable
  {
    var d, branch := data.value, Classify(skill).value;
    var xp := SkillAward(d.specialization, branch);
    assert d.totalXP + xp - xp == d.totalXP;
    LedgerAfterEvent(d, SkillXp(skill, branch, xp, now));
  }

  // ---------------------------------------------------------------------------------------
  // awardTaskXP (xp-tracker.js:86-111)

  datatype TaskResult = TaskNoData | TaskAwarded(awarded: int, totalXP: int, level: int, pointsAvailable: int)

  /** `awardTaskXP(taskType)`: 50 XP for a complex task, 25 otherwise; level and points are both
      recomputed from the new total, which re-grants every point spent on upgrades. */
  method AwardTaskXP(data: Option<TalentData>, taskType: string, now: string)
    returns (res: TaskResult, saved: Option<TalentData>)
    ensures data.None? ==> res == TaskNoData && saved.None?
    ensures data.Some? ==>
      var d := data.value;
      var xp := if taskType == "complex" then TASK_COMPLEX else TASK_COMPLETE;
      var d' := d.(totalXP := d.totalXP + xp, level := LevelFor(d.totalXP + xp),
                   pointsAvailable := PointsFor(d.totalXP + xp),
                   history := d.history + [TaskXp(taskType, xp, now)]);
      && saved == Some(Saved(d', now))
      && res == TaskAwarded(xp, d'.totalXP, d'.level, d'.pointsAvailable)
    ensures saved.Some? ==>
      data.Some? &&
      var d, d' := data.value, saved.value;
      && res.awarded == (if taskType == "complex" then 50 else 25)
      && LevelConsistent(d')
      && d'.pointsAvailable == PointsFor(d'.totalXP)
      && Ledger(d') == UpgradeCount(d.history)
      && d'.talents == d.talents
  {
    if data.None? {
      return TaskNoData, None;
    }
    var d := data.value;
    var xp := if taskType == "complex" then TASK_COMPLEX else TASK_COMPLETE;
    d := d.(totalXP := d.totalXP + xp);
    d := d.(level := LevelFor(d.totalXP));
    d := d.(pointsAvailable := PointsFor(d.totalXP));
    d := d.(history := d.history + [TaskXp(taskType, xp, now)]);
    saved := Some(Saved(d, now));
    res := TaskAwarded(xp, d.totalXP, d.level, d.pointsAvailable);
    LedgerAfterEvent(data.value, TaskXp(taskType, xp, now));
  }

  // ---------------------------------------------------------------------------------------
  // awardAchievement (xp-tracker.js:116-144)

  datatype AchievementResult =
    | AchievementNoData
    | AlreadyUnlocked
    | AchievementAwarded(awarded: int, achievement: string, totalXP: int, level: int)

  /** `awardAchievement(name)`: an achievement already held earns nothing and writes nothing;
      otherwise it is added once, earns 50 XP, and level and points are recomputed from the
      total. */
  method AwardAchievement(data: Option<TalentData>, name: string, now: string)
    returns (res: AchievementResult, saved: Option<TalentData>)
    ensures data.None? ==> res == AchievementNoData && saved.None?
    ensures data.Some? && name in data.value.achievements ==> res == AlreadyUnlocked && saved.None?
    ensures data.Some? && name !in data.value.achievements ==>
      var d := data.value;
      var d' := d.(achievements := d.achievements + [name], totalXP := d.totalXP + ACHIEVEMENT,
                   level := LevelFor(d.totalXP + ACHIEVEMENT), pointsAvailable := PointsFor(d.totalXP + ACHIEVEMENT),
                   history := d.history + [AchievementUnlocked(name, ACHIEVEMENT, now)]);
      && saved == Some(Saved(d', now))
      && res == AchievementAwarded(ACHIEVEMENT, name, d'.totalXP, d'.level)
    ensures saved.Some? ==>
      data.Some? &&
      var d, d' := data.value, saved.value;
      && name !in d.achievements && name in d'.achievements
      && (NoDup(d.achievements) ==> NoDup(d'.achievements))
      && d'.totalXP == d.totalXP + 50
      && LevelConsistent(d') && d'.pointsAvailable == PointsFor(d'.totalXP)
      && Ledger(d') == UpgradeCount(d.history)
  {
    if data.None? {
      return AchievementNoData, None;
    }
    var d := data.value;
    if name in d.achievements {
      return AlreadyUnlocked, None;
    }
    if NoDup(d.achievements) {
      AppendFreshKeepsNoDup(d.achievements, name);
    }
    d := d.(achievements := d.achievements + [name]);
    d := d.(totalXP := d.totalXP + ACHIEVEMENT);
    d := d.(level := LevelFor(d.totalXP));
    d := d.(pointsAvailable := PointsFor(d.totalXP));
    d := d.(history := d.history + [AchievementUnlocked(name, ACHIEVEMENT, now)]);
    saved := Some(Saved(d, now));
    res := AchievementAwarded(ACHIEVEMENT, name, d.totalXP, d.level);
    LedgerAfterEvent(data.value, AchievementUnlocked(name, ACHIEVEMENT, now));
  }

  // ---------------------------------------------------------------------------------------
  // dailyBonus (xp-tracker.js:149-174)

  /** The calendar day of an ISO timestamp: `now.split('T')[0]`. */
  function Today(now: string): string {
    BeforeFirst(now, 'T')
  }

  /** Some `daily_bonus` event of the history has a timestamp starting with `today`. */
  predicate BonusClaimedOn(h: seq<Event>, today: string) {
    exists i :: 0 <= i < |h| && h[i].DailyBonus? && today <= h[i].timestamp
  }

  datatype DailyResult = DailyNoData | AlreadyClaimed | DailyAwarded(awarded: int)

  /** `dailyBonus()`: 1 XP and one event, unless a bonus was already logged today; level and
      points are left as they were. */
  method DailyBonus(data: Option<TalentData>, now: string)
    returns (res: DailyResult, saved: Option<TalentData>)
    ensures data.None? ==> res == DailyNoData && saved.None?
    ensures data.Some? && BonusClaimedOn(data.value.history, Today(now)) ==> res == AlreadyClaimed && saved.None?
    ensures data.Some? && !BonusClaimedOn(data.value.history, Today(now)) ==>
      var d := data.value;
      && res == DailyAwarded(DAILY_BONUS)
      && saved == Some(Saved(d.(totalXP := d.totalXP + DAILY_BONUS,
                                history := d.history + [Event.DailyBonus(DAILY_BONUS, now)]), now))
    ensures saved.Some? ==>
      data.Some? &&
      var d, d' := data.value, saved.value;
      && BonusClaimedOn(d'.history, Today(now))
      && d'.level == d.level && d'.pointsAvailable == d.pointsAvailable
      && Ledger(d') == Ledger(d) - (PointsFor(d.totalXP + 1) - PointsFor(d.totalXP))
  {
    if data.None? {
      return DailyNoData, None;
    }
    var d := data.value;
    var today := Today(now);
    if BonusClaimedOn(d.history, today) {
      return AlreadyClaimed, None;
    }
    d := d.(totalXP := d.totalXP + DAILY_BONUS);
    d := d.(history := d.history + [Event.DailyBonus(DAILY_BONUS, now)]);
    saved := Some(Saved(d, now));
    res := DailyAwarded(DAILY_BONUS);
    assert d.history[|d.history| - 1] == Event.DailyBonus(DAILY_BONUS, now);
    LedgerAfterEvent(data.value, Event.DailyBonus(DAILY_BONUS, now));
  }

  /** A second bonus on the same calendar day earns nothing and writes nothing. */
  method DailyBonusTwice(data: Option<TalentData>, now: string, later: string)
    returns (first: DailyResult, second: DailyResult, saved: Option<TalentData>)
    requires Today(later) == Today(now)
    ensures second != DailyAwarded(DAILY_BONUS) && saved.None?
    ensures data.Some? ==> second == AlreadyClaimed
  {
    var saved1;
    first, saved1 := DailyBonus(data, now);
    second, saved := DailyBonus(After(data, saved1), later);
  }

  // ---------------------------------------------------------------------------------------
  // checkAndUnlockCombos (xp-tracker.js:179-202)

  /** The `combo_unlock` events logged for `combos`, in order. */
  function ComboEvents(combos: seq<string>, now: string): (es: seq<Event>)
    ensures |es| == |combos|
    ensures forall i :: 0 <= i < |combos| ==> es[i] == ComboUnlock(combos[i], COMBO_UNLOCK, now)
  {
    seq(|combos|, i requires 0 <= i < |combos| => ComboUnlock(combos[i], COMBO_UNLOCK, now))
  }

  /** The record after `combos` are unlocked, before the save stamps it. */
  function Unlocked(d: TalentData, combos: seq<string>, now: string): TalentData {
    d.(combosUnlocked := d.combosUnlocked + combos,
       totalXP := d.totalXP + COMBO_UNLOCK * |combos|,
       history := d.history + ComboEvents(combos, now))
  }

  /** `checkAndUnlockCombos()`: unlocks every combo `checkCombos` reports, 100 XP and one event
      each, and saves only when there was one. Reading a record that lacks one of the four
      branches throws in the code, so such a record is excluded. */
  method CheckAndUnlockCombos(data: Option<TalentData>, now: string)
    returns (combos: seq<string>, saved: Option<TalentData>)
    requires data.Some? ==> HasCatalogBranches(data.value.talents)
    ensures data.None? ==> combos == [] && saved.None?
    ensures data.Some? ==>
      && combos == CheckCombos(data.value)
      && saved == (if combos == [] then None else Some(Saved(Unlocked(data.value, combos, now), now)))
  {
    if data.None? {
      return [], None;
    }
    var newCombos := CheckCombos(data.value);
    var d := UnlockEach(data.value, newCombos, now);
    combos := newCombos;
    if |newCombos| > 0 {
      saved := Some(Saved(d, now));
    } else {
      saved := None;
    }
  }

  /** The loop of `checkAndUnlockCombos`: per combo, the name, 100 XP and one event. */
  method UnlockEach(data: TalentData, newCombos: seq<string>, now: string) returns (d: TalentData)
    ensures d == Unlocked(data, newCombos, now)
  {
    d := data;
    var i := 0;
    while i < |newCombos|
      invariant 0 <= i <= |newCombos|
      invariant d == Unlocked(data, newCombos[..i], now)
    {
      assert newCombos[..i + 1] == newCombos[..i] + [newCombos[i]];
      assert ComboEvents(newCombos[..i + 1], now) == ComboEvents(newCombos[..i], now) + [ComboUnlock(newCombos[i], COMBO_UNLOCK, now)];
      d := d.(combosUnlocked := d.combosUnlocked + [newCombos[i]]);
      d := d.(totalXP := d.totalXP + COMBO_UNLOCK);
      d := d.(history := d.history + [ComboUnlock(newCombos[i], COMBO_UNLOCK, now)]);
      i := i + 1;
    }
    assert newCombos[..i] == newCombos;
  }

  /** After the unlock nothing is left to unlock, and the unlocked list holds exactly the combos
      held before and those newly qualified. */
  lemma UnlockedLeavesNothing(d: TalentData, now: string)
    requires HasCatalogBranches(d.talents)
    ensures var d' := Unlocked(d, CheckCombos(d), now);
      && HasCatalogBranches(d'.talents)
      && CheckCombos(d') == []
      && (forall c :: c in d'.combosUnlocked <==> c in d.combosUnlocked || NewlyQualified(d, c))
  {
    var d' := Unlocked(d, CheckCombos(d), now);
    assert d'.talents == d.talents;
    CheckCombosExact(d);
    CheckCombosExact(d');
    assert forall c :: c !in CheckCombos(d');
  }

  /** The unlock never lists a combo twice. */
  lemma UnlockedNoDup(d: TalentData, now: string)
    requires HasCatalogBranches(d.talents) && NoDup(d.combosUnlocked)
    ensures NoDup(Unlocked(d, CheckCombos(d), now).combosUnlocked)
  {
    var combos := CheckCombos(d);
    CheckCombosExact(d);
    CheckCombosOrdered(d);
    forall i, j | 0 <= i < j < |combos|
      ensures combos[i] != combos[j]
    {
      assert Rank(combos[i]) < Rank(combos[j]);
    }
    var u := d.combosUnlocked + combos;
    forall i, j | 0 <= i < j < |u|
      ensures u[i] != u[j]
    {
      if j >= |d.combosUnlocked| && i < |d.combosUnlocked| {
        assert u[j] in combos;
        assert !NewlyQualified(d, u[i]);
      }
    }
  }

  /** Each combo's 100 XP crosses exactly one 100-boundary and grants no point: the ledger drops
      by one per combo unlocked. */
  lemma UnlockedLedger(d: TalentData, combos: seq<string>, now: string)
    ensures Ledger(Unlocked(d, combos, now)) == Ledger(d) - |combos|
    ensures Unlocked(d, combos, now).talents == d.talents
  {
    UpgradeCountAppend(d.history, ComboEvents(combos, now));
    ComboEventsNoUpgrade(combos, now);
    assert PointsFor(d.totalXP + COMBO_UNLOCK * |combos|) == PointsFor(d.totalXP) + |combos|;
  }

  lemma {:induction false} ComboEventsNoUpgrade(combos: seq<string>, now: string)
    ensures UpgradeCount(ComboEvents(combos, now)) == 0
  {
    if |combos| > 0 {
      var n := |combos|;
      assert ComboEvents(combos, now)[..n - 1] == ComboEvents(combos[..n - 1], now);
      ComboEventsNoUpgrade(combos[..n - 1], now);
    }
  }

  /** An immediate second call finds nothing and writes nothing. */
  method UnlockTwice(data: Option<TalentData>, now: string, later: string)
    returns (first: seq<string>, second: seq<string>, saved: Option<TalentData>)
    requires data.Some? ==> HasCatalogBranches(data.value.talents)
    ensures second == [] && saved.None?
  {
    var saved1;
    first, saved1 := CheckAndUnlockCombos(data, now);
    if data.Some? {
      UnlockedLeavesNothing(data.value, now);
    }
    second, saved := CheckAndUnlockCombos(After(data, saved1), later);
  }
}
