/** The talent record and the progression engine of talent-manager.js: the static catalogs, the
    record as the storage layer persists it, and the operations `addXP`, `upgradeTalent`,
    `setSpecialization` and `checkCombos`.

    Storage (`loadTalentData`/`saveTalentData`) is a parameter: every operation receives
    `data`, the record `loadTalentData` returned (`None` when there is none), and returns `saved`,
    the record `saveTalentData` wrote (`None` when nothing was written). The record is parsed
    afresh by every load, so the code's in-place updates of it are updates of a local value. */
module TalentManager {
  import opened Wrappers
  import opened Text

  // ---------------------------------------------------------------------------------------
  // Catalogs

  /** One entry of `TREES`: a branch and its three talent ids (emoji and colour left out). */
  datatype Tree = Tree(branch: string, talents: seq<string>)

  const TREES: seq<Tree> := [
    Tree("security", ["threat_scanner", "audit_master", "clawdstrike_ultimate"]),
    Tree("development", ["code_architect", "git_master", "refactor_legendary"]),
    Tree("automation", ["workflow_builder", "cron_master", "auto_evolver"]),
    Tree("research", ["web_hunter", "data_miner", "knowledge_synthesizer"])
  ]

  /** The keys of `TREES`, in declaration order. */
  const BRANCHES: seq<string> := ["security", "development", "automation", "research"]

  /** `SKILL_TO_BRANCH`, keyword to branch, in declaration order (the order the classifier tries). */
  const SKILL_TO_BRANCH: seq<(string, string)> := [
    ("clawdstrike", "security"), ("skillguard", "security"), ("prompt-guard", "security"),
    ("healthcheck", "security"), ("security", "security"), ("agent-security", "security"),
    ("threat", "security"), ("audit", "security"),
    ("git", "development"), ("github", "development"), ("git-summary", "development"),
    ("git-workflows", "development"), ("gitai", "development"), ("coding-agent", "development"),
    ("manim", "development"), ("refactor", "development"), ("code", "development"),
    ("cron", "automation"), ("agent-orchestrator", "automation"), ("cc-godmode", "automation"),
    ("evolver", "automation"), ("deployment", "automation"), ("deploy", "automation"),
    ("docker", "automation"), ("workflow", "automation"), ("auto", "automation"),
    ("web_search", "research"), ("web_fetch", "research"), ("memory", "research"),
    ("tenzing", "research"), ("moltbook", "research"), ("search", "research"),
    ("research", "research"), ("data", "research")
  ]

  // ---------------------------------------------------------------------------------------
  // The record

  /** One `talent_id: level` entry of a branch object. */
  datatype Slot = Slot(talent: string, level: int)

  /** One `branch: { ... }` entry of `talents`; string keys keep their insertion order. */
  datatype Branch = Branch(name: string, slots: seq<Slot>)

  /** The entries of `history`, one constructor per `action`. */
  datatype Event =
    | XpGained(amount: int, source: string, timestamp: string)
    | Upgrade(talent: string, branch: string, newLevel: int, timestamp: string)
    | SpecializationChange(fromSpec: Option<string>, toSpec: string, timestamp: string)
    | SkillXp(skill: string, branch: string, xp: int, timestamp: string)
    | TaskXp(taskType: string, xp: int, timestamp: string)
    | AchievementUnlocked(name: string, xp: int, timestamp: string)
    | DailyBonus(xp: int, timestamp: string)
    | ComboUnlock(combo: string, xp: int, timestamp: string)
    | Reset(timestamp: string)
    | PresetApplied(preset: string, timestamp: string)

  /** The persisted document. `created` is the empty string when the document has none. */
  datatype TalentData = TalentData(
    version: string,
    specialization: Option<string>,
    pointsAvailable: int,
    totalXP: int,
    level: int,
    talents: seq<Branch>,
    combosUnlocked: seq<string>,
    achievements: seq<string>,
    history: seq<Event>,
    created: string,
    lastActivity: string,
    preset: Option<string>)

  /** What `saveTalentData` writes: the record stamped with the time of the write. */
  function Saved(d: TalentData, now: string): TalentData {
    d.(lastActivity := now)
  }

  /** The record the next load returns after an operation that saved `saved` (or nothing). */
  function After(data: Option<TalentData>, saved: Option<TalentData>): Option<TalentData> {
    if saved.Some? then saved else data
  }

  // ---------------------------------------------------------------------------------------
  // Lookups and totals

  /** The first position of `x` in `xs`. */
  function IndexOf<T(==)>(xs: seq<T>, x: T): (r: Option<nat>)
    ensures r.Some? ==> r.value < |xs| && xs[r.value] == x && x !in xs[..r.value]
    ensures r.None? <==> x !in xs
  {
    if |xs| == 0 then None
    else if xs[0] == x then Some(0)
    else match IndexOf(xs[1..], x)
      case None => None
      case Some(k) =>
        assert xs[..k + 1] == [xs[0]] + xs[1..][..k];
        Some(k + 1)
  }

  function BranchNames(t: seq<Branch>): seq<string> {
    seq(|t|, i requires 0 <= i < |t| => t[i].name)
  }

  function TalentIds(slots: seq<Slot>): seq<string> {
    seq(|slots|, i requires 0 <= i < |slots| => slots[i].talent)
  }

  /** Every talent key of every branch, in record order. */
  function AllTalentIds(t: seq<Branch>): seq<string> {
    if |t| == 0 then [] else TalentIds(t[0].slots) + AllTalentIds(t[1..])
  }

  /** `talents[name]`: the position of the branch called `name`. */
  function FindBranch(t: seq<Branch>, name: string): Option<nat> {
    IndexOf(BranchNames(t), name)
  }

  /** `branch[talent]`: the position of the slot of `talent`. */
  function FindSlot(slots: seq<Slot>, talent: string): Option<nat> {
    IndexOf(TalentIds(slots), talent)
  }

  predicate HasBranch(t: seq<Branch>, name: string) {
    name in BranchNames(t)
  }

  /** The four branches that `checkCombos` reads by name; reading a missing one throws. */
  predicate HasCatalogBranches(t: seq<Branch>) {
    HasBranch(t, "security") && HasBranch(t, "development")
    && HasBranch(t, "automation") && HasBranch(t, "research")
  }

  /** The record has exactly the shape of `TREES`: its branches and talent ids, in order. */
  predicate CatalogShaped(t: seq<Branch>) {
    |t| == |TREES|
    && forall i :: 0 <= i < |t| ==> t[i].name == TREES[i].branch && TalentIds(t[i].slots) == TREES[i].talents
  }

  /** Same branches and talent keys, in the same order; only levels may differ. */
  predicate SameShape(a: seq<Branch>, b: seq<Branch>) {
    BranchNames(a) == BranchNames(b)
    && forall i :: 0 <= i < |a| ==> TalentIds(a[i].slots) == TalentIds(b[i].slots)
  }

  /** Every level lies in 0..5. */
  predicate LevelsInRange(t: seq<Branch>) {
    forall i, j :: 0 <= i < |t| && 0 <= j < |t[i].slots| ==> 0 <= t[i].slots[j].level <= 5
  }

  /** `Object.values(branch).reduce((a, b) => a + b, 0)` */
  function SlotSum(slots: seq<Slot>): int {
    if |slots| == 0 then 0 else SlotSum(slots[..|slots| - 1]) + slots[|slots| - 1].level
  }

  /** The sum of every level of every branch. */
  function GrandTotal(t: seq<Branch>): int {
    if |t| == 0 then 0 else GrandTotal(t[..|t| - 1]) + SlotSum(t[|t| - 1].slots)
  }

  function BranchTotal(t: seq<Branch>, name: string): int
    requires HasBranch(t, name)
  {
    SlotSum(t[FindBranch(t, name).value].slots)
  }

  /** Level as the code derives it from the total: `Math.floor(total_xp / 500) + 1`
      (Dafny's `/` rounds down for a positive divisor, like `Math.floor`). */
  function LevelFor(xp: int): int {
    xp / 500 + 1
  }

  /** Points granted by a total: one per 100 XP, `Math.floor(total_xp / 100)`. */
  function PointsFor(xp: int): int {
    xp / 100
  }

  predicate LevelConsistent(d: TalentData) {
    d.level == LevelFor(d.totalXP)
  }

  predicate NoDup<T(==)>(xs: seq<T>) {
    forall i, j :: 0 <= i < j < |xs| ==> xs[i] != xs[j]
  }

  lemma AppendFreshKeepsNoDup<T>(xs: seq<T>, x: T)
    requires NoDup(xs) && x !in xs
    ensures NoDup(xs + [x])
  {
  }

  /** The number of successful upgrades the history records. */
  function UpgradeCount(h: seq<Event>): nat {
    if |h| == 0 then 0 else UpgradeCount(h[..|h| - 1]) + (if h[|h| - 1].Upgrade? then 1 else 0)
  }

  lemma {:induction false} UpgradeCountAppend(h: seq<Event>, es: seq<Event>)
    ensures UpgradeCount(h + es) == UpgradeCount(h) + UpgradeCount(es)
  {
    if |es| == 0 {
      assert h + es == h;
    } else {
      assert (h + es)[..|h + es| - 1] == h + es[..|es| - 1];
      UpgradeCountAppend(h, es[..|es| - 1]);
    }
  }

  /** The point ledger: points held, plus points spent on upgrades, minus one point per 100 XP.
      It stays constant exactly when every point granted by XP is either held or spent. */
  function Ledger(d: TalentData): int {
    d.pointsAvailable + UpgradeCount(d.history) - PointsFor(d.totalXP)
  }

  /** The ledger of a record after `e` is logged, when `e` is not an upgrade. */
  lemma LedgerAfterEvent(d: TalentData, e: Event)
    ensures UpgradeCount(d.history + [e]) == UpgradeCount(d.history) + (if e.Upgrade? then 1 else 0)
  {
    UpgradeCountAppend(d.history, [e]);
    assert [e][..0] == [];
  }

  /** Every 500-boundary is a 100-boundary: the hundreds of a total determine its level. */
  lemma HundredsDetermineLevel(x: int)
    ensures LevelFor(x) == PointsFor(x) / 5 + 1
  {
    var q := x / 100;
    var a := q / 5;
    assert x == 100 * q + x % 100;
    assert q == 5 * a + q % 5;
    assert x == 500 * a + (100 * (q % 5) + x % 100);
  }

  // ---------------------------------------------------------------------------------------
  // Updating one level

  /** `talents[branch][talent] = v` */
  function SetLevel(t: seq<Branch>, b: nat, s: nat, v: int): (t': seq<Branch>)
    requires b < |t| && s < |t[b].slots|
    ensures SameShape(t', t)
    ensures t'[b].slots[s].level == v
    ensures forall i, j :: 0 <= i < |t| && 0 <= j < |t[i].slots| && (i, j) != (b, s) ==>
      t'[i].slots[j] == t[i].slots[j]
  {
    t[b := t[b].(slots := t[b].slots[s := t[b].slots[s].(level := v)])]
  }

  lemma {:induction false} SlotSumUpdate(slots: seq<Slot>, s: nat, v: int)
    requires s < |slots|
    ensures SlotSum(slots[s := slots[s].(level := v)]) == SlotSum(slots) + v - slots[s].level
  {
    var n := |slots|;
    var slots' := slots[s := slots[s].(level := v)];
    if s < n - 1 {
      assert slots'[..n - 1] == slots[..n - 1][s := slots[s].(level := v)];
      SlotSumUpdate(slots[..n - 1], s, v);
    } else {
      assert slots'[..n - 1] == slots[..n - 1];
    }
  }

  lemma {:induction false} GrandTotalUpdate(t: seq<Branch>, b: nat, br: Branch)
    requires b < |t|
    ensures GrandTotal(t[b := br]) == GrandTotal(t) + SlotSum(br.slots) - SlotSum(t[b].slots)
  {
    var n := |t|;
    var t' := t[b := br];
    if b < n - 1 {
      assert t'[..n - 1] == t[..n - 1][b := br];
      GrandTotalUpdate(t[..n - 1], b, br);
    } else {
      assert t'[..n - 1] == t[..n - 1];
    }
  }

  /** Setting one level changes the grand total by the difference. */
  lemma SetLevelTotal(t: seq<Branch>, b: nat, s: nat, v: int)
    requires b < |t| && s < |t[b].slots|
    ensures GrandTotal(SetLevel(t, b, s, v)) == GrandTotal(t) + v - t[b].slots[s].level
  {
    SlotSumUpdate(t[b].slots, s, v);
    GrandTotalUpdate(t, b, t[b].(slots := t[b].slots[s := t[b].slots[s].(level := v)]));
  }

  /** Records of the same shape have the same branches. */
  lemma SameShapeKeepsBranches(a: seq<Branch>, b: seq<Branch>)
    requires SameShape(a, b)
    ensures forall name :: HasBranch(a, name) <==> HasBranch(b, name)
    ensures CatalogShaped(a) <==> CatalogShaped(b)
  {
    assert forall i :: 0 <= i < |a| ==> a[i].name == BranchNames(a)[i];
  }

  // ---------------------------------------------------------------------------------------
  // addXP (talent-manager.js:142-164)

  /** The record after `addXP(amount, source)`, before the save stamps it: the total grows by
      `amount`; when a 100-boundary is crossed upwards, the points crossed are granted and the
      level is recomputed; one `xp_gained` event is logged. */
  function XpAdded(d: TalentData, amount: int, source: string, now: string): TalentData {
    var xp := d.totalXP + amount;
    var gained := PointsFor(xp) - PointsFor(d.totalXP);
    d.(totalXP := xp,
       pointsAvailable := if gained > 0 then d.pointsAvailable + gained else d.pointsAvailable,
       level := if gained > 0 then LevelFor(xp) else d.level,
       history := d.history + [XpGained(amount, source, now)])
  }

  /** A non-negative amount grants exactly the points crossed, keeps the ledger, keeps the level
      consistent with the total, and logs one event. */
  lemma XpAddedProperties(d: TalentData, amount: int, source: string, now: string)
    requires amount >= 0
    ensures var d' := XpAdded(d, amount, source, now);
      && d'.totalXP == d.totalXP + amount
      && d'.pointsAvailable == d.pointsAvailable + PointsFor(d'.totalXP) - PointsFor(d.totalXP) >= d.pointsAvailable
      && d'.history == d.history + [XpGained(amount, source, now)]
      && d'.talents == d.talents
      && Ledger(d') == Ledger(d)
      && (LevelConsistent(d) ==> LevelConsistent(d'))
  {
    LedgerAfterEvent(d, XpGained(amount, source, now));
    HundredsDetermineLevel(d.totalXP);
    HundredsDetermineLevel(d.totalXP + amount);
  }

  /** `addXP(amount, source)`; it returns the saved record, or `None` when there is no record. */
  method AddXP(data: Option<TalentData>, amount: int, source: string, now: string)
    returns (saved: Option<TalentData>)
    ensures data.None? ==> saved.None?
    ensures data.Some? ==> saved == Some(Saved(XpAdded(data.value, amount, source, now), now))
  {
    if data.None? {
      return None;
    }
    var d := data.value;
    var oldPoints := PointsFor(d.totalXP);
    d := d.(totalXP := d.totalXP + amount);
    var newPoints := PointsFor(d.totalXP);
    if newPoints > oldPoints {
      d := d.(pointsAvailable := d.pointsAvailable + (newPoints - oldPoints));
      d := d.(level := LevelFor(d.totalXP));
    }
    d := d.(history := d.history + [XpGained(amount, source, now)]);
    saved := Some(Saved(d, now));
  }

  // ---------------------------------------------------------------------------------------
  // upgradeTalent (talent-manager.js:166-214)

  datatype UpgradeError = NoTalentData | TalentNotFound | MaxLevelReached | NoPointsAvailable

  /** The result object; `talent` is the talent id (its display name is left out). */
  datatype UpgradeResult =
    | Upgraded(talent: string, newLevel: int, pointsRemaining: int)
    | UpgradeFailed(error: UpgradeError)

  /** `name.toLowerCase().replace(/[\s-]/g, '_')` */
  function TalentKey(name: string): string {
    seq(|name|, i requires 0 <= i < |name| =>
      if IsSpace(name[i]) || name[i] == '-' then '_' else LowerChar(name[i]))
  }

  /** The first branch at or after position `i`, in record order, that holds `key`, with the
      position of `key` in it. */
  function LocateFrom(t: seq<Branch>, key: string, i: nat): (r: Option<(nat, nat)>)
    requires i <= |t|
    ensures r.Some? ==> i <= r.value.0 < |t| && FindSlot(t[r.value.0].slots, key) == Some(r.value.1)
    ensures r.Some? ==> forall k :: i <= k < r.value.0 ==> key !in TalentIds(t[k].slots)
    ensures r.None? <==> forall k :: i <= k < |t| ==> key !in TalentIds(t[k].slots)
    decreases |t| - i
  {
    if i == |t| then None
    else match FindSlot(t[i].slots, key)
      case Some(j) => Some((i, j))
      case None => LocateFrom(t, key, i + 1)
  }

  /** The first branch, in record order, that holds `key`, and the slot of `key` in it. */
  function Locate(t: seq<Branch>, key: string): Option<(nat, nat)> {
    LocateFrom(t, key, 0)
  }

  /** The search finds a branch exactly when some branch holds the key. */
  lemma {:induction false} LocateFindsAny(t: seq<Branch>, key: string)
    ensures Locate(t, key).Some? <==> key in AllTalentIds(t)
  {
    AllTalentIdsMember(t, key);
  }

  lemma {:induction false} AllTalentIdsMember(t: seq<Branch>, key: string)
    ensures key in AllTalentIds(t) <==> exists k :: 0 <= k < |t| && key in TalentIds(t[k].slots)
  {
    if |t| > 0 {
      AllTalentIdsMember(t[1..], key);
      if key in AllTalentIds(t[1..]) {
        var k :| 0 <= k < |t[1..]| && key in TalentIds(t[1..][k].slots);
        assert key in TalentIds(t[k + 1].slots);
      }
      if exists k :: 0 <= k < |t| && key in TalentIds(t[k].slots) {
        var k :| 0 <= k < |t| && key in TalentIds(t[k].slots);
        if k > 0 {
          assert t[1..][k - 1] == t[k];
        }
      }
    }
  }

  /** The record after slot `s` of branch `b` is raised by one level and the point is spent. */
  function Raised(d: TalentData, b: nat, s: nat, now: string): TalentData
    requires b < |d.talents| && s < |d.talents[b].slots|
  {
    var level := d.talents[b].slots[s].level;
    d.(talents := SetLevel(d.talents, b, s, level + 1),
       pointsAvailable := d.pointsAvailable - 1,
       history := d.history + [Upgrade(d.talents[b].slots[s].talent, d.talents[b].name, level + 1, now)])
  }

  /** What `upgradeTalent` returns and what it saves. The lookup key must be non-empty because
      the code tests the found key for truthiness. */
  function UpgradeOutcome(data: Option<TalentData>, talentName: string, now: string): (UpgradeResult, Option<TalentData>) {
    if data.None? then (UpgradeFailed(NoTalentData), None)
    else
      var d, key := data.value, TalentKey(talentName);
      match Locate(d.talents, key)
      case None => (UpgradeFailed(TalentNotFound), None)
      case Some((b, s)) =>
        var level := d.talents[b].slots[s].level;
        if key == "" then (UpgradeFailed(TalentNotFound), None)
        else if level >= 5 then (UpgradeFailed(MaxLevelReached), None)
        else if d.pointsAvailable < 1 then (UpgradeFailed(NoPointsAvailable), None)
        else (Upgraded(key, level + 1, d.pointsAvailable - 1), Some(Saved(Raised(d, b, s, now), now)))
  }

  /** An upgrade keeps the ledger, the shape and the XP, adds exactly one level, and keeps every
      level within 0..5. */
  lemma RaisedProperties(d: TalentData, b: nat, s: nat, now: string)
    requires b < |d.talents| && s < |d.talents[b].slots|
    ensures var d' := Raised(d, b, s, now);
      && Ledger(d') == Ledger(d)
      && SameShape(d'.talents, d.talents)
      && GrandTotal(d'.talents) == GrandTotal(d.talents) + 1
      && d'.totalXP == d.totalXP && d'.level == d.level
      && (LevelsInRange(d.talents) && d.talents[b].slots[s].level < 5 ==> LevelsInRange(d'.talents))
  {
    var level := d.talents[b].slots[s].level;
    LedgerAfterEvent(d, Upgrade(d.talents[b].slots[s].talent, d.talents[b].name, level + 1, now));
    SetLevelTotal(d.talents, b, s, level + 1);
  }

  /** Failures write nothing; a success spends exactly one of the points held, raises a level
      to at most 5, and keeps the ledger. */
  lemma UpgradeOutcomeProperties(data: Option<TalentData>, talentName: string, now: string)
    ensures var (res, saved) := UpgradeOutcome(data, talentName, now);
      && (res.UpgradeFailed? <==> saved.None?)
      && (res.Upgraded? ==>
            data.Some? && saved.Some? &&
            var d, d' := data.value, saved.value;
            && res.talent == TalentKey(talentName)
            && d'.pointsAvailable == res.pointsRemaining == d.pointsAvailable - 1 >= 0
            && res.newLevel <= 5 && (LevelsInRange(d.talents) ==> 1 <= res.newLevel)
            && Ledger(d') == Ledger(d)
            && SameShape(d'.talents, d.talents)
            && GrandTotal(d'.talents) == GrandTotal(d.talents) + 1
            && d'.totalXP == d.totalXP && d'.level == d.level
            && (LevelsInRange(d.talents) ==> LevelsInRange(d'.talents)))
  {
    if data.Some? {
      var d, key := data.value, TalentKey(talentName);
      match Locate(d.talents, key)
      case None =>
      case Some((b, s)) =>
        RaisedProperties(d, b, s, now);
        if LevelsInRange(d.talents) {
          assert 0 <= d.talents[b].slots[s].level;
        }
    }
  }

  /** An upgrade fails exactly when there is no record, the key is in no branch, the talent is
      at level 5 or above, or no point is held. */
  lemma UpgradeFailsExactly(data: Option<TalentData>, talentName: string, now: string)
    ensures var (res, _) := UpgradeOutcome(data, talentName, now);
      res.UpgradeFailed? <==>
        || data.None?
        || TalentKey(talentName) == ""
        || TalentKey(talentName) !in AllTalentIds(data.value.talents)
        || data.value.pointsAvailable < 1
        || var loc := Locate(data.value.talents, TalentKey(talentName));
           loc.Some? && data.value.talents[loc.value.0].slots[loc.value.1].level >= 5
  {
    if data.Some? {
      LocateFindsAny(data.value.talents, TalentKey(talentName));
    }
  }

  /** Which error a failed upgrade reports. No record gives the no-data error; an empty key or a
      key held by no branch gives not-found; a talent at level 5 or above gives max-level whatever
      the points held, since that test comes first; below level 5 with no point held gives the
      no-points error. */
  lemma UpgradeFailureCause(data: Option<TalentData>, talentName: string, now: string)
    ensures var (res, _) := UpgradeOutcome(data, talentName, now);
      && (data.None? ==> res == UpgradeFailed(NoTalentData))
      && (data.Some? ==>
            var d, key := data.value, TalentKey(talentName);
            && (key == "" || key !in AllTalentIds(d.talents) ==> res == UpgradeFailed(TalentNotFound))
            && (key != "" && key in AllTalentIds(d.talents) ==>
                  var loc := Locate(d.talents, key);
                  && loc.Some?
                  && var level := d.talents[loc.value.0].slots[loc.value.1].level;
                  && (level >= 5 ==> res == UpgradeFailed(MaxLevelReached))
                  && (level < 5 && d.pointsAvailable < 1 ==> res == UpgradeFailed(NoPointsAvailable))))
  {
    if data.Some? {
      LocateFindsAny(data.value.talents, TalentKey(talentName));
    }
  }

  /** `upgradeTalent(talentName)`: finds the talent in the first branch that holds its key; fails
      when it is missing, at level 5 or above (checked first) or when no point is available, and
      then writes nothing; otherwise raises that one level by 1, spends one point and logs one
      `upgrade` event. */
  method UpgradeTalent(data: Option<TalentData>, talentName: string, now: string)
    returns (res: UpgradeResult, saved: Option<TalentData>)
    ensures (res, saved) == UpgradeOutcome(data, talentName, now)
  {
    if data.None? {
      return UpgradeFailed(NoTalentData), None;
    }
    var d := data.value;
    var key := TalentKey(talentName);
    var found: Option<(nat, nat)> := None;
    var i := 0;
    while i < |d.talents|
      invariant 0 <= i <= |d.talents|
      invariant found.None?
      invariant LocateFrom(d.talents, key, 0) == LocateFrom(d.talents, key, i)
    {
      var j := FindSlot(d.talents[i].slots, key);
      if j.Some? {
        found := Some((i, j.value));
        break;
      }
      i := i + 1;
    }
    assert found == Locate(d.talents, key);
    if found.None? || key == "" {
      return UpgradeFailed(TalentNotFound), None;
    }
    var b, s := found.value.0, found.value.1;
    var currentLevel := d.talents[b].slots[s].level;
    if currentLevel >= 5 {
      return UpgradeFailed(MaxLevelReached), None;
    }
    if d.pointsAvailable < 1 {
      return UpgradeFailed(NoPointsAvailable), None;
    }
    var branchName := d.talents[b].name;
    d := d.(talents := SetLevel(d.talents, b, s, currentLevel + 1));
    d := d.(pointsAvailable := d.pointsAvailable - 1);
    d := d.(history := d.history + [Upgrade(key, branchName, currentLevel + 1, now)]);
    saved := Some(Saved(d, now));
    res := Upgraded(key, currentLevel + 1, d.pointsAvailable);
  }

  // ---------------------------------------------------------------------------------------
  // Point conservation over addXP and upgradeTalent

  /** One call of `addXP` with a non-negative amount, or of `upgradeTalent`. */
  datatype Step = GainXp(amount: nat, source: string) | SpendPoint(talentName: string)

  /** The record after `steps`, each applied to what the previous one left (a failed upgrade
      leaves the record as it was). */
  function Run(d: TalentData, steps: seq<Step>, now: string): TalentData
    decreases |steps|
  {
    if |steps| == 0 then d
    else
      var d' := match steps[0]
        case GainXp(amount, source) => Saved(XpAdded(d, amount, source, now), now)
        case SpendPoint(name) =>
          var (_, saved) := UpgradeOutcome(Some(d), name, now);
          if saved.Some? then saved.value else d;
      Run(d', steps[1..], now)
  }

  /** Over any run of XP gains and upgrades, the points held are the initial points plus one per
      100-boundary crossed minus one per upgrade made, and they never go negative. */
  lemma {:induction false} PointConservation(d: TalentData, steps: seq<Step>, now: string)
    ensures var e := Run(d, steps, now);
      && e.pointsAvailable == d.pointsAvailable + PointsFor(e.totalXP) - PointsFor(d.totalXP)
                              - (UpgradeCount(e.history) - UpgradeCount(d.history))
      && UpgradeCount(e.history) >= UpgradeCount(d.history)
      && e.totalXP >= d.totalXP
      && (d.pointsAvailable >= 0 ==> e.pointsAvailable >= 0)
    decreases |steps|
  {
    if |steps| > 0 {
      var d' := match steps[0]
        case GainXp(amount, source) => Saved(XpAdded(d, amount, source, now), now)
        case SpendPoint(name) =>
          var (_, saved) := UpgradeOutcome(Some(d), name, now);
          if saved.Some? then saved.value else d;
      match steps[0] {
        case GainXp(amount, source) =>
          XpAddedProperties(d, amount, source, now);
        case SpendPoint(name) =>
          UpgradeOutcomeProperties(Some(d), name, now);
      }
      PointConservation(d', steps[1..], now);
    }
  }

  // ---------------------------------------------------------------------------------------
  // setSpecialization (talent-manager.js:216-247)

  const FIRST_SPECIALIZATION := "first_specialization"

  datatype SpecError = NoSpecData | InvalidBranch

  datatype SpecResult = SpecSet(specialization: string) | SpecFailed(error: SpecError)

  /** The record after a successful `setSpecialization` to branch `b`, before the save stamps it. */
  function Specialized(d: TalentData, b: string, now: string): TalentData {
    d.(specialization := Some(b),
       achievements := if FIRST_SPECIALIZATION in d.achievements then d.achievements
                       else d.achievements + [FIRST_SPECIALIZATION],
       history := d.history + [SpecializationChange(d.specialization, b, now)])
  }

  /** `setSpecialization(branch)`: rejects a name that is not a `TREES` key once lower-cased;
      otherwise records the new specialization, holds `first_specialization` once, and logs one
      `specialization_change` event carrying the previous and the new value. */
  method SetSpecialization(data: Option<TalentData>, branch: string, now: string)
    returns (res: SpecResult, saved: Option<TalentData>)
    ensures data.None? ==> res == SpecFailed(NoSpecData) && saved.None?
    ensures data.Some? && ToLower(branch) !in BRANCHES ==> res == SpecFailed(InvalidBranch) && saved.None?
    ensures data.Some? && ToLower(branch) in BRANCHES ==>
      var d, b := data.value, ToLower(branch);
      && res == SpecSet(b)
      && saved == Some(Saved(Specialized(d, b, now), now))
    ensures saved.Some? ==>
      data.Some? &&
      var d, d' := data.value, saved.value;
      && d'.specialization.Some? && d'.specialization.value in BRANCHES
      && FIRST_SPECIALIZATION in d'.achievements
      && (NoDup(d.achievements) ==> NoDup(d'.achievements))
      && Ledger(d') == Ledger(d)
      && d'.talents == d.talents && d'.totalXP == d.totalXP && d'.level == d.level
  {
    if data.None? {
      return SpecFailed(NoSpecData), None;
    }
    var d := data.value;
    var normalized := ToLower(branch);
    if normalized !in BRANCHES {
      return SpecFailed(InvalidBranch), None;
    }
    var oldSpec := d.specialization;
    d := d.(specialization := Some(normalized));
    if FIRST_SPECIALIZATION !in d.achievements {
      if NoDup(d.achievements) {
        AppendFreshKeepsNoDup(d.achievements, FIRST_SPECIALIZATION);
      }
      d := d.(achievements := d.achievements + [FIRST_SPECIALIZATION]);
    }
    d := d.(history := d.history + [SpecializationChange(oldSpec, normalized, now)]);
    saved := Some(Saved(d, now));
    res := SpecSet(normalized);
    LedgerAfterEvent(data.value, SpecializationChange(oldSpec, normalized, now));
  }

  // ---------------------------------------------------------------------------------------
  // checkCombos (talent-manager.js:249-276)

  /** The four branch totals `checkCombos` computes. */
  datatype Totals = Totals(security: int, development: int, automation: int, research: int)

  function BranchTotals(t: seq<Branch>): Totals
    requires HasCatalogBranches(t)
  {
    Totals(BranchTotal(t, "security"), BranchTotal(t, "development"),
           BranchTotal(t, "automation"), BranchTotal(t, "research"))
  }

  /** The combo catalog, in the order `checkCombos` tests it. */
  const COMBOS: seq<string> := ["auto_shield", "code_oracle", "megamind", "ascended"]

  /** The threshold each combo of the catalog puts on the branch totals. */
  predicate ComboThreshold(combo: string, x: Totals) {
    if combo == "auto_shield" then x.security >= 3 && x.automation >= 3
    else if combo == "code_oracle" then x.development >= 5 && x.research >= 3
    else if combo == "megamind" then x.automation >= 5 && (x.security >= 3 || x.development >= 3 || x.research >= 3)
    else if combo == "ascended" then x.security >= 3 && x.development >= 3 && x.automation >= 3 && x.research >= 3
    else false
  }

  /** The position of a combo in the catalog (past the end for a name outside it). */
  function Rank(combo: string): nat {
    match IndexOf(COMBOS, combo)
    case Some(k) => k
    case None => |COMBOS|
  }

  /** Whether `combo` is one the record qualifies for and has not unlocked. */
  predicate NewlyQualified(d: TalentData, combo: string)
    requires HasCatalogBranches(d.talents)
  {
    combo in COMBOS && ComboThreshold(combo, BranchTotals(d.talents)) && combo !in d.combosUnlocked
  }

  /** `checkCombos(data)`: the names of the combos whose threshold holds and that are not yet
      unlocked, in catalog order (descriptions left out). */
  function CheckCombos(d: TalentData): (r: seq<string>)
    requires HasCatalogBranches(d.talents)
    ensures |r| <= |COMBOS|
    ensures forall c :: c in r ==> c in COMBOS && c !in d.combosUnlocked
  {
    var x := BranchTotals(d.talents);
    var sec, auto, dev, res := x.security, x.automation, x.development, x.research;
    (if sec >= 3 && auto >= 3 && "auto_shield" !in d.combosUnlocked then ["auto_shield"] else [])
    + (if dev >= 5 && res >= 3 && "code_oracle" !in d.combosUnlocked then ["code_oracle"] else [])
    + (if auto >= 5 && (sec >= 3 || dev >= 3 || res >= 3) && "megamind" !in d.combosUnlocked then ["megamind"] else [])
    + (if sec >= 3 && dev >= 3 && auto >= 3 && res >= 3 && "ascended" !in d.combosUnlocked then ["ascended"] else [])
  }

  lemma CombosDistinct()
    ensures NoDup(COMBOS)
    ensures |COMBOS| == 4 && Rank(COMBOS[0]) == 0 && Rank(COMBOS[1]) == 1 && Rank(COMBOS[2]) == 2 && Rank(COMBOS[3]) == 3
  {
    assert COMBOS[0][0] != COMBOS[1][0] && COMBOS[0][0] != COMBOS[2][0] && COMBOS[0][1] != COMBOS[3][1];
    assert COMBOS[1][0] != COMBOS[2][0] && COMBOS[1][0] != COMBOS[3][0] && COMBOS[2][0] != COMBOS[3][0];
  }

  /** The part of the list that combo `k` of the catalog contributes. */
  function Flag(d: TalentData, k: nat): (r: seq<string>)
    requires HasCatalogBranches(d.talents) && k < |COMBOS|
    ensures r == [] || r == [COMBOS[k]]
  {
    if ComboThreshold(COMBOS[k], BranchTotals(d.talents)) && COMBOS[k] !in d.combosUnlocked then [COMBOS[k]] else []
  }

  lemma CheckCombosAsFlags(d: TalentData)
    requires HasCatalogBranches(d.talents)
    ensures CheckCombos(d) == Flag(d, 0) + Flag(d, 1) + Flag(d, 2) + Flag(d, 3)
  {
  }

  lemma CheckCombosMember(d: TalentData, c: string)
    requires HasCatalogBranches(d.talents)
    ensures c in CheckCombos(d) <==> NewlyQualified(d, c)
  {
    CheckCombosAsFlags(d);
    var a0, a1, a2, a3 := Flag(d, 0), Flag(d, 1), Flag(d, 2), Flag(d, 3);
    assert c in CheckCombos(d) <==> c in a0 || c in a1 || c in a2 || c in a3;
    FlagMember(d, 0, c);
    FlagMember(d, 1, c);
    FlagMember(d, 2, c);
    FlagMember(d, 3, c);
    assert c in COMBOS <==> c == COMBOS[0] || c == COMBOS[1] || c == COMBOS[2] || c == COMBOS[3];
  }

  /** Combo `k` holds a name exactly when it is that combo and the record newly qualifies. */
  lemma FlagMember(d: TalentData, k: nat, c: string)
    requires HasCatalogBranches(d.talents) && k < |COMBOS|
    ensures c in Flag(d, k) <==> c == COMBOS[k] && NewlyQualified(d, c)
  {
  }

  /** The list holds exactly the combos the record newly qualifies for. */
  lemma CheckCombosExact(d: TalentData)
    requires HasCatalogBranches(d.talents)
    ensures forall c :: c in CheckCombos(d) <==> NewlyQualified(d, c)
  {
    forall c ensures c in CheckCombos(d) <==> NewlyQualified(d, c) {
      CheckCombosMember(d, c);
    }
  }

  /** The list is in catalog order. */
  lemma CheckCombosOrdered(d: TalentData)
    requires HasCatalogBranches(d.talents)
    ensures Ranked(CheckCombos(d))
  {
    CheckCombosAsFlags(d);
    RankedPieces(Flag(d, 0), Flag(d, 1), Flag(d, 2), Flag(d, 3));
  }

  lemma RankedPieces(a0: seq<string>, a1: seq<string>, a2: seq<string>, a3: seq<string>)
    requires a0 == [] || a0 == [COMBOS[0]]
    requires a1 == [] || a1 == [COMBOS[1]]
    requires a2 == [] || a2 == [COMBOS[2]]
    requires a3 == [] || a3 == [COMBOS[3]]
    ensures Ranked(a0 + a1 + a2 + a3)
  {
    PieceRanks(a0, 0);
    PieceRanks(a1, 1);
    PieceRanks(a2, 2);
    PieceRanks(a3, 3);
    RankedConcat(a0, a1, 0, 1, 2);
    RankedConcat(a0 + a1, a2, 0, 2, 3);
    RankedConcat(a0 + a1 + a2, a3, 0, 3, 4);
  }

  /** The part of combo `k` has ranks in `k..k+1`. */
  lemma PieceRanks(a: seq<string>, k: nat)
    requires k < |COMBOS| && (a == [] || a == [COMBOS[k]])
    ensures RanksIn(a, k, k + 1)
  {
    CombosDistinct();
  }

  /** Ranks strictly increase along `xs`. */
  predicate Ranked(xs: seq<string>) {
    forall i, j :: 0 <= i < j < |xs| ==> Rank(xs[i]) < Rank(xs[j])
  }

  predicate RanksIn(xs: seq<string>, lo: nat, hi: nat) {
    Ranked(xs) && forall i :: 0 <= i < |xs| ==> lo <= Rank(xs[i]) < hi
  }

  lemma RankedConcat(xs: seq<string>, ys: seq<string>, lo: nat, mid: nat, hi: nat)
    requires lo <= mid <= hi && RanksIn(xs, lo, mid) && RanksIn(ys, mid, hi)
    ensures RanksIn(xs + ys, lo, hi)
  {
    var r := xs + ys;
    forall i | 0 <= i < |r|
      ensures lo <= Rank(r[i]) < hi
    {
      if i < |xs| {
        assert r[i] == xs[i];
      } else {
        assert r[i] == ys[i - |xs|];
      }
    }
    forall i, j | 0 <= i < j < |r|
      ensures Rank(r[i]) < Rank(r[j])
    {
      if j < |xs| {
        assert r[i] == xs[i] && r[j] == xs[j];
      } else if i >= |xs| {
        assert r[i] == ys[i - |xs|] && r[j] == ys[j - |xs|];
      } else {
        assert r[i] == xs[i] && r[j] == ys[j - |xs|];
      }
    }
  }

  /** The combos reported depend only on the branch totals and the unlocked list. */
  lemma CheckCombosDependsOnTotals(d: TalentData, e: TalentData)
    requires HasCatalogBranches(d.talents) && HasCatalogBranches(e.talents)
    requires BranchTotals(d.talents) == BranchTotals(e.talents) && d.combosUnlocked == e.combosUnlocked
    ensures CheckCombos(d) == CheckCombos(e)
  {
  }
}
