/** The command layer of commands.js: the reset of the tree, the handlers that change the record
    (`setSpec`, `upgrade`, `resetTalents`), and the tokenizer and dispatcher `handleCommand`.
    The handlers that only render the record are kept as replies without their text. */
module Commands {
  import opened Wrappers
  import opened Text
  import opened TalentManager
  import opened XpTracker

  // ---------------------------------------------------------------------------------------
  // resetTalents (commands.js:167-203)

  /** Every level of every branch set to 0, keys and order kept. */
  function Zeroed(t: seq<Branch>): (z: seq<Branch>)
    ensures |z| == |t|
    ensures forall i :: 0 <= i < |t| ==> z[i].name == t[i].name && TalentIds(z[i].slots) == TalentIds(t[i].slots)
    ensures forall i, j :: 0 <= i < |z| && 0 <= j < |z[i].slots| ==> z[i].slots[j].level == 0
  {
    seq(|t|, i requires 0 <= i < |t| => ZeroedBranch(t[i]))
  }

  function ZeroedBranch(b: Branch): (z: Branch)
    ensures z.name == b.name && TalentIds(z.slots) == TalentIds(b.slots)
    ensures |z.slots| == |b.slots| && forall j :: 0 <= j < |z.slots| ==> z.slots[j] == Slot(b.slots[j].talent, 0)
  {
    Branch(b.name, seq(|b.slots|, j requires 0 <= j < |b.slots| => b.slots[j].(level := 0)))
  }

  /** Zeroing keeps the shape, and afterwards no level is spent. */
  lemma ZeroedProperties(t: seq<Branch>)
    ensures SameShape(Zeroed(t), t)
    ensures GrandTotal(Zeroed(t)) == 0
    ensures LevelsInRange(Zeroed(t))
    ensures CatalogShaped(t) ==> CatalogShaped(Zeroed(t))
  {
    assert BranchNames(Zeroed(t)) == BranchNames(t);
    ZeroedTotal(t);
  }

  lemma {:induction false} ZeroedTotal(t: seq<Branch>)
    ensures GrandTotal(Zeroed(t)) == 0
  {
    if |t| > 0 {
      var n := |t|;
      assert Zeroed(t)[..n - 1] == Zeroed(t[..n - 1]);
      ZeroedTotal(t[..n - 1]);
      ZeroSlotSum(Zeroed(t)[n - 1].slots);
    }
  }

  lemma {:induction false} ZeroSlotSum(slots: seq<Slot>)
    requires forall j :: 0 <= j < |slots| ==> slots[j].level == 0
    ensures SlotSum(slots) == 0
  {
    if |slots| > 0 {
      ZeroSlotSum(slots[..|slots| - 1]);
    }
  }

  /** The record `resetTalents` saves: no specialization, 3 base points plus every level spent,
      no XP, level 1, every level 0, no combos and no achievements, and one `reset` event. */
  function ResetRecord(d: TalentData, now: string): TalentData {
    d.(specialization := None,
       pointsAvailable := 3 + GrandTotal(d.talents),
       totalXP := 0,
       level := 1,
       talents := Zeroed(d.talents),
       combosUnlocked := [],
       achievements := [],
       history := d.history + [Reset(now)])
  }

  datatype ResetResult = ResetNoData | ResetDone(refunded: int, pointsAvailable: int)

  /** `resetTalents()`: the refund is the sum of all levels, computed before the nested loops set
      each level to 0 in place. */
  method ResetTalents(data: Option<TalentData>, now: string)
    returns (res: ResetResult, saved: Option<TalentData>)
    ensures data.None? ==> res == ResetNoData && saved.None?
    ensures data.Some? ==>
      && res == ResetDone(GrandTotal(data.value.talents), 3 + GrandTotal(data.value.talents))
      && saved == Some(Saved(ResetRecord(data.value, now), now))
  {
    if data.None? {
      return ResetNoData, None;
    }
    var d := data.value;
    var totalPoints := GrandTotal(d.talents);
    d := d.(specialization := None);
    d := d.(pointsAvailable := 3 + totalPoints);
    d := d.(totalXP := 0);
    d := d.(level := 1);
    var t := d.talents;
    var b := 0;
    while b < |t|
      invariant 0 <= b <= |t| == |d.talents|
      invariant forall i :: 0 <= i < b ==> t[i] == ZeroedBranch(d.talents[i])
      invariant forall i :: b <= i < |t| ==> t[i] == d.talents[i]
    {
      var s := 0;
      while s < |t[b].slots|
        invariant 0 <= b < |t| == |d.talents|
        invariant 0 <= s <= |t[b].slots| == |d.talents[b].slots|
        invariant forall i :: 0 <= i < |t| && i != b ==> t[i] == (if i < b then ZeroedBranch(d.talents[i]) else d.talents[i])
        invariant t[b].name == d.talents[b].name
        invariant forall j :: 0 <= j < s ==> t[b].slots[j] == Slot(d.talents[b].slots[j].talent, 0)
        invariant forall j :: s <= j < |t[b].slots| ==> t[b].slots[j] == d.talents[b].slots[j]
      {
        t := SetLevel(t, b, s, 0);
        s := s + 1;
      }
      assert t[b].slots == ZeroedBranch(d.talents[b]).slots;
      b := b + 1;
    }
    assert t == Zeroed(d.talents);
    d := d.(talents := t);
    d := d.(combosUnlocked := []);
    d := d.(achievements := []);
    d := d.(history := d.history + [Reset(now)]);
    saved := Some(Saved(d, now));
    res := ResetDone(totalPoints, d.pointsAvailable);
  }

  /** After a reset every spent level is back as a point on top of the 3 base points, the points
      held before are not kept, every level is 0 and the XP is 0 at level 1, the specialization,
      combos and achievements are cleared, the shape is kept, and the history and creation time
      are kept. */
  lemma ResetRecordProperties(d: TalentData, now: string)
    ensures var d' := ResetRecord(d, now);
      && d'.pointsAvailable == 3 + GrandTotal(d.talents)
      && d'.pointsAvailable + GrandTotal(d'.talents) == 3 + GrandTotal(d.talents)
      && GrandTotal(d'.talents) == 0
      && d'.totalXP == 0 && d'.level == 1
      && d'.specialization.None? && d'.combosUnlocked == [] && d'.achievements == []
      && SameShape(d'.talents, d.talents)
      && LevelsInRange(d'.talents)
      && (CatalogShaped(d.talents) ==> CatalogShaped(d'.talents))
      && LevelConsistent(d')
      && d'.history[..|d.history|] == d.history && |d'.history| == |d.history| + 1
      && d'.created == d.created
  {
    ZeroedProperties(d.talents);
    assert (d.history + [Reset(now)])[..|d.history|] == d.history;
  }

  /** Ten levels spent give 13 points. */
  lemma ResetRefundExample(d: TalentData, now: string)
    requires GrandTotal(d.talents) == 10
    ensures ResetRecord(d, now).pointsAvailable == 13
  {
  }

  // ---------------------------------------------------------------------------------------
  // setSpec (commands.js:49-69)

  /** The replies of the command handlers; their text is left out. */
  datatype Reply =
    | TreeShown
    | ProgressShown
    | HelpShown
    | SpecUsage
    | SpecReply(spec: SpecResult, bonus: Option<AchievementResult>)
    | UpgradeUsage
    | UpgradeNoData
    | UpgradeReply(upgrade: UpgradeResult, newCombos: seq<string>)
    | ResetReply(reset: ResetResult)

  /** What `setSpec(branch)` promises: an empty branch gives the usage reply; a failed change
      awards nothing and stores nothing new; a successful change stores the record
      `setSpecialization` saved, because the achievement award finds `first_specialization`
      already held. So no XP is granted: XP, level, points and the ledger are those before. */
  predicate SpecHandled(data: Option<TalentData>, branch: string, now: string, reply: Reply, store: Option<TalentData>) {
    && (branch == "" ==> reply == SpecUsage && store == data)
    && (branch != "" && data.None? ==> reply == SpecReply(SpecFailed(NoSpecData), None) && store == data)
    && (branch != "" && data.Some? && ToLower(branch) !in BRANCHES ==>
          reply == SpecReply(SpecFailed(InvalidBranch), None) && store == data)
    && (branch != "" && data.Some? && ToLower(branch) in BRANCHES ==>
          var d, b := data.value, ToLower(branch);
          && reply == SpecReply(SpecSet(b), Some(AlreadyUnlocked))
          && store == Some(Saved(Specialized(d, b, now), now))
          && store.value.specialization == Some(b) && FIRST_SPECIALIZATION in store.value.achievements
          && store.value.totalXP == d.totalXP && store.value.level == d.level
          && store.value.pointsAvailable == d.pointsAvailable
          && Ledger(store.value) == Ledger(d))
  }

  /** `setSpec(branch)`: sets the specialization and then awards the `first_specialization`
      achievement. `setSpecialization` has already added that achievement, so the award always
      finds it held: the 50 XP is never granted, and the record stays as `setSpecialization`
      saved it. Returns the reply and the record stored afterwards. */
  method SetSpecCommand(data: Option<TalentData>, branch: string, now: string)
    returns (reply: Reply, store: Option<TalentData>)
    ensures SpecHandled(data, branch, now, reply, store)
  {
    if branch == "" {
      return SpecUsage, data;
    }
    var spec, saved1 := SetSpecialization(data, branch, now);
    if spec.SpecSet? {
      var bonus, saved2 := AwardAchievement(After(data, saved1), FIRST_SPECIALIZATION, now);
      reply := SpecReply(spec, Some(bonus));
      store := After(After(data, saved1), saved2);
    } else {
      reply := SpecReply(spec, None);
      store := After(data, saved1);
    }
  }

  // ---------------------------------------------------------------------------------------
  // upgrade (commands.js:71-101)

  /** What `upgrade(talentName)` promises: an empty name gives the usage reply and no record the
      no-data reply, both storing nothing new. Otherwise the reply carries the result of
      `upgradeTalent`; a failure leaves the record alone. After a success the combos reported are
      those `checkCombos` finds on the upgraded record, the record stored is that record with
      them unlocked, no qualifying combo is left locked, the level total is one more than before,
      and the ledger drops by one per combo unlocked. */
  predicate UpgradeHandled(data: Option<TalentData>, talentName: string, now: string, reply: Reply, store: Option<TalentData>) {
    && (talentName == "" ==> reply == UpgradeUsage && store == data)
    && (talentName != "" && data.None? ==> reply == UpgradeNoData && store == data)
    && (talentName != "" && data.Some? ==>
          var (res, saved) := UpgradeOutcome(data, talentName, now);
          && reply.UpgradeReply? && reply.upgrade == res
          && (res.UpgradeFailed? ==> reply.newCombos == [] && store == data)
          && (res.Upgraded? ==> saved.Some? && UpgradeDone(data.value, saved.value, now, reply.newCombos, store)))
  }

  /** After a successful upgrade of `d` into `d'`: the combos reported are those `checkCombos`
      finds on `d'`, the record stored is `d'` with them unlocked, no qualifying combo is left
      locked, the level total is one more than in `d`, and the ledger drops by one per combo
      unlocked. */
  predicate UpgradeDone(d: TalentData, d': TalentData, now: string, combos: seq<string>, store: Option<TalentData>) {
    && HasCatalogBranches(d'.talents)
    && combos == CheckCombos(d')
    && store == (if combos == [] then Some(d') else Some(Saved(Unlocked(d', combos, now), now)))
    && HasCatalogBranches(store.value.talents)
    && CheckCombos(store.value) == []
    && store.value.talents == d'.talents
    && GrandTotal(store.value.talents) == GrandTotal(d.talents) + 1
    && Ledger(store.value) == Ledger(d) - |combos|
  }

  /** `upgrade(talentName)`: upgrades the talent and, on success, unlocks the combos that now
      qualify. Afterwards no combo whose threshold holds is left locked. The combo unlocker
      throws on a record lacking one of the four branches, so such a record is excluded when the
      upgrade succeeds. */
  method UpgradeCommand(data: Option<TalentData>, talentName: string, now: string)
    returns (reply: Reply, store: Option<TalentData>)
    requires data.Some? && UpgradeOutcome(data, talentName, now).0.Upgraded? ==> HasCatalogBranches(data.value.talents)
    ensures UpgradeHandled(data, talentName, now, reply, store)
  {
    if talentName == "" {
      return UpgradeUsage, data;
    }
    if data.None? {
      return UpgradeNoData, data;
    }
    var res, saved1 := UpgradeTalent(data, talentName, now);
    if res.Upgraded? {
      UpgradeOutcomeProperties(data, talentName, now);
      SameShapeKeepsBranches(saved1.value.talents, data.value.talents);
      var combos, saved2 := CheckAndUnlockCombos(saved1, now);
      reply := UpgradeReply(res, combos);
      store := After(saved1, saved2);
      UpgradeSucceeded(data.value, saved1.value, now, combos, store);
    } else {
      reply := UpgradeReply(res, []);
      store := data;
    }
  }

  /** Reporting the combos `checkCombos` finds on the upgraded record and storing it with them
      unlocked keeps the promises of `UpgradeDone`. */
  lemma UpgradeSucceeded(d: TalentData, d': TalentData, now: string, combos: seq<string>, store: Option<TalentData>)
    requires HasCatalogBranches(d'.talents) && combos == CheckCombos(d')
    requires GrandTotal(d'.talents) == GrandTotal(d.talents) + 1 && Ledger(d') == Ledger(d)
    requires store == (if combos == [] then Some(d') else Some(Saved(Unlocked(d', combos, now), now)))
    ensures UpgradeDone(d, d', now, combos, store)
  {
    if combos != [] {
      var u := Unlocked(d', combos, now);
      UnlockedLeavesNothing(d', now);
      UnlockedLedger(d', combos, now);
      StampKeepsCombos(u, now);
    }
  }

  /** The save stamp changes neither what `checkCombos` finds nor the ledger. */
  lemma StampKeepsCombos(d: TalentData, now: string)
    requires HasCatalogBranches(d.talents)
    ensures HasCatalogBranches(Saved(d, now).talents)
    ensures CheckCombos(Saved(d, now)) == CheckCombos(d)
    ensures Ledger(Saved(d, now)) == Ledger(d)
  {
    var d' := Saved(d, now);
    assert d'.talents == d.talents && d'.combosUnlocked == d.combosUnlocked;
  }

  // ---------------------------------------------------------------------------------------
  // handleCommand (commands.js:240-257)

  /** The handlers of the `COMMANDS` table. */
  datatype Handler = TreeHandler | SpecHandler | UpgradeHandler | ProgressHandler | ResetHandler | HelpHandler

  /** `COMMANDS`, name to handler, in declaration order. */
  const COMMANDS: seq<(string, Handler)> := [
    ("show", TreeHandler), ("tree", TreeHandler), ("spec", SpecHandler), ("choose", SpecHandler),
    ("upgrade", UpgradeHandler), ("spend", UpgradeHandler), ("progress", ProgressHandler), ("stats", ProgressHandler),
    ("reset", ResetHandler), ("help", HelpHandler)
  ]

  function CommandNames(): seq<string> {
    seq(|COMMANDS|, i requires 0 <= i < |COMMANDS| => COMMANDS[i].0)
  }

  /** `COMMANDS[cmd]` */
  function LookupCommand(cmd: string): (h: Option<Handler>)
    ensures h.Some? <==> cmd in CommandNames()
  {
    match IndexOf(CommandNames(), cmd)
    case None => None
    case Some(k) => Some(COMMANDS[k].1)
  }

  /** The handler chosen for an input and the argument it receives. */
  datatype Call = Call(handler: Handler, arg: string)

  /** `input.trim().split(/\s+/)`, the lower-cased first token, and the rest joined by single
      spaces. */
  function CommandWord(input: string): string {
    var ws := Words(input);
    if |ws| == 0 then "" else ToLower(ws[0])
  }

  function CommandArgs(input: string): string {
    var ws := Words(input);
    if |ws| == 0 then "" else JoinSpaces(ws[1..])
  }

  /** The dispatch of `handleCommand` as written: no token, or the token "talent", shows the
      tree; a command name goes to its handler with the rest; any other token is taken as a
      talent name, `cmd + ' ' + args`. */
  function Parse(input: string): (c: Call)
    ensures c.handler.TreeHandler? || c.handler.UpgradeHandler? || LookupCommand(CommandWord(input)) == Some(c.handler)
    ensures c.arg == CommandArgs(input)
            || (c.handler.UpgradeHandler? && LookupCommand(CommandWord(input)).None?
                && c.arg == CommandWord(input) + " " + CommandArgs(input))
  {
    var cmd, args := CommandWord(input), CommandArgs(input);
    if cmd == "" || cmd == "talent" then Call(TreeHandler, args)
    else match LookupCommand(cmd)
      case Some(h) => Call(h, args)
      case None => Call(UpgradeHandler, cmd + " " + args)
  }

  /** A command name followed by words reaches its handler with exactly those words. */
  lemma ParseCommandArgs(w: string, rest: seq<string>)
    requires IsWord(w) && forall x :: x in rest ==> IsWord(x)
    requires ToLower(w) in CommandNames()
    ensures var c := Parse(JoinSpaces([w] + rest));
      && c.handler == LookupCommand(ToLower(w)).value
      && Words(c.arg) == rest
  {
    var ws := [w] + rest;
    WordsOfJoin(ws);
    assert ws[1..] == rest;
    WordsOfJoin(rest);
    assert ToLower(w) != "" && ToLower(w) != "talent" by {
      assert "talent" !in CommandNames();
    }
  }

  /** Whatever follows it, a first token "talent" (in any case) shows the tree. */
  lemma ParseTalentShowsTree(input: string)
    requires CommandWord(input) == "talent"
    ensures Parse(input).handler == TreeHandler
  {
  }

  /** Every catalog talent id ends in a letter, never in `_`. */
  lemma CatalogIdsEndInLetter()
    ensures forall i, j :: 0 <= i < |TREES| && 0 <= j < |TREES[i].talents| ==>
      |TREES[i].talents[j]| > 0 && TREES[i].talents[j][|TREES[i].talents[j]| - 1] != '_'
  {
  }

  /** A single token that is not a command is passed on with a trailing space; its key then ends
      in `_`, so on a record of the catalog's shape the upgrade never finds a talent. For example
      "git-master" reaches `upgradeTalent("git-master ")` and fails. */
  lemma SingleTokenFallbackNeverUpgrades(input: string, d: TalentData, now: string)
    requires |Words(input)| == 1
    requires CommandWord(input) != "talent" && LookupCommand(CommandWord(input)).None?
    requires CatalogShaped(d.talents)
    ensures Parse(input) == Call(UpgradeHandler, CommandWord(input) + " ")
    ensures UpgradeOutcome(Some(d), Parse(input).arg, now).0 == UpgradeFailed(TalentNotFound)
  {
    assert Words(input)[1..] == [];
    assert CommandArgs(input) == "";
    var name := CommandWord(input) + " ";
    assert Parse(input).arg == name;
    var key := TalentKey(name);
    assert key[|key| - 1] == '_';
    UnderscoredKeyAbsent(d.talents, key);
    assert Locate(d.talents, key).None?;
  }

  /** No talent id of the catalog ends in `_`. */
  lemma UnderscoredKeyAbsent(t: seq<Branch>, key: string)
    requires CatalogShaped(t) && |key| > 0 && key[|key| - 1] == '_'
    ensures forall k :: 0 <= k < |t| ==> key !in TalentIds(t[k].slots)
  {
    CatalogIdsEndInLetter();
    forall k | 0 <= k < |t|
      ensures key !in TalentIds(t[k].slots)
    {
      assert TalentIds(t[k].slots) == TREES[k].talents;
    }
  }

  /** The fallback as evidently intended: the token alone when no words follow it. */
  function CorrectedFallbackName(cmd: string, args: string): string {
    if args == "" then cmd else cmd + " " + args
  }

  /** The dispatch with the corrected fallback. */
  function CorrectedParse(input: string): Call {
    var cmd, args := CommandWord(input), CommandArgs(input);
    if cmd == "" || cmd == "talent" then Call(TreeHandler, args)
    else match LookupCommand(cmd)
      case Some(h) => Call(h, args)
      case None => Call(UpgradeHandler, CorrectedFallbackName(cmd, args))
  }

  /** The corrected dispatch differs from the one as written only for a lone token that is not a
      command, where the written one hands the upgrade the token with a trailing space. */
  lemma CorrectedParseDiffersOnlyForLoneToken(input: string)
    ensures || CorrectedParse(input) == Parse(input)
            || (&& CommandArgs(input) == ""
                && Parse(input).handler.UpgradeHandler? && CorrectedParse(input).handler.UpgradeHandler?
                && Parse(input).arg == CorrectedParse(input).arg + " ")
  {
  }

  /** With the corrected fallback, a single token that is not a command reaches the upgrade as it
      is, and the upgrade finds the talent whenever its key is held by some branch. */
  lemma CorrectedSingleTokenFindsTalent(input: string, d: TalentData)
    requires |Words(input)| == 1
    requires CommandWord(input) != "talent" && LookupCommand(CommandWord(input)).None?
    requires TalentKey(CommandWord(input)) in AllTalentIds(d.talents)
    ensures CorrectedParse(input) == Call(UpgradeHandler, CommandWord(input))
    ensures Locate(d.talents, TalentKey(CorrectedParse(input).arg)).Some?
  {
    assert Words(input)[1..] == [];
    LocateFindsAny(d.talents, TalentKey(CommandWord(input)));
  }

  /** With the corrected fallback a single talent id written with hyphens or capitals upgrades
      that talent: "Git-Master" finds `git_master` in the development branch. */
  lemma CorrectedFallbackFindsTalent(d: TalentData)
    requires CatalogShaped(d.talents)
    ensures Locate(d.talents, TalentKey(CorrectedFallbackName(ToLower("Git-Master"), ""))) == Some((1, 1))
  {
    var key := TalentKey(CorrectedFallbackName(ToLower("Git-Master"), ""));
    assert key == "git_master";
    assert TalentIds(d.talents[0].slots) == TREES[0].talents;
    assert TalentIds(d.talents[1].slots) == TREES[1].talents;
    assert key !in TREES[0].talents;
    assert TREES[1].talents[1] == key && TREES[1].talents[0] != key;
    assert FindSlot(d.talents[1].slots, key) == Some(1);
  }

  /** What running a call promises: the handlers that only render leave the record alone; the
      spec and upgrade handlers keep the promises of `SpecHandled` and `UpgradeHandled`; a reset
      replies with the refund and stores the reset record. */
  predicate Handled(c: Call, data: Option<TalentData>, now: string, reply: Reply, store: Option<TalentData>) {
    && (c.handler.TreeHandler? ==> reply == TreeShown && store == data)
    && (c.handler.ProgressHandler? ==> reply == ProgressShown && store == data)
    && (c.handler.HelpHandler? ==> reply == HelpShown && store == data)
    && (c.handler.SpecHandler? ==> SpecHandled(data, c.arg, now, reply, store))
    && (c.handler.UpgradeHandler? ==> UpgradeHandled(data, c.arg, now, reply, store))
    && (c.handler.ResetHandler? ==>
          && (data.None? ==> reply == ResetReply(ResetNoData) && store == data)
          && (data.Some? ==>
                var total := GrandTotal(data.value.talents);
                && reply == ResetReply(ResetDone(total, 3 + total))
                && store == Some(Saved(ResetRecord(data.value, now), now))))
  }

  /** The combo unlocker that a successful upgrade runs reads all four branches. */
  predicate UpgradeReadsBranches(c: Call, data: Option<TalentData>, now: string) {
    c.handler.UpgradeHandler? && data.Some? && UpgradeOutcome(data, c.arg, now).0.Upgraded? ==>
      HasCatalogBranches(data.value.talents)
  }

  /** Runs the handler of a call. */
  method RunCall(data: Option<TalentData>, c: Call, now: string)
    returns (reply: Reply, store: Option<TalentData>)
    requires UpgradeReadsBranches(c, data, now)
    ensures Handled(c, data, now, reply, store)
  {
    match c.handler {
      case TreeHandler =>
        reply, store := TreeShown, data;
      case ProgressHandler =>
        reply, store := ProgressShown, data;
      case HelpHandler =>
        reply, store := HelpShown, data;
      case SpecHandler =>
        reply, store := SetSpecCommand(data, c.arg, now);
      case UpgradeHandler =>
        reply, store := UpgradeCommand(data, c.arg, now);
      case ResetHandler =>
        var res, saved := ResetTalents(data, now);
        reply, store := ResetReply(res), After(data, saved);
    }
  }

  /** `handleCommand(input)`: parses the input, with the corrected fallback, and runs the chosen
      handler. */
  method HandleCommand(data: Option<TalentData>, input: string, now: string)
    returns (reply: Reply, store: Option<TalentData>)
    requires UpgradeReadsBranches(CorrectedParse(input), data, now)
    ensures Handled(CorrectedParse(input), data, now, reply, store)
  {
    reply, store := RunCall(data, CorrectedParse(input), now);
  }
}
