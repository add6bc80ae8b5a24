/** `compareBuilds` of export-import.js: the difference between two records, branch by branch
    over the four catalog branches and, within a branch, over the first record's talent keys.
    The share-code encoding, file export and import of the same file are not part of this
    model. */
module ExportImport {
  import opened Wrappers
  import opened TalentManager

  /** `xs.filter(c => !ys.includes(c))` */
  function Missing(xs: seq<string>, ys: seq<string>): (r: seq<string>)
    ensures |r| <= |xs|
  {
    if |xs| == 0 then [] else (if xs[0] in ys then [] else [xs[0]]) + Missing(xs[1..], ys)
  }

  /** The filter keeps exactly the names of `xs` that `ys` lacks. */
  lemma {:induction false} MissingMembers(xs: seq<string>, ys: seq<string>)
    ensures forall c :: c in Missing(xs, ys) <==> c in xs && c !in ys
  {
    if |xs| > 0 {
      MissingMembers(xs[1..], ys);
      assert xs == [xs[0]] + xs[1..];
    }
  }

  /** The filter keeps the order of `xs`: a last element survives, at the end, exactly when `ys`
      lacks it. */
  lemma {:induction false} MissingAppend(xs: seq<string>, x: string, ys: seq<string>)
    ensures Missing(xs + [x], ys) == Missing(xs, ys) + (if x in ys then [] else [x])
  {
    var tail := if x in ys then [] else [x];
    if |xs| == 0 {
      assert xs + [x] == [x] && [x][1..] == [];
      assert Missing([x], ys) == tail + Missing([], ys);
    } else {
      var head := if xs[0] in ys then [] else [xs[0]];
      assert (xs + [x])[0] == xs[0] && (xs + [x])[1..] == xs[1..] + [x];
      assert Missing(xs + [x], ys) == head + Missing(xs[1..] + [x], ys);
      MissingAppend(xs[1..], x, ys);
      assert Missing(xs, ys) == head + Missing(xs[1..], ys);
    }
  }

  /** `build.talents[branch] || {}` */
  function BranchSlots(t: seq<Branch>, branch: string): seq<Slot> {
    match FindBranch(t, branch)
    case None => []
    case Some(i) => t[i].slots
  }

  /** `build.talents[branch]?.[talent] || 0` */
  function LevelIn(t: seq<Branch>, branch: string, talent: string): int {
    var slots := BranchSlots(t, branch);
    match FindSlot(slots, talent)
    case None => 0
    case Some(j) => slots[j].level
  }

  /** `Object.keys(...)`: every key once, in the order of its first appearance. */
  function Distinct(xs: seq<string>): (r: seq<string>)
    ensures NoDup(r)
    ensures forall x :: x in r <==> x in xs
  {
    if |xs| == 0 then []
    else
      var front := Distinct(xs[..|xs| - 1]);
      var last := xs[|xs| - 1];
      assert forall x :: x in xs <==> x in xs[..|xs| - 1] || x == last by {
        assert xs == xs[..|xs| - 1] + [last];
      }
      if last in front then front
      else
        AppendFreshKeepsNoDup(front, last);
        front + [last]
  }

  /** `{ old, new, diff }` for one talent whose level differs. */
  datatype TalentChange = TalentChange(talent: string, before: int, after: int, diff: int)

  /** `diff.talents[branch]` */
  datatype BranchChanges = BranchChanges(branch: string, changes: seq<TalentChange>)

  /** The object `compareBuilds` returns. */
  datatype BuildDiff = BuildDiff(
    specBefore: Option<string>,
    specAfter: Option<string>,
    specChanged: bool,
    levelBefore: int,
    levelAfter: int,
    pointsBefore: int,
    pointsAfter: int,
    talents: seq<BranchChanges>,
    combosAdded: seq<string>,
    combosRemoved: seq<string>)

  /** The entry one talent key contributes: one change when the two levels differ. */
  function ChangeOf(t1: seq<Branch>, t2: seq<Branch>, branch: string, talent: string): seq<TalentChange> {
    var before, after := LevelIn(t1, branch, talent), LevelIn(t2, branch, talent);
    if before != after then [TalentChange(talent, before, after, after - before)] else []
  }

  /** The entries of the keys `keys`, in their order. */
  function Changes(t1: seq<Branch>, t2: seq<Branch>, branch: string, keys: seq<string>): seq<TalentChange> {
    if |keys| == 0 then []
    else Changes(t1, t2, branch, keys[..|keys| - 1]) + ChangeOf(t1, t2, branch, keys[|keys| - 1])
  }

  /** The keys the first record holds in `branch`, as the inner loop visits them. */
  function KeysOf(t: seq<Branch>, branch: string): seq<string> {
    Distinct(TalentIds(BranchSlots(t, branch)))
  }

  function BranchDiff(t1: seq<Branch>, t2: seq<Branch>, branch: string): BranchChanges {
    BranchChanges(branch, Changes(t1, t2, branch, KeysOf(t1, branch)))
  }

  /** `compareBuilds(build1, build2)` */
  function Compare(b1: TalentData, b2: TalentData): BuildDiff {
    BuildDiff(
      b1.specialization, b2.specialization, b1.specialization != b2.specialization,
      b1.level, b2.level, b1.pointsAvailable, b2.pointsAvailable,
      BranchDiffs(b1.talents, b2.talents),
      Missing(b2.combosUnlocked, b1.combosUnlocked),
      Missing(b1.combosUnlocked, b2.combosUnlocked))
  }

  /** One comparison per branch of `TREES`, in declaration order. */
  function BranchDiffs(t1: seq<Branch>, t2: seq<Branch>): seq<BranchChanges> {
    seq(|BRANCHES|, i requires 0 <= i < |BRANCHES| => BranchDiff(t1, t2, BRANCHES[i]))
  }

  /** The talent keys a list of changes names. */
  function ChangedTalents(cs: seq<TalentChange>): seq<string> {
    seq(|cs|, i requires 0 <= i < |cs| => cs[i].talent)
  }

  lemma NoDupFront(keys: seq<string>)
    requires NoDup(keys) && |keys| > 0
    ensures NoDup(keys[..|keys| - 1]) && keys[|keys| - 1] !in keys[..|keys| - 1]
  {
    var front := keys[..|keys| - 1];
    forall i | 0 <= i < |front| ensures front[i] != keys[|keys| - 1] {
      assert front[i] == keys[i];
    }
  }

  /** Each change carries the first record's level as `old`, the second's as `new`, and `diff`
      their difference, which is never 0. */
  lemma {:induction false} ChangesValues(t1: seq<Branch>, t2: seq<Branch>, branch: string, keys: seq<string>)
    ensures forall c :: c in Changes(t1, t2, branch, keys) ==>
      && c.talent in keys
      && c.before == LevelIn(t1, branch, c.talent) && c.after == LevelIn(t2, branch, c.talent)
      && c.before != c.after && c.diff == c.after - c.before
  {
    if |keys| > 0 {
      var front := keys[..|keys| - 1];
      ChangesValues(t1, t2, branch, front);
      assert forall k :: k in front ==> k in keys;
    }
  }

  /** A change is reported for exactly the keys whose two levels differ, once each. */
  lemma {:induction false} ChangesKeys(t1: seq<Branch>, t2: seq<Branch>, branch: string, keys: seq<string>)
    requires NoDup(keys)
    ensures var ks := ChangedTalents(Changes(t1, t2, branch, keys));
      && NoDup(ks)
      && forall k :: k in ks <==> k in keys && LevelIn(t1, branch, k) != LevelIn(t2, branch, k)
  {
    if |keys| > 0 {
      var front, last := keys[..|keys| - 1], keys[|keys| - 1];
      assert keys == front + [last];
      NoDupFront(keys);
      ChangesKeys(t1, t2, branch, front);
      var cs0 := Changes(t1, t2, branch, front);
      var one := ChangeOf(t1, t2, branch, last);
      assert ChangedTalents(cs0 + one) == ChangedTalents(cs0) + ChangedTalents(one);
      assert ChangedTalents(one) == if one != [] then [last] else [];
      if one != [] {
        AppendFreshKeepsNoDup(ChangedTalents(cs0), last);
      }
    }
  }

  /** The whole difference: the specialization pair and whether it changed, the level and point
      pairs, one entry per catalog branch holding exactly the changed keys of the first record,
      and the combos only the second record holds (added) and only the first holds (removed). */
  lemma CompareProperties(b1: TalentData, b2: TalentData)
    ensures var r := Compare(b1, b2);
      && r.specBefore == b1.specialization && r.specAfter == b2.specialization
      && (r.specChanged <==> b1.specialization != b2.specialization)
      && r.levelBefore == b1.level && r.levelAfter == b2.level
      && r.pointsBefore == b1.pointsAvailable && r.pointsAfter == b2.pointsAvailable
      && |r.talents| == |BRANCHES|
      && (forall c :: c in r.combosAdded <==> c in b2.combosUnlocked && c !in b1.combosUnlocked)
      && (forall c :: c in r.combosRemoved <==> c in b1.combosUnlocked && c !in b2.combosUnlocked)
    ensures forall i :: 0 <= i < |BRANCHES| ==> Compare(b1, b2).talents[i].branch == BRANCHES[i]
  {
    MissingMembers(b2.combosUnlocked, b1.combosUnlocked);
    MissingMembers(b1.combosUnlocked, b2.combosUnlocked);
  }

  /** Within each catalog branch, a talent is reported exactly when the first record holds it in
      that branch and the two levels (a missing one read as 0) differ. */
  lemma CompareTalents(b1: TalentData, b2: TalentData, i: nat, talent: string)
    requires i < |BRANCHES|
    ensures var branch, cs := BRANCHES[i], Compare(b1, b2).talents[i].changes;
      && NoDup(ChangedTalents(cs))
      && (talent in ChangedTalents(cs) <==>
            talent in TalentIds(BranchSlots(b1.talents, branch))
            && LevelIn(b1.talents, branch, talent) != LevelIn(b2.talents, branch, talent))
      && (forall c :: c in cs ==>
            && c.before == LevelIn(b1.talents, branch, c.talent)
            && c.after == LevelIn(b2.talents, branch, c.talent)
            && c.diff == c.after - c.before)
  {
    ChangesValues(b1.talents, b2.talents, BRANCHES[i], KeysOf(b1.talents, BRANCHES[i]));
    ChangesKeys(b1.talents, b2.talents, BRANCHES[i], KeysOf(b1.talents, BRANCHES[i]));
  }

  lemma {:induction false} MissingSelf(xs: seq<string>, ys: seq<string>)
    requires forall c :: c in xs ==> c in ys
    ensures Missing(xs, ys) == []
  {
    if |xs| > 0 {
      MissingSelf(xs[1..], ys);
    }
  }

  lemma {:induction false} ChangesSelf(t: seq<Branch>, branch: string, keys: seq<string>)
    ensures Changes(t, t, branch, keys) == []
  {
    if |keys| > 0 {
      ChangesSelf(t, branch, keys[..|keys| - 1]);
    }
  }

  /** A record compared with itself shows no difference. */
  lemma CompareSelf(b: TalentData)
    ensures var r := Compare(b, b);
      && !r.specChanged && r.combosAdded == [] && r.combosRemoved == []
      && forall i :: 0 <= i < |r.talents| ==> r.talents[i].changes == []
  {
    MissingSelf(b.combosUnlocked, b.combosUnlocked);
    forall i | 0 <= i < |BRANCHES| ensures Compare(b, b).talents[i].changes == [] {
      ChangesSelf(b.talents, BRANCHES[i], KeysOf(b.talents, BRANCHES[i]));
    }
  }

  /** Swapping the records swaps the added and removed combos and the before and after of the
      specialization, level and points. */
  lemma CompareSwap(b1: TalentData, b2: TalentData)
    ensures var r, s := Compare(b1, b2), Compare(b2, b1);
      && s.combosAdded == r.combosRemoved && s.combosRemoved == r.combosAdded
      && s.specChanged == r.specChanged
      && s.specBefore == r.specAfter && s.specAfter == r.specBefore
      && s.levelBefore == r.levelAfter && s.pointsBefore == r.pointsAfter
  {
  }

  /** Only the first record's keys are visited: a branch it lacks reports nothing, whatever the
      second record holds there. */
  lemma CompareReadsFirstRecordKeys(b1: TalentData, b2: TalentData, i: nat)
    requires i < |BRANCHES| && !HasBranch(b1.talents, BRANCHES[i])
    ensures Compare(b1, b2).talents[i].changes == []
  {
  }

  /** The inner loop of `compareBuilds`: the changes of one branch. */
  method CompareBranch(t1: seq<Branch>, t2: seq<Branch>, branch: string) returns (bc: BranchChanges)
    ensures bc == BranchDiff(t1, t2, branch)
  {
    var keys := KeysOf(t1, branch);
    var changes: seq<TalentChange> := [];
    for j := 0 to |keys|
      invariant changes == Changes(t1, t2, branch, keys[..j])
    {
      var talent := keys[j];
      var before := LevelIn(t1, branch, talent);
      var after := LevelIn(t2, branch, talent);
      ghost var prefix := keys[..j + 1];
      assert prefix[..j] == keys[..j] && prefix[j] == talent;
      assert Changes(t1, t2, branch, prefix) == changes + ChangeOf(t1, t2, branch, talent);
      if before != after {
        changes := changes + [TalentChange(talent, before, after, after - before)];
      }
    }
    assert keys[..|keys|] == keys;
    bc := BranchChanges(branch, changes);
  }

  /** `compareBuilds(build1, build2)`: the outer loop over the catalog branches. */
  method CompareBuilds(b1: TalentData, b2: TalentData) returns (diff: BuildDiff)
    ensures diff == Compare(b1, b2)
  {
    var talents: seq<BranchChanges> := [];
    for i := 0 to |BRANCHES|
      invariant talents == BranchDiffs(b1.talents, b2.talents)[..i]
    {
      var bc := CompareBranch(b1.talents, b2.talents, BRANCHES[i]);
      ghost var all := BranchDiffs(b1.talents, b2.talents);
      assert all[..i + 1] == all[..i] + [all[i]];
      talents := talents + [bc];
    }
    assert talents == BranchDiffs(b1.talents, b2.talents);
    diff := BuildDiff(
      b1.specialization, b2.specialization, b1.specialization != b2.specialization,
      b1.level, b2.level, b1.pointsAvailable, b2.pointsAvailable,
      talents,
      Missing(b2.combosUnlocked, b1.combosUnlocked),
      Missing(b1.combosUnlocked, b2.combosUnlocked));
  }
}
