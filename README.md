# Talent tree progression, in Dafny

This project models the progression engine of the talent-tree skill. One JSON record holds:

- the XP total, the level and the unspent talent points;
- four branches of three talents each, at levels 0..5;
- a specialization, the unlocked combos and the achievements;
- an append-only history of events.

The operations read the record, change it and write it back:

- XP gains;
- talent upgrades;
- the choice of a specialization;
- the skill, task, achievement, daily and combo awards;
- a reset that refunds the spent levels;
- the command dispatcher;
- the quick-start presets;
- the comparison of two builds.

The record is a value (`TalentManager.TalentData`). Each operation receives the record the load
returned (`None` when there is none) and returns the record the save wrote (`None` when nothing
was written). Saving stamps `lastActivity`. The time of the call is a parameter, `now`. The
calendar day is the part of `now` before the first `T`.

Most operations are methods written as the code is: loops that search, assignments to the fields
of the loaded record, and pushes to its lists. Each method is proved against a specification
function or an explicit record. Lemmas about those functions carry the properties.

The central quantity is the point ledger (`TalentManager.Ledger`): points held, plus upgrades
made, minus one point per 100 XP. `addXP` with an amount of 0 or more, `upgradeTalent` and
`setSpecialization` keep it constant, so XP gains and upgrades conserve points. The other awards each treat the points
differently, and their contracts state how:

- the skill award, as written, overwrites the points held (`XpTracker.AwardSkillXP` adds to them instead, as "## Findings" explains);
- task and achievement awards recompute them from the total;
- the daily bonus and the combo unlock add XP without touching them.

Files:

- `text.dfy`: `Option`, and the JavaScript string operations used below: `toLowerCase`, `\s`,
  `includes`, `split`, `join`.
- `talent_manager.dfy`: the catalogs, the record, `addXP`, `upgradeTalent`, `setSpecialization`,
  `checkCombos`, and point conservation.
- `xp_tracker.dfy`: `XP_REWARDS`, the skill classifier, and the five award operations.
- `commands.dfy`: `resetTalents`, the `setSpec` and `upgrade` handlers, and `handleCommand`.
- `presets.js` is modelled in `presets.dfy`: `PRESETS` and `applyPreset`.
- `export_import.dfy`: `compareBuilds`.

## Model

| member | source | states |
|---|---|---|
| TalentManager.XpAddedProperties | talent-manager.js:142-164 | An amount of 0 or more raises the total by exactly that amount. The points grow by exactly the 100-boundaries crossed and never fall. One `xp_gained` event is appended and the talents are kept. The point ledger is kept. A level that agreed with the total still agrees. |
| TalentManager.AddXP | talent-manager.js:142-164 | With no record nothing is saved. Otherwise the saved record is the XP update, stamped. |
| TalentManager.HundredsDetermineLevel | talent-manager.js:146-153 | The level `floor(x/500)+1` equals `floor(x/100)/5 + 1`. So recomputing the level only when a 100-boundary is crossed keeps it right. |
| TalentManager.LocateFindsAny | talent-manager.js:174-185 | The talent search over the branches finds a branch exactly when some branch holds the normalized key. |
| TalentManager.UpgradeTalent | talent-manager.js:166-214 | The search loop stops at the first branch, in record order, that holds the normalized key. The method's result and saved record are those of the upgrade outcome. |
| TalentManager.UpgradeOutcomeProperties | talent-manager.js:183-213 | A failure saves nothing. A success reports the normalized key and spends exactly one held point, so the points stay at 0 or more. The new level is at most 5, and at least 1 when the levels were in range. The total of all levels rises by exactly 1, and branches and keys are kept. XP and level are unchanged, the ledger is kept, and levels stay in 0..5. |
| TalentManager.UpgradeFailsExactly | talent-manager.js:166-194 | An upgrade fails exactly when one of these holds: there is no record; the key is empty or held by no branch; no point is held; or the talent found is at level 5 or more. |
| TalentManager.UpgradeFailureCause | talent-manager.js:166-194 | No record gives the no-data error. An empty key, or one no branch holds, gives not-found. A talent at level 5 or more gives max-level whatever the points, since that test comes first. Below level 5 with no point held gives the no-points error. |
| TalentManager.RaisedProperties | talent-manager.js:196-204 | Raising one level by 1 and spending one point keeps the ledger, the shape, XP and level. It adds 1 to the level total and keeps levels in 0..5 when the level was below 5. |
| TalentManager.SetLevel | talent-manager.js:196 | Setting one level changes that level only and keeps every branch and key. |
| TalentManager.SetLevelTotal | talent-manager.js:196 | Setting one level changes the total of all levels by the difference. |
| TalentManager.PointConservation | talent-manager.js:146-151 | Over any run of `addXP` calls with amounts of 0 or more and of `upgradeTalent` calls (failed ones change nothing), the points equal the initial points, plus the 100-boundaries crossed, minus the upgrades made. The points never go negative, and XP and the upgrade count never decrease. |
| TalentManager.SetSpecialization | talent-manager.js:216-247 | With no record, or a name that is not a branch once lower-cased, it fails and saves nothing. On success the specialization is the lower-cased branch. `first_specialization` is held exactly once, and the logged event carries the previous and new values. Talents, XP, level and the ledger are kept. |
| TalentManager.CheckCombos | talent-manager.js:249-276 | The list holds at most the four catalog combos, none of them already unlocked. `CheckCombosExact` states which ones. |
| TalentManager.CheckCombosExact | talent-manager.js:249-276 | A combo is reported exactly when it is one of the four, its threshold on the branch totals holds, and it is not yet unlocked. |
| TalentManager.CheckCombosMember | talent-manager.js:259-273 | The same statement for one given name. |
| TalentManager.CheckCombosOrdered | talent-manager.js:253-275 | The reported combos come in catalog order, so none is reported twice. |
| TalentManager.CheckCombosDependsOnTotals | talent-manager.js:249-276 | The result depends only on the four branch totals and the unlocked list. |
| TalentManager.CombosDistinct | talent-manager.js:259-273 | The four combo names are distinct and ranked 0..3. |
| XpTracker.FirstKeywordFrom | xp-tracker.js:32-37 | The keyword found is the first one, in declaration order, whose underscored form occurs in the name. No keyword is found exactly when none occurs. |
| XpTracker.ClassifySkill | xp-tracker.js:29-37 | The classifier loop returns the branch of that first keyword. |
| XpTracker.ClassifyGitAudit | xp-tracker.js:29-37 | "git-audit" is a security skill, because "audit" is declared before "git". |
| XpTracker.ClassifyGit | xp-tracker.js:29-37 | "git" is a development skill. |
| XpTracker.SkillAward | xp-tracker.js:45-51 | A skill earns 16 XP in the specialization's branch and 5 otherwise. |
| XpTracker.AwardSkillXP | xp-tracker.js:24-81 | The method's result and saved record are those of the skill outcome under the corrected rule, which adds the points crossed to those held. |
| XpTracker.ApplySkillXp | xp-tracker.js:44-67 | The bonus and the field updates give the award and the record of that outcome, once the branch is known. |
| XpTracker.SkillOutcome | xp-tracker.js:24-81 | Under either point rule (`Overwrite` is the code as written): a record is saved exactly when there is one and the skill is classified. The save is an award, keeps the talents and is stamped now. |
| XpTracker.SkillOutcomeProperties | xp-tracker.js:24-81 | Nothing is saved exactly when there is no record or the skill is unmapped. An award reports the classified branch. It adds 16 or 5 XP to the total, sets the level from the total and logs one `skill_xp` event. Under the code's rule the points become 0 or 1. |
| XpTracker.SkillAwardDiscardsHeldPoints | xp-tracker.js:59 | As written, a skill award lowers the ledger by exactly the points held before it. |
| XpTracker.SkillAwardLosesPointsExample | xp-tracker.js:59 | A record holding 3 points that uses the skill "git" is left with 0 points. |
| XpTracker.AccumulatedSkillAwardKeepsLedger | xp-tracker.js:59 | With the points crossed added instead, a skill award keeps the ledger and never lowers the points. |
| XpTracker.AwardTaskXP | xp-tracker.js:86-111 | A complex task earns 50 XP and any other task 25. Level and points are recomputed from the new total. So the ledger becomes the number of upgrades made: every spent point is granted again. |
| XpTracker.AwardAchievement | xp-tracker.js:116-144 | An achievement already held earns nothing and saves nothing. Otherwise it is added once (achievements stay free of duplicates) and earns 50 XP. Level and points are recomputed from the total. |
| XpTracker.DailyBonus | xp-tracker.js:149-174 | If some `daily_bonus` event's timestamp starts with today's date, nothing is earned or saved. Otherwise 1 XP and one event are added, and the bonus counts as claimed today. Level and points are untouched, so the ledger drops when the XP crosses a 100-boundary. |
| XpTracker.DailyBonusTwice | xp-tracker.js:149-174 | A second call on the same calendar day earns nothing and saves nothing. |
| XpTracker.CheckAndUnlockCombos | xp-tracker.js:179-202 | The combos unlocked are those `checkCombos` reports. Each is appended once, with 100 XP and one event. A save happens only when there is at least one. |
| XpTracker.UnlockedLeavesNothing | xp-tracker.js:184-195 | After the unlock no combo is left to unlock. The unlocked list holds exactly the combos held before plus those newly qualified. |
| XpTracker.UnlockedNoDup | xp-tracker.js:186-188 | An unlocked list without duplicates stays without duplicates. |
| XpTracker.UnlockedLedger | xp-tracker.js:188 | Each combo's 100 XP grants no point: the ledger drops by one per combo, and the talents are kept. |
| XpTracker.UnlockTwice | xp-tracker.js:179-202 | An immediate second call finds nothing and saves nothing. |
| XpTracker.UnlockEach | xp-tracker.js:186-195 | The loop over the new combos gives the record the unlock specifies: each name appended, 100 XP and one event per combo. |
| XpTracker.ComboEvents | xp-tracker.js:189-194 | One `combo_unlock` event per combo, in order. |
| Commands.ResetTalents | commands.js:167-203 | The refund, computed before the levels are zeroed, is the sum of all levels, and the points become 3 plus the refund. The nested loops zero every level in place. The saved record is the reset record. With no record nothing is saved. |
| Commands.ResetRecordProperties | commands.js:173-193 | After a reset the points are 3 plus the levels spent before, whatever was held. The levels are in 0..5 and sum to 0, so every level is 0, and every branch and key is kept. XP is 0 at level 1. The specialization, combos and achievements are cleared. The history is kept with exactly one event appended, and `created` is kept. |
| Commands.ResetRefundExample | commands.js:173-178 | Ten spent levels give 13 points. |
| Commands.Zeroed | commands.js:182-186 | Zeroing keeps every branch and key in order and sets every level to 0. |
| Commands.ZeroedProperties | commands.js:182-186 | Zeroing keeps the shape and leaves no level spent. |
| Commands.SetSpecCommand | commands.js:49-69 | An empty branch gives the usage reply and stores nothing new. With no record, or a name that is not a branch, the reply carries the failure and nothing new is stored. A successful change replies with the branch and the achievement already held. It stores the record with the new specialization, `first_specialization` held and the change logged, stamped now. XP, level, points and the ledger are those before. |
| Commands.UpgradeCommand | commands.js:71-101 | An empty name gives the usage reply and no record the no-data reply; neither stores anything new. Otherwise the reply carries the result of `upgradeTalent`, and a failure leaves the record alone. After a success the combos reported are those `checkCombos` finds on the upgraded record. The record stored is the upgraded one, with those combos unlocked when there are any. No qualifying combo is left locked, the upgraded talents are kept, the level total is one more than before, and the ledger drops by one per combo unlocked. |
| Commands.LookupCommand | commands.js:17-28 | A token has a handler exactly when it is one of the ten command names. |
| Commands.Parse | commands.js:240-257 | The dispatch as written. A handler other than the tree and upgrade ones is reached only by its own name. The handler gets the words after the first, except in the fallback: there an unknown token is handed to upgrade, followed by a space and the rest. |
| Commands.ParseCommandArgs | commands.js:240-253 | A command name followed by words reaches its handler with exactly those words, joined by single spaces. |
| Commands.ParseTalentShowsTree | commands.js:245-248 | A first token "talent" shows the tree, whatever follows. |
| Commands.SingleTokenFallbackNeverUpgrades | commands.js:255-256 | As written, a single token that is not a command is passed on with a trailing space. On a record of the catalog's shape its key then matches no talent, so the upgrade fails with "not found". |
| Commands.CatalogIdsEndInLetter | talent-manager.js:12-33 | No catalog talent id ends in `_`. |
| Commands.CorrectedParseDiffersOnlyForLoneToken | commands.js:240-257 | The corrected dispatch agrees with the one as written except for a lone non-command token, where the written one hands upgrade the token plus a trailing space. |
| Commands.CorrectedSingleTokenFindsTalent | commands.js:255-256 | With the fallback passing a lone token as it is, the upgrade finds the talent whenever some branch holds its key. |
| Commands.CorrectedFallbackFindsTalent | commands.js:255-256 | With the corrected fallback, "Git-Master" finds `git_master` in the development branch. |
| Commands.RunCall | commands.js:240-257 | The handlers that only render leave the record alone. The spec and upgrade handlers keep every promise of `SetSpecCommand` and `UpgradeCommand`. A reset with no record says so and stores nothing new; otherwise it replies with the refund and stores the reset record. |
| Commands.HandleCommand | commands.js:240-257 | The input, parsed with the corrected fallback, is run with every guarantee of `RunCall`. |
| Presets.FindPreset | presets.js:95-98 | A preset is found exactly when the key is one of the six, and it is the entry with that key. |
| Presets.PresetTable | presets.js:5-89 | Every preset has the catalog's shape and levels in 0..5. The level sums are 15, 15, 15, 15, 20 and 26. |
| Presets.Matrix | presets.js:10-15 | A level matrix has the catalog's branches and keys, in order. |
| Presets.MatrixTotal | presets.js:111-116 | The level sum of a matrix is the sum of its twelve levels. Its levels lie in 0..5 when the given ones do. |
| Presets.ApplyPreset | presets.js:94-141 | A record is written exactly when the preset is found. The record written holds no points and no combos, names the preset, is stamped now and logs one `preset_applied` event. |
| Presets.ApplyPresetFinds | presets.js:94-98 | A preset is applied exactly when the normalized name is a key. An unknown name writes nothing. |
| Presets.ApplyPresetRecord | presets.js:104-137 | The written record holds the preset's matrix and its specialization, with 0 points. Its XP is 100 times the level sum, so the sum spends exactly the points the XP grants. The level is 1 plus a third of the sum, and the reported points are the sum. There are no combos, achievements are `preset_applied`, and the history is a single `preset_applied` event. `created` comes from the current record when it has one. |
| Presets.PresetKeyExample | presets.js:95 | "Full_Stack Dev" normalizes to "full-stack-dev". |
| Presets.DevopsLevelAheadOfXp | presets.js:76-116 | The devops preset sets level 9 from its 26 levels, while its 2600 XP gives level 6 under the XP formula. |
| Presets.DevopsThenTask | presets.js:107-116 | So the next task award lowers the level of a devops record from 9 to 6. |
| ExportImport.MissingMembers | export-import.js:139-142 | The filter keeps exactly the names of the first list that the second lacks. |
| ExportImport.MissingAppend | export-import.js:139-142 | The filter keeps the order of its input. |
| ExportImport.CompareBuilds | export-import.js:129-158 | The two loops build the comparison of the two records. |
| ExportImport.CompareBranch | export-import.js:147-155 | The inner loop gives the changes of one branch, in the order of the first record's keys. |
| ExportImport.CompareProperties | export-import.js:129-158 | The comparison holds both specializations and whether they differ, both levels and point counts, and one entry per catalog branch. `added` holds exactly the combos only the second record holds, and `removed` exactly those only the first holds. |
| ExportImport.CompareTalents | export-import.js:145-155 | In each catalog branch a talent is reported exactly when the first record holds it there and the two levels, a missing one read as 0, differ. It is reported once, with `diff` equal to `new` minus `old`. |
| ExportImport.ChangesValues | export-import.js:149-153 | Each change carries the two levels and their nonzero difference. |
| ExportImport.ChangesKeys | export-import.js:148-154 | Changes are reported once each, exactly for keys whose levels differ. |
| ExportImport.CompareSelf | export-import.js:129-158 | A record compared with itself shows no difference. |
| ExportImport.CompareSwap | export-import.js:129-143 | Swapping the records swaps the added and removed combos and the before and after values. |
| ExportImport.CompareReadsFirstRecordKeys | export-import.js:148 | Only the first record's keys are visited: a branch it lacks reports nothing. |
| Text.WordsOfJoin | commands.js:241-243 | Splitting words joined by single spaces gives the same words back. |
| Text.ContainsWitness | xp-tracker.js:33 | `includes` holds exactly when the needle occurs at some position. |

## Left out

- File storage is a parameter, as described above. This covers `loadTalentData`, `saveTalentData`, the preset file write and every file read. A load that fails to parse is not distinguished from a missing file.
- Each call has a single time, `now`. The code reads the clock separately for the event and for the save, and the two readings may differ.
- Display names (`TALENT_NAMES`, preset names and descriptions), emoji, colours and every message text are left out.
- The rendering handlers (`displayTree`, `showProgress`, `showHelp`) are replies without text.
- TalentManager.UpgradeTalent: the result carries the talent id instead of its display name `TALENT_NAMES[id]`.
- Presets.ApplyPreset, Presets.DevopsThenTask: the preset is written to `.talent-tree.json` under `WORKSPACE_PATH` or the working directory (presets.js:100-102), while `loadTalentData` reads a fixed path (talent-manager.js:9). The model treats both as the one record, so `DevopsThenTask` describes the code only when the two paths name the same file.
- Presets.ApplyPreset: the result carries the preset's key instead of its display name and description, and leaves out the recommendations.
- `toLowerCase` is modelled on ASCII letters only. JavaScript also lower-cases other letters.
- Object keys inherited from the prototype, such as "constructor", are not modelled. A JSON document with a repeated key is modelled with both entries: lookups take the first, and the level sums count both. `JSON.parse` keeps a single entry instead, at the position where the key first appears, holding the last value.
- Levels and totals are unbounded integers. JavaScript numbers are doubles, which stay exact far beyond any reachable total.
- TalentManager.CheckCombos, XpTracker.CheckAndUnlockCombos, Commands.UpgradeCommand, Commands.RunCall and Commands.HandleCommand require a record holding all four branches whenever the combo check runs. The code throws on a record that lacks one; the throw is not modelled.
- XpTracker.AwardSkillXP, XpTracker.ApplySkillXp: add the points crossed to those held instead of overwriting them, as the first finding below explains. The point update in `ApplySkillXp` applies this rule in place of the overwrite at xp-tracker.js:59. `XpTracker.SkillOutcome` with the `Overwrite` rule is the code as written.
- Commands.HandleCommand: passes a lone token on without the trailing space, as the second finding below explains. `Commands.Parse` is the dispatch as written. `Commands.CorrectedParseDiffersOnlyForLoneToken` states that this is the only difference.
- The entry point passes only its first argument to `handleCommand`. The model takes that string as its input.
- `exportBuild`, `importBuild`, `shareBuild`, `importFromCode` and `generateSummary` are not part of this model. Neither are `analytics.js`, `display.js`, `global-xp.js`, `heartbeat-xp.js` and `demo.js`.

## Findings

| source | as written | input that shows it | evidently intended | confidence | as-written member | corrected member |
|---|---|---|---|---|---|---|
| xp-tracker.js:59 | `points_available` is overwritten with the points just crossed, discarding every point held | a record with 3 unspent points and 0 XP uses the skill "git": 0 points are left | add the points crossed, as `addXP` does | high (not executed) | XpTracker.SkillAwardLosesPointsExample | XpTracker.AccumulatedSkillAwardKeepsLedger |
| commands.js:256 | the fallback builds `cmd + ' ' + args` even when `args` is empty, so a lone talent name ends in a space and normalizes to a key ending in `_` | `handleCommand("git-master")` calls `upgradeTalent("git-master ")`, which reports "not found" | pass the token alone when no words follow it | high (not executed) | Commands.SingleTokenFallbackNeverUpgrades | Commands.CorrectedSingleTokenFindsTalent |

The corrected skill award is `XpTracker.SkillOutcome` with the `Accumulate` rule, which
`XpTracker.AwardSkillXP` implements. The corrected dispatch is `Commands.CorrectedParse`, which
`Commands.HandleCommand` runs. `XpTracker.SkillAwardDiscardsHeldPoints` states the first
discrepancy for every record.
