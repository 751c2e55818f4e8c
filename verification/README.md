# OpenStarry Code: ledger migrations, consent workflow and live harness

A Dafny model of the parts of OpenStarry Code where many rules meet, with proofs about
all inputs, runs and schedules. `dafny verify dfyconfig.toml` checks it.

**The MetaSkill audit ledger (V010 to V018).** `Sqlite` models tables with a column
order, CHECK sets, keys, foreign keys with cascade, ordinary and partial unique indexes,
and a connection whose `foreign_keys` pragma does nothing inside a transaction.
`Rebuild` proves the create, copy, drop, rename, index recipe equal to a change of the
table in place, and says exactly when it goes through. `LedgerSchema` holds the schemas
of the chain as data and `LedgerValues` spells out what they take; `LedgerSteps` and
`LedgerChain` show what each step does to rows, keys, indexes and references;
`AuditLedger` and `LedgerStart` are the migrations themselves with their guards, counts
and refusals. `LedgerRuns` interleaves them with writers that may do anything the schema
of the moment permits. `LedgerHazards` proves what the guards are for. `MigrationGraph`
adds the parallel V010 branch, V017 and V018; `MigrationBoots` runs them in any order
the dependencies allow, with crashes between a step's commit and its mark and with
writers between the boots.

**The short-drama workflow.** `DramaGraph` is the emitted step graph for any number of
shot slots; `DramaScheduler` is the scheduler's bookkeeping as transitions (spawn,
evaluate the guard, dispatch, return, settle, fail, fail over, pause, resume from stored
outputs) with a user who edits `script.txt` at any moment; `ClarifyForm` is what becomes
of a reply before the workflow sees it: the parser of its lines and the model that fills
in what they leave out, and `ReplyFormats` the patterns and rules it meets;
`DurationContract` is the check that paid steps run under, and `CanonicalScripts` says
which scripts meet it; `DramaBooks`, `DramaConsent` and `DramaRuns` prove what every run
keeps, `DramaFile` what `script.txt` holds meanwhile, `DramaInputs` what each step finds
when it starts, and `DramaWitness` builds runs that do pay. `ReviewNormalizer` is the
deterministic consent normalizer, down to the text of its decision block, and
`ReviewBlocks` that text in terms of the replies; what its regular expressions recognise
in a reply is a parameter. `Texts` holds the Python text operations. `StepLabels` is the
generator's label injection.

**The live harness.** `SecretScan` and `TreeScan` are the chunked scanner, the tree walk
and scan-then-remove; `Redaction` the replacement and pattern passes; `TurnObservation`
the event observer; `Accounting` and `ExecuteCase` the accounting join and the case from
start to exit code.

**The outbox of staged chat inputs.** `PendingInputs` is the three tables of V035 and
the turn receipts of V020 with the storage layer's transactions over them.

## What the code does that its comments do not say

- A final script is what the gate showed only up to newlines and surrounding space: the
  process output is normalised and stripped after it was shown
  (`DramaRuns.WhenPreviewIsPaidVerbatim`), and whenever a redraft holds a carriage return
  a run can pay for another text than the one it showed
  (`DramaWitness.PaidScriptMayDiffer`).
- A draft with a carriage return is taken for edited although nobody edited it, and is
  presented a second time (`DramaFile.UneditedDraftIsReadBack`).
- The workflow does not read a reply as it was sent. A prefix such as `review:` or `1.` is
  taken off (`ClarifyForm.PrefixIsTakenOff`), and a second line goes to the notes field
  that every form has: an approval with an objection on the next line is an approval
  (`ClarifyForm.SecondLineIsNotRead`, `DramaWitness.RemarkIsNotRead`). The generator's
  comment has it that a multi-line reply is preserved
  (scripts/_gen_meta_short_drama.py:411-412); that holds only for a form of one field.
- The approval need not be the user's: where the lines give the review no value (nothing
  at all, `1.`, a form's value that is too long) or one such as "whatever", a language
  model puts one in, and it may approve (`DramaWitness.ModelMayApprove`). In every other
  case the value that the lines give is itself the approval
  (`DramaRuns.PaymentsFollowTheUsersWords`).
- The duration contract and the guards of the paid steps take a script's lines in two
  ways: the contract by newlines, the guards by `splitlines`. A header after a vertical
  tab is a shot for the guards that the contract, and the price that was shown, leave out
  (`DurationContract.ShotMayBeHidden`); the condition is
  `DurationContract.HeadersAreDeclared`.
- The observer's marker flag is not "seen once": it can fall back
  (`TurnObservation.MarkerScrollsOut`).
- The label injection cannot be undone when the text ends in a step-id line without a
  line end (`StepLabels.RemoveUndoesInject`).
- Redaction can leave a secret behind. Beside any other secrets and in any text a secret
  is safe exactly when it disagrees with the marker wherever it is laid over it
  (`Redaction.SafeIffUntouchable`). A secret that is redacted alone is left exactly when
  the text that its overlay makes does not hold it any earlier
  (`Redaction.ReplaceLeavesIffSurvives`), or, through the pattern passes, when it agrees
  with the marker right after a separator of its own (`Redaction.SecretStaysIff`,
  `Redaction.HeaderStays`). `RED` stays alone; `[[` never does, but beside the secret `x`
  it is left in the text `[x` (`Redaction.BracketsNeedAnother`).
- Report keys are not redacted: a sanitized report is free of a secret exactly when no
  key that stays in it holds the secret (`Redaction.ReportIsFreeIff`).
- Outside a transaction V011 leaves foreign-key enforcement on, and V012 then refuses
  (`LedgerHazards.OutsideTransaction`); and a blocked rollback of V013 has dropped the
  partial unique index for good (`LedgerHazards.BlockedOutsideTransaction`).
- A staged input whose request was accepted as a direct turn is never dispatched, and two
  transactions lead there (`PendingInputs.DirectTurnStrands`).
- A cleanup failure replaces a keyboard interrupt when there is no result yet
  (`ExecuteCase.Execute`).

## Model

| member | source | states |
|---|---|---|
| `Sqlite.Connection.PragmaForeignKeys` | migrations/V011__meta_skill_runs_triggered_by_auto.py:160-177 | the `foreign_keys` pragma takes effect outside a transaction and is a no-op inside one |
| `Sqlite.Connection.Execute` | migrations/V011__meta_skill_runs_triggered_by_auto.py:153-168 | a statement either takes the database to its result or raises and leaves it as it was |
| `Rebuild.CopyStatement` | migrations/V011__meta_skill_runs_triggered_by_auto.py:161-163 | `INSERT .. SELECT` into the new table succeeds exactly when the column lists fit and every moved row meets the new table's constraints; then the new table holds exactly the moved rows |
| `Rebuild.DropThenRename` | migrations/V011__meta_skill_runs_triggered_by_auto.py:164-165 | dropping the old table and renaming the copy puts the copy in its place and removes the old indexes; with enforcement live the children's rows go first |
| `Rebuild.CreateNext` | migrations/V011__meta_skill_runs_triggered_by_auto.py:166-167 | the loop over the index list either adds the next index or shows that the rebuild is not admissible (name taken, or duplicates under a unique index) |
| `Rebuild.CreateIndexes` | migrations/V011__meta_skill_runs_triggered_by_auto.py:166-175 | recreating the indexes and the closing `foreign_key_check` succeed exactly when the rebuild is admissible, and then the database is the in-place change |
| `Rebuild.RunStatements` | migrations/V011__meta_skill_runs_triggered_by_auto.py:158-177 | the whole recipe without its guard equals changing the table in place, after the cascade that a live connection performs, and goes through exactly when that is admissible |
| `Rebuild.Recreate` | migrations/V011__meta_skill_runs_triggered_by_auto.py:147-177 | the guarded recipe: refused untouched when enforcement is live; otherwise it changes the table in place exactly when that is admissible, and outside a transaction it leaves enforcement on |
| `LedgerSteps.MovedIsCarried` | migrations/V012__meta_skill_run_steps_allow_llm_chat.py:104-130 | the positional `SELECT *` copies of V011 and V012 and the named-list copies of V013 to V016 move the same rows: every shared column keeps its value, every new one gets its default |
| `LedgerSteps.MigrationWidens` | migrations/V013__meta_skill_runs_clarify.py:19-60 | each of V011 to V016 only widens: the old columns, keys and foreign key stay, one CHECK grows by exactly the migration's new values, new columns accept their defaults |
| `LedgerSteps.CarriedTableOk` | migrations/V013__meta_skill_runs_clarify.py:206-240 | the carried rows meet the other level's constraints exactly when going up, or when no row uses a value that the older CHECK forbids |
| `LedgerSteps.CarriedIndexHolds` | migrations/V016__meta_skill_runs_triggered_by_manual_command.py:180-183 | every index on the table still holds of the carried rows, the partial unique index included |
| `LedgerSteps.NobodyAwaits` | migrations/V013__meta_skill_runs_clarify.py:189-195 | before V013 no row can hold `awaiting_user`, so the partial unique index holds when it is first built |
| `LedgerSteps.SameReferences` | migrations/V013__meta_skill_runs_clarify.py:200-203 | foreign-key integrity depends only on the referenced columns of the rebuilt table |
| `LedgerChain.StepInPlace` | migrations/V016__meta_skill_runs_triggered_by_manual_command.py:167-191 | run on the database as prepared, a migration's plan yields exactly the reshaped database of its level |
| `LedgerChain.StepAdmissible` | migrations/V013__meta_skill_runs_clarify.py:206-240 | the plan of each apply and each rollback is admissible if and only if no row is orphaned and, going down, no row uses a value the older CHECK forbids |
| `LedgerChain.StepReachesLevel` | migrations/V014__meta_skill_run_steps_allow_user_input.py:130-158 | a step takes a database with the schema and the full index set of one level to that of the next |
| `LedgerChain.StepStaysSound` | migrations/V016__meta_skill_runs_triggered_by_manual_command.py:180-183 | after a step that goes through every CHECK, key and index holds, the unique partial index included |
| `LedgerChain.StepKeepsReferences` | migrations/V011__meta_skill_runs_triggered_by_auto.py:169-175 | no step row is orphaned by any apply or rollback |
| `LedgerChain.RollbackUndoesApply` | migrations/V013__meta_skill_runs_clarify.py:206-240 | rollback after apply is the identity on every database of the level |
| `LedgerChain.NothingNew` | migrations/V013__meta_skill_runs_clarify.py:210-218 | right after an apply no row uses what it newly allows, so a fresh rollback is never blocked |
| `LedgerValues.RunRows` | migrations/V016__meta_skill_runs_triggered_by_manual_command.py:79-118 | the rows that the runs table takes at each level, value by value: its triggers, its statuses, what may be NULL |
| `LedgerValues.StepRows` | migrations/V014__meta_skill_run_steps_allow_user_input.py:52-79 | the rows that the step table takes at each level: its kinds, its statuses, what may be NULL |
| `LedgerValues.RunColumnsAre` | migrations/V013__meta_skill_runs_clarify.py:28-60 | the columns, the key and the foreign key of the runs table at each level |
| `LedgerValues.StepColumnsAre` | migrations/V015__meta_skill_step_usage.py:92-100 | the same of the step table |
| `LedgerValues.RunIndexesAre` | migrations/V013__meta_skill_runs_clarify.py:180-203 | the indexes of the runs table at each level, the partial unique one from V013 on |
| `LedgerValues.StepIndexesAre` | migrations/V015__meta_skill_step_usage.py:103-137 | the index of the step table at each level |
| `LedgerValues.RunDefaults` | migrations/V013__meta_skill_runs_clarify.py:28-60 | what each column of the runs table declares as its default |
| `LedgerValues.StepDefaults` | migrations/V015__meta_skill_step_usage.py:92-100 | the same of the step table |
| `LedgerValues.RunsDiffer` | migrations/V010__meta_skill_runs.py:29-50 | the key of the runs table: no two rows hold the same id, and NULL is the same as nothing |
| `LedgerValues.StepsDiffer` | migrations/V010__meta_skill_runs.py:52-72 | the key of the step table: no two rows hold the same run and step |
| `LedgerValues.AwaitingDiffer` | migrations/V013__meta_skill_runs_clarify.py:189-195 | the partial unique index: no two rows that await a reply hold the same session |
| `LedgerValues.StepsBelong` | migrations/V011__meta_skill_runs_triggered_by_auto.py:169-175 | a step is an orphan exactly when it names a run and no run of that id is there |
| `LedgerValues.ClarifyStartsEmpty` | migrations/V013__meta_skill_runs_clarify.py:54-59 | after V013 every run holds NULL in the five columns about a reply it awaits, and 0 failures |
| `LedgerValues.UsageStartsEmpty` | migrations/V015__meta_skill_step_usage.py:97-100 | after V015 every step holds `{}` in the new column |
| `AuditLedger.GuardRecognises` | migrations/V013__meta_skill_runs_clarify.py:170-178 | each guard over the stored DDL or the columns recognises its own level and every later one, and no earlier one |
| `AuditLedger.GuardAt` | migrations/V016__meta_skill_runs_triggered_by_manual_command.py:197-202 | the same of a database that holds rows, at every point of the chain |
| `LedgerChain.RollbackAgain` | migrations/V013__meta_skill_runs_clarify.py:206-240 | after a rollback its plan, run once more, is admissible if and only if no row is orphaned, and then changes nothing |
| `AuditLedger.RecreateTable` | migrations/V014__meta_skill_run_steps_allow_user_input.py:130-158 | one rebuild of the chain: refused with enforcement live, else the reshaped database exactly when the step is admissible |
| `AuditLedger.ApplyV011` | migrations/V011__meta_skill_runs_triggered_by_auto.py:180-191 | apply: nothing without the table or when the guard recognises the schema; otherwise refused with enforcement live, or the rebuilt table of the next level |
| `AuditLedger.RollbackV011` | migrations/V011__meta_skill_runs_triggered_by_auto.py:194-197 | rollback succeeds exactly when no row uses a value the older CHECK forbids (blocked by the older CHECK itself), and then gives the table of the level below; repeated at the level below it gives the database back, refused under enforcement and blocked by an orphan |
| `AuditLedger.ApplyV012` | migrations/V012__meta_skill_run_steps_allow_llm_chat.py:133-142 | apply: nothing without the table or when the guard recognises the schema; otherwise refused with enforcement live, or the rebuilt table of the next level |
| `AuditLedger.RollbackV012` | migrations/V012__meta_skill_run_steps_allow_llm_chat.py:145-148 | rollback succeeds exactly when no row uses a value the older CHECK forbids (blocked by the older CHECK itself), and then gives the table of the level below; repeated at the level below it gives the database back, refused under enforcement and blocked by an orphan |
| `AuditLedger.ApplyV013` | migrations/V013__meta_skill_runs_clarify.py:167-203 | apply: nothing without the table or when the guard recognises the schema; otherwise refused with enforcement live, or the rebuilt table of the next level |
| `AuditLedger.RollbackV013` | migrations/V013__meta_skill_runs_clarify.py:206-240 | rollback succeeds exactly when no row uses a value the older CHECK forbids (blocked by the explicit count of `awaiting_user` and `expired` rows), and then gives the table of the level below; a blocked one has already dropped the partial unique index, which only its transaction gives back; repeated at the level below it gives the database back, refused under enforcement and blocked by an orphan |
| `AuditLedger.ApplyV014` | migrations/V014__meta_skill_run_steps_allow_user_input.py:161-171 | apply: nothing without the table or when the guard recognises the schema; otherwise refused with enforcement live, or the rebuilt table of the next level |
| `AuditLedger.RollbackV014` | migrations/V014__meta_skill_run_steps_allow_user_input.py:174-184 | rollback succeeds exactly when no row uses a value the older CHECK forbids (blocked by the explicit count of `user_input` rows), and then gives the table of the level below; repeated at the level below it gives the database back, refused under enforcement and blocked by an orphan |
| `AuditLedger.ApplyV015` | migrations/V015__meta_skill_step_usage.py:92-100 | apply: nothing without the table or when the guard recognises the schema; otherwise the column is added, holding its declared default `{}` in every row |
| `AuditLedger.RollbackV015` | migrations/V015__meta_skill_step_usage.py:103-137 | rollback succeeds exactly when no row uses a value the older CHECK forbids (never blocked), and then gives the table of the level below; repeated at the level below it gives the database back, whatever the flag |
| `AuditLedger.ApplyV016` | migrations/V016__meta_skill_runs_triggered_by_manual_command.py:194-203 | apply: nothing without the table or when the guard recognises the schema; otherwise refused with enforcement live, or the rebuilt table of the next level |
| `AuditLedger.RollbackV016` | migrations/V016__meta_skill_runs_triggered_by_manual_command.py:206-216 | rollback succeeds exactly when no row uses a value the older CHECK forbids (blocked by the explicit count of `manual_command` rows), and then gives the table of the level below; repeated at the level below it gives the database back, refused under enforcement and blocked by an orphan |
| `AuditLedger.CountRows` | migrations/V016__meta_skill_runs_triggered_by_manual_command.py:159-164 | the number of rows that hold one of the values, which is zero exactly when none does |
| `AuditLedger.ApplyInTransaction` | migrations/V011__meta_skill_runs_triggered_by_auto.py:122-144 | in its transaction a failing apply leaves the database unchanged, and the foreign-key flag is what it was |
| `AuditLedger.RollbackInTransaction` | migrations/V016__meta_skill_runs_triggered_by_manual_command.py:206-216 | a blocked rollback leaves the database unchanged, and the foreign-key flag is what it was |
| `LedgerStart.ApplyV010` | migrations/V010__meta_skill_runs.py:97-104 | creates both tables with all their indexes, or does nothing when the runs table is there |
| `LedgerStart.RollbackV010` | migrations/V010__meta_skill_runs.py:107-110 | removes both tables and their indexes and nothing else, with enforcement live or not |
| `LedgerStart.StartedStands` | migrations/V010__meta_skill_runs.py:29-85 | the fresh tables stand at level V010 with every constraint holding |
| `LedgerStart.RemovedUndoesStarted` | migrations/V010__meta_skill_runs.py:97-110 | rollback of a fresh V010 is the identity |
| `LedgerRuns.NextStaysConsistent` | migrations/V011__meta_skill_runs_triggered_by_auto.py:122-177 | one event (a permitted write, an apply, a re-apply, a rollback, a repeated rollback) keeps the level's schema and every constraint; without enforcement no apply fails and a rollback fails exactly when a row is in its way |
| `LedgerRuns.EveryRun` | migrations/V011__meta_skill_runs_triggered_by_auto.py:147-177 | for every run of migrations interleaved with permitted writes: all constraints always hold and the foreign-key flag never changes; without enforcement no copy ever fails; with it every rebuild raises and changes nothing, and the ledger never leaves its level but for the column that V015 adds |
| `LedgerRuns.AnyRowsMayBeWritten` | migrations/V013__meta_skill_runs_clarify.py:200-203 | the writers of such a run may leave any rows in the ledger that its constraints permit, and no others |
| `LedgerRuns.Migrate` | migrations/V011__meta_skill_runs_triggered_by_auto.py:122-144 | one migration, up or down, in its transaction on a connection is one event of such a run: the transaction keeps the flag, and the database stands at the level reached with every constraint holding |
| `LedgerRuns.StepKeepsRows` | migrations/V013__meta_skill_runs_clarify.py:89-102 | no event but a write loses a row or touches a value that both schemas hold; columns it adds hold their declared defaults |
| `LedgerRuns.AppliesKeepRows` | migrations/V016__meta_skill_runs_triggered_by_manual_command.py:167-191 | over any stretch of applies and re-applies the rows are those it began with, column by column |
| `LedgerRuns.OneAwaitingRunPerSession` | migrations/V013__meta_skill_runs_clarify.py:189-195 | in every reachable state from V013 on, two runs that await a reply never share a session key |
| `LedgerHazards.CascadeEmptiesSteps` | migrations/V011__meta_skill_runs_triggered_by_auto.py:122-144 | dropping the runs table with enforcement live deletes every step row and nothing else |
| `LedgerHazards.CascadeSparesRuns` | migrations/V012__meta_skill_run_steps_allow_llm_chat.py:80-101 | dropping the step table deletes no row elsewhere |
| `LedgerHazards.DropTakes` | migrations/V011__meta_skill_runs_triggered_by_auto.py:122-144 | what dropping any table takes from any other one: nothing, or with enforcement live the rows that point at one of its own |
| `LedgerHazards.UnguardedRebuildLosesSteps` | migrations/V011__meta_skill_runs_triggered_by_auto.py:153-177 | without its guard, on an enforcing connection, each rebuild of the runs table, up or down, goes through exactly when the guarded one would, passes the orphan check and leaves no step row |
| `LedgerHazards.RenamingOldFirstOrphans` | migrations/V011__meta_skill_runs_triggered_by_auto.py:147-156 | renaming the old table first drags the children's reference along: the orphan check then fails unless there were no step rows |
| `LedgerHazards.OutsideTransaction` | migrations/V011__meta_skill_runs_triggered_by_auto.py:158-177 | outside a transaction V011 leaves enforcement on and V012 refuses |
| `LedgerHazards.BlockedOutsideTransaction` | migrations/V013__meta_skill_runs_clarify.py:206-222 | outside a transaction a blocked rollback of V013 has dropped the partial unique index and nothing else, and the guard of its apply still holds, so a re-apply does not build it again |
| `LedgerHazards.ReapplyAfterRollback` | migrations/V013__meta_skill_runs_clarify.py:206-240 | apply after rollback restores the database exactly when the columns the migration adds still held their defaults |
| `MigrationGraph.HeadReachesAll` | migrations/V018__router_decisions_ts_index.py:12-29 | every dependency-closed set that contains V018 contains both V010 migrations and everything between |
| `MigrationGraph.EffectIsApply` | migrations/V016__meta_skill_runs_triggered_by_manual_command.py:194-203 | the effect used in the graph is what the apply steps were proved to do |
| `MigrationGraph.ApplyTurnUsage` | migrations/V010__transcript_turn_usage.py:40-46 | adds the nullable column once, if its table is there |
| `MigrationGraph.ApplyV017` | migrations/V017__router_decisions.py:78-83 | creates the router table and its index, or does nothing when the table is there |
| `MigrationGraph.RouterTakes` | migrations/V017__router_decisions.py:38-60 | what a router decision may hold in each column |
| `MigrationGraph.RouterDefaults` | migrations/V017__router_decisions.py:38-60 | and what it holds there by default |
| `MigrationGraph.RouterColumnsAre` | migrations/V017__router_decisions.py:38-60 | the columns of the router table and its key |
| `MigrationGraph.ApplyV018` | migrations/V018__router_decisions_ts_index.py:47-53 | creates the time index once, if the table is there |
| `MigrationGraph.PointStands` | migrations/V010__meta_skill_runs.py:97-104 | along the chain from V009 each point stands at its level with every constraint holding |
| `MigrationGraph.EffectFirst` | migrations/V017__router_decisions.py:78-83 | the first run of each migration of the chain makes its change |
| `MigrationGraph.EffectAgain` | migrations/V017__router_decisions.py:78-83 | running it again at its own point changes nothing: the crash between a step's commit and its mark is harmless |
| `MigrationGraph.UsageCommutes` | migrations/V018__router_decisions_ts_index.py:12-15 | the two V010 branches commute at every point of the chain |
| `MigrationBoots.ShapeOfEffect` | migrations/V016__meta_skill_runs_triggered_by_manual_command.py:194-203 | what any of the nine migrations makes of the schema depends on the schema alone, whatever rows are there |
| `MigrationBoots.ChainIsKept` | migrations/V017__router_decisions.py:78-83 | a migration of the chain that runs first or once more, on any rows that the schema of its point permits, leaves every constraint holding and loses no row and no value; new columns hold their defaults |
| `MigrationBoots.EveryBootRunConverges` | migrations/V018__router_decisions_ts_index.py:12-29 | whatever order the dependencies allow, however often a crash repeats a step and whatever writers do between boots: once V018 is marked the schema is the one that each migration once and in order gives, every constraint held all the time, and no migration lost a row or a value |
| `MigrationBoots.EveryQuietRunConverges` | migrations/V018__router_decisions_ts_index.py:12-29 | without writers the whole database is the one that each migration once and in order gives |
| `MigrationBoots.SomeMigrationIsDue` | migrations/V018__router_decisions_ts_index.py:12-29 | and until V018 is marked some migration can always run |
| `Texts.CanonFixes` | src/openstarry_code/skills/meta/executors/skill_exec.py:180-183 | normalising newlines and stripping is idempotent, and leaves a text alone exactly when it has no carriage return and no space around it |
| `Texts.CanonOfEnd` | src/openstarry_code/skills/meta/executors/skill_exec.py:880-880 | the newline a process prints last does not survive in a step's output |
| `Texts.LinesOfJoin` | src/openstarry_code/skills/bundled/short-drama-review-normalizer/scripts/normalize.py:592-596 | splitting what was joined from whole lines gives those lines back |
| `ReviewNormalizer.CleanIsOneLine` | src/openstarry_code/skills/bundled/short-drama-review-normalizer/scripts/normalize.py:360-366 | a cleaned reply is one line that starts with something visible, so no reply can start a line of the decision block |
| `ReviewBlocks.CleanIsSpaced` | src/openstarry_code/skills/bundled/short-drama-review-normalizer/scripts/normalize.py:358-366 | a cleaned reply is the words of the reply, what stands between control characters and spaces, with one space between them and at most 4000 characters of that |
| `ReviewBlocks.WordsOf` | src/openstarry_code/skills/bundled/short-drama-review-normalizer/scripts/normalize.py:358-366 | every reply is such words and gaps |
| `ReviewNormalizer.ApprovalIsExplicit` | src/openstarry_code/skills/bundled/short-drama-review-normalizer/scripts/normalize.py:524-644 | the final phase decides proceed if and only if the reply that counts (the confirmation when an edit was asked for or the snapshot changed, else the review) is a standalone approval; it never decides revise |
| `ReviewNormalizer.CancellingIsExplicit` | src/openstarry_code/skills/bundled/short-drama-review-normalizer/scripts/normalize.py:524-570 | the decision is cancel exactly when the reply that counts cancels without refusing the transfer, hold exactly when it does neither that nor approve, and a refused transfer is always the stated basis |
| `ReviewNormalizer.MarkerIsDecision` | src/openstarry_code/skills/bundled/short-drama-review-normalizer/scripts/normalize.py:501-521 | the emitted block contains the marker of its own decision, and of no other unless it quotes notes |
| `ReviewNormalizer.FinalMarker` | src/openstarry_code/skills/bundled/short-drama-review-normalizer/scripts/normalize.py:611-644 | `DECISION: proceed` occurs in the final block exactly when the decision is proceed, whatever the user wrote |
| `ReviewNormalizer.DraftMarkers` | src/openstarry_code/skills/bundled/short-drama-review-normalizer/scripts/normalize.py:524-544 | the same for the first block and the two markers that the workflow looks for in it |
| `ReviewBlocks.DraftSays` | src/openstarry_code/skills/bundled/short-drama-review-normalizer/scripts/normalize.py:524-544 | the seven lines of the first block, from the reply alone: a reply that asks for changes hands on its number of shots and its first thousand characters, any other says `unchanged` |
| `ReviewBlocks.FinalSays` | src/openstarry_code/skills/bundled/short-drama-review-normalizer/scripts/normalize.py:547-644 | the seven lines of the final block: after a confirmed revision the shots and the notes are those of the first reply, whatever the confirmation says; in every other case both are `unchanged` |
| `ReviewNormalizer.OneDecisionLine` | src/openstarry_code/skills/bundled/short-drama-review-normalizer/scripts/normalize.py:592-596 | every block has exactly one line that starts with `DECISION: `, and it is the block's own |
| `ReviewNormalizer.BlockReadsBack` | src/openstarry_code/skills/bundled/short-drama-review-normalizer/scripts/normalize.py:501-521 | the emitted block splits back into its seven fields, the user's words last and without the spaces that end them |
| `ReviewNormalizer.FreezeAcceptsFinalBlocks` | src/openstarry_code/skills/bundled/short-drama-review-normalizer/scripts/normalize.py:581-608 | the snapshot phase accepts every final block, fails exactly for blank or too long scripts, and never accepts a block that still asks for a revision |
| `DramaGraph.DependenciesComeBefore` | scripts/_gen_meta_short_drama.py:182-1021 | a rank on the steps decreases along every dependency, for any number of shot slots |
| `DramaGraph.TowardsGate` | scripts/_gen_meta_short_drama.py:455-521 | every step that is not before a gate waits for it through some dependency |
| `DramaBooks.BooksStayInOrder` | src/openstarry_code/skills/meta/scheduler.py:700-1247 | over every event the scheduler's books agree: each step is in exactly one place, nothing has started before its dependencies are resolved, a step and its substitute never both count |
| `DramaBooks.AloneAtGate` | src/openstarry_code/skills/meta/scheduler.py:1248-1296 | while a gate waits nothing else is in flight: every step that has started has settled |
| `DramaBooks.ResumeContinues` | src/openstarry_code/skills/meta/orchestrator.py:1654-1745 | rebuilding the run from its stored outputs is the same as settling the gate with the completed reply: nothing is lost or repeated |
| `DramaConsent.StaysExplained` | src/openstarry_code/skills/meta/scheduler.py:793-1010 | outputs are written once, and why an output is what it is stays true in every later state |
| `DramaConsent.StaysConsistent` | scripts/_gen_meta_short_drama.py:560-593 | every event keeps: how each output came about, that entered steps had true guards, what each gate showed, and that every payment was made under a passed guard |
| `DramaInputs.GuardIsWhen` | scripts/_gen_meta_short_drama.py:469-993 | the condition of each step, by the markers it looks for in the outputs |
| `DramaInputs.StepsRunUnderTheirConditions` | scripts/_gen_meta_short_drama.py:469-993 | whatever is dispatched meets its condition, when it is entered and as long as it runs |
| `DramaInputs.EnteringDecides` | src/openstarry_code/skills/meta/scheduler.py:793-1010 | a step that does not meet its condition when it gets to run is skipped with an empty output and nothing else changes; any other goes on |
| `DramaInputs.TemplatesAreFilled` | scripts/_gen_meta_short_drama.py:277-1030 | every output that a step's condition or arguments name is there when the step starts, although the declared dependencies do not list them all |
| `DramaInputs.FilesAreMade` | scripts/_gen_meta_short_drama.py:318-1005 | and so is every step whose file it takes |
| `DramaInputs.DeliverIsLast` | scripts/_gen_meta_short_drama.py:1008-1030 | when the last step starts every other one is resolved |
| `DramaRuns.PaidScriptIsTheLastPreview` | scripts/_gen_meta_short_drama.py:560-593 | in every run, under any schedule and any edits of script.txt, every paid step takes its arguments from the canonical form of what the last gate showed, and the reply to that gate, as the workflow got it, was an approval |
| `DramaRuns.PaymentsFollowTheUsersWords` | src/openstarry_code/engine/steps/meta_resolution.py:1123-1205 | for every payment, the review that the parser takes from what came back for the last gate was itself the approval, unless the parser finds none or it is one of the phrases that leave the answer to the model |
| `DramaRuns.WhenPreviewIsPaidVerbatim` | scripts/_gen_meta_short_drama.py:521-593 | the paid script equals the preview character for character exactly when the preview is canonical text, and always when the script was not redrafted |
| `DramaFile.SavedScriptIsTheLastPreview` | scripts/_gen_meta_short_drama.py:576-583 | in every run, from script_save on and until somebody edits it, `script.txt` holds the redraft, or without one what was read back; if the run may pay that is what the last gate showed, and every paid script is its canonical form |
| `DramaFile.UneditedDraftIsReadBack` | scripts/_gen_meta_short_drama.py:318-507 | what is read back of a draft that nobody edited is the canonical form of what the first gate showed; the workflow then takes it for edited exactly when it has a carriage return |
| `DramaWitness.PaidScriptMayDiffer` | scripts/_gen_meta_short_drama.py:475-500 | for every first draft, every redraft with a carriage return whose canonical form meets the duration contract, every reply that asks for changes and every one whose own review approves, a run exists that pays for a text other than the one its last gate showed |
| `DramaWitness.ModelMayApprove` | src/openstarry_code/skills/meta/clarify_autofill.py:252-262 | for every reply to the last gate that gives no review or one that delegates, a run exists that pays, if what the model puts in approves |
| `DramaWitness.RemarkIsNotRead` | src/openstarry_code/skills/meta/clarify_text.py:153-195 | for every approval line and every remark on the line after it, a run exists that pays, although the reply as a whole approves nothing |
| `DramaWitness.DifferingPayment` | scripts/_gen_meta_short_drama.py:697-810 | such a run in one concrete world under the code's own duration contract, after `ok` |
| `DramaWitness.ModelledPayment` | src/openstarry_code/engine/steps/meta_resolution.py:1171-1205 | there too, a run that pays after `1.` came back and the model said `ok` |
| `DramaWitness.RemarkedPayment` | src/openstarry_code/skills/meta/clarify_text.py:153-195 | there too, a run that pays after `ok` with `not` on the next line |
| `ClarifyForm.OneLineIsReadWhole` | src/openstarry_code/skills/meta/clarify_text.py:58-98 | a message of one line is read as it is, up to the space around it, if and only if it has no prefix and is not too long |
| `ClarifyForm.PrefixIsTakenOff` | src/openstarry_code/skills/meta/clarify_text.py:101-150 | the prefixes `review:` and `1)` or `1.` are taken off; with nothing behind them the answer is left to the model |
| `ClarifyForm.PrefixedReviewIsRead` | src/openstarry_code/skills/meta/clarify_text.py:101-124 | what a form composes from its review field is read back as that field |
| `ClarifyForm.SecondLineIsNotRead` | src/openstarry_code/skills/meta/parser.py:790-791 | of two lines without prefixes the first alone is the review, because every form has a second field |
| `ClarifyForm.ThreeLinesAreRefused` | src/openstarry_code/skills/meta/clarify_text.py:172-177 | a third such line makes the parser refuse the reply |
| `ClarifyForm.TooLongIsOpenInAForm` | src/openstarry_code/engine/steps/meta_resolution.py:1167-1190 | a review that is too long is refused when it was typed, and counts as none when a form sent it |
| `ClarifyForm.OneDotIsOpen` | src/openstarry_code/skills/meta/clarify_text.py:127-150 | `1.` gives no review, typed or from a form, and so goes to the model |
| `ReplyFormats.KeyedIs` | src/openstarry_code/skills/meta/clarify_text.py:27-30 | a line that matches the pattern of a key has that key, and as its value what stands behind the colon without the space around it |
| `ReplyFormats.NumberedIs` | src/openstarry_code/skills/meta/clarify_text.py:32-33 | a line that matches the pattern of a number has that number and what stands behind its mark |
| `ReplyFormats.ShapeSplits` | src/openstarry_code/skills/meta/clarify_text.py:27-33 | and no other line has either: whatever is read as keyed or numbered splits into the parts of its pattern |
| `ReplyFormats.ReadIs` | src/openstarry_code/skills/meta/clarify_text.py:53-240 | a reply of any number of lines: refused, or empty from a form, if it mixes formats or a line is for no field or too long for its own; else the review is what the last line for it says, unless some line for it is empty: then it is left to the model or refused, as the last one says nothing or something |
| `ReplyFormats.CancelsIff` | scripts/_gen_meta_short_drama.py:433-433 | the words that cancel a run, wherever they stand and in capitals or not |
| `ReplyFormats.LowerIs` | src/openstarry_code/engine/steps/meta_resolution.py:172-179 | lowering takes each ASCII capital to its letter and leaves every other character alone |
| `ReplyFormats.DeliveredIs` | src/openstarry_code/skills/meta/clarify_autofill.py:252-326 | what the workflow gets: the given value if it says anything, else what the model says, cut to the field's length, else a fixed remark |
| `DramaWitness.NextIsReached` | src/openstarry_code/skills/meta/scheduler.py:1106-1197 | every enabled event leads from a reachable state to a reachable one |
| `DramaRuns.PaymentsAreBounded` | scripts/_gen_meta_short_drama.py:697-810 | no paid step is submitted twice, and payments number at most one plus twice the shots whose header the frozen script has |
| `DramaRuns.PaymentsFitTheDeclaredShots` | src/openstarry_code/skills/meta/templating.py:178-233 | under the code's own duration contract a script is charged for at most one plus twice the shots that it declares itself, and these are at most ten, if the guards find no header that the contract does not |
| `CanonicalScripts.ScriptMeetsContractIff` | src/openstarry_code/skills/meta/templating.py:178-233 | a script in the form the writer is asked for meets the contract if and only if it announces as many shots as it has, one to ten, of three to fifteen seconds, and the sum of their durations |
| `DurationContract.HeadersAreDeclared` | src/openstarry_code/skills/meta/templating.py:201-218 | the shots whose header the guards find are all declared if and only if each has a header for the contract too |
| `DurationContract.PlainHeadersAgree` | scripts/_gen_meta_short_drama.py:795-810 | so it is for every script whose lines end at newlines alone |
| `DurationContract.ShotMayBeHidden` | scripts/_gen_meta_short_drama.py:795-810 | a failing input: a script that meets the contract with one shot, and in which the guards find a second one |
| `DurationContract.ExampleMeetsContract` | src/openstarry_code/skills/meta/templating.py:178-233 | the contract can be met: a script of one shot does |
| `DramaRuns.GuardsAreDefined` | scripts/_gen_meta_short_drama.py:455-810 | every output that a guard names is there when the guard is evaluated |
| `DramaRuns.SomethingCanMove` | src/openstarry_code/skills/meta/scheduler.py:1106-1197 | as long as a step is unresolved and the run neither waits nor has ended, some task can move: no step is silently dropped |
| `DramaRuns.RunsEnd` | src/openstarry_code/skills/meta/scheduler.py:1106-1297 | every run is over after at most five moves a step, however often the file is edited |
| `StepLabels.InjectStepLabels` | scripts/_gen_meta_short_drama.py:1300-1312 | succeeds exactly when every step-id line has labels, and names a step id that has none; the text is the input with two lines after each step-id line |
| `StepLabels.OnePairEach` | scripts/_gen_meta_short_drama.py:1300-1312 | one pair of label lines for each step-id line |
| `StepLabels.StepLineIs` | scripts/_gen_meta_short_drama.py:1305-1307 | which lines name a step, and the id they name |
| `StepLabels.LabelsAre` | scripts/_gen_meta_short_drama.py:1288-1297 | the labels of a step: its own, or for shot 1 to 10 those of its part with the number in front; no other step has any |
| `StepLabels.RemoveUndoesInject` | scripts/_gen_meta_short_drama.py:1300-1312 | dropping the two lines after each step-id line gives the input back exactly when the input does not end in a step-id line without a line end |
| `StepLabels.GluedLabelStays` | scripts/_gen_meta_short_drama.py:1303-1311 | in that case the first label is glued to the line and removal keeps it |
| `StepLabels.KeptLinesSplit` | scripts/_gen_meta_short_drama.py:1304-1304 | `splitlines(keepends=True)` takes a text apart into whole lines that join up to it |
| `SecretScan.Stream.Read` | scripts/live_harness_security.py:494-494 | a read returns any non-empty part of what is left, and nothing only at the end |
| `SecretScan.BytesContainSecret` | scripts/live_harness_security.py:486-487 | true exactly when some needle occurs |
| `SecretScan.WindowFound` | scripts/live_harness_security.py:490-498 | a needle occurs in all that was read exactly when it occurs in the kept tail and the new chunk, if none occurred before |
| `SecretScan.RegularFileContainsSecret` | scripts/live_harness_security.py:490-499 | true exactly when the file is not empty and some needle occurs in it, for every file, every needles and every way the reads split it |
| `TreeScan.PassesCoverDirectory` | scripts/live_harness_security.py:519-553 | the two passes over a listing and the directories below see everything that the directory holds |
| `TreeScan.ScanEntries` | scripts/live_harness_security.py:525-553 | one pass finds a needle exactly in the names, link targets and files it covers, and completes only over known kinds of entries |
| `TreeScan.TreeContainsSecret` | scripts/live_harness_security.py:513-554 | a completed walk reports a needle exactly when a name, a link target or a regular file reached without following links holds one; a clean one met no special file |
| `TreeScan.Disk.RemoveTree` | scripts/live_harness_security.py:567-599 | removal takes all of the tree or fails with the tree still there |
| `TreeScan.ScanAttempts` | scripts/live_harness_security.py:631-644 | every attempt before the last met an operating-system error, and the last one only if no attempt was left; what is said is what the last one found in the tree as it was then; an undisturbed scan of a plain tree is done at the first |
| `TreeScan.ScanAndRemove` | scripts/live_harness_security.py:602-654 | exact: whatever the scan finds the tree is removed, and the outcome is that of the last attempt if it could be, a failed removal otherwise; an absent path returns; what is refused is left alone; without faults a plain owned tree is removed and judged by what it held when the call began |
| `Redaction.SpliceKeepsFree` | scripts/live_harness_security.py:373-380 | putting the marker over any span of any text brings no untouchable secret into being |
| `Redaction.SpliceSafeIffUntouchable` | scripts/live_harness_security.py:373-380 | a text survives no splice anywhere exactly when no overlay on the marker agrees with it |
| `Redaction.BracketFreeIsUntouchable` | scripts/live_harness_security.py:373-380 | a secret without brackets that is no part of the marker's word is untouchable |
| `Redaction.ReplaceFrees` | scripts/live_harness_security.py:374-375 | replacing a secret removes it and brings back no other untouchable one |
| `Redaction.RedactedIsFree` | scripts/live_harness_security.py:370-381 | after all replacements, in any order, and all pattern passes no untouchable secret is left |
| `Redaction.NothingToRedact` | scripts/live_harness_security.py:370-381 | a text with no secret and no match stays as it is |
| `Redaction.ReplaceLeavesIffSurvives` | scripts/live_harness_security.py:374-375 | some text still holds a secret after the secret's replacement if and only if, at some place over the marker, the secret agrees with it and the text so made does not hold it earlier |
| `Redaction.SecretStaysIff` | scripts/live_harness_security.py:370-381 | for one secret alone, and passes that put the marker after a colon, an equals sign, a space or a quote, as all three of the harness do: some text and some such passes keep the secret if and only if it survives its replacement or agrees with the marker right after a separator of its own |
| `Redaction.HeaderStays` | scripts/live_harness_security.py:31-35 | a failing input of the second kind: the secret `[authorization=[` is not in `[authorization=x`, and is in its redaction once the value after the header is replaced |
| `Redaction.SeparatedPassesFree` | scripts/live_harness_security.py:31-41 | such passes bring no other secret into being |
| `Redaction.RedStays` | scripts/live_harness_security.py:373-375 | the secret `RED` survives, and is still in its own redaction |
| `Redaction.SafeIffUntouchable` | scripts/live_harness_security.py:366-381 | a secret is safe in every text, beside every other secrets (distinct, the longest first) and under every passes, if and only if it agrees with the marker nowhere; the replacements alone already decide this |
| `Redaction.BracketsNeedAnother` | scripts/live_harness_security.py:373-380 | the secret `[[` agrees with the marker and is never left when it is redacted alone; with the secrets `[[` and `x` the text `[x` ends up holding it |
| `Redaction.RedactText` | scripts/live_harness_security.py:370-381 | the loops compute the replacements and passes in order, and the result is free of all secrets when all are untouchable |
| `Redaction.SanitizedIsFree` | scripts/live_harness_security.py:384-405 | no string value anywhere in a sanitized report contains an untouchable secret |
| `Redaction.ReportAt` | scripts/live_harness_security.py:384-405 | a report place by place: in the open everything is of the kind, the length and the keys it was, numbers as they were and texts redacted; the value of a sensitive key is `[REDACTED]`, or null or empty where it was that; there is nothing else |
| `Redaction.KeysStay` | scripts/live_harness_security.py:391-398 | the keys that a sanitized report holds are those outside the values of sensitive keys, as they were |
| `Redaction.ReportIsFreeIff` | scripts/live_harness_security.py:384-405 | for an untouchable secret, no string and no key of the sanitized report contains it if and only if no key outside the values of sensitive keys does |
| `TurnObservation.TurnObservation.constructor` | scripts/live_long_task_case_driver.py:186-205 | a new observer is what the empty history makes it |
| `TurnObservation.TurnObservation.Consume` | scripts/live_long_task_case_driver.py:210-278 | every field is what the accepted frames make it: tail, marker flag, byte and chunk counts, first times, least latency, tools, phases, terminal event; foreign frames change nothing, and a bad integer raises before anything changed |
| `TurnObservation.TurnObservation.ConsumeText` | scripts/live_long_task_case_driver.py:221-232 | text extends the tail to the last 1024 characters of all accepted text and sets the flag by it |
| `TurnObservation.TurnObservation.ConsumeThought` | scripts/live_long_task_case_driver.py:233-238 | thinking counts and first reasoning time |
| `TurnObservation.TurnObservation.ConsumeTool` | scripts/live_long_task_case_driver.py:239-245 | tool ids are a set |
| `TurnObservation.TurnObservation.ConsumeActivity` | scripts/live_long_task_case_driver.py:246-262 | activity keeps the history's phases, pulses and latency |
| `TurnObservation.TurnObservation.ObserveActivity` | scripts/live_long_task_case_driver.py:246-262 | the latency becomes the lower of the old one and the reported one |
| `TurnObservation.TurnObservation.ConsumeCompaction` | scripts/live_long_task_case_driver.py:263-274 | completed compactions are counted |
| `TurnObservation.TurnObservation.ConsumeOther` | scripts/live_long_task_case_driver.py:276-278 | the last terminal event and its reason win |
| `TurnObservation.MarkerInTail` | scripts/live_long_task_case_driver.py:231-232 | the flag holds exactly when the marker occurs in all accepted text within the last 1024 characters |
| `TurnObservation.MarkerScrollsOut` | scripts/live_long_task_case_driver.py:231-232 | so it falls back when 1024 further characters without the marker arrive |
| `TurnObservation.MarkerStaysSeen` | scripts/live_long_task_case_driver.py:231-232 | and not before: a marker is seen while it and what follows it fit into 1024 characters |
| `TurnObservation.PulsesAreActivity` | scripts/live_long_task_case_driver.py:246-254 | reasoning pulses never exceed activity events |
| `TurnObservation.FirstIsKept` | scripts/live_long_task_case_driver.py:227-228 | a first time, once set, is never changed |
| `TurnObservation.MaxGap` | scripts/live_long_task_case_driver.py:1090-1094 | the result bounds every wait between consecutive pulses and is one of them; 0 for fewer than two |
| `Accounting.MergeIsLeastUpperBound` | scripts/live_long_task_case_driver.py:1237-1257 | the merge is the least record above both whose total covers its parts |
| `Accounting.MergeIsSemilattice` | scripts/live_long_task_case_driver.py:1237-1257 | the merge is commutative and associative, and idempotent exactly on records whose total covers the parts |
| `Accounting.MergeAllIsLeast` | scripts/live_long_task_case_driver.py:1237-1257 | so is the merge of any number of bounds, in any order |
| `ExecuteCase.RunRpcCase` | scripts/live_long_task_case_driver.py:1671-1714 | an RPC case passes exactly with its scenario's outcome and one durable ledger event for each physical request; what it reports is above both accounts |
| `ExecuteCase.Gateway.Start` | scripts/live_long_task_case_driver.py:1916-1917 | a Gateway that fails to start is not running |
| `ExecuteCase.Gateway.Cleanup` | scripts/live_long_task_case_driver.py:2005-2009 | each call is one attempt, whatever comes of it |
| `ExecuteCase.Attempt` | scripts/live_long_task_case_driver.py:1897-1947 | up to the exit code: what returns is judged by its status and by the three budgets, and the first thing that goes wrong is raised |
| `ExecuteCase.Execute` | scripts/live_long_task_case_driver.py:1883-2019 | exact, on every path: cleanup is attempted once; undisturbed, the payload and the budget decide; an exception after the start becomes a result of its class and exit code; only interrupts, early configuration or budget errors and failing accounting or cleanup escape, and which of them does is said; the passing exit code goes with status passed and nothing else |
| `ExecuteCase.ExecuteRpcCase` | scripts/live_long_task_case_driver.py:1671-1714 | the passing exit code of an RPC case implies exactly one durable ledger event for each physical request, however it was counted, and accounts within budget |
| `PendingInputs.NextPosition` | src/openstarry_code/session/storage.py:10008-10016 | the position after the last of the session's rows, 0 for none |
| `PendingInputs.Outbox.constructor` | migrations/V035__pending_chat_inputs.py:20-100 | the empty outbox is in order |
| `PendingInputs.Outbox.Enqueue` | src/openstarry_code/session/storage.py:9871-10046 | exact: what has no identity in common with anything and fits is staged, and nothing else; a repeat returns its own row; a dispatched, cancelled, unnamed or sixth input is refused as such, and any other use of an identity conflicts |
| `PendingInputs.Outbox.AcceptTurn` | src/openstarry_code/session/storage.py:11656-12651 | exact: a new request is accepted if and only if the input it names, if any, is staged for it as named, and then the turn, the dispatch receipt and the removal of the row happen together; a repeated one succeeds if and only if it has the same fingerprint and, if it names an input, that input was dispatched with it under that fingerprint; nothing else changes anything |
| `PendingInputs.Outbox.Consume` | src/openstarry_code/session/storage.py:12560-12651 | the receipt, the turn and the removal of the row together keep the tables in order; the receipt never meets a unique index |
| `PendingInputs.RepeatedTurn` | src/openstarry_code/session/storage.py:11671-11764 | whatever was accepted is accepted when it is repeated, as a replay, and one dispatch is all there is |
| `PendingInputs.DirectTurnStrands` | src/openstarry_code/session/storage.py:11656-12651 | a direct turn and then a staged input of the same request are both accepted; the row then stays pending, and no turn that names it is accepted |
| `PendingInputs.Outbox.Cancel` | src/openstarry_code/session/storage.py:10346-10442 | moves a staged row to the cancellations, or leaves a tombstone for an id nobody staged; a dispatched id is left alone |
| `PendingInputs.Outbox.ConsumeReplayed` | src/openstarry_code/session/storage.py:10068-10183 | succeeds if and only if exactly that receipt is there and no row is staged under the id; there is never a stale row left to consume |
| `PendingInputs.Outbox.Move` | src/openstarry_code/session/storage.py:10199-10248 | one row moves exactly when its session and revision are as expected, and its revision grows |
| `PendingInputs.Outbox.Reorder` | src/openstarry_code/session/storage.py:10250-10343 | all of a session's rows take the given order if and only if the caller names two to five of them, each once, all there are, at their revisions; otherwise none changes |
| `PendingInputs.Renumber` | src/openstarry_code/session/storage.py:10312-10334 | each listed row takes its index as position and the next revision; no other row and no identity changes |
| `PendingInputs.InsertKeepsOrder` | migrations/V035__pending_chat_inputs.py:41-49 | an insert whose identities the lookups did not find keeps every unique index and the disjointness of the tables |
| `PendingInputs.DispatchKeepsOrder` | migrations/V035__pending_chat_inputs.py:83-91 | the receipt of a staged row meets none of the receipts' unique indexes, and dispatch keeps the tables in order |
| `PendingInputs.DispatchedOnce` | migrations/V035__pending_chat_inputs.py:83-91 | over any transactions no request and no message of a session is dispatched twice |
| `PendingInputs.StagedIsConserved` | migrations/V035__pending_chat_inputs.py:3-11 | staged inputs are pending plus dispatched plus cancelled, each in exactly one place |

## Left out

- MigrationBoots.EveryBootRunConverges: starts at a database at V009, and boots only apply; writers keep every schema; rollbacks are in `LedgerRuns`.
- AuditLedger.GuardRecognises: the code searches the stored CREATE TABLE text for a word; the model asks whether a CHECK lists it, which is the only place the chain's tables hold those words.
- MigrationGraph.ApplyTurnUsage: the rollback that drops the column where the SQLite version can is not modelled.
- LedgerRuns.NextStaysConsistent: writers keep the ledger's own schema and the tables' temporary names free; yoyo's order is assumed, so a rollback is of the last migration applied, or once more of the one just rolled back.
- Sqlite.Connection.Execute: no type affinity, collations, triggers or views; CHECK clauses are value sets; of other tables only columns, rows and foreign keys.
- DramaRuns.PaidScriptIsTheLastPreview: replies that cancel, expire or are refused three times end the run, which then has no further events; what a language model answers may be anything; replaying a run that failed, and the user message and language preference that a reply may change, are left out.
- ClarifyForm.PrefixIsTakenOff: numbers are ASCII decimals; a form's message counts as composed by the form whatever it holds.
- DramaRuns.PaymentsAreBounded: counts submissions by the scheduler, not what a provider bills for one; retries inside a media skill are its own.
- DramaConsent.StaysConsistent: a template's argument is its text; Jinja's filters (truncation, prices, sections) and the private machine outputs are left out.
- ReviewNormalizer.ApprovalIsExplicit: the regular expressions and word lists that classify a reply are parameters.
- StepLabels.InjectStepLabels: the label tables are parameters, and the templates that are rendered before are left out.
- TreeScan.ScanAndRemove: what others do to the tree between the last scan and its removal, and the read-only handling of Windows, are left out; waiting between attempts is too.
- Redaction.RedactText: a pattern is any choice of spans from left to right, not the regular expressions themselves.
- Redaction.SecretStaysIff: over all patterns that put the marker after a separator; for the three regular expressions alone, what stands further before the marker could narrow its second case.
- Redaction.SafeIffUntouchable: for secrets that miss some character, which serves as the other secret.
- TurnObservation.TurnObservation.Consume: payload look-ups that fall back to a second name are done before; the clock is a parameter.
- ExecuteCase.Execute: closing a proxy is assumed not to raise; the browser cases' own evidence is a payload that may be anything.
- PendingInputs.Outbox.AcceptTurn: the transcript entry, the runtime record and the goal commands of the same transaction are one turn record here; rows that builds before the receipts table left behind, and purging a session, are not modelled.
- PendingInputs.Outbox.Enqueue: identifiers come stripped and canonical, payloads as text.
- Provider calls, WebSocket clients, Playwright, subprocesses and signals: I/O.
- The plain add-column and create-table migrations, packaging, benchmarks and score tables: easy or not behaviour of their own.
- Language-model outputs: any text that the executor lets through.
