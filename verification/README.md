# Vibe Forge: a verified model of its store, gate and agent loop

A Dafny model of the server that turns prompts into React apps: the store of projects,
runs, attempts, drafts and stable versions (`internal/store`), the structural compile gate
(`internal/compile`), the agent loop that writes and repairs a draft (`internal/agent`), the
idempotency ledger, the event stream and the login limiter (`internal/api`), and the
snapshot hash that server and browser both compute (`internal/store/version.go`,
`frontend/src/workspace.ts`).  `dafny verify dfyconfig.toml` checks everything.

## How it is laid out

- The gate. `GateScanner` runs the in-place scanner over an array and is proved equal to
  `GateBlanking`, whose laws (idempotence, what is kept, which lines survive) are lemmas;
  `GateBlankingLaws` reads off the text where literals and comments begin and end.
  `Nesting` has the grammar of well-nested words, what a fault is, and why it is unique;
  `GateBrackets` and `GateTags` are the two passes. `GateContinuation` takes the bracket
  errors back to the source text. `GateTagLaws` reads off the text what is a tag, and
  `GateDocuments` which rendered element trees pass; `GateLookBack` is the look-back both
  kinds of laws share. `Gate` puts the checks together.
- The store. `Tables` are the rows, `Workflows`, `Operations` and `Reading` say what each
  transaction makes of them, and the class in `Store.dfy` runs them statement by statement
  and is proved to do just that, rollbacks included. `OutcomeLaws` and `ReadOutcomes` say of
  each request when it is served or refused, and which rows it leaves. `Lineage` is the walk
  from a version to the run it comes from.
- Safety. `Invariant` and the `...Steps` modules show that every transaction keeps the
  invariant. `Systems` is the running system: clients, any number of agents, lost writes and
  restarts in any order; `SystemSafety` has the results over whole runs. `FlowLaws` says how
  single steps move the stable version, the workflow and its state version, `LateWrites` what
  comes of writes to a run that has ended.
- The loop. `Interference` proves what an agent may rely on while others act. The class in
  `AgentLoop.dfy` is the loop itself, in a `World` that is fixed before it starts and may be
  anything: every answer of the model, whether and when the store takes each write, which
  reads go through, and whether the process is shutting down. Between two store calls others
  may do anything `Interference` allows. The class keeps a ghost path of moves, each a step of
  the agent in `Systems`, an answer of that world, or something others did (`AgentPaths`); what
  the moves amount to is a function of the path (`AgentBooks`), and `Course` says that a path
  is one of that world in the loop's order. `AgentModel` has the model's answers and what of
  them counts as written, `AgentTurns` what they alone make of the engineer's turns and
  `AgentScript` the events they make the loop say, which `AgentMilestones` reads without the
  deltas; `AgentWords` are the events a path says. `AgentMoves` is what a course makes of the
  store, `AgentSteps` one store call on a course,
  `AgentLaws` the results over whole courses; `AgentStages` follows what the reconciler will
  look for, and `AgentLog` the loop's words in the stored log.
  `AgentViews` shows that what the loop expects of others is what the system does, and that
  every run of the system is such a path of each of its agents.
- Reachability. `Scenarios` and `Successes` reach particular states by runs of the system,
  among them a success from every state without agents.
- `Ledger`, `EventStream`, `Auth` and `FilesHash` with `Texts` are the smaller machines.

An index of the schema (one active run per project, one file per path and version, one row
per attempt and stage) is a check whose violation aborts the transaction with the tables as
they were.

## Where the code and its own words differ

The model follows the code. Each point has a lemma, and where a state is needed a run of the
system that reaches it.

- Blanking is meant to keep line numbers, but a newline after a backslash inside a quoted or
  template literal becomes a space (`internal/compile/compile.go:404-409`, `:421-426`);
  lines survive exactly when there is no such pair (`GateBlanking.LinesKeptExactly`).
- The tag check is meant not to reject valid markup, but an opening tag right after a word or
  number of text, or after a closing parenthesis, is not seen, and its closing tag then is one
  too many; so is one of an element named like a type, `object` or `symbol`
  (`internal/compile/compile.go:140-144`, `:285-304`, `:352-360`;
  `GateDocuments.DocumentNestedExactly`, `GateDocuments.ChildAfterWordFails`).
- The comment on tag positions counts a closing brace among the ends of values, but after one a
  `<` begins a tag (`internal/compile/compile.go:264-265`, `:282-284`;
  `GateTagLaws.TagAfterOperator`).
- `spawnSync` is on the list of forbidden tokens but is looked for in lower-cased text
  (`internal/compile/compile.go:450`, `:463-465`), so it never matches
  (`Gate.SpawnSyncNeverMatches`, `Gate.SpawnSyncPasses`).
- A retry while another run of the project is active is not refused as a conflict; the
  unique index aborts it (`internal/store/run.go:176-214`; `FlowLaws.RetryOutcome`,
  `Scenarios.RetryBesideActiveRun`).
- A restore changes the preview without a new state version, and the preview's run may then
  differ from the workflow's (`internal/store/version.go:306-329`; `FlowLaws.RestoreThenRead`,
  `Successes.RestoreOfOlderRun`).
- A compile result that is new to a succeeded run sets its completed workflow to running, and
  reading heals recovering only (`internal/store/run.go:296`,
  `internal/store/workflow_state.go:693`; `LateWrites.CompletedStaysExactly`,
  `Successes.ResultAfterSuccess`).
- The callback's test for a duplicate is outside the transaction that inserts
  (`internal/store/draft.go:376-392`; `LateWrites.CallbacksMayRepeat`).
- `run_failed` is written after the run was failed, so a retry in between has it in its log:
  it fails a stage of the new attempt (`internal/agent/agent.go:186-194`;
  `LateWrites.LastWordExactly`, `Scenarios.RetryBeforeLastWord`). The loop's own terminal
  event is still exactly one (`AgentLaws.OneTerminalEventInLog`).
- A draft left by an interrupted attempt stays a draft: the loop leaves no draft of its run
  behind exactly when there was none when it began (`AgentLaws.OneTerminalEvent`,
  `Successes.DraftOutlivesLoop`).
- The limiter looks at no more than five wrong passwords in its own windows; an arbitrary
  minute keeps to five exactly when it begins with no open window or a full one, and may see
  up to nine (`internal/api/auth.go:272-301`; `Auth.FiveInAMinuteExactly`).
- The ledger's window of 30 s is certain only up to 29 s, because stored times are truncated
  (`internal/store/idempotency.go:89-95`, `internal/store/store.go:46`;
  `Ledgers.WindowBoundsAreTight`).
- A stream that polls after the promotion of a draft and before `run_completed` closes without
  a terminal event, although a succeeded run is said always to have one persisted
  (`internal/api/agent_handlers.go:88-92`, `internal/agent/agent.go:404-412`;
  `EventStreams.SilentCloseExactly`, `Successes.StreamClosesTooEarly`).
- The browser sorts paths by 16-bit units and the server by bytes, so for some paths beyond
  ASCII the two hash different streams (`frontend/src/workspace.ts:166`,
  `internal/store/version.go:417`; `FilesHash.SidesAgreeExactly`, `FilesHash.SidesDisagree`).
- A content with a NUL byte can give two snapshots the same hashed stream
  (`internal/store/version.go:419-424`; `FilesHash.NulFoolsTheStream`).

## Model

| member | source | states |
|---|---|---|
| GateScanner.StripStringsAndComments | internal/compile/compile.go:366-441 | the in-place scan leaves exactly the blanked form of the buffer, for every byte string |
| GateScanner.IsStringStartPos | internal/compile/compile.go:317-350 | the look-back on the half-blanked buffer decides as the specification does on the blanked prefix alone |
| GateBlanking.BlankedIdempotent | internal/compile/compile.go:366-441 | blanking a blanked text changes nothing |
| GateBlanking.BlankedIsClean | internal/compile/compile.go:366-441 | the output has no backtick, no `//`, no `/*`, and opens no literal or comment anywhere |
| GateBlanking.BlankedOnlyBlanks | internal/compile/compile.go:366-441 | length is kept, each byte is the original or a space, and a newline is lost only right after a backslash |
| GateBlanking.BlankedKeepsLines | internal/compile/compile.go:362-365 | without a backslash directly before a newline, line numbers of the blanked text are those of the source |
| GateBlanking.LinesKeptExactly | internal/compile/compile.go:400-430 | every line number survives if and only if no string or template literal escapes a newline |
| GateBlanking.EscapedNewlineLosesLine | internal/compile/compile.go:420-426 | a concrete template literal that loses a line |
| GateBlankingLaws.LiteralAtStart | internal/compile/compile.go:317-324 | a quote with nothing but white space before it opens a literal, which is blanked up to and with the first unescaped quote of its kind, or up to a newline or the end of the text before that |
| GateBlankingLaws.LiteralAfterOperator | internal/compile/compile.go:325-329 | so does a quote after white space and any of the 21 listed operators and opening punctuators, whatever stands before |
| GateBlankingLaws.LiteralAfterKeyword | internal/compile/compile.go:336-347 | so does a quote after one of the fifteen keywords standing as a word of its own |
| GateBlankingLaws.QuoteKeptAfterWord | internal/compile/compile.go:336-348 | after any other word a quote is kept and nothing is swallowed |
| GateBlankingLaws.QuoteKeptAfterOther | internal/compile/compile.go:330-335 | so is one after a closing bracket, a full stop, a quote, a digit or any other byte that is neither an operator nor a letter |
| GateBlankingLaws.TemplateIsBlanked | internal/compile/compile.go:419-435 | a backtick opens a template literal anywhere, up to the first unescaped backtick or the end; of it only unescaped newlines are left |
| GateBlankingLaws.LineCommentIsBlanked | internal/compile/compile.go:371-375 | two slashes and the rest of the line become spaces |
| GateBlankingLaws.BlockCommentIsBlanked | internal/compile/compile.go:376-388 | a block comment becomes spaces up to and with its first end, or to the end of the text, and keeps its newlines |
| GateBlankingLaws.OtherByteIsKept | internal/compile/compile.go:436-438 | any other byte is kept, also a slash that opens no comment |
| Nesting.NestedIffRead | internal/compile/compile.go:90-125 | a stack reading ends empty exactly on the words of the grammar of matched pairs |
| Nesting.ExtendableIffRead | internal/compile/compile.go:105-119 | a stack reading gets stuck exactly on the words no continuation can complete |
| Nesting.CloseFaultIsFirstDead | internal/compile/compile.go:109-118 | a closing fault ends the shortest prefix of tokens that no continuation can complete |
| Nesting.InnermostOpenUnique | internal/compile/compile.go:120-123 | what is open innermost is unique, so an unclosed report names one position |
| Nesting.FaultUnique | internal/compile/compile.go:90-125 | a text has at most one fault |
| Nesting.FaultExcludesNested | internal/compile/compile.go:90-125 | a text with a fault is not well nested, and after a closing fault no continuation is |
| GateFaults.ReportUnique | internal/compile/compile.go:109-123 | only one report is possible for a text, and its line lies within the text |
| GateFaults.Advance | internal/compile/compile.go:105-119 | one step of either pass: the stack keeps what is open with its lines, or the first fault is reported |
| GateBrackets.BracketsOneByOne | internal/compile/compile.go:99-100 | exactly the six brackets are tokens, and each closing one asks for its own opening one |
| GateBrackets.BracketedText | internal/compile/compile.go:90-125 | a nested text put between an opening and a closing bracket is nested if and only if the two belong together |
| GateBrackets.CheckBrackets | internal/compile/compile.go:90-125 | no error if and only if the brackets form a three-kind Dyck word; an error is the report of the first fault with its line |
| GateContinuation.PrefixBrackets | internal/compile/compile.go:366-441 | the brackets left in a blanked prefix are those of the blanked text up to there, although the scanner looks ahead |
| GateContinuation.CompletableExactly | internal/compile/compile.go:90-125 | a source can be continued to pass the bracket check if and only if its blanked brackets can be completed, also when it ends inside a literal or comment |
| GateContinuation.ClosingFaultInSource | internal/compile/compile.go:109-118 | the byte a closing-bracket error names ends the shortest prefix of the source that no continuation can make pass |
| GateContinuation.UnclosedInSource | internal/compile/compile.go:120-123 | a source with an unclosed bracket fails but has a continuation that passes |
| GateTags.CheckTags | internal/compile/compile.go:145-249 | no error if and only if the tag tokens are well nested by name; an error is the report of the first fault with its line |
| GateTags.ScanTag | internal/compile/compile.go:157-243 | which positions hold an opening or closing tag token, decided on the text before and after |
| GateTags.JsxPosition | internal/compile/compile.go:267-309 | whether a `<` begins a tag depends on the last significant character or word before it |
| GateTags.ScanSelfClose | internal/compile/compile.go:215-236 | a tag closes itself when the first `>` outside braces follows a slash |
| GateTagLaws.OpeningTag | internal/compile/compile.go:181-243 | `<`, a name, attributes with matched braces and `>` are an opening tag if and only if they stand where a tag may, the name is none of the eighteen types and no slash ends the attributes |
| GateTagLaws.ClosingTag | internal/compile/compile.go:161-180 | `</` and a name are a closing tag wherever they stand |
| GateTagLaws.SelfClosesExactly | internal/compile/compile.go:208-236 | with any text in matched braces among its attributes, also a closing angle bracket, a tag closes itself if and only if a slash directly precedes the first closing angle bracket outside braces |
| GateTagLaws.UnfinishedTag | internal/compile/compile.go:215-236 | a tag that the text does not end does not close itself |
| GateTagLaws.TagAtStart | internal/compile/compile.go:267-274 | with nothing but white space before it a `<` may begin a tag |
| GateTagLaws.TagAfterOperator | internal/compile/compile.go:276-284 | so it may after white space and any of the 22 listed operators and punctuators, whatever stands before |
| GateTagLaws.TagAfterByte | internal/compile/compile.go:285-309 | after any byte that is no letter it may, unless that is a closing parenthesis or bracket, a quote, a backtick or a digit |
| GateTagLaws.TagAfterWord | internal/compile/compile.go:291-304 | after a word it may if and only if the word is one of the fifteen keywords |
| GateDocuments.DocumentNestedExactly | internal/compile/compile.go:140-249 | a rendered tree of elements, in any text without tags, passes the tag check if and only if the opening tag of each element with a closing tag stands where a tag may and names no type |
| GateDocuments.MissingCloseFails | internal/compile/compile.go:244-247 | such a tree without the closing tag of its outermost element fails |
| GateDocuments.ExtraCloseFails | internal/compile/compile.go:170-172 | such a tree with a closing tag too many fails |
| GateDocuments.ParenthesizedElement | internal/compile/compile.go:140-249 | an element in parentheses passes with its closing tag and fails without it |
| GateDocuments.WordBeforeTagFails | internal/compile/compile.go:291-304 | a tree with an element right after text that ends in an ordinary word fails |
| GateDocuments.ChildAfterWordFails | internal/compile/compile.go:291-304 | so does an element whose text ends in an ordinary word before a child element |
| Gate.ForbiddenInCode | internal/compile/compile.go:462-470 | the first pattern of the list that the lower-cased content contains, or none if and only if it contains none |
| Gate.DottedCapitalIsFound | internal/compile/compile.go:462-470 | a capital I with a dot counts as an i, so spelling a pattern with it does not get around the ban |
| Gate.Validate | internal/compile/compile.go:47-76 | passes if and only if size, forbidden tokens, default export, brackets and tags are all in order, and then without errors |
| Gate.ProblemsExactly | internal/compile/compile.go:47-76 | each problem is reported if and only if its check fails: more than 204800 bytes, blank, the first forbidden pattern, neither spelling of the default export in the blanked text, the one bracket report, the one tag report |
| Gate.FoundExactly | internal/compile/compile.go:80-84 | a pattern is found exactly in the texts that can be split around it |
| Gate.CaseDoesNotHide | internal/compile/compile.go:462-470 | a pattern in any mix of cases is found, whatever bytes stand around it |
| Gate.BlankTextFails | internal/compile/compile.go:53-62 | an all-blank file has no default export, so the emptiness test never decides alone |
| Gate.SpawnSyncNeverMatches | internal/compile/compile.go:450-470 | the pattern with an upper-case letter never matches lower-cased text |
| Gate.ForbiddenWithoutSpawnSync | internal/compile/compile.go:450-470 | so the ban is exactly that of the other ten patterns of the list |
| Gate.SpawnSyncPasses | internal/compile/compile.go:47-76 | a concrete file that calls spawnSync and passes the whole gate |
| Stores.Store.BumpWorkflowForRun | internal/store/workflow_state.go:53-86 | advances the row that points at the run, leaves the row of a newer run alone, and points a project without row at it |
| Stores.Store.InitAttemptStages | internal/store/workflow_state.go:103-116 | an attempt gets four waiting rows and no existing row is replaced |
| Stores.Store.SetStageState | internal/store/workflow_state.go:118-175 | served for a run with an attempt; writes one row, of the attempt no other is preferred to: a start on record stays, only an ending status moves the end, every other row is as before |
| Workflows.StageHistory | internal/store/workflow_state.go:144-175 | over any sequence of writes to a stage of a new attempt, its row shows the first start, the last end and the last status, and no other row changes |
| Stores.Store.ApplyWorkflowEvent | internal/store/workflow_state.go:190-230 | what each event does to stage rows and workflow |
| Stores.Store.CreateProject | internal/store/project.go:23-74 | the tables and reply are those of the specification; an error leaves the tables as they were |
| Stores.Store.CreateRun | internal/store/run.go:23-162 | the same for a new run with its attempt, stages, workflow pointer and iteration |
| Stores.Store.RetryRun | internal/store/run.go:176-227 | the same for a retry, with the unique index as the only check for another active run |
| Stores.Store.RecordStageArtifact | internal/store/run.go:270-302 | the same for an artifact, its stage row and the workflow |
| Stores.Store.RecordCompileResult | internal/store/draft.go:376-392 | records each compile result of an attempt once, when nothing comes between its look and its write |
| Stores.Store.FindCompileResult | internal/store/draft.go:376-390 | the look, outside the transaction that writes |
| Stores.Store.FinishCompileResult | internal/store/draft.go:391-391 | the write after a look that may be out of date; the system interleaves the two freely |
| Stores.Store.AppendEvent | internal/store/run.go:306-331 | the event gets the next number, and its effects commit with it or not at all |
| Stores.Store.MarkActiveRunsInterrupted | internal/store/run.go:383-442 | cancels stages and workflows of the active runs one by one and then interrupts all active runs and attempts |
| Stores.Store.CreateDraftVersion | internal/store/draft.go:25-62 | stores the files one by one; a repeated path aborts and rolls everything back |
| Stores.Store.PromoteDraftVersion | internal/store/draft.go:73-150 | draft to stable with the compare-and-swap of the stable pointer from the iteration's base, and the owner ended; a conflict rolls back |
| Stores.Store.FailDraftVersion | internal/store/draft.go:155-207 | draft to failed and the owner ended, the stable pointer untouched |
| Stores.Store.BeginAttempt | internal/store/draft.go:213-228 | queued to running for attempt and run |
| Stores.Store.FailRun | internal/store/draft.go:235-250 | all active attempts and the run failed |
| Stores.Store.WriteFile | internal/store/files.go:27-180 | a manual edit behind the gate, in all its refusals |
| Stores.Store.RestoreVersion | internal/store/version.go:265-335 | an earlier stable version becomes the stable one again |
| OutcomeLaws.CreateProjectOutcome | internal/store/project.go:23-74 | refused exactly for a prompt of no or more than 4000 characters; otherwise a project without a preview whose workflow is a draft at version 1 without a run |
| OutcomeLaws.CreateRunOutcome | internal/store/run.go:23-64 | invalid exactly for such a prompt, not found exactly for a missing project, a conflict exactly for a base that is not the stable version or a queued or running run; the index never aborts it |
| OutcomeLaws.CreateRunLeaves | internal/store/run.go:65-162 | the row has one attempt with number 1, four waiting stages, the stable version as base and an empty log or the one failure; the workflow points at it one version later, running if it can start and failed if not |
| OutcomeLaws.RetryLeaves | internal/store/run.go:176-227 | one more attempt, numbered one above the highest, running and active, with its stages waiting; everything else of the run stays; the workflow that points at it is running one version later |
| OutcomeLaws.WriteFileOutcome | internal/store/files.go:30-68 | invalid exactly for more than 204800 bytes, not found exactly for a missing project, a conflict exactly for a queued or running run, no stable version, or a given base that is not the stable version |
| OutcomeLaws.WriteFileLeaves | internal/store/files.go:69-174 | an iteration on the stable version and a version that differs from it in the writable file only; it is stable and the new pointer if the content passes the gate, failed and nothing else if not |
| OutcomeLaws.RestoreOutcome | internal/store/version.go:268-305 | not found exactly for a version that is missing or of another project, a conflict exactly for one that is not stable or a queued or running run |
| OutcomeLaws.RestoreLeaves | internal/store/version.go:306-329 | the restore iteration and the pointer, and nothing else |
| OutcomeLaws.BeginLeaves | internal/store/draft.go:213-228 | the queued attempt and the run are running, all else of the run stays |
| OutcomeLaws.FailRunLeaves | internal/store/draft.go:235-250 | the run and its queued and running attempts have failed, all else stays |
| OutcomeLaws.PromoteOutcome | internal/store/draft.go:73-150 | a draft is promoted if and only if the stable version is its iteration's base, and otherwise conflicts; version, iteration, pointer, owner, attempt and workflow as stated |
| OutcomeLaws.FailDraftOutcome | internal/store/draft.go:155-207 | a draft always fails when asked to, with its owner and attempt, and the pointer stays |
| OutcomeLaws.FavouredExactly | internal/store/workflow_state.go:118-129 | events are booked on the queued or running attempt with the highest number, or on the one with the highest number of all |
| OutcomeLaws.ArtifactOutcome | internal/store/run.go:270-302 | an artifact of an attempt there is is stored and its stage has succeeded; without one it is not found |
| OutcomeLaws.CompileResultOutcome | internal/store/draft.go:376-392 | a result is recorded for the attempt with the number unless that has a gate result with the same reference |
| OutcomeLaws.CreateDraftOutcome | internal/store/draft.go:25-62 | not found exactly without the iteration, aborted exactly for a missing project or a path given twice; otherwise a draft with just the files given |
| Stores.Store.LoadHistoricalEvidence | internal/store/workflow_state.go:542-603 | the loops over log and artifacts find the last start, the latest artifact and the last failure per stage |
| Stores.Store.RecoverWorkflow | internal/store/workflow_state.go:446-535 | the backfill of a project without workflow row, including the abort on an existing stage row |
| Stores.Store.FindConflicts | internal/store/workflow_state.go:626-661 | the conflict codes found stage by stage are those of the specification |
| Stores.Store.ReconcileConsistency | internal/store/workflow_state.go:612-699 | records or resolves conflicts and moves the workflow in or out of recovering |
| Stores.Store.GetProject | internal/store/project.go:135-182 | the whole read: touch, backfill, lineage walk, reconcile |
| Snapshots.ApplyOverride | internal/store/files.go:293-301 | the in-place override changes or adds the one file and leaves every other file in place |
| Snapshots.BuildFilesMap | internal/agent/scaffold.go:75-93 | the snapshot is the scaffold with the writable file replaced |
| Lineage.PreviewWorkflowRun | internal/store/workflow_state.go:400-444 | the walk ends on any version graph, even a cyclic one (measure: versions not yet seen), and returns the run of the nearest ancestor whose iteration has one |
| Lineage.LineageFindsRun | internal/store/workflow_state.go:400-444 | in a state that satisfies the invariant the walk always finds a run of the version's own project |
| Lineage.AncestorsAreOlder | internal/store/workflow_state.go:420-443 | base links go to older versions, so there is no cycle |
| Lineage.ProvenanceKept | internal/store/workflow_state.go:400-444 | the provenance of a version never changes while the store grows |
| ReadingLaws.ReadIsFixpoint | internal/store/workflow_state.go:249-308 | for any state that loads, a second read returns the same detail and writes nothing but recency, also after a backfill or healing |
| ReadingLaws.ConflictFreeExactly | internal/store/workflow_state.go:626-661 | no conflict if and only if a stable preview exists, its provenance is the run, and all four stages of the latest attempt succeeded with an artifact |
| ReadingLaws.ConsistentExactly | internal/store/workflow_state.go:612-699 | for a succeeded pointed run: consistency exactly then, and the resulting status and state version in every case |
| ReadingLaws.BackfillIsConservative | internal/store/workflow_state.go:446-535 | the backfill never collides; a stage counts as succeeded only with an artifact, and the workflow as completed exactly when the run succeeded and all four stages have one |
| ReadOutcomes.CodesExactly | internal/store/workflow_state.go:626-661 | when each of the five conflict codes is found: no stable version; another provenance; a stage without row; the first stage not proven has not succeeded; the first stage not proven has no artifact |
| ReadOutcomes.ReadReportsExactly | internal/store/workflow_state.go:612-699 | a read reports, of a succeeded run, each code exactly when it holds, and of any other the codes of the project's open conflicts |
| ReadOutcomes.BackfilledStatusExactly | internal/store/workflow_state.go:486-504 | the status of a backfilled stage in every case: none is in progress after an interrupted run, and the stage the last failure names has failed after a failed one |
| ReadOutcomes.BackfilledRowExactly | internal/store/workflow_state.go:505-523 | its start is the last one logged, its end the latest artifact or the run's last change, its code that of the last failure if it failed by it |
| ReadOutcomes.BackfillRows | internal/store/workflow_state.go:483-523 | the backfill adds the rows of the four stages and no other, and is refused if one is there |
| ReadOutcomes.RecoveredFlow | internal/store/workflow_state.go:446-535 | the workflow given to a project without one: draft or, with a stable version, recovering if it has no run; otherwise that of a most recently changed run, completed only if all four stages have artifacts |
| Calls.ClientCallsKeepHistory | internal/store/workflow_state.go:37-116 | no client call leaves stage rows in a project without workflow row, from any state with old projects |
| Calls.AgentCallsKeepHistory | internal/store/workflow_state.go:53-175 | nor does a call of the agent loop |
| Calls.RestartKeepsHistory | internal/store/run.go:383-442 | nor does the start-up reconciliation |
| Invariant.BumpExact | internal/store/workflow_state.go:53-86 | a lifecycle write of the pointed run sets the status and raises the version by one; one of another run changes no workflow |
| VersionSteps.CreateRunKeeps | internal/store/run.go:48-117 | a new run keeps the invariant and becomes its project's workflow, running or failed |
| VersionSteps.PromoteKeeps | internal/store/draft.go:73-150 | promotion keeps the invariant if the draft passes the gate, and conflicts exactly when the stable version is not the base |
| VersionSteps.FailDraftKeeps | internal/store/draft.go:155-207 | failing a draft keeps the invariant and all stable pointers |
| VersionSteps.WriteFileKeeps | internal/store/files.go:64-174 | a manual edit keeps the invariant |
| VersionSteps.RestoreKeeps | internal/store/version.go:265-335 | a restore keeps the invariant and all workflows |
| RunSteps.RetryRunKeeps | internal/store/run.go:176-227 | a retry starts attempt n + 1 or, if another run is active, is stopped by the index |
| RunSteps.AppendEventKeeps | internal/store/run.go:306-331 | an event keeps the invariant; the run's row and workflow change as stated |
| RestartSteps.MarkInterruptedKeeps | internal/store/run.go:383-442 | start-up interrupts exactly the active runs and attempts, cancels what is in progress in their last attempt, and cancels exactly the workflows that point at them, each one version up; all else stays |
| ReadSteps.GetProjectKeeps | internal/store/workflow_state.go:249-308 | a read of a reachable state succeeds and touches only recency, statuses, versions of workflows and conflict records |
| SystemSafety.NextKeeps | internal/agent/agent.go:166-195 | every step of the system (client call, agent action or lost write, restart with or without reconciliation) keeps the invariant |
| SystemSafety.RunsAreSafe | internal/store/project.go:186-199 | so every state of every run of the system satisfies it |
| SystemSafety.StablePointerIsGated | internal/store/draft.go:73-150 | over whole runs: a stable pointer names a stable version of its project whose /src/App.tsx passes the gate |
| SystemSafety.SettledVersionsNeverChange | internal/store/draft.go:73-207 | over whole runs: files are fixed from the start, a settled status stays, and so does the provenance |
| SystemSafety.ReadOnlyFilesNeverChange | internal/agent/scaffold.go:75-93 | over whole runs: all versions carry the scaffold's read-only files |
| SystemSafety.RunsAndAttempts | internal/store/run.go:48-101 | over whole runs: one active run per project, attempts numbered 1 to n with only attempt n active, events numbered 1 to m |
| SystemSafety.WorkflowIsNewestRun | internal/store/workflow_state.go:37-86 | over whole runs: the workflow pointer names the run created last, or none |
| SystemSafety.StateVersionNeverDrops | internal/store/workflow_state.go:37-101 | over whole runs: the state version never goes down |
| SystemSafety.LineageAlwaysEndsAtARun | internal/store/workflow_state.go:400-444 | over whole runs: the lineage walk of every version ends at a run of its project |
| SystemSafety.LogsFeedStreams | internal/store/run.go:306-356 | over whole runs: logs are numbered and only grow, as the event stream assumes |
| FlowLaws.WhatMovesStable | internal/store/draft.go:110-118 | any step moves no stable version, or is a promotion of a gated draft, a passing edit to its own version, or a restore to a stable one |
| FlowLaws.LifecycleWrites | internal/store/workflow_state.go:53-86 | each agent write changes only the row that points at its run: the status that goes with it, and the version by exactly one |
| FlowLaws.OlderRunsWriteNoWorkflow | internal/store/workflow_state.go:62-80 | an agent of an older run changes no pointer, status or state version |
| FlowLaws.RetryOutcome | internal/store/run.go:176-214 | a retry is served exactly when the run has ended badly and no run of the project is active; otherwise the index aborts it |
| FlowLaws.ManualEdit | internal/store/files.go:64-174 | a passing edit changes one file, keeps the provenance run and raises the state version by exactly one; a failing one moves neither |
| FlowLaws.EditsKeepProvenance | internal/store/files.go:64-174 | along any chain of passing edits, read-only files, provenance, workflow run and status stay, and the state version counts the edits |
| LateWrites.LateResultExactly | internal/store/draft.go:376-392 | a succeeded run keeps the status of its workflow if and only if the attempt has this result already; any other result puts it to running, and an attempt there is not is refused |
| LateWrites.CompletedStaysExactly | internal/store/workflow_state.go:612-699 | after such a result a read reports completed if and only if the result was recorded and preview, run and stages agreed before it; a new result of the latest attempt makes up for a missing gate result, one of an earlier attempt changes nothing about the agreement, and with a new one a read reports running at best and never heals it |
| LateWrites.CallbacksMayRepeat | internal/store/draft.go:376-392 | two callbacks that both look before either writes record one result twice |
| LateWrites.LastWordLands | internal/store/workflow_state.go:118-129 | a run_failed changes the row of the last attempt and no other, and without a stage no row; workflow and run disagree afterwards if and only if the run is pointed at and has not failed |
| LateWrites.LastWordExactly | internal/agent/agent.go:183-194 | over whole runs, with a stage or without: the last word of a loop whose run failed with n attempts lands on attempt n as long as there are n, and then all agree; with more it lands on the newest, and run and workflow disagree if and only if the run is pointed at and has not failed again |
| SystemSafety.EndedUntilRetried | internal/store/run.go:176-214 | over whole runs: a run that has ended keeps its status as long as it has the same attempts |
| Scenarios.RetryBeforeLastWord | internal/agent/agent.go:186-194 | a run of the system in which the retry comes first: the word fails a stage of attempt 2 and the workflow while the run goes on |
| Scenarios.RetryBesideActiveRun | internal/store/run.go:176-214 | a run of the system to a failed run beside an active one, where the retry aborts |
| Successes.SucceedsAgain | internal/agent/agent.go:282-403 | from every reachable state without agents a project with no active run can have one that succeeds, with any content that passes the gate |
| Successes.ResultAfterSuccess | internal/store/draft.go:376-392 | a run of the system to a completed project that one more compile result leaves running for every later read, although everything agrees |
| Successes.RestoreOfOlderRun | internal/store/version.go:306-329 | a run of the system to two successes, where restoring the first preview makes the next read report a mismatch |
| Successes.DraftOutlivesLoop | internal/store/run.go:383-442 | a run of the system in which a restart leaves a draft that is there when the retried loop starts; in whatever world, right after the one move that ends the run it is still a draft |
| Successes.StreamClosesTooEarly | internal/api/agent_handlers.go:88-105 | a run of the system to a succeeded run whose run_completed is not written yet: a stream that polls now closes without a terminal message |
| FlowLaws.RestoreThenRead | internal/store/version.go:306-329 | a restore leaves the workflow alone; the next read reports a mismatch exactly when the restored version comes from another run |
| Interference.OthersDoNotDisturb | internal/agent/agent.go:282-338 | no step of anybody else, short of a restart, touches a live agent's run, its versions or its project's stable version; done stages are taken back only by a logged start or failure |
| AgentViews.OthersAreTolerable | internal/agent/agent.go:282-338 | any number of steps of the rest of the system without a restart is what the loop expects of others, for live agents and for those that have ended |
| AgentViews.RunsArePaths | internal/agent/agent.go:166-195 | every stretch of the system is a path of each agent present in it, so the laws of paths hold in every run |
| AgentModel.LastWriteIsLast | internal/agent/agent.go:453-506 | what counts as written is the content of the last accepted call, or nothing if none is |
| AgentModel.AcceptedExactly | internal/agent/agent.go:476-499 | accepted are the write_file calls with a good path, at most 204800 bytes and none of the ten patterns that can be found |
| AgentMoves.Accepted | internal/agent/agent.go:404-413 | the loop's promotion succeeds if and only if the stable version has not moved since the run was created, and then concludes the run as succeeded with its last draft as the stable version |
| AgentMoves.Rejected | internal/agent/agent.go:417-425 | the last rejection concludes the run as failed and leaves the stable version |
| AgentMoves.CourseStands | internal/agent/agent.go:282-429 | at every moment of every course, in every world and with any interference: while the run is the loop's its drafts and the stable version are accounted for, afterwards a move of the path has ended and settled it, or the write that should have was lost |
| AgentBooks.LostIsFact | internal/agent/agent.go:577-604 | the book says that a call was lost if and only if one of the path's own moves was |
| AgentBooks.MeddledIsFact | internal/store/workflow_state.go:190-230 | the book says that others meddled if and only if a move of theirs logged the start or failure of a stage while the run was the loop's |
| AgentBooks.TroubleIsFact | internal/agent/agent.go:305-407 | the book says trouble if and only if a call the loop cannot do without failed on the path: the beginning of the attempt, a draft, or a promotion |
| AgentLaws.PathIsSafe | internal/agent/agent.go:166-195 | along any execution of the loop, with any interference and lost writes, every moment satisfies the system invariant |
| AgentLaws.StableMovesByAcceptance | internal/agent/agent.go:398-414 | while its run is active, the stable version moves only by accepting the last draft, which passed the gate |
| AgentLaws.OneTerminalEvent | internal/agent/agent.go:166-195 | of every course that has said its last word without a lost call: exactly one move ended the run; right after it the store has the run succeeded or failed accordingly, exactly the drafts from before, and as stable version what it was or the last draft; exactly one terminal event was said, last, and it tells that outcome |
| AgentLaws.OneEnd | internal/agent/agent.go:166-195 | at most one move of a course ends the run, lost calls or not |
| AgentLaws.WordsAreStored | internal/agent/agent.go:577-604 | without a lost call everything the loop tried to say is in its run's log in that order, and every other event there since its start is from others |
| AgentLaws.OneTerminalEventInLog | internal/agent/agent.go:599-604 | in the stored log: of the events the loop appended exactly one is terminal, the last, and every other event since its start was appended by others |
| AgentLog.SaidIsStored | internal/store/run.go:306-331 | along any path the events an agent persists are in its run's log in their order |
| AgentLaws.SuccessIsConsistent | internal/agent/agent.go:398-414 | right after the promotion that ended the run, on a course without a lost call and without a start or failure of a stage logged by others, the read-time reconciler finds no conflict if the workflow points at the run: preview from this run, four succeeded stages with artifacts, status completed |
| AgentStages.AllShownIsProven | internal/store/workflow_state.go:612-699 | a succeeded row and an artifact of the last attempt for each stage make the run pass the stage part of the reconciler |
| AgentStages.ArtifactShowing | internal/store/run.go:270-302 | recording an artifact adds its stage to those shown and takes none away |
| AgentTurns.PlanBounds | internal/agent/agent.go:344-429 | what the model's answers make the engineer write: at most one content for each of three turns, only the last may pass the gate and does unless the turns are used up or the model fails; at most eight answers a turn |
| AgentTurns.TurnFailsExactly | internal/agent/agent.go:453-506 | a turn fails if and only if one of the answers it takes is a failure |
| AgentTurns.TurnWritesLast | internal/agent/agent.go:453-506 | the content of a turn is that of an accepted call after which no later call of the turn is accepted, over all answers it takes, or nothing if it has none |
| AgentTurns.TurnTakes | internal/agent/agent.go:462-503 | a turn goes on exactly as long as the answers stop for write_file calls, and at most to the eighth |
| AgentTurns.PlanWritesLast | internal/agent/agent.go:344-429 | so every content of the run is the last accepted write of its own turn, turn by turn from the third answer on |
| AgentMilestones.ScriptReads | internal/agent/agent.go:305-429 | what the loop says apart from deltas: the stages in their order as far as the model goes, a file for each round, the outcome; and as many deltas as the answers taken have chunks |
| AgentLoop.Runner.ToolRound | internal/agent/agent.go:462-503 | one tool round takes the world's next answer: it fails exactly if that is a failure, asks for more exactly if it stops for write_file calls, and the content is that of the last accepted call of the turn so far, with none accepted after it |
| AgentLoop.Runner.EngineerTurn | internal/agent/agent.go:453-506 | takes exactly the answers of the turn, at most eight; it fails exactly if the last one is a failure, and the content is that of the last accepted call of the turn, with none accepted after it, or nothing |
| AgentLoop.Runner.CreateDraft | internal/agent/agent.go:367-370 | a new open draft with the content if the store is up for this write, otherwise nothing but trouble |
| AgentLoop.Runner.Supersede | internal/agent/agent.go:371-376 | the replaced draft is settled if the store is up for this write, otherwise it stays open and the call is lost |
| AgentLoop.Runner.Promote | internal/agent/agent.go:404-413 | the run ends as succeeded if and only if the store is up for this write and the stable version has not moved since the run was created; otherwise the loop is in trouble and its run still its own |
| AgentLoop.Runner.Reject | internal/agent/agent.go:417-425 | the run ends as failed, in the store if it is up for this write |
| AgentLoop.Runner.Say | internal/agent/agent.go:599-604 | appends to the log of the run that is over, if the store is up; with a terminal event the loop is finished |
| AgentLoop.Runner.Round | internal/agent/agent.go:344-396 | one round takes plan and script of the model's answers exactly one turn further, to their end, or off them when the model fails or the draft is lost |
| AgentLoop.Runner.TextStage | internal/agent/agent.go:311-331 | a text stage takes one answer; it says its start, a delta for each chunk and, unless the answer is a failure, its artifact |
| AgentLoop.Runner.FailInfra | internal/agent/agent.go:608-614 | the draft and the run are failed, or the run alone, and then run_failed is said |
| AgentLoop.Runner.Load | internal/agent/agent.go:283-299 | the run is loaded with its iteration and active attempt whenever the three reads go through and the iteration is there |
| AgentLoop.Runner.EngineerQA | internal/agent/agent.go:344-429 | what is written and said and how many answers are taken is the plan of the model's answers, and success is whether it ends with a content that passes the gate; short of that only with a lost write or a conflicting promotion |
| AgentLoop.Runner.Run | internal/agent/agent.go:166-195 | aborted if and only if in trouble while the process shuts down; successful if and only if out of trouble and the plan of the model's answers passes the gate; what it writes is, turn by turn, the last accepted write of each turn; out of trouble it writes exactly the plan, three contents unless it succeeds, and says exactly the script, in trouble a beginning of both and then run_failed; at most three contents and 26 answers; unless aborted it ends with its last word, so that AgentLaws.OneTerminalEvent applies |
| AgentLoop.ExecuteCalls | internal/agent/agent.go:473-499 | the calls with a result are the write_file ones; the content becomes that of the last accepted call, with none accepted after it, or stays if none is |
| Ledgers.Ledger.RunIdempotent | internal/store/idempotency.go:34-86 | replay inside the window at the first clock reading, otherwise run, cache only 2xx with the second reading, and roll back on an error, eviction included |
| Ledgers.Ledger.GCIdempotency | internal/store/idempotency.go:99-108 | deletes exactly the records stored before the cutoff |
| Ledgers.WindowExactly | internal/store/idempotency.go:89-95 | replay is decided by whole seconds |
| Ledgers.WindowBounds | internal/store/idempotency.go:89-95 | replay is certain up to 29 s and impossible from 30 s on |
| Ledgers.WindowBoundsAreTight | internal/store/idempotency.go:89-95 | between the two either may happen |
| Ledgers.CollectionIsInvisible | internal/store/idempotency.go:97-108 | over any history with a clock that does not go back, collecting anywhere changes no answer and no state |
| Ledgers.OncePerWindow | internal/store/idempotency.go:34-86 | after a success, every call with the key inside the window, whatever happens in between, gets the same response and changes nothing |
| Ledgers.ExecutionsAreApart | internal/store/idempotency.go:34-86 | two executions with a success for one key are more than 29 s apart |
| Ledgers.AfterTheWindow | internal/store/idempotency.go:60-85 | after the window the operation runs again, also if the record was never collected |
| EventStreams.ListedIsSegment | internal/store/run.go:335-356 | the events listed after an id are the rest of the log from there |
| EventStreams.Handler.Drain | internal/api/agent_handlers.go:72-85 | the drain loop sends what is listed and remembers the last id and a terminal event |
| EventStreams.Handler.Poll | internal/api/agent_handlers.go:69-111 | one turn of the loop: drain, close on a terminal event, synthesize one for a dead run |
| EventStreams.ExactlyOnceInOrder | internal/api/agent_handlers.go:35-113 | over any interleaving of writes, polls, closes, drops and reconnects a client from k receives events k+1, k+2, ... in order, each once |
| EventStreams.ReconnectCatchesUp | internal/api/agent_handlers.go:46-85 | after a reconnect and one drain that gets through the client has every persisted event after its start |
| EventStreams.SilentCloseExactly | internal/api/agent_handlers.go:69-111 | over any polls of a growing log: when a stream closes, and that it does so without a terminal message if and only if it finds the run succeeded with no terminal event after the id the client came with |
| Auth.Authenticator.PruneFailures | internal/api/auth.go:295-301 | drops exactly the sources whose window is over |
| Auth.Authenticator.VerifyLogin | internal/api/auth.go:272-293 | the verdict and the source's new state depend on its own state alone; others are only pruned |
| Auth.Authenticator.ValidateSession | internal/api/auth.go:175-233 | valid exactly when in force and not among the unexpired revocations |
| Auth.Authenticator.RevokeSession | internal/api/auth.go:235-244 | a valid session is revoked until it expires |
| Auth.SourcesAreIsolated | internal/api/auth.go:272-301 | other sources' logins and the pruning they cause never change a source's verdicts |
| Auth.RetryAfterIsExact | internal/api/auth.go:277-281 | the wait is 1 to 60 s and the least whole number of seconds after which the password is looked at |
| Auth.WindowCounts | internal/api/auth.go:272-301 | the window counts exactly the wrong passwords looked at since it began, at most five |
| Auth.FiveInAMinuteExactly | internal/api/auth.go:272-301 | every continuation keeps to five wrong passwords in the minute from a moment on if and only if no window of the source is open then or the open one is full |
| Auth.NoMoreThanBudget | internal/api/auth.go:272-301 | in the minute from any moment on at most five are looked at if no window is open then, and ten less the count of the open one otherwise |
| Auth.BudgetIsReached | internal/api/auth.go:272-301 | and some continuation reaches that number |
| Auth.NoMoreThanNineInAMinute | internal/api/auth.go:272-301 | in any minute without a success at most nine wrong passwords are looked at |
| Auth.NineInAMinute | internal/api/auth.go:272-301 | a concrete sequence with nine, so five holds for the limiter's own windows only |
| Auth.RevokedForever | internal/api/auth.go:175-244 | a token text that was valid when revoked never validates again |
| Auth.OthersDoNotRevoke | internal/api/auth.go:175-244 | what happens to other tokens never ends a session |
| FilesHash.HashedByServer | internal/store/version.go:414-426 | the bytes fed to the hash are the stream of the snapshot |
| FilesHash.StreamInOrder | internal/store/version.go:418-424 | of files in the order of their paths each adds its path, a NUL byte, its content and a NUL byte |
| FilesHash.HashedByBrowser | frontend/src/workspace.ts:162-186 | sorted by 16-bit units and encoded, the files are laid out in the buffer at a running offset |
| FilesHash.SortedIsUnique | internal/store/version.go:416-417 | for distinct paths there is one sorted order, whatever the sorting algorithm |
| FilesHash.OrderDoesNotMatter | internal/store/version.go:414-426 | any order of the same files gives the same stream |
| FilesHash.StreamIsInjective | internal/store/version.go:414-426 | without NUL bytes, equal streams if and only if equal files |
| FilesHash.NulFoolsTheStream | internal/store/version.go:419-424 | with a NUL byte in a content two different snapshots have the same stream |
| FilesHash.SidesAgreeExactly | frontend/src/workspace.ts:162-186 | server and browser hash the same bytes if and only if no two paths differ first in a character beyond U+FFFF on one side and one from U+E000 to U+FFFF on the other |
| FilesHash.SidesDisagree | frontend/src/workspace.ts:162-166 | a concrete pair of paths for which they do not |
| FilesHash.SidesAgreeOnAscii | frontend/src/workspace.ts:162-186 | with ASCII paths they always do, NUL bytes or not |
| Texts.Utf8KeepsOrder | internal/store/version.go:417-417 | the bytes of texts are in the order of their code points |
| Texts.Utf16Order | frontend/src/workspace.ts:165-166 | their 16-bit units are too, exactly unless the first difference is such a pair |

## Left out

- Identifiers are row numbers instead of UUIDs; rows are never deleted, so they are as unique.
- Attempts, stage rows, artifacts and events live in their run's row instead of tables of their own.
- Messages, titles, prompts' text, event payloads beyond stage and code, and the details and times of conflict records: nothing else depends on them; of a prompt only its length is kept.
- Artifact types and the hydration of artifact references in a read: the type is fixed by the stage, and a read only reports them.
- The hint of which run is active and latest in a read (`internal/store/workflow_state.go:291-306`).
- Gate.Validate: a char stands for a byte, and the trimming of the emptiness test knows ASCII white space only; a text of other white space has no default export, so it fails either way and only the list of errors is shorter.
- Validation of the tool's path by `path.Clean` is a verdict that comes with each tool call.
- The agent's model, its prompts, the watchdog and error classes: the model may answer anything or fail at any point, and any of the four failure codes may be reported. An answer's failure stands for every way its stream can fail, a cancelled context included.
- In the system an agent may do its store calls in any order, which covers the loop and more; the loop's own order is what the class in `AgentLoop.dfy` shows.
- The scaffold is the same across restarts of the system.
- A write that the database commits while reporting an error counts as done, one that it rolls back as lost; there is no third outcome.
- SetRunStatus, NewAttempt, CommitVersion and FailVersion have no caller in production and are not steps of the system.
- The version status `validating` and the stage status values no code writes.
- HTTP routing, cookies, HMAC, base64, SHA-256, the trusted-proxy logic that names a login's source, SQL text, migrations and WAL.
- FilesHash.HashedByBrowser: takes paths and contents without lone surrogates, which a browser string may hold and `TextEncoder` replaces.
- Auth.RevokedForever: is about token texts, not sessions; the decoding of a token is not strict about the spare bits of its last character, so another text of the same session validates after the logout.
- React components, Sandpack timers and the client's version floor.
