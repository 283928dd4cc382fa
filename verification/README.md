# Confire: a verified model

Confire is a configurator for SAP Business One: a cloud server, a Go agent on the customer's SAP server, and an
MCP server over the Service Layer. This project models the parts of it that are protocols or transformations and
proves what they are for. `dafny verify dfyconfig.toml` checks all of it.

- **AgentSession** – the agent's SAP session: any number of callers share one login; a generation counter keeps a
  late 401 from dropping a newer session. The mutex-protected sections are a class and functions on its state;
  callers, login goroutines and a logout interleave in any order.
- **QuoteProtocol**, **QuoteCommand**, **Canon**, **JsonReader** – quoting a project in SAP when answers get lost and the
  agent is moved to another company; the command id that makes a retry find its own quotation; the canonical JSON under
  it, and a reader that gives back what was printed.
- **ProjectRow**, **ProjectTurns**, **ProjectProgress**, **ProjectRounds**, **ProjectFreshness**, **RevisionDiff** – the
  project row as a concurrent object: its two-sided lifecycle and event log, the checks of submit and quote before
  their transitions, the picks, the optimistic recalculation, and the diff written when a round closes.
- **ConfigPatch**, **PatchRules** – one edit to a configuration's inputs: validated, then merged key by key with its
  provenance; and the same rules said of the model, the values and the row alone.
- **DocCopy**, **CopyPayload** – copying quotations to an order with their configured parts made real first, resumable
  after any failure, with a payload computed from a prediction; and what that payload is.
- **Redaction**, **TypeReferences**, **MetadataWalk** – recursive work over cyclic type graphs: redacting a data
  tree, listing where a type is used, loading and matching personal fields by table.
- **ODataFilter**, **ListMeaning** – the `$filter` text of a list query and a parser with OData's precedence; what the
  conditions ask of a row, and that the text asks the same.
- **Lookups** – the first page of a table, extended by the rows a configuration names, answering like the whole.
- **PrintChild** – one JSON line in, one out, across timeouts, deaths and restarts of the print service.

Protocols are transition systems: a state, atomic steps, and `Run` over any list of actions; the theorems speak of
every reachable state. Where the program changes things step by step, a class or a method with loops runs the same
steps and its `ensures` ties it to the function the theorems are about.

## Where the code and its documentation disagree

- *A non-null `calculatedAt` means the candidates match the inputs* (apps/server/src/config-project.ts:292). An edit
  that breaks a rule keeps the candidates and their stamp (`keepsCandidates`, config-project.ts:218-232, used by the
  calculate handlers). The claim holds as long as no such edit has landed since the calculation
  (`ProjectFreshness.FreshUnlessKept`); `ProjectFreshness.EditKeepsFreshIffNotKept` is exact, edit by edit.
  `ProjectFreshness.KeptEditOutlivesItsRule` is a run in which such an edit lands late and the stale calculation looks
  current. That cannot happen when kept edits land on the version and the masterdata they were decided on
  (`ProjectFreshness.QuotableIsFresh`); the version alone is not enough (`ProjectFreshness.MasterdataClauseNeeded`).
- *Any input write nulls `calculatedAt`, so a submit's pin proves the inputs are the ones that passed*
  (apps/server/src/project-lifecycle.ts:235-237). `ProjectFreshness.StampSurvivesEditIff` says which edits leave the
  stamp, and `ProjectFreshness.PinProvesInputs` what the pin is worth: the inputs are those it was read with after the
  kept edits since. `ProjectFreshness.PinPassesAKeptEdit` is a run on a client's project. The submit's own check for
  broken rules does not close the gap, because it runs before the edit. What a submit freezes has always been
  calculated as complete and within the rules, but for those edits (`ProjectFreshness.SubmittedWasCalculated`).
- *Every stored source tells the stored value.* The server files provenance of `batches` and `customer` under those
  two names, next to the model's keys, and the model check refuses neither name. `ConfigPatch.SourcesTrueIffKeysApart`
  gives the exact condition on a model.
- *An error of the print service is an error.* An error reply with an empty message is read as a printed empty PDF
  (apps/agent/crystal.go:142-145); `PrintChild.PrintedIff` says exactly when a print succeeds, and
  `PrintChild.WordlessFailurePrints` is such a print.
- *The order's payload is what re-reading would give.* It is so for the items as SAP matches them and for every figure
  but those SAP fills in on a line that had none (`DocCopy.PredictionHolds`). `DocCopy.PredictionSafeIff` says, from the
  sources the plan reads, when that cannot happen whatever SAP fills in: if and only if every open, kept part line holds
  every field of `KEEP_ON_SWAP`, but for a quantity the draft gives. `DocCopy.FilledInFigureIsMissed` is a copy whose
  order lacks such a figure. Codes that differ in case are one item, so the spelling may differ.
- *A bound table answers like the whole one.* `Lookups.BoundAnswersIff` says exactly when, for a table looked up by any
  number of columns: no read may put another row with the value ahead of the whole table's first. With one column it
  is true for values that print alike in JavaScript and in the database (`Lookups.BoundAnswers`,
  `Lookups.StoredValueFoundIff`); `Lookups.TwoKeyColumnsMayDiffer` is a table where two columns pick another row.
- *The personal mark of a field says whether its table holds it as personal.* A complex type reached under two tables
  has one mark for both; it is right for both if and only if the tables agree (`MetadataWalk.Manager.MarkAll`).

## Model

| member | source | states |
|---|---|---|
| AgentSession.Session.EnsureEnter | apps/agent/session.go:124-136 | `ensure` up to its unlock: the session's pair when ready, else the login under way, else one it starts |
| AgentSession.Session.Current | apps/agent/session.go:137-144 | after the wait `ensure` returns the client and generation as they are then |
| AgentSession.Session.FinishLogin | apps/agent/session.go:146-156 | a login's result stored: a new client and generation on success, only the error otherwise |
| AgentSession.Session.ExpireGeneration | apps/agent/session.go:159-165 | drops the session only if it still is the refused generation |
| AgentSession.Session.TakeForLogout | apps/agent/session.go:253-258 | logout takes the client and leaves the session not ready |
| AgentSession.OneLoginAtATime | apps/agent/session.go:124-165 | in every interleaving at most one login runs, `ready` means none does, `gen` counts the successful logins, and each pair a caller sends with is that generation's own client |
| AgentSession.RetryIsNewer | apps/agent/session.go:284-329 | a call is sent at most twice, the retry on a strictly newer generation than the refused one |
| AgentSession.AnswerReturnedIff | apps/agent/session.go:284-329 | from every reachable state: a request that gets no answer fails its call, and an answer is returned if and only if it is no refusal, or one of the second request or with Basic authentication |
| AgentSession.RefusedIsSentAgain | apps/agent/session.go:284-329 | from every reachable state a call whose first request is refused puts a second one on the wire, on a strictly newer generation: the one already there, or a login of its own |
| AgentSession.WaitEndsWithItsLogin | apps/agent/session.go:136-144 | a wait ends with the login's own error, or with the pair of the session as it then is on the wire |
| AgentSession.NewCallIsSent | apps/agent/session.go:124-156 | from every reachable state a new call reaches the wire, on the session if there is one and on one more generation otherwise |
| AgentSession.LogoutEndsTheSession | apps/agent/session.go:253-258 | whoever enters after a logout sends on a generation that was logged in after it |
| AgentSession.LoginHasAReason | apps/agent/session.go:124-165 | a login that replaces generation g begins only after g was refused or logged out |
| AgentSession.EveryLoginIsLogged | apps/agent/session.go:124-165 | every login of every run is in the history the reasons are read from |
| AgentSession.LateRefusalIsHarmless | apps/agent/session.go:158-165 | a 401 answered to generation g drops only generation g, never a later session |
| AgentSession.KeptUntilRefused | apps/agent/session.go:158-165 | whatever runs on from a ready session, it stays the very same session until SAP refuses one of its own calls or it is logged out |
| AgentSession.NoLostWaiter | apps/agent/session.go:136-156 | whoever waits for a login is woken: the call it waits on ends in at most three steps from any reachable state |
| AgentSession.WokenInOrder | apps/agent/session.go:136-156 | whatever steps come in between, a waiter is woken once its login has returned, the channel was closed and it was scheduled, and it never waits on that login again |
| Canon.PrintsAlikeIffMeansAlike | apps/server/src/canon.ts:4-11 | two JSON values print alike exactly when they are the same value up to key order and undefined entries, at any depth |
| JsonReader.CanonicalReadsBack | apps/server/src/canon.ts:1-12 | canonical JSON is JSON: a reader of RFC 8259's values and escapes gives back the printed value, up to key order and undefined entries, with the keys of every object in order |
| Canon.SameJsonIsSameMeaning | apps/server/src/canon.ts:12-15 | `sameJson` is that equality, with a missing value read as null |
| QuoteCommand.ReorderKeepsId | apps/server/src/config-quote.ts:42-65 | reordering the picks, or the keys of a row or of an assignment at any depth, keeps the command id |
| QuoteCommand.EqualIdsIffQuotedAlike | apps/server/src/config-quote.ts:42-65 | under an injective hash two ids are equal if and only if owner, tables, replaced quotation and the list of assignments with quantities are, up to key order |
| QuoteCommand.EqualIdsIffSameLines | apps/server/src/config-quote.ts:38-65 | the same said of the calculation and the picks as they stand: two ids are equal if and only if tenant, project, tables and replaced quotation agree and the picks, put in order, name assignments of the same meaning at the same quantities |
| QuoteProtocol.QuoteNamesItsDocument | apps/server/src/config-quote.ts:338-405 | whatever died, was lost or switched before, a company never holds two quotations under one command id besides the replaced one, and the quotation an attempt is about to record carries the id, on the create, modify and 412 paths |
| QuoteProtocol.StoredQuotationExists | apps/server/src/config-quote.ts:316-322 | a stored quotation always exists in the stored company, also when a retry is answered from the row alone |
| QuoteProtocol.AdoptionFollowsTheAgent | apps/server/src/b1.ts:45-65 | between attempts the tenant's company is the last one adopted; a row with a quotation and no company keeps the first one adopted, any other row is not touched |
| QuoteProtocol.RefusedIsAdopted | apps/agent/server.go:115-123 | a call refused because the agent serves another company ends the attempt, writes nothing and that company is adopted |
| QuoteProtocol.AttemptStaysInItsCompany | apps/agent/server.go:115-123 | wherever switches and adoptions fall, an attempt writes only in the company it was decided against, and changes no existing document but the one the row named there |
| QuoteProtocol.NothingWrittenTwice | apps/server/src/config-quote.ts:338-360 | an attempt that finds its own id on the open quotation, or whose read an edit overtook, changes no document however it goes on |
| QuoteProtocol.CreatedOnce | apps/server/src/config-quote.ts:362-391 | once a quotation carries a command id no number of further attempts puts another beside it until one is recorded |
| QuoteProtocol.RetryLands | apps/server/src/config-quote.ts:304-420 | from every reachable idle state one undisturbed attempt records a quotation carrying the id, without a new document if an earlier attempt created it; an open quotation is itself the one recorded, beside a closed one or the first time it is another, and no other document changes |
| QuoteProtocol.OpenIsModifiedInPlace | apps/server/src/config-quote.ts:338-360 | a project whose quotation is open is re-quoted in it: whatever is lost, repeated, stopped or moves on around the attempt, no document is added, no other one changes and the row names the same quotation |
| QuoteProtocol.ClosedIsReplaced | apps/server/src/config-quote.ts:362-405 | a closed quotation and every other document stay as they are, and the row names the closed one until it names another that carries the id |
| QuoteProtocol.RepeatedIsRecorded | apps/server/src/config-quote.ts:338-360 | a modify that was applied and answered with 412 is recorded under the same quotation |
| QuoteProtocol.LostWriteIsFound | apps/server/src/config-quote.ts:338-391 | a create or modify that was applied and whose answer was lost records nothing; the next attempt finds that very document, records it and writes nothing |
| ConfigPatch.RowProblems | apps/server/src/config-patch.ts:83-108 | lists exactly the bad cells of a row |
| ConfigPatch.TableProblems | apps/server/src/config-patch.ts:83-108 | lists exactly the bad cells of the rows sent for one table |
| ConfigPatch.PatchProblems | apps/server/src/config-patch.ts:83-108 | lists exactly the problems of a patch; empty exactly for an acceptable one |
| PatchRules.PatchAcceptedIff | apps/server/src/config-patch.ts:83-108 | a patch is accepted if and only if every field it writes is there, may be written and takes the value, every field it clears may be written, and every cell of its rows is in a table and column that take it from this side |
| PatchRules.FieldRefusedFor | apps/server/src/config-patch.ts:53-60 | a field's value is refused for this reason if and only if the model and the value say so |
| PatchRules.CellRefusedFor | apps/server/src/config-patch.ts:65-76 | and a cell's, on either side |
| ConfigPatch.DefaultQuantities | apps/server/src/config-patch.ts:110-120 | every items row without a quantity gets one, nothing else changes |
| ConfigPatch.ColumnsAfter | apps/server/src/config-patch.ts:122-145 | the partial UPDATE merges keys into the row as it is now, and drops and adds provenance with them |
| PatchRules.KeyAfter | apps/server/src/config-patch.ts:122-151 | key by key: a cleared one is gone with its source, a written one holds what was written and only the source given with it, any other is as it was |
| ConfigPatch.TypesKept | apps/server/src/config-patch.ts:53-145 | an admitted call leaves every entry and cell well typed for the model |
| ConfigPatch.CallsKeep | apps/server/src/config-patch.ts:53-151 | over any run of calls entries and tables stay well typed, and with the two server keys kept out of the model every source tells the stored value |
| ConfigPatch.SourcesTrueIffKeysApart | apps/server/src/config-patch.ts:122-151 | provenance stays true over every run if and only if no writable parameter and no table is named batches or customer |
| ConfigPatch.DisjointCallsCommute | apps/server/src/config-patch.ts:122-145 | two calls with disjoint keys end in the same row in either order |
| RevisionDiff.ReviseDiff | apps/server/src/project-lifecycle.ts:75-93 | the two passes over both sides' keys build the diff, or none when nothing changed |
| RevisionDiff.DiffIsDiff | apps/server/src/project-lifecycle.ts:75-93 | the diff holds exactly the entries and tables that differ between the two inputs, with the values and row counts of each side, null as good as nothing and no table as an empty one |
| RevisionDiff.OneDiff | apps/server/src/project-lifecycle.ts:75-93 | two inputs have one diff: what it must hold determines it |
| RevisionDiff.DiffRebuilds | apps/server/src/project-lifecycle.ts:75-93 | the diff applied to the baseline rebuilds the current entries up to null-as-absent and the batches; there is none exactly when nothing differs |
| ProjectRow.LogRebuildsRow | apps/server/src/project-lifecycle.ts:240-303 | in every reachable state folding the events gives status, quote response and assignee |
| ProjectTurns.LogSaysWhatIsNext | apps/server/src/project-lifecycle.ts:31-66 | in every reachable state the last transition in the log says which ones are let through and for which side, both directions; a project of staff's own is quoted once and nothing else |
| ProjectTurns.OnlyTheWritersEditsLand | apps/server/src/project-lifecycle.ts:31-66 | in every reachable state the last transition says whose edits land: that side's whole edit leaves the inputs as asked, the other's changes nothing, nor does one of its edits already under way |
| ProjectTurns.AssignmentLandsIff | apps/server/src/project-lifecycle.ts:175-200 | in every reachable state staff assign a client's project once it was submitted and while the assignee is another, which is logged and changes nothing else; no other assignment does anything |
| ProjectTurns.SentBackComesAgain | apps/server/src/project-lifecycle.ts:252-303 | a request that was sent back and is complete and calculated can be resubmitted and accepted |
| ProjectRow.FinalStaysFinal | apps/server/src/project-lifecycle.ts:53-66 | an accepted quote stays quoted, a declined request never moves, an internal quotation is final, and none of their inputs change |
| ProjectRow.InternalOnlyDraftOrQuoted | apps/server/src/project-lifecycle.ts:252-303 | a configuration of staff's own is only ever a draft or quoted |
| ProjectRounds.RevisedIsWhatStaffChanged | apps/server/src/project-lifecycle.ts:274-284 | the diff written at a closing transition is the difference from the last submitted, resubmitted or quoted baseline, and every write in between was staff's |
| ProjectProgress.QuotationCanComeIff | apps/server/src/portal/orpc/projects.ts:93-107 | with the checks of submit, resubmit, select and quote (config-quote.ts:168-190, 251-258): from every reachable state an open quotation of the same inputs can come without another edit, if and only if one stands or the project is under way, breaks no rule, has its fields filled (before a client's submit everything), and a stored candidate still sells or a due recalculation finds one |
| ProjectProgress.StuckUntilEdited | apps/server/src/config-quote.ts:173-190 | a client's draft that breaks a rule is not final, yet nothing short of an edit leads to a quotation; the edit that keeps the rule opens the way |
| ProjectFreshness.FreshUnlessKept | apps/server/src/config-project.ts:251-296 | in every interleaving the stored candidates are the enumeration of the inputs in the row, unless a rule-breaking edit kept them |
| ProjectFreshness.EditKeepsFreshIffNotKept | apps/server/src/config-project.ts:208-242 | whatever it read, an edit that lands leaves a fresh row fresh if and only if it was not a kept one or the new inputs have the very same candidates; never the latter where it lands on what it was decided on |
| ProjectFreshness.QuotableIsFresh | apps/server/src/config-quote.ts:173-181 | when kept edits land on the version and masterdata they were decided on, a calculation that is not stale and breaks no rule on the live masterdata is the row's own |
| ProjectFreshness.UnbrokenIsFresh | apps/server/src/config-project.ts:208-242 | when they land on the version alone, one that breaks no rule on any masterdata is |
| ProjectFreshness.MasterdataClauseNeeded | apps/server/src/config-project.ts:208-242 | a run where the kept edit lands on its version after the masterdata moved on: current, within the rules, and not the row's own |
| ProjectFreshness.BegunBeforeNeverLandsAfter | apps/server/src/config-project.ts:256-296 | a recalculation begun before an edit, transition or assignment can never change the row after it |
| ProjectFreshness.LandsOnlyOnWhatItRead | apps/server/src/config-project.ts:256-296 | a recalculation that lands finds the row as it read it and changes only the calculation |
| ProjectFreshness.RefreshLeaves | apps/server/src/config-project.ts:256-296 | from every reachable state a refresh by whoever may write a row that is due leaves the candidates of its inputs, current and unpicked; none where something is missing or nothing is found; and the ones it had where a rule is broken |
| ProjectFreshness.PicksFollowTheirCandidates | apps/server/src/config-project.ts:289-296 | in every reachable state each pick names a stored candidate, no two the same, and whatever replaces the candidates drops the picks |
| ProjectFreshness.StampSurvivesEditIff | apps/server/src/project-lifecycle.ts:232-239 | an edit that lands leaves the calculation's stamp if and only if it was decided to be kept or touches no input and clears no customer; the candidates and picks stay or go with it |
| ProjectFreshness.PinProvesInputs | apps/server/src/project-lifecycle.ts:252-273 | the pinned stamp under the lock means the inputs the pin was read with, after exactly the kept edits that landed in between |
| ProjectFreshness.PinPassesAKeptEdit | apps/server/src/portal/orpc/projects.ts:93-107 | a run on a client's project: the submit's check passes, its pin passes, and what it freezes breaks a rule |
| ProjectFreshness.SubmittedWasCalculated | apps/server/src/portal/orpc/projects.ts:93-107 | what a submit freezes some calculation found complete, within the rules and with candidates, but for the kept edits since |
| ProjectFreshness.KeptEditOutlivesItsRule | apps/server/src/config-project.ts:208-242 | a run in which a kept edit leaves a stale calculation that looks current |
| DocCopy.Server.MakeParts | apps/server/src/entity-write.ts:85-104 | stopped after any number of writes, the loops leave SAP as that prefix of the plan says: items first, then each quotation once |
| DocCopy.MadeAndSwappedOnce | apps/server/src/entity-write.ts:70-104 | over any attempts stopped anywhere each item is created at most once and never over an existing one, each line is put on an item at most once, and only part lines move, with every figure they had; closed, dropped and foreign lines stay as they were |
| DocCopy.EveryWriteIsAccepted | apps/server/src/entity-write.ts:70-104 | no attempt asks SAP to create an item there is or to use one there is not |
| DocCopy.RetryCompletes | apps/server/src/entity-write.ts:234-240 | an attempt that is not stopped finishes the work of all before it: every kept part line is on its item and nothing is left to plan |
| DocCopy.PredictionHolds | apps/server/src/doc-copy.ts:83-179 | the predicted payload is, after any number of its writes, the one built afresh: same lines and items to SAP, and same figures exactly when SAP filled in none; after the last write it needs no prediction |
| DocCopy.PredictionSafeIff | apps/server/src/doc-copy.ts:153-218 | from every reachable state and after any number of the writes: the predicted figures hold whatever SAP fills in, if and only if each part line put on its item already had every field kept on a swap, a quantity the draft gives aside; after the last write that is each open, kept part line |
| DocCopy.FilledInFigureIsMissed | apps/server/src/doc-copy.ts:83-179 | a copy whose posted order lacks the tax code SAP filled in when the line was put on its item |
| CopyPayload.PayloadIsTheCopy | apps/server/src/doc-copy.ts:83-147 | the payload over the quotations as they are: every line once and in order, each with its base, its item, the fields that go along and no others; with kept lines one for each under the line it names and with its quantity; none if and only if there is nothing to copy, the customers differ, a source has no lines or a kept line is on no source |
| CopyPayload.DistinctIsFirstNamed | apps/server/src/entity-write.ts:51-58 | the sources are those the draft names, each once, in the order first named |
| DocCopy.PartOnPlan | apps/server/src/doc-copy.ts:153-166 | the plan holds each open, kept line of the sources whose code is not its item's, with that code's item, and no other |
| DocCopy.PlanMakes | apps/server/src/entity-write.ts:70-83 | every part's code is an item already or among those to make; none to make exists, and none is made twice |
| Redaction.RedactsExactly | b1-mcp-server/src/tools/b1-schema-execute-handlers.ts:1323-1367 | at every location of any tree, over any type graph: the value of a typed path that ends in a personal field is replaced, nothing stays below it, every other location keeps its content |
| Redaction.PersonalIffChain | b1-mcp-server/src/tools/b1-schema-execute-handlers.ts:1323-1367 | a path is typed personal if and only if it spells a chain of properties, each of the type of the one before, to a personal one |
| Redaction.PersonalChainIsRedacted | b1-mcp-server/src/tools/b1-schema-execute-handlers.ts:1323-1367 | the value at the end of such a chain, with no personal property before it, is replaced and reported, however deep |
| Redaction.OthersKeep | b1-mcp-server/src/tools/b1-schema-execute-handlers.ts:1323-1367 | a value no such chain leads to or through keeps its content and is not reported |
| Redaction.NoPersonalValueLeft | b1-mcp-server/src/tools/b1-schema-execute-handlers.ts:1323-1367 | no typed personal path shows anything but the replacement |
| Redaction.RedactedTwice | b1-mcp-server/src/tools/b1-schema-execute-handlers.ts:1323-1367 | redacting again changes nothing |
| Redaction.ReportedTwice | b1-mcp-server/src/tools/b1-schema-execute-handlers.ts:1323-1367 | and reports the same paths |
| Redaction.RedactProperties | b1-mcp-server/src/tools/b1-schema-execute-handlers.ts:1329-1363 | the pass over the properties yields the redacted record and reports exactly the replaced paths |
| Redaction.RedactItems | b1-mcp-server/src/tools/b1-schema-execute-handlers.ts:1304-1321 | each record of a list is redacted and its paths reported under its index |
| Redaction.RedactResponse | b1-mcp-server/src/tools/b1-schema-execute-handlers.ts:1202-1223 | a whole response: exactly the replaced paths are reported, a response of another shape passes unchanged |
| Redaction.ResponseRedactsExactly | b1-mcp-server/src/tools/b1-schema-execute-handlers.ts:1202-1321 | of a whole response exactly the personal values of its records are replaced |
| Redaction.RedactSelectedProperties | b1-mcp-server/src/tools/b1-schema-execute-handlers.ts:1262-1302 | the loop over selected properties walks the complex ones the record has, whatever their own mark, and reports exactly the replaced paths |
| Redaction.RedactSelectedResponse | b1-mcp-server/src/tools/b1-schema-execute-handlers.ts:1225-1260 | the same for a whole response, single or list; with nothing selected, or data of another shape, nothing happens |
| TypeReferences.VisitedIff | b1-mcp-server/src/tools/b1-schema-execute-handlers.ts:171-214 | the walk visits exactly the chains of structural properties whose earlier types are pairwise distinct |
| TypeReferences.EachUseOnce | b1-mcp-server/src/tools/b1-schema-execute-handlers.ts:162-223 | the references are the uses of the target through pairwise distinct types, each once and under its own path |
| TypeReferences.AvailableIsReachable | b1-mcp-server/src/tools/b1-schema-execute-handlers.ts:162-223 | the available types are exactly those some chain reaches, loops included |
| TypeReferences.Walk | b1-mcp-server/src/tools/b1-schema-execute-handlers.ts:171-214 | the recursive walk ends on any type graph and pushes the references and types of the chains it visits, in order |
| TypeReferences.Resolve | b1-mcp-server/src/tools/b1-schema-execute-handlers.ts:162-223 | every use of the target once, with its path, parent and depth, and every reachable type |
| MetadataWalk.CollectTables | b1-mcp-server/src/services/b1-metadata-manager.ts:245-258 | ends on any type graph, visits only what its start reaches, completely, and collects every table on the way |
| MetadataWalk.CollectAll | b1-mcp-server/src/services/b1-metadata-manager.ts:239-265 | the collecting walk visits exactly the (type, table) pairs the entity reaches and collects their tables, every one and no other |
| MetadataWalk.VisitedIsReachable | b1-mcp-server/src/services/b1-metadata-manager.ts:239-303 | a walk from every root with a visited set visits exactly the reachable pairs |
| MetadataWalk.Manager.EnsurePersonalFields | b1-mcp-server/src/services/b1-metadata-manager.ts:188-224 | a table is fetched unless blank or known; its rows replace what was cached; a failure throws in production only |
| MetadataWalk.Manager.LoadAll | b1-mcp-server/src/services/b1-metadata-manager.ts:267-269 | after the loop every collected table is loaded, or could not be outside production; it throws only for one of them, in production |
| MetadataWalk.Manager.MarkType | b1-mcp-server/src/services/b1-metadata-manager.ts:278-292 | the marking walk visits the same way and marks every field of every pair it visits against that pair's table |
| MetadataWalk.Manager.MarkAll | b1-mcp-server/src/services/b1-metadata-manager.ts:294-302 | every field of the entity and of every reachable type is marked, nothing else is; each mark is right for a table its type is reached under, and for all of them if and only if those tables agree |
| MetadataWalk.Manager.ApplyPersonalFieldFlags | b1-mcp-server/src/services/b1-metadata-manager.ts:239-303 | the same after every table a field is matched against was asked for, so that each mark is what the service says of that table; it throws only where one of the entity's tables fails in production, and then nothing is marked |
| ODataFilter.ConditionParses | apps/server/src/entity-list.ts:22-61 | a condition's text reads back as exactly its field, operator and values, for any characters in them; it is refused exactly when it cannot be said |
| ODataFilter.FilterParses | apps/server/src/entity-list.ts:66-76 | the compiled filter, read with OData's precedence, is the conjunction of the conditions; refused exactly when one of them is |
| ODataFilter.ConjunctionAdmits | apps/server/src/entity-list.ts:63-76 | a row passes exactly when every condition lets it through |
| ODataFilter.CompileFilter | apps/server/src/entity-list.ts:66-76 | the loop computes that filter, stopping at the first condition it refuses |
| ODataFilter.AndFilterParses | packages/b1/src/query.ts:137-138 | any two texts that are filters by themselves are ANDed whole |
| ODataFilter.ReadQuotedEscaped | packages/b1/src/query.ts:140-140 | a value escaped between quotes reads back as that value |
| ODataFilter.FenceIntersects | apps/server/src/entity-read.ts:97-97 | a fence added after compilation admits exactly the rows both admit |
| ODataFilter.SearchNarrows | apps/server/src/entity-list.ts:109-120 | a search keeps exactly the rows that match in one of the columns, within the filter |
| ODataFilter.JoinParses | apps/server/src/entity-list.ts:177-193 | a crossjoin's own equality is ANDed to the whole filter |
| ListMeaning.FilterMeans | apps/server/src/entity-list.ts:22-76 | the text, read by OData's rules, admits exactly the rows that meet every condition, comparison by comparison; there is none if and only if a condition names no field or makes no sense for it |
| ListMeaning.DateFits | apps/server/src/entity-list.ts:19-19 | a date value is let through if and only if it is a day, or a day with a time to the minute, second or fraction, with or without a zone |
| Lookups.BoundAnswers | apps/server/src/lookups.ts:241-372 | a table looked up by one column answers, once bound, as the whole table for every value on the page or asked for, knows no other, and keeps the page as its start |
| Lookups.StoredValueFoundIff | apps/server/src/masterdata-sync.ts:121-125 | a stored value beyond the page is found, and in the right row, exactly when some wanted value prints as the database prints it |
| Lookups.NothingMissing | apps/server/src/lookups.ts:343-352 | nothing missing, nothing changed |
| Lookups.WholeTableStays | apps/server/src/lookups.ts:292-317 | a table that fits the page is whole and is never extended |
| Lookups.BoundAnswersIff | apps/server/src/lookups.ts:279-372 | looked up by any number of columns, a bound table answers as the whole one if and only if the value is on the page, or nowhere, or the first read for the table to fetch a row with it fetches first one that shows the whole table's first |
| Lookups.OwnReadAnswers | apps/server/src/lookups.ts:241-372 | so a value asked for in its own column is answered rightly unless an earlier read by another column fetched a row with it |
| Lookups.TwoKeyColumnsMayDiffer | apps/server/src/lookups.ts:343-366 | a table looked up by two columns that answers with another row than the whole one |
| Lookups.OffPageNeeds | apps/server/src/lookups.ts:241-276 | the needs, one for each table and column |
| Lookups.NeedsAreWanted | apps/server/src/lookups.ts:241-276 | they hold exactly the values the configuration names that are not on the page |
| Lookups.BindEntryValues | apps/server/src/lookups.ts:343-372 | the loop binds every need in turn and says whether anything changed |
| PrintChild.AnswersAreOwn | apps/agent/crystal.go:69-152 | across any run each answer was written for that very print, between prints the pipes are empty, and at most the child at hand is alive |
| PrintChild.PrintedIff | apps/agent/crystal.go:134-147 | a print succeeds exactly when the child wrote a PDF for it or an error without a message |
| PrintChild.RefusedIff | apps/agent/crystal.go:134-147 | a print answers an error with words, as 400, exactly when the child wrote those words for it |
| PrintChild.FailsIff | apps/agent/crystal.go:113-152 | a print fails without words exactly on the clock (504), or on a child that cannot be started or written to, died or wrote no JSON (502); no child is alive then, and the next print that starts one has it to itself |
| PrintChild.WordlessFailurePrints | apps/agent/crystal.go:134-147 | a child that reports an error without a message has printed an empty PDF for its caller |
| PrintChild.WarmedPrintStartsNone | apps/agent/crystal.go:154-167 | a warm-up between prints starts the child the next print then need not start; closing leaves none alive |
| PrintChild.NextPrintAnsweredIff | apps/agent/crystal.go:69-152 | the next print is answered by a working child if and only if the agent does not hold a dead one it has not noticed; if it does, the print after that can be |
| PrintChild.CrystalChild.StartChild | apps/agent/crystal.go:69-101 | keeps a child not known to have exited, else starts one |
| PrintChild.CrystalChild.StopChild | apps/agent/crystal.go:103-111 | kills the child and waits for it |
| PrintChild.CrystalChild.Render | apps/agent/crystal.go:113-152 | whatever the world does meanwhile, the answer is the child's reply to this very print or an error, and the pipes are empty after |
| PrintChild.WholePrintIsARun | apps/agent/crystal.go:113-152 | a whole print is a run of the machine, so what holds over runs holds over prints |

## Left out

- HTTP, oRPC and React layers, the wizard, mail, logging, and the libraries under them: input and output.
- The configuration engine (enumeration, pricing, propagation): functions the model takes as parameters.
- The hash of the command id is taken as injective; the database as atomic steps; millisecond stamps as unique.
- `Do`'s loop around HTTP is unfolded into the program counters of a caller; a request body, headers and Basic
  authentication beyond its not retrying are not modelled.
- QuoteProtocol.QuoteNamesItsDocument: one attempt at a time, because check-then-create is not atomic. The
  quotation's lines and header are not modelled, nor the reads of items and currency before the first decision;
  each of those can only end an attempt. SAP's users are taken not to write the command id's field.
- Other projects of a tenant: their documents are documents without this project's ids.
- Numbers in canonical JSON are their printed text and object keys are ordered by character.
- The margin is part of what a project is priced by but not of the revised diff, as in the code.
- `buildCopy`, `onItems`, `swapLine` and `appendRows` fill fresh records and lists; they are functions on values here,
  as are `readQuotation` and the SAP calls of `createQuote`, whose steps are those of the transition system.
- DocCopy.PredictionHolds: items are compared as SAP matches them, without regard to case; the spelling is SAP's own.
- The order POST of a copy has no key of its own, so nothing is said about retries after it. SAP is taken to change
  only the fields of `KEEP_ON_SWAP` when a line's item changes, as the source assumes. The content of a duplicated
  item is not modelled, nor the quotation's ETag: nobody else edits the quotations meanwhile.
- The payload's header fields of a copy: the partner check is modelled, dates and comments are not.
- Reported paths are sequences of names and indices, not their joined text; a property named like a member every
  JavaScript object inherits is not treated apart.
- OData's `not`, arithmetic and lambda operators are not in the parser: no text compiled here uses them.
- `$apply`, `$select`, `$orderby` and paging of a list query, and the SQL side of the same query.
- Options, labels and prices re-projected after binding: they are functions of the tables.
- A sync that lands between a recalculation's reads and its write goes unseen; only the inputs half of staleness is
  claimed. A pick is priced, and a quotation checked, on the row and masterdata as they are at one moment, where the
  program reads the masterdata just after the row.
- A project's quotation in SAP is QuoteProtocol's; the project row has the checks before it and the transition after.
  Edits, recalculations and checks in flight can be finished more than once, so runs here include more than the code's.
- ProjectProgress.QuotationCanComeIff: what was in flight before is left unfinished, and a handler may stop after any
  step; a view's refresh is a step of its own, except in a submit, whose own read writes a due calculation first.
- The masterdata sync walk, the agent's URL allowlist, tunnel provisioning, payment allocation and similarity scoring.
