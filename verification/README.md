# The Bases engine

A Dafny model of the Bases engine under `src/bases`, with proofs of what its parts
promise each other. A Base is a saved query over notes: filters, formulas, groups and
views. The model has four parts.

**Formula language.** `Lexing`, `Parsing`, `ParserState` model the hand-written lexer
and the Pratt parser, as functions and as the classes that move along the text.
`Evaluation` is one step of the evaluator at a node, shared by two ways to evaluate:
naive unfolding of formulas, and the evaluator with its cache, its pending set, its
budget and its depth limit (`Formulas`, `FormulaMemo`, `FormulaContext`). `Printing`,
`LexPrinted`, `ParseRules`, `ParsePrinted`, `RoundTrip`, `RoundTripExact` show which trees
the parser reads back from the printer of the formula rename; `RenameMeaning`,
`RenameText` show that the rename keeps the meaning of every stored expression. `FilterLiterals` and `FilterConditions` do the
round trip of visual filter conditions.

**Filters and queries.** `Filters`, `FilterMeaning`, `FilterExact`, `FilterParsing`: the
filter optimizer, and exactly when it keeps the verdict and the order of evaluation.
`CreationDefaults`, `CreationHints`, `CreationSound`, `CreationQuery`: inferred properties
of a new note pass the filter that the query tests, and exactly when they do of two
combined filters; `CreationMistakes`, `CreationCalls`: exactly which bare names and text
calls they satisfy. `Grouping`: rows and counts are conserved.

**State and protocols.** `HeightIndex` (the Fenwick index), `SharedQuery` (who owns a
document pin), `MutationHost` (custody of conditional saves), `RefreshLoop` (epochs and
lost requests), `Kanban` (optimistic moves). Undo and redo with partial failure:
`PropertyStates` and `CommandHistory` are the states of properties and the timeline of
commands, `HistoryReplay`, `HistoryCommands` and `HistoryDrafts` one attempt of an undo or
redo and what may follow one that is half saved, `HistoryWrites` the first save of an edit,
which may fail in the draft and wait for its retry, and `HistoryMirrors` an attempt beside
such edits. `HistorySessions` puts them together: the calls of the controller over whole
sessions, `HistoryExamples` literal sessions, and `HistoryController` the class whose
methods take the calls.

**Text codecs.** `TableText` (quoted tab-separated text, whose quoting is that of
section 2 of RFC 4180) and `InlineBase` (a fenced block inside quotes and lists, whose
quote marks are those of section 5.1 of CommonMark 0.31).

`Platforms` gathers what the engine takes from its JavaScript host, numbers, case
folding, character classes, dates and built-in functions, as parameters; laws that a
proof needs of them are named there or beside the proof. Where the source throws, the
model returns a value that says so. Where the source awaits, the protocol models take a
step, and every interleaving of steps is covered.

Several properties hold only under a condition. It is stated as an "if and only if"
(`FilterExact.OptimizeExact`, `RenameMeaning.LookupAfterRename`,
`RenameMeaning.CalleeIsRenamed`, `TableText.RoundTripExactly`,
`RoundTripExact.ComesBackExactly`, `RenameText.RenamedTextExact`,
`InlineBase.SaveReadsExactly`, `CreationMistakes.NegatedNameExact`,
`CreationMistakes.BareNameExact`, `CreationCalls.TextCallExact`,
`CreationQuery.CombinedExactly`, `HistorySessions.FollowsExactly`,
`RefreshLoop.LocalPathSlips`, `Kanban.OrderedWhateverMoves`), and lemmas show inputs on
which the property fails (`FilterExact.UnfaithfulExamples`, `RenameMeaning.BuiltinIsRenamed`,
`RoundTrip.DigitsDotSlips`, `InlineBase.BareQuoteLosesBlank`,
`CreationMistakes.NamespacesAreMistaken`, `CreationMistakes.UnanchoredSlips`,
`HistoryExamples.UndoThenEdit`, `HistoryExamples.UndoBesideDraft`,
`Kanban.RefusedStaysBehind`, `SharedQuery.LateAnswer`, whose premises
`SharedQuery.OneQueryComputes` meets with a run).

Findings about the source, as the model sees it:

- The optimizer turns `not[not[a, b]]` into `and[a, b]`, and drops an empty `or`.
- A method call on `formula.name` is renamed as if it were a reference: with a formula
  named `isTruthy`, `formula.isTruthy()` stops asking for the built-in.
- A rename writes `(5).foo` as `5.foo`, which does not parse.
- A query that is superseded while its own pin closes still returns its result.
- Without a document service a turn that waits between its last comparison of epochs and
  the publication, for its verification to return or for the pinned current note, can show
  a result of an earlier epoch.
- `!note`, like `!File` or `!This`, is inferred as a property but evaluated as a namespace:
  names are compared exactly when inferred, and up to case when evaluated. A bare `This`
  slips in the same way.
- `name.contains("")` infers the empty text without a warning, and is false of it; any
  other text, and any text of `startsWith` and `endsWith`, is satisfied.
- When no branch of an `or` gives a hint, the first is chosen, and one that holds no leaf
  infers nothing; when two filters are combined the optimizer drops the branch, and the new
  note need not pass.
- After an undo whose save failed and left a draft, an edit of any note, or a redo that
  applies anything, is recorded against notes that do not follow the history.
- An edit whose first save failed waits for the same edit to be made again. A rename of the
  note, or an undo or redo that renames it, changes what makes it the same: from then on
  every edit of that note is refused.
- An undo that changes a note beside such an edit can take away what the draft showed of
  it; its retry then remembers the drafted values as what was there before.
- A saved line that starts with a blank loses it when the prefix ends in a bare `>`.
- When a new Kanban result is refused, the row order is already that of the new result
  while the columns are still the old ones.

## Model

| member | source | states |
|---|---|---|
| Platforms.OwnKey | src/bases/expression.ts:82-86 | a key is found exactly when some key is the same up to case; an exact match wins, and else the first such key |
| Lexing.Lexer.NextToken | src/bases/expression.ts:218-249 | the moving lexer reads the first token of the text that is left and stops right after it |
| Lexing.Lexer.StringLiteral | src/bases/expression.ts:222-240 | the loop over escapes reads exactly the specified string value, or throws when there is none |
| ParserState.Parser.ParseExpression | src/bases/expression.ts:275-312 | the parser's current token, lexer position and depth follow the functional grammar, with the depth restored |
| ParserState.Parser.ParseSuffix | src/bases/expression.ts:294-309 | one turn of the postfix and binary loop is one rule of the grammar |
| ParserState.ParseSource | src/bases/expression.ts:271-317 | the stateful parser accepts and builds what the grammar on tokens does |
| FormulaContext.Context.EvaluateTree | src/bases/expression.ts:495-560 | the in-place evaluator has the outcome, budget, cache and pending set of the specification, and restores its depth |
| FormulaContext.Context.GetFormula | src/bases/expression.ts:367-385 | the formula namespace looks up, detects cycles and caches as specified |
| FormulaContext.Context.Answer | src/bases/expression.ts:562-566 | after an answer nothing is pending and every cached outcome is still explained by naive unfolding |
| FormulaMemo.CachedRefinesNaive | src/bases/expression.ts:362-401 | after any earlier requests, a request whose naive unfolding fits the budget has the very same outcome from the cached evaluator, with no less budget left |
| FormulaMemo.CachedIsNaive | src/bases/expression.ts:495-565 | every value or failure of the cached evaluator is the naive one for some limits, and a reported cycle exhausts every limit when unfolded |
| FormulaMemo.ExitsAreClean | src/bases/expression.ts:371-382 | every exit leaves the pending set empty and no budget failure in the cache |
| RenameMeaning.LookupAfterRename | src/bases/document.ts:592-593 | the renamed formulas answer each name as before exactly when the new name does not capture it |
| RenameMeaning.RenamePreservesMeaning | src/bases/document.ts:585-622 | rewritten requests, after rewritten earlier requests, get the same outcome, budget and cache under the renamed formulas, on every host that hands out the formula namespace only under names that the document does not read |
| RenameMeaning.PropertyIdRenamed | src/bases/document.ts:605-606 | a renamed property ID reads what it read before |
| RenameMeaning.CalleeIsRenamed | src/bases/document.ts:108-118 | an argument-free `formula.name()` keeps its outcome, with any caches, exactly when the name is not the renamed formula's, or both methods give the same, or, for a new name that is no identifier, the call was unsupported already |
| RenameMeaning.BuiltinIsRenamed | src/bases/document.ts:108-113 | renaming a formula named `isTruthy` turns the call of the built-in into an unknown or unsupported one |
| RenameText.RenamedTextExact | src/bases/document.ts:91-124 | a stored text that the rename rewrites parses to the rewritten tree exactly when no `.name` follows a number printed as digits and its parentheses are within the nesting limit; one that it keeps always does |
| RenameText.UnmentionedKept | src/bases/document.ts:120-124 | text that does not mention the namespace refers to no formula |
| RenameText.RenameFormulaKeepsExpressions | src/bases/document.ts:585-615 | every stored expression of the renamed document evaluates as it did |
| RenameText.RenameFormulaKeepsIds | src/bases/document.ts:605-619 | every stored property ID of the renamed document reads what it read |
| LexPrinted.LexRender | src/bases/document.ts:93-118 | printed text lexes to the tokens of the tree, whatever follows it |
| ParsePrinted.ParseToks | src/bases/expression.ts:275-312 | the tokens of a tree parse to the tree and leave what follows |
| RoundTrip.ParsedIsWellFormed | src/bases/expression.ts:271-317 | everything the parser produces is in the domain of the printer |
| RoundTrip.PrintedParses | src/bases/document.ts:93-118 | printing and parsing gives back the tree when its parentheses are within the nesting limit, and a parse error when they are not |
| RoundTripExact.ComesBackExactly | src/bases/document.ts:93-118 | a tree of finite numbers, however nested, comes back from its printed text exactly when no `.name` follows a number printed as digits and its parentheses are within the nesting limit |
| RoundTrip.DigitsDotSlips | src/bases/document.ts:114-115 | `.name` after a number printed as digits never parses to the tree again: it is an error, or one number when the name reads as an exponent |
| Filters.OptimizeFilter | src/bases/query.ts:144-157 | the push loop computes the specified optimizer and terminates although it recurses on its own result |
| Filters.OptimizedIsNormal | src/bases/query.ts:144-157 | no empty group, no group inside the same group, no lone child of and/or, no negation of a lone negation |
| Filters.OptimizeTwice | src/bases/query.ts:144-157 | optimizing twice is optimizing once |
| FilterExact.OptimizeExact | src/bases/query.ts:144-174 | the optimized filter asks the same leaves in the same order with the same verdict exactly when the filter is faithful, a condition on its shape |
| FilterExact.FaithfulRuns | src/bases/query.ts:164-174 | a faithful filter has the same outcome (true, false or thrown) and the same effects for every evaluator |
| FilterExact.UnfaithfulDiffers | src/bases/query.ts:144-174 | any other filter is told apart from its optimized form by some evaluator |
| FilterExact.UnfaithfulExamples | src/bases/query.ts:153-155 | the two shapes that the optimizer does not keep |
| FilterMeaning.CollapsesExactly | src/bases/query.ts:153-155 | the branch for double negations collapses several filters exactly when one child of the negation holds leaves and, but for empty and lone groups, denies several |
| FilterMeaning.LeavesKept | src/bases/query.ts:144-157 | the optimizer neither loses nor adds a leaf |
| FilterParsing.ParsesWhenShaped | src/bases/query.ts:134-143 | a stored filter is accepted exactly when it is well shaped and within depth 256, and is read as what it stands for |
| FilterParsing.EffectiveFilterTests | src/bases/query.ts:158-163 | the combined filter raises exactly for unreadable input, and else tests both filters in turn |
| FilterParsing.UncombinedDiffers | src/bases/query.ts:158-163 | where the combination is not faithful some evaluator tells it from the two filters in turn |
| FilterLiterals.EncodeLiteral | src/bases/toolbar-config.ts:171-188 | the encoder with its running budget succeeds exactly for finite literals within depth 64 and 10000 nodes, and spells them |
| FilterLiterals.DecodeEncoded | src/bases/toolbar-config.ts:255-267 | what the encoder's limits admit, the decoder's limits admit, node for node |
| FilterConditions.PlanParses | src/bases/toolbar-config.ts:217-235 | the text of every condition that serializes parses to the tree it was meant as |
| FilterConditions.SerializedDecodes | src/bases/toolbar-config.ts:247-295 | every condition that serializes decodes to one that serializes to the identical text, but for a check of the file itself, which does not decode |
| CreationHints.HintsObject.Put | src/bases/creation.ts:74-89 | the first value of a property stands; a conflict warns |
| CreationHints.HintsObject.Pick | src/bases/creation.ts:96-103 | the loop over branches merges the first useful one, or the first |
| CreationHints.HintsObject.Read | src/bases/creation.ts:119-144 | the object filled in place agrees with the specified inference |
| CreationDefaults.AlternativesExtend | src/bases/creation.ts:90-103 | merging keeps every earlier assignment and, without a warning, includes the chosen branch |
| CreationSound.CoveredGives | src/bases/expression.ts:495-525 | a covered filter expression evaluates, without throwing, to its value on the note, when comparisons of saved values and literals do not throw |
| CreationSound.InferredHolds | src/bases/creation.ts:104-144 | without a warning, every note with the inferred properties satisfies the expression |
| CreationSound.FilterSound | src/bases/creation.ts:145-158 | the same for and/or groups of expressions |
| CreationSound.DefaultsPassBoth | src/bases/creation.ts:145-169 | without a warning the row of a note with the inferred properties passes the Base's filter and the view's, each as written and each optional |
| CreationQuery.DefaultsPassFilters | src/bases/query.ts:158-163 | the same of the filter that the query tests: a lone filter as written, or both combined and optimized, when each `or` that holds a leaf has one in its first branch or a branch that gives a hint |
| CreationQuery.CombinedExactly | src/bases/query.ts:144-163 | of two combined filters the row passes exactly when each `or` that inference meets has a leaf in the branch it chose, or holds by another of its leaves |
| CreationQuery.UnanchoredFails | src/bases/creation.ts:96-103 | an `or` with a leafless first branch and no branch that gives a hint is given nothing: when none of its leaves holds, the row fails the combined filter |
| CreationSound.NewNoteCarries | src/bases/creation.ts:159-169 | a note made of exactly the inferred properties is such a note |
| CreationMistakes.ComparesIsMet | src/bases/expression.ts:462-482 | what soundness asks of comparisons is met by a host whose comparisons throw for a namespace |
| CreationMistakes.NegatedNameExact | src/bases/creation.ts:53-60 | the inferred default satisfies `!name` on every row exactly when the name, without regard to case, is not note, file, this or formula |
| CreationMistakes.BareNameExact | src/bases/creation.ts:125-128 | the inferred default satisfies a bare name on every row exactly when it is no spelling of `this` |
| CreationMistakes.NamespacesAreMistaken | src/bases/creation.ts:54-54 | `!note` and `!File` give no warning and fail on every row with the inferred default |
| CreationCalls.TextCallExact | src/bases/creation.ts:139-141 | the text inferred from `name.contains(t)`, `startsWith` or `endsWith` gives no warning, and satisfies the call on every row exactly when it is not `contains` of the empty text |
| CreationCalls.TextLawsMet | src/bases/expression.ts:632-637 | what that asks of the three text methods is met by a host that answers as the source does |
| CreationMistakes.UnanchoredSlips | src/bases/query.ts:144-163 | an `or` of an empty `and` and a reserved name gives no warning, and the note fails the combined filter |
| Grouping.GroupRows | src/bases/query.ts:456-460 | every row is in exactly one group, the first whose key equals its own; rows keep their order, and a group has the key of its first row |
| Grouping.SortedGroupsPartition | src/bases/query.ts:461-467 | sorting the groups by any comparison keeps the partition |
| Grouping.GroupByOrder | src/bases/query.ts:452-455 | groups in a stored order hold exactly the rows of their slot, and no empty group is left |
| Grouping.CountOptions | src/bases/query.ts:359-373 | listed counts are the sizes of their slots and sum to the rows kept; the unlisted options are the groups that the other rows make, key by key, with their sizes; all counts sum to the matched rows |
| HeightIndex.Index.Reset | src/bases/presentation-common.ts:236-243 | the linear build makes every node the sum of its range |
| HeightIndex.Index.Sum | src/bases/presentation-common.ts:244-244 | the exact sum of the first heights |
| HeightIndex.Index.Set | src/bases/presentation-common.ts:245-250 | one height changes, or nothing when it changes by less than 0.5; positive heights stay positive |
| HeightIndex.Index.Find | src/bases/presentation-common.ts:251-259 | the last unit that starts at or before the offset, clamped |
| HeightIndex.Index.VisibleRange | src/bases/presentation-common.ts:286-290 | the mounted range is exactly the units that meet the widened viewport |
| HeightIndex.ChildrenComplete | src/bases/presentation-common.ts:238-242 | the children that pass their sums on cover the range of a node without a gap |
| SharedQuery.PinsAreRespected | src/bases/shared-query.ts:139-155 | over all interleavings no pin is read after its close begins, closed while in use or closed twice at once, and an open pin belongs to exactly one owned run |
| SharedQuery.OneActiveRun | src/bases/shared-query.ts:156-163 | at most one run is active, the one started last, and it is owned |
| SharedQuery.QuietLeavesOnlyRefusedPins | src/bases/shared-query.ts:149-155 | when all is quiet, the only pins left are those whose close was refused, and their runs are still owned |
| SharedQuery.QueryClosesOthers | src/bases/shared-query.ts:165-165 | a new query waits for the close of every other owned run that is not opening or reading |
| SharedQuery.ResultsAreTimely | src/bases/shared-query.ts:162-163 | a result is computed only by the newest run with no cancellation since its start |
| SharedQuery.LateAnswer | src/bases/shared-query.ts:287-288 | a run superseded while its own pin closes still answers |
| SharedQuery.OneQueryComputes | src/bases/shared-query.ts:156-165 | one query that meets no trouble reaches the state that `LateAnswer` starts from |
| SharedQuery.Runner.Query | src/bases/shared-query.ts:158-165 | the runner's fields take the step of the protocol for a new query |
| SharedQuery.Runner.CloseRun | src/bases/shared-query.ts:139-148 | closing takes the step of the protocol |
| SharedQuery.Runner.Finish | src/bases/shared-query.ts:288-288 | the `finally` of a query takes the step of the protocol |
| PropertyStates.StatesAgain | src/bases/controller.ts:259-268 | reading the remembered targets finds the remembered side exactly when the note shows it |
| PropertyStates.RestoreShows | src/bases/controller.ts:938-943 | the restoring loop makes the note show the desired side and changes no other property |
| PropertyStates.ReversedWhenExpected | src/bases/controller.ts:935-937 | a note is reversed exactly when it shows the expected side, or already the desired one in an exact retry |
| PropertyStates.ReversedKeeps | src/bases/controller.ts:933-946 | the touched properties become the desired ones; the others keep values and order |
| PropertyStates.EditUndoRedo | src/bases/controller.ts:788-803 | undo after an edit gives back every property, and redo gives back the edit |
| CommandHistory.ReverseBack | src/bases/controller.ts:928-970 | reversing an entry and reversing it back is no change |
| CommandHistory.UndoneBackwards | src/bases/controller.ts:899-899 | a run of entries is undone by undoing them in the opposite order |
| CommandHistory.TimelineFixed | src/bases/controller.ts:911-918 | undo and redo of any part of a command keep one timeline and move the present along it |
| HistoryReplay.TryTracks | src/bases/controller.ts:920-973 | one reversal, failing or not, leaves the world before or after it, or half way in a draft |
| HistoryReplay.HistoryFollows | src/bases/controller.ts:891-982 | after an undo or redo with any failures the stacks still tell how the vault came to be, applied entries being a prefix of the order of attempt |
| HistoryReplay.RecordFollows | src/bases/controller.ts:740-744 | recording a command, and dropping the oldest of more than 100, keeps that |
| HistoryReplay.UndoThenRedo | src/bases/controller.ts:888-889 | with no failures redo after undo gives back the stacks and the vault |
| HistoryCommands.FilterPublishes | src/bases/controller.ts:911-918 | filtering the applied entries out of the command cuts off the end that they form |
| HistoryWrites.WriteAllSettles | src/bases/controller.ts:768-823 | whatever saves fail, the entries recorded carry the notes, less the edits that wait in drafts, from before the call to after it, and what waits is still told by the notes |
| HistoryMirrors.AttemptMirrors | src/bases/controller.ts:920-982 | an attempt beside drafted edits is an attempt without them, with those entries refused that the notes refuse |
| HistoryMirrors.AttemptTruthful | src/bases/controller.ts:920-982 | after an attempt the notes still tell which edits are drafted exactly when no entry written makes a note show, or stop showing, one that waits |
| HistorySessions.ValidStays | src/bases/controller.ts:740-982 | every call, whatever fails, keeps the entries well formed, one per file in a command, and no entry object shared between the stacks and what waits |
| HistorySessions.FollowsExactly | src/bases/controller.ts:740-982 | any edit, rename, undo or redo, with any failure, keeps notes, stacks and waiting edits in step exactly when it is careful: it records nothing while a reversal is drafted, and a reversal retries the drafted one or does nothing, and leaves waiting edits as drafted as they are |
| HistorySessions.EveryRunFollows | src/bases/controller.ts:740-982 | over every run of careful calls with any failures, first saves that fail in the draft among them, notes, stacks and waiting edits stay in step |
| HistorySessions.DraftWaits | src/bases/controller.ts:788-806 | a first save that fails in the draft records nothing, and the edit waits with what the note was before it |
| HistorySessions.RetryRecords | src/bases/controller.ts:788-820 | the retry of such an edit records exactly one entry, from the original baseline, and changes no note; when no other edit waits in a draft, notes and stacks say the same again |
| HistorySessions.OthersBlocked | src/bases/controller.ts:782-784 | while an edit of a note waits another edit of it is refused and changes nothing |
| HistorySessions.RenameStrands | src/bases/controller.ts:771-784 | once a note is renamed while an edit waits for it, no run of calls records an edit of it again |
| HistoryExamples.UndoThenEdit | src/bases/controller.ts:946-982 | two notes, an undo whose save fails and an edit of the other note: the notes no longer follow the stacks |
| HistoryExamples.UndoBesideDraft | src/bases/controller.ts:788-803 | an edit, a second one that fails in the draft, and an undo of the first: the note does not tell any more what waits |
| HistoryExamples.BaselineLost | src/bases/controller.ts:799-803 | what a retry records when the note does not show the waiting edit starts from what the note shows now |
| HistoryController.Commands.RecordHistory | src/bases/controller.ts:740-744 | the stacks become those of the specification |
| HistoryController.Commands.WriteProperties | src/bases/controller.ts:750-830 | the groups saved in turn are the step of the session for edits, up to the group that fails |
| HistoryController.Commands.WriteGroup | src/bases/controller.ts:770-823 | one group is the specified write: refused while another edit waits, a retry that finds what it wrote keeping its entry |
| HistoryController.Commands.RenameFile | src/bases/controller.ts:847-874 | the call is the step of the session for a rename; one that committed and then failed is recorded |
| HistoryController.Commands.ApplyHistory | src/bases/controller.ts:891-982 | the call is the step of the session for an undo or redo; a missing target stops it before it starts |
| HistoryDrafts.EditAfterDraft | src/bases/controller.ts:740-744 | once a draft differs, an edit or rename keeps the stacks in step exactly when it records nothing |
| HistoryDrafts.OtherAfterDraft | src/bases/controller.ts:920-973 | once a draft differs, a reversal in the other direction keeps them in step exactly when it applies nothing and changes no draft |
| MutationHost.OneUnsettledCapture | src/bases/controller.ts:54-55 | a buffer has at most one unsettled capture, and exactly one attempt holds it |
| MutationHost.ForgetSound | src/bases/controller.ts:110-113 | forgetting an attempt keeps the two maps inverse and loses no unsettled capture |
| MutationHost.AttachSound | src/bases/controller.ts:142-144 | attaching a capture to the write keeps custody |
| MutationHost.Host.Transform | src/bases/controller.ts:57-169 | custody holds after every command; the one update is the command's transform of the buffer's text; while another attempt is unsettled the command fails and touches nothing |
| MutationHost.Host.UpdateBuffer | src/bases/controller.ts:142-144 | the buffer gets the text, the update records which attempt holds the capture by the ledger, and that is none or the command's own; the first desired text is kept |
| MutationHost.Host.CleanUp | src/bases/controller.ts:159-165 | a failed command releases an unattached capture and forgets its attempt, or, when the release fails, keeps it retained and reports the failure |
| RefreshLoop.NoRequestLost | src/bases/controller.ts:564-576 | after every call of refresh a turn begins, unless suspended or disposed, and never do two loops run |
| RefreshLoop.LateCallIsMet | src/bases/controller.ts:567-574 | a call during the last wait is met by the turn the loop begins next |
| RefreshLoop.ShownInEpoch | src/bases/controller.ts:521-553 | a settled result is shown only in the epoch it was computed in, unless it was computed without a service and after a wait that no comparison followed; versions never fall |
| RefreshLoop.LocalPathSlips | src/bases/controller.ts:492-553 | without a service an older epoch can be shown exactly on turns that wait between the last comparison and the publication: for the verification to return or for the current note |
| RefreshLoop.Refresher.EndTurn | src/bases/controller.ts:567-574 | the loop's condition and the release of the flag are one step |
| RefreshLoop.Refresher.Refresh | src/bases/controller.ts:440-444 | a call marks the request and starts a loop only when none runs |
| Kanban.Board.DisplayedRows | src/bases/kanban-view.ts:155-167 | a column shows exactly the cards that belong there, pending moves made, once each, and in row order when the board is ordered |
| Kanban.EveryCardOnce | src/bases/kanban-view.ts:155-167 | with any moves pending, the columns together show every card once |
| Kanban.Board.AllDisplayed | src/bases/kanban-view.ts:513-513 | the cards of the board are a permutation of the rows of its groups |
| Kanban.MergeColumns | src/bases/kanban-view.ts:471-492 | the merge succeeds exactly when the query groups come in the stored order; every listed key has one column, at its last place, and the query groups stay as they are |
| Kanban.MergeKeepsRows | src/bases/kanban-view.ts:471-492 | a merge loses and adds no row |
| Kanban.Board.Move | src/bases/kanban-view.ts:175-183 | a move starts under the stated conditions, shows its card in the destination at once and moves no other |
| Kanban.Board.Fail | src/bases/kanban-view.ts:189-194 | only that very move is taken back, and its card returns home |
| Kanban.Board.Finish | src/bases/kanban-view.ts:186-188 | success is reported only for a card shown in the destination, or moved again since |
| Kanban.Board.Update | src/bases/kanban-view.ts:464-502 | a new result replaces the columns and prunes the moves that no longer stand; a refused one changes only property and row order; the columns are drawn in order, whatever is pending, exactly when it was merged or the old columns follow the new order |
| Kanban.OrderedWhateverMoves | src/bases/kanban-view.ts:155-167 | every column is drawn in order, for all pending moves, exactly when the columns follow the order and no two cards share a place |
| Kanban.RefusedStaysBehind | src/bases/kanban-view.ts:466-491 | a board and a refused result after which a column is drawn against the new order |
| Kanban.DropAt | src/bases/kanban-view.ts:222-224 | the preview of a dragged column is a permutation with the column at its target |
| TableText.ParseTable | src/bases/table-clipboard.ts:2-24 | the character loop computes the specified reading, with its errors and limits |
| TableText.WrittenReads | src/bases/export.ts:22-24 | what parsing the exported text of any rectangular table gives |
| TableText.RoundTripExactly | src/bases/export.ts:22-24 | within the limits the table comes back exactly unless it is one column of several rows ending in an empty cell |
| InlineBase.InlineBaseRequest | src/bases/inline-base.ts:19-52 | the loops find and read the specified occurrence |
| InlineBase.PrefixIsPieces | src/bases/inline-base.ts:25-25 | reading a prefix from the left accepts exactly the sequences of quote marks, list markers and blanks |
| InlineBase.ContinuationPlain | src/bases/inline-base.ts:26-26 | the lines after the first begin with blanks and quote marks only |
| InlineBase.WrittenLineReads | src/bases/inline-base.ts:36-46 | a written line is read back whole, but for a blank after a bare quote mark |
| InlineBase.SaveReads | src/bases/inline-base.ts:58-78 | a save changes the content alone, and the occurrence at its shifted end has the written lines |
| InlineBase.SaveReadsExactly | src/bases/inline-base.ts:58-78 | the source read back is the normalised source with a final break exactly when every line is clean |
| InlineBase.BareQuoteLosesBlank | src/bases/inline-base.ts:38-40 | a note that quotes a Base with bare quote marks: the source ` a` is saved and read back without its blank |
| InlineBase.OriginalOffset | src/bases/inline-base.ts:81-88 | the returned position splits the text where the normalised text splits at the offset |

## Left out

- Regular expression literals: `/` where an operand is expected is a parse failure here.
- Surrogate code units: text is a sequence of characters, and a `\u` escape of a surrogate is a lexical error; the size limit of pasted tables counts characters, the source counts UTF-16 units.
- Numbers, dates, durations, display text, comparison and built-in functions are parameters of a platform; they are pure and the clock is fixed.
- Error messages and offsets; failures keep their kind.
- `BaseDocument` is the list of its formulas, stored expressions and property IDs. The YAML library, source-preserving edits and views that have a source of their own are not part of this model.
- ParserState.Parser.ParseExpression: does not model regular expression literals, as above.
- ParserState.ParseSource: does not model regular expression literals, as above.
- Lexing.Lexer.StringLiteral: does not model surrogate escapes, as above.
- The budget counter stops at 0 where the source goes on to -1; no outcome depends on it.
- HeightIndex.Index.Find: does not model the rounding of IEEE sums; heights are exact real numbers.
- FilterLiterals.EncodeLiteral: does not model cyclic, sparse or accessor arrays.
- FilterConditions.SerializedDecodes: does not model cyclic, sparse or accessor arrays, nor `JSON.parse` of legacy list text, which is a parameter.
- CreationQuery.DefaultsPassFilters: covers and/or groups, `&&`, `||`, comparisons with literals, bare properties and `!property`; calls are inferred in the model but their truth is not proved, and the evaluation must have room in depth and steps.
- CreationSound.CoveredGives: the note's values are null, booleans, numbers, text, lists and objects, and comparisons of those and of literals are asked not to throw; a note whose text is read as a date is outside the theorem.
- Creation paths, templates and the loop that finds a free name.
- Search, sorting of rows, limits and result values of a query.
- Grouping.GroupRows: does not assume that the loose equality of keys is transitive, so rows of a group are only equal to its key.
- SharedQuery.PinsAreRespected: does not model the disabled preview branch; the wait for maintenance is one wait whose outcome is arbitrary.
- HistoryReplay.HistoryFollows: entries name a durable file identity, so retargeting of paths and identities and folder renames are not modelled; equality of remembered states is structural, not of JSON text.
- HistoryController.Commands.WriteProperties: the guards on rows, version, selection and configuration, and the check of the saved source against the draft, are a trial that refuses the group; `historyBusy` and the calls to `refresh` are left out.
- HistoryController.Commands.RenameFile: a rename is of one note; folders and notes that exchange paths are left out.
- HistorySessions.FollowsExactly: assumes that no reversal waits to be retried where a reversal drafted in the other direction, or an edit drafted on the same note, could hide it; one that does can bring notes and stacks back in step by coincidence.
- HistorySessions.RetryRecords: is about an edit whose note was not renamed since (`HistorySessions.RenameStrands`) and still shows it (`HistoryExamples.BaselineLost`).
- HistoryDrafts.OtherAfterDraft: assumes that no reversal in the other direction waits to be retried.
- CreationCalls.TextCallExact: takes the laws of the three text methods from the platform; calls inside larger filters are inferred in the model but `CreationQuery.DefaultsPassFilters` does not cover them.
- MutationHost.Host.Transform: the surroundings (buffers, captures, checks, the native provider) are arbitrary sequences; the callbacks of a custody are one check.
- RefreshLoop.ShownInEpoch: the comparison of signatures is a flag, and previews and configuration proofs are not modelled; a hidden wake that publishes the settled state again is kept apart from newly computed results.
- Kanban.Board.Move: whether the host lets a group be written or be a destination is a flag.
- Kanban.Board.DisplayedRows: models shared results, whose groups have identities; columns matched by key values, drawing, scrolling, edits in progress and `destroy` are not part of this model.
- InlineBase.SaveReads: the check against a closing fence among the written lines is modelled as an error, but that the surrounding Markdown parser finds the same range again is not part of this model.
- User interface, popovers, drag events and focus.
