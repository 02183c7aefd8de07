# OpenPI engine: a verified model

This project models the parts of OpenPI's native engine that keep a long agent session inside its
limits and in order, and proves what they promise over every input, run or interleaving:

- **Context budget** (`Text`, `Json`, `Payload`, `Turns`, `Prune`, `PruneBudget`, `PruneShape`,
  `PruneFloor`, `PruneContent`, `PruneTwice`, `Inflight`): pruning a history to 48,000 characters and folding the messages of a
  running turn. Results: the budget is met or one turn is at its floor, every pass of the shrinking
  loop lowers the total with the markers counted, turn dropping is optimal, nothing but payload text
  changes, exactly which characters of each payload are kept, pruning is idempotent, and compacting step by step equals compacting once.
- **The turn loop** (`Pairing`, `Trail`, `Entries`, `TurnLoop`, `Course`, `Dialogue`, `RunTurn`, `Session`,
  `Interleaving`, `SharedJournal`): one turn as
  the loop that the engine runs, over every behaviour of the model, the tools, the reviewing model, the
  cancellation token and the journal. Results: every request has each batch of tool calls followed
  by exactly its results, each with the output of its own call; the steps of a turn, what each of
  them says and journals, how the turn fails and what it closes with are a function of the world; the number of model calls is bounded and the bound is reached; and, for
  turns that overlap in one journal file in any interleaving, the exact condition under which the
  history that a turn starts from is in order.
- **The session manager** (`SessionManager`): prompts, aborts and finishers under every interleaving.
- **Stream decoding** (`Stream`, `StreamContent`, `ToolCalls`, `Repetition`, `Removal`): the response as the
  concatenation of what the lines carry, line framing and exactly how far it depends on where the stream is cut, reassembly of interleaved tool-call fragments, and the
  search for repetition in reasoning with exactly what the removal then finds and removes.
- **The journal and its replicas** (`Journal`, `CloudSync`): printing and loading entries, parent
  chains under interleaved writers, and the watermark protocol that copies a transcript to other
  devices while requests fail.
- **The loop breaker** (`Sentinel`): a window of 40 commands that enforces its two limits on the
  whole run.

Code that the engine writes as loops over vectors, arrays and maps is a method with the same loop,
proved equal to a specification function; the theorems are lemmas about those functions. Objects
whose methods update their fields are classes.

## How the model stands to the code

- Text is a sequence of Unicode characters, no longer than a `usize` allows where a count of it is
  printed; the repetition search, which works on byte windows, takes the text's UTF-8 bytes.
- JSON is a tree with a compact printer. Tool arguments are a text together with the document it
  parses to, if any. The budget results assume only that printing that document again is not longer
  than the text (`Payload.Compact`). Every loaded line meets this, except that arguments stored as a
  bare string are text of their own (`Session.LoadedIsCompact` says exactly when).
  `PruneBudget.PassFreesIff` says for any arguments when the defensive exit of the shrinking loop
  (crates/openpi-engine/src/session_journal.rs:350) is taken, and `PruneFloor.DefensiveExitTaken` is a
  family of histories on which it is, which stay over the budget.
- The turn loop runs in a `World`: the n-th reply of the model, outcome of a tool, look at the
  cancellation token, journal write, review and verdict. Nothing is assumed of it but that a
  cancelled token stays cancelled.
- The turn guard counts one call per record and is exhausted at a budget of at least eight
  (crates/openpi-engine/src/turn_guard.rs:136-181); which notices it asks for is arbitrary.
- The cloud protocol is a run of atomic steps. A push reaches any line its requests may have
  reached; a pull receives any answer that the query allows and writes any prefix of it.

## What the code does that its comments do not say

- "Never shrink a payload below this" (crates/openpi-engine/src/session_journal.rs:14): true of the
  content of every message of a pruned history (`PruneFloor.FloorOfPruned`). Reasoning, and the string
  values of arguments, of more than 400 characters fall below it if and only if they are folded,
  because a folded one is a marker of at most forty: always in an earlier turn, and in the newest one
  if they are over 800 characters and the history is still over the budget by the time they are the
  largest payload left (`PruneFloor.FloorOfFolds`, `PruneFloor.FoldedIff`).
- The comment at crates/openpi-engine/src/agent_loop.rs:506-507 promises a prefix of the requests that
  never changes. One request is a prefix of the next if and only if no message that the cutoff moves
  past has a text, argument string or reasoning long enough to fold (`Inflight.PrefixStableIff`,
  `TurnLoop.RequestPrefixIff`).
- A turn cancelled, or failing to write a result, in the middle of a batch leaves calls without
  results in the journal, and a later turn of the session sends them. Whether a turn is cut is a
  condition on the world (`Course.CutsBatch`, `RunTurn.Run`). When turns follow one another, a history is
  in order if and only if none of the turns kept of it was cut (`Session.KeptTurnsDecide`).
- A new prompt does not wait for the turn it supersedes: the tool that runs is not interrupted, and
  its result is journaled after the new prompt (crates/openpi-engine/src/session_manager.rs:79-114,
  crates/openpi-engine/src/agent_loop.rs:612-652). Then no turn is cut and yet the new turn, and every
  turn while these messages are kept, sends a list out of order (`SharedJournal.SupersededTurnSpoils`).
  In general the kept history is in order if and only if no turn that writes in it has a call without
  a result at that moment, and no message of another turn stands between a call and its last result
  (`Interleaving.InOrderIff`, `SharedJournal.LoadedInOrderIff`).
- A turn's closing events are sent twice if and only if the last reply that its loop gets is a model
  error (`RunTurn.PromptTask`, with a world in `RunTurn.ErrorWorldFails`).
- The guard against repetition promises to cut what it detects. Of a copied chunk two copies always
  go. Of repeated lines something goes if and only if the lines of the pattern stand somewhere in the
  searched part, one right under the other, before its end (`Removal.LinesRemovedIff`): indentation,
  blank lines, trailing blanks and carriage returns defeat it (`Removal.SpacedLinesStay`).
  `Removal.AlternatingStays` is a family that is detected and of which nothing is removed;
  `Removal.LineLoopRemoved` and `Removal.CleanCycleRemoved` say what goes when it works.
- The ways of cutting a stream that a finish reason ends return one result if and only if no line
  after that one changes the result (`Stream.FramingsAgreeIff`): so they do when a done mark, blank lines
  and comments follow (`Stream.SilentTailAgrees`), and do not when the token counts come in a chunk of
  their own after the finish reason (`Stream.LateUsageDepends`).
- A tool call whose first fragment has no id is split by a later id other than the generated one
  (`ToolCalls.LabelsAreOwners`).
- The ping-pong check alone bounds a run of equal commands at four, whatever the loop threshold is
  (`Sentinel.OscillationBoundsRuns`).

## Model

| member | source | states |
|---|---|---|
| Text.UsizeDigits | crates/openpi-engine/src/session_journal.rs:64 | a count held in a `usize` adds at most twenty characters to a marker, which is what makes every fold shrink |
| Text.ElideKeepsEnds | crates/openpi-engine/src/session_journal.rs:274-281 | an elided text keeps its own head and tail, around a note that counts exactly what is missing |
| Text.ElideCuts | crates/openpi-engine/src/session_journal.rs:274-297 | from the first characters on it is the head, the note and the tail, and the number in the note, read as a number, is that of the characters left out |
| Text.DecimalReads | crates/openpi-engine/src/session_journal.rs:64 | the digits printed for a count read back as that count |
| Text.MarkersCount | crates/openpi-engine/src/session_journal.rs:64-109 | the markers for folded strings and folded reasoning hold the number of characters that were there |
| Json.ShrinkKeepsTree | crates/openpi-engine/src/session_journal.rs:57-70 | folding arguments keeps nesting, keys, order and non-string scalars; each string value stays or, if over the limit, becomes the marker with its length |
| Json.HitIffTooLong | crates/openpi-engine/src/session_journal.rs:41-76 | folding changes something exactly when the longest string exceeds the limit; otherwise the document is untouched |
| Json.HitIffAnyLong | crates/openpi-engine/src/session_journal.rs:57-70 | the same read from the strings of the document: exactly when one of them is longer than the limit |
| Json.ShrinkReachesLimit | crates/openpi-engine/src/session_journal.rs:41-76 | after folding no string is over a limit of at least the marker's length, so a second pass finds nothing |
| Json.ShrinkShortens | crates/openpi-engine/src/session_journal.rs:57-76 | folding never lengthens the compact text, escapes included, and strictly shortens it whenever it replaces a string |
| Json.ShrinkSaves | crates/openpi-engine/src/session_journal.rs:57-76 | the compact text loses exactly what is saved on the long strings: the lengths of their printed forms less their markers, and nothing else |
| Json.LongestFitsText | crates/openpi-engine/src/session_journal.rs:41-51 | a string value is never longer than the text of its document, so skipping short texts skips no long string |
| Json.EscapeReads | crates/openpi-engine/src/session_journal.rs:73 | a printed string, its escapes undone, is the string |
| Json.ScalarsRender | crates/openpi-engine/src/session_journal.rs:73 | how scalars, empty arrays and empty objects print |
| Json.ArrayRenders | crates/openpi-engine/src/session_journal.rs:73 | the items of an array print in order, separated by commas |
| Json.ObjectRenders | crates/openpi-engine/src/session_journal.rs:73 | and so do the members of an object, key before value |
| Payload.ShrinkCall | crates/openpi-engine/src/session_journal.rs:84-91 | one call of the folding loop: skip short texts, replace the arguments, report whether they changed |
| Payload.ShrinkMessageArguments | crates/openpi-engine/src/session_journal.rs:79-94 | folds every oversized call of a message and nothing else, and reports a change exactly when some call was oversized |
| Payload.TotalOfUpdate | crates/openpi-engine/src/session_journal.rs:26-38 | replacing one message changes the total by exactly the difference of that message |
| Payload.MessageWeighs | crates/openpi-engine/src/session_journal.rs:26-38 | what a message with text, calls and reasoning weighs, part by part |
| Payload.FoldCallShortens | crates/openpi-engine/src/session_journal.rs:57-94 | folding a call keeps its arguments compact and within the limit, and shortens them strictly if any string was too long |
| Payload.FoldCallsShortens | crates/openpi-engine/src/session_journal.rs:79-94 | the same for all the calls of a message together |
| Payload.FoldCallReads | crates/openpi-engine/src/session_journal.rs:57-94 | a call is verbatim if its arguments are no JSON, are within the limit or hold no string over it; otherwise the string values over it, and no others, become markers that hold their lengths |
| Payload.FoldArgumentsReads | crates/openpi-engine/src/session_journal.rs:79-94 | so it is with every call of a message, and nothing else of it changes |
| Payload.FoldReasoningReads | crates/openpi-engine/src/session_journal.rs:103-113 | reasoning up to the limit is verbatim, longer reasoning becomes a marker that holds its length |
| Payload.FoldFreesGain | crates/openpi-engine/src/session_journal.rs:79-94 | for arguments in any spelling, folding frees exactly the savings on long strings less what printing the documents again adds, computed before the fold |
| Payload.GrowingArguments | crates/openpi-engine/src/session_journal.rs:57-76 | a family of JSON texts, numbers written in exponent form and one long string, on which folding frees nothing once there are enough numbers |
| Payload.FoldArgumentsTwice | crates/openpi-engine/src/session_journal.rs:79-94 | folding a message's arguments twice is folding them once, in any spelling of the text |
| Payload.FoldReasoningTwice | crates/openpi-engine/src/session_journal.rs:103-113 | folded reasoning is within the limit, so folding it again changes nothing |
| Turns.CollectUserIndices | crates/openpi-engine/src/session_journal.rs:235-240 | the collecting loop returns the positions of the user messages |
| Turns.UserIndicesComplete | crates/openpi-engine/src/session_journal.rs:235-240 | no user message is missed |
| Turns.UserIndicesSound | crates/openpi-engine/src/session_journal.rs:235-240 | the positions are user messages in strictly ascending order |
| Turns.CutAtTurn | crates/openpi-engine/src/session_journal.rs:332 | draining to the k-th turn start drops exactly k turns and moves the others by the cut |
| Turns.LastUserIsNewest | crates/openpi-engine/src/session_journal.rs:265 | the last turn index is a user message with none after it |
| Prune.TotalOf | crates/openpi-engine/src/session_journal.rs:313-315 | the total counts content, arguments and reasoning of every message |
| Prune.PruneHistoryMessages | crates/openpi-engine/src/session_journal.rs:229-356 | the whole of pruning, on any history, computes `Pruned`; it terminates; a history without a user message is returned as it is |
| Prune.FoldSlice | crates/openpi-engine/src/session_journal.rs:256-310 | the two folding loops over the slice treat each message by its side of the newest turn |
| Prune.DropOldTurns | crates/openpi-engine/src/session_journal.rs:317-333 | the draining loop ends and leaves what `Dropped` says |
| Prune.FitBudget | crates/openpi-engine/src/session_journal.rs:335-353 | the shrinking loop ends and leaves what `ShrinkToFit` says |
| Prune.ShrinkLargestPayload | crates/openpi-engine/src/session_journal.rs:125-191 | one pass in place over the slice: the message of the largest payload is shrunk, every other one is unchanged, and the answer says whether anything was |
| Prune.ScanCalls | crates/openpi-engine/src/session_journal.rs:138-145 | the inner scan over calls keeps the first largest argument string over 800 characters |
| Prune.WorstIsFirstLargest | crates/openpi-engine/src/session_journal.rs:126-152 | of one kind the scan finds the first largest payload, and none exactly when all are at most 800 |
| Prune.PickIsLargest | crates/openpi-engine/src/session_journal.rs:154-164 | of the three kinds the pass picks a largest payload, of equal ones a result before arguments and these before reasoning, and the first of its kind; there is none exactly when every payload is at the floor |
| PruneBudget.ShrinkStepLowers | crates/openpi-engine/src/session_journal.rs:341-353 | while any payload is over 800 characters a pass shrinks something and strictly lowers the total, markers included |
| PruneBudget.PassFreesIff | crates/openpi-engine/src/session_journal.rs:349-352 | for any arguments at all a pass frees something if and only if it does not fold arguments or their gain, a number known before the pass, is positive; otherwise the defensive exit is taken |
| PruneBudget.ShrinkToFitBudget | crates/openpi-engine/src/session_journal.rs:341-353 | the shrinking loop ends within the budget or with every payload at the floor, and never above where it started |
| PruneBudget.DropPointStops | crates/openpi-engine/src/session_journal.rs:317-333 | dropping stops at a turn boundary, within the budget or at the newest turn |
| PruneBudget.DropPointPassed | crates/openpi-engine/src/session_journal.rs:317-333 | every boundary that dropping went past left more than the budget behind it |
| PruneBudget.SlicedTurns | crates/openpi-engine/src/session_journal.rs:247-265 | slicing keeps the newest `max_turns` turns, from a boundary, with the newest one in it |
| PruneBudget.PruneMeetsBudget | crates/openpi-engine/src/session_journal.rs:229-356 | every history with a user message is pruned to 48,000 characters, or to one turn without a result, argument string or reasoning over 800 |
| PruneShape.PruneKeepsShape | crates/openpi-engine/src/session_journal.rs:229-356 | up to payload text the result is a suffix of the input cut at a user message: roles, ids, tool names, order, argument keys and all user and assistant words stay |
| PruneShape.PruneOrphansNothing | crates/openpi-engine/src/session_journal.rs:247-356 | if every tool result follows its call within its turn, it still does after pruning |
| PruneShape.CutPointStops | crates/openpi-engine/src/session_journal.rs:247-333 | what slicing and dropping leave fits the budget or is one turn, never losing the newest turn |
| PruneShape.KeptTurnsFit | crates/openpi-engine/src/session_journal.rs:247-333 | the turns kept are whole folded turns within both limits, or the newest turn alone |
| PruneShape.DroppingIsOptimal | crates/openpi-engine/src/session_journal.rs:247-333 | starting at any earlier turn would exceed `max_turns` or the budget, so greedy dropping keeps the longest suffix |
| PruneShape.NewestTurnFits | crates/openpi-engine/src/session_journal.rs:284-353 | when the newest turn fits after its results are capped, the shrinking loop changes nothing |
| PruneShape.NewestTurnVerbatim | crates/openpi-engine/src/session_journal.rs:300-310 | then the arguments and reasoning of the newest turn survive verbatim |
| PruneFloor.PrunedMessagesReduced | crates/openpi-engine/src/session_journal.rs:229-356 | message by message: results are verbatim or cut to no less than 400 characters, reasoning and arguments are folded once, and only in the newest turn may they be verbatim |
| PruneFloor.FloorOfPruned | crates/openpi-engine/src/session_journal.rs:13-16 | the floor of 400 holds for all content; for the reasoning of an earlier turn it holds if and only if there is nothing to fold |
| PruneFloor.FoldedIff | crates/openpi-engine/src/session_journal.rs:341-353 | arguments or reasoning over 800 characters are folded by the shrinking loop if and only if the history is still over the budget when, reduced pass by pass whatever its total, they have become the largest payload left |
| PruneFloor.PrunedPart | crates/openpi-engine/src/session_journal.rs:229-356 | through the whole of pruning: the arguments and the reasoning of a kept message are folded if it is in an earlier turn or under that condition, and verbatim otherwise |
| PruneFloor.FloorOfFolds | crates/openpi-engine/src/session_journal.rs:13-16 | reasoning falls below the floor if and only if it is over 400 characters and folded; a string value of arguments if and only if it and the arguments are over 400 and folded |
| PruneFloor.DefensiveExitTaken | crates/openpi-engine/src/session_journal.rs:349-352 | a family of histories whose largest payload is shrunk without freeing anything: the loop stops over the budget and with a payload over 800 |
| PruneContent.EarlierContent | crates/openpi-engine/src/session_journal.rs:267-285 | in a pruned history a tool result of an earlier turn is whole up to 600 characters; of a longer one the first 250 and the last 150 stand around the note; other content is verbatim |
| PruneContent.EarlierParts | crates/openpi-engine/src/session_journal.rs:304-310 | there each string of the arguments and each reasoning over 400 characters is a marker that holds its length, everything shorter verbatim |
| PruneContent.NewestContent | crates/openpi-engine/src/session_journal.rs:286-353 | in the newest turn a tool result is whole up to 3,500 characters, of a longer one the first 1,500 and the last 600 stand around the note; then the shrinking loop cuts it to half any number of times, never below 800 |
| PruneContent.NewestContentFits | crates/openpi-engine/src/session_journal.rs:286-353 | and not at all if the newest turn fits after that |
| PruneContent.ResultPass | crates/openpi-engine/src/session_journal.rs:174-189 | the pass that picks a result keeps three quarters of half its length from its start and the rest of the half from its end, and touches no other message |
| PruneContent.ResultThroughLoop | crates/openpi-engine/src/session_journal.rs:341-353 | over the whole loop a result is cut so any number of times, and not at all at the floor |
| PruneTwice.FoldMessageTwice | crates/openpi-engine/src/session_journal.rs:267-310 | every fold lands below its own threshold |
| PruneTwice.PruneFixpoint | crates/openpi-engine/src/session_journal.rs:229-356 | a folded history within the turn limit, and within the budget or down to one turn at the floor, is returned as it is |
| PruneTwice.PrunedTurns | crates/openpi-engine/src/session_journal.rs:247-333 | the result has at most `max_turns` turns and its newest turn is the input's |
| PruneTwice.PruneIdempotent | crates/openpi-engine/src/session_journal.rs:229-356 | pruning an already pruned history changes nothing |
| Inflight.CompactInflightMessages | crates/openpi-engine/src/agent_loop.rs:181-221 | in place: everything before the second-to-last tool result is folded, the rest is untouched, and up to two results nothing happens; message by message: verbatim if at most two results come in all or fewer than two after it, else of a text over 1,000 characters the first 350 and the last 150 are kept around the note |
| Inflight.CutoffIsSecondToLast | crates/openpi-engine/src/agent_loop.rs:182-194 | with more than two results the cutoff is at a tool result from which on there are exactly two |
| Inflight.RecentIff | crates/openpi-engine/src/agent_loop.rs:182-194 | a message is before the cutoff exactly when there are more than two results in all and two or more after it |
| Inflight.CompactedReads | crates/openpi-engine/src/agent_loop.rs:181-221 | the same reading of the compaction for every list: what is verbatim, and what is kept of each text, argument string and reasoning |
| Inflight.FoldInflightReads | crates/openpi-engine/src/agent_loop.rs:201-220 | one folded message, in characters of its text, arguments and reasoning |
| Inflight.CutoffGrows | crates/openpi-engine/src/agent_loop.rs:182-194 | the cutoff never moves back as messages arrive |
| Inflight.IncrementalIsBatch | crates/openpi-engine/src/agent_loop.rs:181-221 | compacting, appending any messages and compacting again equals one compaction of the whole |
| Inflight.RoundsAreBatch | crates/openpi-engine/src/agent_loop.rs:508 | over a whole turn the working list always equals one compaction of everything said so far |
| Inflight.PrefixFrozen | crates/openpi-engine/src/agent_loop.rs:506-508 | each message is rewritten at most once, verbatim from the cutoff on, and the prefix before the cutoff is the same in every later request |
| Inflight.FoldInflightChanges | crates/openpi-engine/src/agent_loop.rs:201-220 | folding changes a message if and only if a text, argument string or reasoning in it is over its limit |
| Inflight.PrefixStableIff | crates/openpi-engine/src/agent_loop.rs:506-508 | one compacted list is a prefix of the next if and only if no message that the cutoff moves past has anything to fold |
| Pairing.PairedConcat | crates/openpi-engine/src/agent_loop.rs:573-672 | after a list that is in order, appending keeps it in order exactly when the rest is |
| Pairing.PairedSuffix | crates/openpi-engine/src/agent_loop.rs:573-672 | a list in order can be cut before any message that is not a tool result |
| Pairing.PairedByPosition | crates/openpi-engine/src/agent_loop.rs:629-631 | read by position: a batch is followed at once by one result per call, in order, and then by no further result |
| Pairing.PairedIffNothingAwaited | crates/openpi-engine/src/agent_loop.rs:629-631 | a list is in order if and only if, read from left to right, each result answers the next open call, nothing else comes before it and no call is open at the end |
| Pairing.WiringDecidesPairing | crates/openpi-engine/src/agent_loop.rs:201-220 | order depends on roles and ids alone, not on any payload text |
| Pairing.CompactionKeepsPairing | crates/openpi-engine/src/agent_loop.rs:181-221 | compaction neither breaks nor mends the order of calls and results |
| Pairing.PruningKeepsPairing | crates/openpi-engine/src/session_journal.rs:229-356 | a pruned history is in order exactly when the part of the input it keeps is, and always when the input is |
| Trail.TrailBound | crates/openpi-engine/src/agent_loop.rs:457-478 | with a tool budget of B the loop makes at most 3B + 2 model calls, by the retries left after each batch and in the turn |
| Trail.TrailBoundIsTight | crates/openpi-engine/src/agent_loop.rs:692-716 | a legal trail of 3B + 2 steps: two rejections, then two empty completions before each batch of one |
| TurnLoop.LimitsRead | crates/openpi-engine/src/agent_loop.rs:438-444 | no configured step limit means none, any other is at least 25 (and the tool budget at least eight, as in crates/openpi-engine/src/turn_guard.rs:140) |
| TurnLoop.WorkingCompact | crates/openpi-engine/src/agent_loop.rs:506-508 | compacting the working list gives the compaction of the unfolded conversation |
| TurnLoop.RequestPrefixIff | crates/openpi-engine/src/agent_loop.rs:506-508 | of the requests sent, each is a prefix of the next if and only if no message that the cutoff moves past has anything to fold |
| TurnLoop.ExecuteBatch | crates/openpi-engine/src/agent_loop.rs:578-665 | runs calls in order until the token is seen cancelled or a journal write fails: which results and entries exist, which notices are held back, where it stopped and why; the j-th result carries the id of the j-th call and the context text of the j-th run, its entry the id, name, output and error flag |
| Course.ClockAfter | crates/openpi-engine/src/agent_loop.rs:457-665 | how many looks at the token, journal writes and tool calls each step takes, so that the clock at any round is a function of the steps before it |
| Course.StaysOnCourse | crates/openpi-engine/src/agent_loop.rs:457-1026 | the step determined by the world, taken where the loop does not stop, stays on the turn's course |
| Course.StepTakenRead | crates/openpi-engine/src/agent_loop.rs:516-1026 | which step a reply leads to, read from the world: a batch exactly when every write succeeds and no look finds a cancellation, two retries of an empty completion in a row, two rejections, and only after code was changed, a rejection or by an always-on review |
| Course.DisturbancesRead | crates/openpi-engine/src/agent_loop.rs:553-672 | when a batch is cut and when the journal breaks, in terms of the looks at the token and the writes, numbered through the turn |
| Course.TrailRead | crates/openpi-engine/src/agent_loop.rs:457-480 | every round of the course is within the step limit and the tool budget, starts with a token not cancelled, follows no step that ends the turn, and takes the step that the world determines |
| Course.TrailEnds | crates/openpi-engine/src/agent_loop.rs:457-478 | and the course ends only with such a step, at a limit or at a cancelled token |
| Course.BoundIsReached | crates/openpi-engine/src/agent_loop.rs:457-478 | in a calm world of two rejected answers and two empty completions before each batch the course of the loop has 3B + 2 steps for every budget B |
| Dialogue.RoundRead | crates/openpi-engine/src/agent_loop.rs:569-716 | from one request to the next the conversation grows by exactly: after a batch the reply with its text, reasoning and calls, for each call the context text of its own run, then the notices of these runs; after a retry the two messages with the reply and the nudge or critique |
| Dialogue.StepEntriesRead | crates/openpi-engine/src/agent_loop.rs:516-1026 | what a step journals: the reply with its calls and the outputs of the calls run before the first disturbed one, or one entry with the stop reason of an error, an answer or a rejected answer |
| Dialogue.TranscriptRead | crates/openpi-engine/src/agent_loop.rs:508-1076 | each snapshot that `Run` asks the model with extends the one before by what the step between says; the last one by the synthesis prompt too |
| Dialogue.JournalRead | crates/openpi-engine/src/agent_loop.rs:516-1026 | the journal of a turn is the concatenation of what its steps journal |
| Dialogue.SynthesisRead | crates/openpi-engine/src/agent_loop.rs:1067-1150 | the entry that answers the synthesis: the text and reasoning of the reply, or the fixed text when it is blank or an error |
| RunTurn.Ask | crates/openpi-engine/src/agent_loop.rs:508-516 | the request sent is the compaction of the whole conversation so far |
| RunTurn.CloseTurn | crates/openpi-engine/src/agent_loop.rs:719-730 | a terminal entry is appended if the write succeeds; then the journal is closed and in order |
| RunTurn.Retry | crates/openpi-engine/src/agent_loop.rs:709-716 | two messages enter the context and the loop goes on, still in order, with one retry less |
| RunTurn.TakeError | crates/openpi-engine/src/agent_loop.rs:516-543 | a model error is journaled once as an error entry, and the turn's two closing events are sent |
| RunTurn.TakeEmpty | crates/openpi-engine/src/agent_loop.rs:692-748 | up to two empty completions in a row are retried, the third closes the turn with an error entry; the whole new state |
| RunTurn.TakeAnswer | crates/openpi-engine/src/agent_loop.rs:749-1023 | an answer closes the turn unless a blocking review rejects it, at most twice; the whole new state in each case |
| RunTurn.TakeBatch | crates/openpi-engine/src/agent_loop.rs:553-691 | call message, results in order, then notices; the journal is out of order exactly when the batch was cut, and the contract says at which call and why |
| RunTurn.JournalBatch | crates/openpi-engine/src/agent_loop.rs:556-567 | a journaled batch is in order if and only if every call has its result; cut anywhere, its results still answer its calls one by one |
| RunTurn.Respond | crates/openpi-engine/src/agent_loop.rs:553-1026 | each reply leads to the step that the world determines; a batch is cut, the journal breaks and the model fails exactly under conditions on the world, and a closed turn ends in the entry the reply determines |
| RunTurn.BatchDecides | crates/openpi-engine/src/agent_loop.rs:578-665 | the first disturbed call decides where a batch stops, and whether by a cancellation or by a failed write |
| RunTurn.TakeOneStep | crates/openpi-engine/src/agent_loop.rs:480-1026 | one round keeps the loop invariant or ends the loop with what the ending promises |
| RunTurn.TakeSteps | crates/openpi-engine/src/agent_loop.rs:457-1026 | the loop ends within `max_steps` rounds with the trail that the world determines, in the ending that this trail determines |
| RunTurn.Look | crates/openpi-engine/src/agent_loop.rs:458-472 | the guards stop a cancelled turn and a spent budget, and after a cut batch no further request is sent |
| RunTurn.Synthesize | crates/openpi-engine/src/agent_loop.rs:1031-1150 | the final request has no tools and is the compaction of the conversation with the prompt; whatever the model replies there is one terminal entry |
| RunTurn.Conclude | crates/openpi-engine/src/agent_loop.rs:1027-1154 | a synthesis takes place if and only if the course ran out of steps or tool budget and the looks after it were not cancelled; then `turn_end`, `agent_settled` |
| RunTurn.WhenSynthesized | crates/openpi-engine/src/agent_loop.rs:1031 | a cancelled turn is not summed up; an undisturbed one is exactly when no step closed it |
| RunTurn.FinishTurn | crates/openpi-engine/src/agent_loop.rs:1027-1154 | the end of a turn adds the last snapshot and the last entry and nothing else |
| RunTurn.OpeningPaired | crates/openpi-engine/src/agent_loop.rs:370-425 | the first request is in order exactly when the kept part of the history is |
| RunTurn.OpeningIs | crates/openpi-engine/src/agent_loop.rs:369-424 | the first request is the system prompt, the pruned history and the prompt |
| RunTurn.Run | crates/openpi-engine/src/agent_loop.rs:342-1154 | the trail, the synthesis, the cut batch and the failures are those of the world; the conversation before each request and the whole journal are the concatenations that `Dialogue` reads step by step; every request is in order if and only if the kept history is; at most `max_steps` calls with tools and 3B + 2, plus one without; the journal is in order if and only if no batch was cut, and its results answer its calls one by one in any case; a calm turn closes with exactly one terminal entry, the one its last reply determines; the closing events |
| RunTurn.InOrderSoFar | crates/openpi-engine/src/agent_loop.rs:556-652 | so they do in what a turn has journaled at any moment |
| RunTurn.PromptTask | crates/openpi-engine/src/session_manager.rs:101-114 | a prompt emits `turn_end` then `agent_settled`, and the pair twice if and only if the turn fails at the model |
| RunTurn.FirstReplyFails | crates/openpi-engine/src/agent_loop.rs:516-543 | a turn whose first reply is an error, its prompt journaled and not cancelled before, is one step long and fails at the model |
| RunTurn.ErrorWorldFails | crates/openpi-engine/src/agent_loop.rs:516-543 | there is such a world |
| RunTurn.TightTurn | crates/openpi-engine/src/agent_loop.rs:438-478 | without a step limit there is a calm world in which the turn takes 3B + 2 steps and a synthesis |
| RunTurn.NewestTurnDecides | crates/openpi-engine/src/agent_loop.rs:573-582 | after a history in order, what pruning keeps for the next turn is in order if and only if the newest turn is |
| Session.ReloadKeepsPairing | crates/openpi-engine/src/session_journal.rs:363-481 | a turn loaded back is in order exactly when it was journaled in order |
| Session.ReloadKeepsWiring | crates/openpi-engine/src/session_journal.rs:363-624 | each entry comes back with the text and the ids it was journaled with |
| Session.NextTurnFromJournal | crates/openpi-engine/src/session_journal.rs:358-481 | through the journal file and pruning, when this turn's lines stand in one piece: the next turn starts in order if and only if this turn left no call unanswered |
| Session.TurnOverFile | crates/openpi-engine/src/agent_loop.rs:342-1154 | a turn run over a session's file to which no other turn writes meanwhile: after a file in order, however the turn's lines are printed, the next turn starts in order if and only if the world cut no batch of this one |
| Session.KeptTurnsDecide | crates/openpi-engine/src/session_journal.rs:358-361 | when turns follow one another, what a turn keeps of the history is the last turns, whole, and it is in order if and only if each of these left no call unanswered: a cut turn spoils the history until it is pruned away and no longer |
| Session.SessionStaysPaired | crates/openpi-engine/src/session_journal.rs:358-481 | while turns follow one another and none is cut, every later turn starts from a history in order |
| Session.ReloadedIsCompact | crates/openpi-engine/src/session_journal.rs:428-433 | an entry of this writer comes back with compact arguments if and only if those stored as a bare string are compact |
| Session.LoadedIsCompact | crates/openpi-engine/src/session_journal.rs:414-452 | any line, by any writer, loads to a message with compact arguments if and only if those stored as a bare string are |
| Session.LoadedHistoryFits | crates/openpi-engine/src/session_journal.rs:358-361 | from the file to the request: the loaded and pruned history fits the budget or is one turn at its floor, and pruning it again changes nothing |
| Interleaving.InOrderIff | crates/openpi-engine/src/agent_loop.rs:556-652 | for turns that write in any interleaving, each in its own order: the messages from any position on are in order if and only if no turn that writes there has a call without a result and no message of another turn stands between a call and its last result; for a part of the list, calls of different turns have different ids or keep together |
| Interleaving.ApartTogether | crates/openpi-engine/src/session_manager.rs:79-114 | turns that do not overlap never come between a call and its results |
| SharedJournal.LoadedIsWritten | crates/openpi-engine/src/session_journal.rs:363-497 | a file written by interleaved, reopened and failing writers loads to their messages in file order, up to payload text |
| SharedJournal.LoadedInOrderIff | crates/openpi-engine/src/session_journal.rs:358-481 | the same condition for a journal loaded at any moment of any run of its writers, for the whole of it or any later part |
| SharedJournal.ApartKeptIff | crates/openpi-engine/src/session_journal.rs:358-361 | when no two turns overlap, what is kept is in order if and only if no turn that writes in it left a call unanswered |
| SharedJournal.TurnAmongOthers | crates/openpi-engine/src/agent_loop.rs:342-1154 | a turn that loads the file at any moment, whatever other turns have written so far: its requests are in order if and only if the kept part meets that condition; what it writes is in a turn's own order at any moment, and leaves a call unanswered if and only if the world cut a batch |
| SharedJournal.SupersededTurnSpoils | crates/openpi-engine/src/session_manager.rs:79-114 | a prompt that supersedes a turn during its only tool call: no turn is cut and each is in order by itself, but the history that the new turn loads, and the one every later turn loads, is out of order |
| SessionManager.EngineSessionManager.constructor | crates/openpi-engine/src/session_manager.rs:28-39 | the manager starts at the empty interleaving: no session runs and turn ids start at 1 |
| SessionManager.EngineSessionManager.IsRunning | crates/openpi-engine/src/session_manager.rs:41-44 | a session runs if and only if its newest registered turn is unfinished; when it does not run, every unfinished turn of it is cancelled |
| SessionManager.EngineSessionManager.NextTurnId | crates/openpi-engine/src/session_manager.rs:77 | turn ids are fetched before the lock, so they may be registered in any order |
| SessionManager.IdsCountFetches | crates/openpi-engine/src/session_manager.rs:77 | ids are 1, 2, 3 and so on in the order in which they are fetched, each with its own session and a token not cancelled |
| SessionManager.EngineSessionManager.RegisterTurn | crates/openpi-engine/src/session_manager.rs:79-92 | cancels the session's turn and replaces it in one step |
| SessionManager.EngineSessionManager.AbortSession | crates/openpi-engine/src/session_manager.rs:46-53 | cancels the turn in the map and leaves the map alone |
| SessionManager.EngineSessionManager.FinishTurn | crates/openpi-engine/src/session_manager.rs:116-121 | removes the entry only if it is still this turn's |
| SessionManager.RunningIsNewest | crates/openpi-engine/src/session_manager.rs:41-125 | in every run the map's entry is the session's newest registered turn while that is unfinished, and there is none otherwise, whatever the turn ids are |
| SessionManager.NotRunningMeansCancelled | crates/openpi-engine/src/session_manager.rs:41-53 | in every run, when a session is not running every unfinished turn of it is cancelled |
| SessionManager.RunKeepsInv | crates/openpi-engine/src/session_manager.rs:69-125 | the protocol's invariant holds after every interleaving |
| SessionManager.OneLiveTurnPerSession | crates/openpi-engine/src/session_manager.rs:69-125 | an unfinished uncancelled turn is the one in the map and every other unfinished turn of its session is cancelled |
| SessionManager.MapDrains | crates/openpi-engine/src/session_manager.rs:116-121 | when all registered turns have finished the map is empty |
| SessionManager.StaleFinisherKeepsNewer | crates/openpi-engine/src/session_manager.rs:116-121 | a finisher removes its own entry and never a newer turn's |
| SessionManager.Irrevocable | crates/openpi-engine/src/session_manager.rs:41-125 | cancelled stays cancelled and finished stays finished in every continuation |
| SessionManager.PromptSupersedes | crates/openpi-engine/src/session_manager.rs:79-92 | a registered prompt is the session's only live turn; the turns it supersedes are cancelled but still unfinished, and no other session is touched |
| SessionManager.AbortCancelsLiveTurn | crates/openpi-engine/src/session_manager.rs:46-53 | after an abort every unfinished turn of the session is cancelled and nothing else changed |
| Stream.LinesExact | crates/openpi-engine/src/llm_client.rs:367-369 | the lines and the remainder are the text, nothing lost or added |
| Stream.LinesHaveNoNewline | crates/openpi-engine/src/llm_client.rs:367-369 | it is cut at every newline and nowhere else |
| Stream.LinesOfConcat | crates/openpi-engine/src/llm_client.rs:363-369 | keeping the remainder and appending the next chunk gives the lines of the whole |
| Stream.FeedBuffer | crates/openpi-engine/src/llm_client.rs:367-526 | the inner loop feeds every complete line in the buffer until one closes the stream |
| Stream.ReadStream | crates/openpi-engine/src/llm_client.rs:346-575 | the outer loop computes `Read`: lines already buffered after a finish are still processed; then the cleaned or capped reasoning and the five fields returned |
| StreamContent.ResultSays | crates/openpi-engine/src/llm_client.rs:346-575 | however a stream is cut: the text is the concatenation of the contents of the choices fed, in order, up to the one that trips the guard; the tool calls the assembly of their fragments; the reasoning that of their reasoning pieces, with the tripping one, cleaned of the pattern found or with the notice at its cap; finish reason and token counts the last ones fed |
| StreamContent.DoneSays | crates/openpi-engine/src/llm_client.rs:371-531 | the stream is over exactly at a done mark, a tripped guard or an ending finish reason in the lines fed |
| StreamContent.DataLineReads | crates/openpi-engine/src/llm_client.rs:369-381 | a line `data: ` with any payload, whatever white space is around, carries the payload or is the done mark |
| StreamContent.OtherLineReads | crates/openpi-engine/src/llm_client.rs:369-377 | blank lines, comments and other lines carry nothing |
| StreamContent.BlankIsTrimmed | crates/openpi-engine/src/agent_loop.rs:692 | the test for a blank text, used for replies and for lines: nothing is left of it after trimming |
| Stream.ReadsPrefix | crates/openpi-engine/src/llm_client.rs:363-381 | whatever the chunks, the lines fed are a prefix of the lines of the whole stream, and all of them if none ends it |
| Stream.FramingIndependent | crates/openpi-engine/src/llm_client.rs:363-531 | two ways of cutting one stream both feed it up to and including the first line that ends it |
| Stream.SameResponseWhenClosed | crates/openpi-engine/src/llm_client.rs:378-381 | when that line is a done mark or a tripped guard the two responses are equal |
| Stream.SameResponseWhenOpen | crates/openpi-engine/src/llm_client.rs:346-531 | so are they when no line ends the stream |
| Stream.CutAfterReads | crates/openpi-engine/src/llm_client.rs:528-530 | cut just after any line from the ending one on, a stream is read up to exactly that line |
| Stream.FramingsAgreeIff | crates/openpi-engine/src/llm_client.rs:528-575 | all ways of cutting a stream return one result if and only if no line after the ending one changes what is returned |
| Stream.SilentTailAgrees | crates/openpi-engine/src/llm_client.rs:371-386 | when only done marks, blank lines, comments and empty or undecodable chunks follow the line with the finish reason, every way of cutting returns the same |
| Stream.LateUsageDepends | crates/openpi-engine/src/llm_client.rs:385-388 | token counts that come in a chunk of their own after that line are returned or not, depending on how the stream is cut |
| Stream.StreamAssembles | crates/openpi-engine/src/llm_client.rs:472-517 | the tool calls of a response are the assembly of the fragments of the lines fed, all of them unless a line closed the stream |
| ToolCalls.AcceptFragment | crates/openpi-engine/src/llm_client.rs:473-516 | one fragment: where it lands, what it appends, which index it owns |
| ToolCalls.FragmentReads | crates/openpi-engine/src/llm_client.rs:473-511 | an absent piece and an empty one add nothing, an absent id and an empty one are no id, any other is taken as it is |
| ToolCalls.AssembleToolCalls | crates/openpi-engine/src/llm_client.rs:472-517 | the loop over fragments computes `Assembled` |
| ToolCalls.OwnersAreNumbered | crates/openpi-engine/src/llm_client.rs:472-494 | for any fragments: each lands in exactly one call, calls are numbered by first fragment, none is empty |
| ToolCalls.CallIsItsFragments | crates/openpi-engine/src/llm_client.rs:500-515 | name and arguments of a call are the concatenations of its own fragments, in order |
| ToolCalls.PositionsInjective | crates/openpi-engine/src/llm_client.rs:337-338 | the index map is injective and in range for any input |
| ToolCalls.LabelsAreOwners | crates/openpi-engine/src/llm_client.rs:475-494 | a labelled interleaving of calls is sent to its labels if and only if its ids are steady: later fragments carry the id their call started with (its first fragment's or the generated one) or none, and a call that starts on an index in use carries another id |
| ToolCalls.ReassemblyIsExact | crates/openpi-engine/src/llm_client.rs:472-567 | then the loop yields exactly the labelled calls, in order of first fragment, with those ids |
| ToolCalls.LateIdSplits | crates/openpi-engine/src/llm_client.rs:478-481 | so an id that comes with the second fragment of a call splits it if and only if it differs from the generated one |
| Repetition.EncodedIsUtf8 | crates/openpi-engine/src/llm_client.rs:415 | the bytes of every text are well-formed UTF-8 and as many as the reader counts, so the detector's assumption always holds |
| Repetition.SameSpace | crates/openpi-engine/src/llm_client.rs:107 | trimming bytes removes exactly the characters that trimming text removes |
| Repetition.AlignUp | crates/openpi-engine/src/llm_client.rs:134-136 | the next character boundary, at most three bytes on |
| Repetition.OccurrenceEndsAtBoundary | crates/openpi-engine/src/llm_client.rs:177-181 | a pattern found in a text ends at a character boundary, so truncating there is always possible |
| Repetition.FindCycle | crates/openpi-engine/src/llm_client.rs:121-130 | finds the shortest cycle of 2 to 8 lines, and none only if there is none |
| Repetition.CopiedAt | crates/openpi-engine/src/llm_client.rs:145-155 | one window: three equal adjacent chunks of whole characters that are not blank |
| Repetition.FindCopies | crates/openpi-engine/src/llm_client.rs:141-159 | finds the nearest, then narrowest, copied chunk of 10 to 120 bytes, and none only if there is none |
| Repetition.CopiesRead | crates/openpi-engine/src/llm_client.rs:141-159 | the chunk search succeeds exactly on texts that end in three copies of one chunk of 10 to 120 bytes, whole characters and not blank, and at most twenty bytes after them |
| Repetition.TailIsEnough | crates/openpi-engine/src/llm_client.rs:132-139 | the last 800 bytes decide the chunk search exactly as the whole text would |
| Repetition.DetectRepetition | crates/openpi-engine/src/llm_client.rs:99-162 | for every text a pattern is returned if and only if the last four lines are equal, or the last lines are three equal blocks, or three equal chunks end near the tail; and which pattern |
| Repetition.RepeatedLinesAreFound | crates/openpi-engine/src/llm_client.rs:104-130 | whatever comes first, a block of two to eight lines written three times, or a line written four times, is found, blank lines and indentation aside |
| Removal.CleanTail | crates/openpi-engine/src/llm_client.rs:165-184 | returns what is kept, up to the end of the pattern's first occurrence in the last 4000 bytes or everything, and the notice |
| Removal.KeptReads | crates/openpi-engine/src/llm_client.rs:171-181 | what is kept is the text, or its beginning up to the end of a copy of the pattern in the last 4000 bytes |
| Removal.CopiesAreRemoved | crates/openpi-engine/src/llm_client.rs:165-184 | a detected chunk is always found again, and at least two of its three copies are removed |
| Removal.NothingAfterCopy | crates/openpi-engine/src/llm_client.rs:171-181 | nothing is kept after the end of any copy of the pattern in the last 3997 bytes |
| Removal.FoundIff | crates/openpi-engine/src/llm_client.rs:171-177 | the joined lines of a block are found if and only if, in the lines of the searched part as they stand, one ends with its first line, the next ones are its middle lines and one more starts with its last |
| Removal.RemovesIff | crates/openpi-engine/src/llm_client.rs:171-181 | something is removed if and only if the block is so written before the last byte |
| Removal.LinesRemovedIff | crates/openpi-engine/src/llm_client.rs:165-184 | the same for every detected line or cycle of lines: the block is the last lines of the text, the pattern its lines joined |
| Removal.LineLoopRemoved | crates/openpi-engine/src/llm_client.rs:110-114 | a line repeated four times stands at four places one after another; of those in the last 3997 bytes all but the first are removed |
| Removal.CleanCycleRemoved | crates/openpi-engine/src/llm_client.rs:116-130 | a cycle written line under line stands at three places that end the text; of those in the last 3997 bytes all but the first are removed |
| Removal.SpacedLinesStay | crates/openpi-engine/src/llm_client.rs:165-184 | in a text whose newlines all have white space beside them no block of two or more lines is found again, so nothing is removed |
| Removal.AlternatingStays | crates/openpi-engine/src/llm_client.rs:99-184 | for any two different lines, written in turn with a blank line inside each pair, the text is detected with the two lines as its pattern and kept whole |
| Removal.PrintableIsLine | crates/openpi-engine/src/llm_client.rs:105-109 | any printable text without white space is a line that trimming and the blank-line filter keep, so the family above has members |
| Removal.PatternIsTrimmed | crates/openpi-engine/src/llm_client.rs:166-169 | every pattern found is trimmed and not blank, so the removal never returns early |
| Removal.BreakLoop | crates/openpi-engine/src/llm_client.rs:413-425 | detection and removal together: exactly for repetitive texts over 60 bytes, what is kept for the pattern found and the notice; two copies less for a copied chunk |
| Journal.SessionJournal.constructor | crates/openpi-engine/src/session_journal.rs:200-227 | opening takes the last entry id found in the file as the next parent |
| Journal.LastIdRead | crates/openpi-engine/src/session_journal.rs:206-220 | the last line that carries an id decides, whatever comes after it without one |
| Journal.SessionJournal.AppendEntry | crates/openpi-engine/src/session_journal.rs:483-497 | one line is added at the end and its id becomes the next parent; a failed write changes neither the file nor the parent |
| Journal.SessionJournal.Append | crates/openpi-engine/src/session_journal.rs:499-659 | each append operation adds its record's document, under a fresh id and the previous one as parent, or fails and is nobody's parent |
| Journal.SessionJournal.LoadRawHistoryMessages | crates/openpi-engine/src/session_journal.rs:363-481 | loading skips lines that do not parse and entries that are no messages |
| Journal.LineRoundTrip | crates/openpi-engine/src/session_journal.rs:363-624 | a printed record reads back as its message with the reasoning erased, or as nothing when it is no message |
| Journal.AssistantStored | crates/openpi-engine/src/session_journal.rs:566-590 | what no reader looks at is stored too: provider, model, usage and the name of the stop reason |
| Journal.UsageStored | crates/openpi-engine/src/session_journal.rs:576-585 | the stored token counts; the cached part of the prompt is not counted twice |
| Journal.AssistantPartsStored | crates/openpi-engine/src/session_journal.rs:538-564 | the thinking stands before the text and the text before the calls; empty ones are left out |
| Journal.OthersStored | crates/openpi-engine/src/session_journal.rs:595-660 | with a result its tool and whether it failed; with a change of model or thinking level what it changed to |
| Journal.JoinedLines | crates/openpi-engine/src/session_journal.rs:410-470 | text parts are joined by newlines, in order |
| Journal.SparseLines | crates/openpi-engine/src/session_journal.rs:396-476 | lines by any writer: a user message without text is none, a tool result without text says so, a missing call id is empty |
| Journal.ArgumentsReload | crates/openpi-engine/src/session_journal.rs:428-433 | arguments come back with an equal document when they were JSON other than a bare string; text that was not JSON comes back wrapped in an object, never equal |
| Journal.JournalRoundTrip | crates/openpi-engine/src/session_journal.rs:363-659 | for any appends to any file, loading gives what was there and then exactly the appended messages, in order |
| Journal.RunReloads | crates/openpi-engine/src/session_journal.rs:363-659 | in any run of writers over one file, interleaved, reopened and with failing writes, loading gives what was there and then the messages of the records written, in file order |
| Journal.InterleavedParentsPointBack | crates/openpi-engine/src/session_journal.rs:200-227 | however writers open and append, and whichever writes fail, every parent id names a strictly earlier line |
| Journal.SingleWriterChains | crates/openpi-engine/src/session_journal.rs:483-497 | a single writer, reopened anywhere and failing anywhere, leaves one chain |
| CloudSync.MessageTable.SendBatch | crates/openpi-daemon/src/cloud_sync.rs:393-445 | an upsert of some lines: stored, refused, or stored with the answer lost |
| CloudSync.MessageTable.PushConversation | crates/openpi-daemon/src/cloud_sync.rs:649-742 | lines after the watermark go out in batches of 200 until one is not acknowledged; how far the table then reaches, and that the watermark moves only after the last; from a table with the lines up to past the watermark to one with all that was sent, the new watermark inside it |
| CloudSync.PullMessages | crates/openpi-daemon/src/cloud_sync.rs:838-872 | appends the rows of the answer to the local file, in order |
| CloudSync.SyncSource | crates/openpi-daemon/src/cloud_sync.rs:649-742 | the writer's push, with its batches and failures, is an enabled action of the protocol: same rows and watermark after it |
| CloudSync.SyncReplica | crates/openpi-daemon/src/cloud_sync.rs:649-742 | so is the push of a replica |
| CloudSync.SyncPull | crates/openpi-daemon/src/cloud_sync.rs:804-873 | and a replica's pull of any answer to its query, counted from the lines of its file |
| CloudSync.MessageIdsDiffer | crates/openpi-daemon/src/cloud_sync.rs:699-703 | lines without an entry id get different row ids at different positions, and a line with one has it |
| CloudSync.UpsertedInTwo | crates/openpi-daemon/src/cloud_sync.rs:714-727 | sending lines in consecutive batches stores what one batch would |
| CloudSync.PushKeepsPrefix | crates/openpi-daemon/src/cloud_sync.rs:649-742 | a push of any range that starts inside the stored prefix, by the writer or by a replica, keeps it contiguous |
| CloudSync.AnswerIsNextRows | crates/openpi-daemon/src/cloud_sync.rs:809-815 | on a contiguous table the answer to a pull is the next rows one by one |
| CloudSync.AnswerIsFull | crates/openpi-daemon/src/cloud_sync.rs:809-815 | its length is the smaller of 1000 and the rows remaining |
| CloudSync.PullExtends | crates/openpi-daemon/src/cloud_sync.rs:804-873 | a pull extends a replica, a prefix of the source, by exactly those lines |
| CloudSync.SourcePullsNothing | crates/openpi-daemon/src/cloud_sync.rs:804-834 | the device that wrote the transcript never pulls into it |
| CloudSync.ReplicationSafe | crates/openpi-daemon/src/cloud_sync.rs:649-873 | in every run, with failures at any batch, lost answers and unsaved watermarks, the remote rows open to a contiguous prefix of the source covering the watermark, and every replica is a prefix of that |
| CloudSync.ReplicaOnlyGrows | crates/openpi-daemon/src/cloud_sync.rs:838-872 | no step loses or rewrites a line of a replica |
| Sentinel.LoopBreaker.constructor | crates/openpi-daemon/assets/sentinel.js:35-37 | the history starts empty and the probe counter at 0 |
| Sentinel.LoopBreaker.CountRepeats | crates/openpi-daemon/assets/sentinel.js:703-711 | the backward scan counts the equal commands at the end of the window |
| Sentinel.LoopBreaker.Check | crates/openpi-daemon/assets/sentinel.js:703-767 | repetition is judged before oscillation |
| Sentinel.LoopBreaker.OnEvent | crates/openpi-daemon/assets/sentinel.js:471-776 | what each event does to the window and the probe counter, and the verdict |
| Sentinel.HandleReads | crates/openpi-daemon/assets/sentinel.js:471-776 | read from the events: which clear the probe counter and which raise it, that a broad search is refused and the fifth probe in a row too, and that only a passed command is recorded |
| Sentinel.WindowReads | crates/openpi-daemon/assets/sentinel.js:769-776 | the window holds the last forty commands, in order |
| Sentinel.RepeatCheckIsExact | crates/openpi-daemon/assets/sentinel.js:703-714 | on a history within the limit, recording a command keeps it within exactly when it is repeated less often than the threshold |
| Sentinel.OscillationCheckIsExact | crates/openpi-daemon/assets/sentinel.js:748-752 | and keeps X Y X Y X out exactly when the check does not fire |
| Sentinel.OscillationBoundsRuns | crates/openpi-daemon/assets/sentinel.js:748-752 | the oscillation check alone keeps runs of equal commands to four |
| Sentinel.WindowDecides | crates/openpi-daemon/assets/sentinel.js:769-776 | the window of 40 gives the verdict that the whole history would, for every threshold |
| Sentinel.LimitsHold | crates/openpi-daemon/assets/sentinel.js:699-776 | in every run and for every threshold the full record of commands has no run over the threshold and no X Y X Y X |
| Sentinel.RefusedExactlyWhenItLoops | crates/openpi-daemon/assets/sentinel.js:699-776 | a command is refused if and only if recording it would break a limit on the whole run |
| Sentinel.ProbesBounded | crates/openpi-daemon/assets/sentinel.js:648-657 | between two events that clear the probe counter at most four commands are recorded |
| Sentinel.CounterIsProbes | crates/openpi-daemon/assets/sentinel.js:471-657 | in every run the counter is the number of probes since the last event that clears it |

## Left out

- The wording of the system prompt, the nudges, the synthesis prompt and the guard notices: parameters of the model.
- Events other than `turn_end` and `agent_settled`, the token usage that a turn journals, and the tool-action summary that the reviewing model reads.
- RunTurn.TakeAnswer: the review itself is an input, and the entry that a background review may append after the turn is not part of the turn (in a shared journal it is that of a further writer).
- The time limits of a stream (180 seconds of silence, 75 seconds of reasoning and its notice), its cancellation, and the error for a stream that ends without content.
- Stream.ReadStream: chunks are text, so a character split across two chunks, which the code replaces, is not modelled; the finish reason of a response that several lines set is the last one fed.
- Removal.CleanTail: returns the new text instead of truncating a string in place.
- SharedJournal.LoadedInOrderIff: lines appended to the file by other programs, such as a pull from the cloud, are not among its writers.
- Journal.SessionJournal.AppendEntry: a write that fails after part of a line reached the file.
- Payload.ShrinkCall: the parsed document is folded as a value, not edited in place, and the order of an object's keys is that of the document.
- JSON text: printing and parsing are exact inverses on documents; number formats and Unicode escapes are not modelled.
- The `name` and `artifact` fields of a message; an offloaded tool result enters the context as an arbitrary text.
- CloudSync.PullMessages: `written` rows are a prefix of the answer; a write that fails for one row and succeeds for a later one, rows without a payload, and tables with both encrypted and plain rows are outside the protocol.
- CloudSync.ReplicationSafe: one writer, distinct entry ids, an unchanged passphrase; encryption is an inverse pair and redaction is assumed idempotent and to leave entry ids alone (`CloudSync.Lawful`).
- Last-writer-wins for other synchronised files: the push is an unconditional upsert before the pull, so convergence does not hold.
- HTTP, SQLite, sockets, clocks and identifiers, which appear as arbitrary inputs.
- SessionManager.EngineSessionManager.RegisterTurn: the model override kept beside a turn, which nothing in the protocol reads.
- The sentinel's safety rules, path gates and pattern tables, and its reading of a command's normal form: a command arrives normalised.
- The gateway's budgets, the plan scheduler, title and memory extraction, and the user interface.
