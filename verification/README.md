# Models of the BYOAI runtime

Dafny models of the parts of this repository that carry state, protocols or arithmetic, with proofs of what they promise.
`dafny verify dfyconfig.toml` checks everything.

| file | models |
|---|---|
| `OpenAiResponse.dfy`, `OpenAiStream.dfy`, `OpenAiRequest.dfy`, `RequestContents.dfy` | the Anthropic/OpenAI translation: whole responses, streams, requests, and where each block goes |
| `Coercion.dfy`, `Merging.dfy`, `Seam.dfy`, `ContextResolver.dfy` | message coercion, what merging makes of a group, and how history and input are joined |
| `Json.dfy`, `ToolResults.dfy`, `ToolOutput.dfy`, `SessionDedup.dfy`, `PromptCache.dfy` | the two stages that edit the Anthropic request body |
| `PrivateKeys.dfy`, `ShieldBody.dfy`, `CheckDigits.dfy` | the Shield engine: key redaction, whole-body redaction, number validators |
| `Worker.dfy`, `WorkerRuns.dfy`, `StreamQueue.dfy` | the worker loop with its jobs and `stop()`, what its runs come to, and the prefetching queue under it |
| `ExtensionQueue.dfy`, `Witness.dfy`, `HeldSend.dfy` | the browser extension: capture queue and consent, record witness, held sends |
| `MemoryCache.dfy`, `ResponseCache.dfy`, `HashStore.dfy` | the response cache under the default pipeline, and the session hash store |
| `Backfill.dfy`, `RunPlan.dfy` | the run planner: which pools suffice, and what a plan is |
| `Sorting.dfy`, `Wrappers.dfy` | a stable sort; Option and sequence helpers |

## How to read it

Loops and in-place updates are methods whose `ensures` tie the new state to a specification; the lemmas are about that
specification. Protocols are a pure `Step` over events, each event being what runs between two awaits; `Run` folds any event
sequence, so a statement about `Run` holds on every interleaving. Where the source keeps such a state in an object or in module
variables there is also a class with those variables, each of whose methods is one `Step`.

Clocks, random draws, network answers and failures are parameters or events. JSON text is a codec with
`loads(dumps(x)) == x`. A regular expression is a function to ordered, non-overlapping spans. A digest is a function that tells
apart the values at hand: `ResponseCache` asks this of the requests served (with digests of one length), `SessionDedup` of the
large texts in one body.

Some results say that a promise fails, with an input, and exactly when it holds:

- stages.py:76-90 takes every other adjacency than the one its flag marks for resolved when history and input are joined. For
  every history and input that join is one pass over both exactly if no reply is lost, nothing is merged late and no contents
  fuse (`Seam.SplitCoercion`); `SplitLosesReply`, `SplitFailsOnDrop` and `SplitFailsOnLists` give an input for each.
- The comment at background.js:407 says that after a withdrawal nothing waiting is sent and nothing is retried. That holds of
  exactly the rows in the queue or dropped already (`ExtensionQueue.NeverSentIff`); a batch in flight can still be posted, and a
  failed one goes back exactly under `PutBackIff`. The listener at background.js:282-287 can switch consent off without
  dropping the queue, in exactly the case of `OffMeansEmptyStep` (`LateEcho`).
- workers.py:95-97 promises at-least-once delivery. What was handed out is served whole exactly when all payloads are JSON and
  nothing waits in the buffer (`StreamQueue.AllServedIff`, and `AllFinishedIff` for a run that returned). `MalformedHidesRest`
  fails the first half and `StopsEarly` the second; each worker is a new consumer (workers.py:137) and nothing reclaims the
  entries of another. A pop that raises ends `run()` without a drain (`Worker.RaisingLeavesAJob`); only that, or a drain that
  gave up (`GivingUpLeavesAJob`), leaves a popped job unfinished (`LeftUnfinished`).
- The IBAN check misses swapped neighbours exactly if they are 1/B, 2/M or 3/X past the fourth place
  (`CheckDigits.IbanTransposition`; `BlindSwapPasses` is such a number).
- Pools of `max_runs` cases suffice for agents with ids of their own (`Backfill.PoolsSuffice`); in general no plan can raise
  exactly under `NeverRaisesIff`, which two agents of one id may or may not meet (`SharedId`).
- Head-and-tail truncation is idempotent exactly under `ToolOutput.TruncatingAgain`. stages.py:836-837 says output over 1200
  characters is truncated. `ShorterIff` says which of it gets shorter and `StaysIff` which comes out as it went in;
  `OneOverGrows` and `OneErrorLineGrows` are longer afterwards, and `UnnamedStays` is the same.

## Model

| member | source | states |
|---|---|---|
| OpenAiStream.TranslateStream | src/byoai/agent_context_cache/openai_compat.py:310-455 | For every line sequence the emitted events pass a client that breaks on any event out of place (first message_start, block indices 0,1,2,… in start order, deltas only inside their own open block of the right kind, every block stopped once, one message_delta, one message_stop), and what the client holds at the end, text moved to the front, is the reply the whole-response translation gives for the message the chunks add up to, which is said of the chunks alone: the contents run together, the tool deltas grouped by index, finish_reason and its stop_reason from the last chunk that has one, usage from the last chunk that has any |
| OpenAiStream.WholeIsUnique | src/byoai/agent_context_cache/openai_compat.py:356-435 | The chunks add up to one message only, so that description decides the reply |
| OpenAiStream.ChunksRead | src/byoai/agent_context_cache/openai_compat.py:356-366 | A reader stops at the first [DONE]; before it every line with a chunk adds that chunk and no other line adds anything |
| OpenAiStream.AccumulatedTools | src/byoai/agent_context_cache/openai_compat.py:398-428 | The accumulated message, defined independently: tools in order of first appearance of their index, each with the id and name of its first delta and all its argument fragments concatenated |
| OpenAiStream.DeltasGroupByIndex | src/byoai/agent_context_cache/openai_compat.py:398-428 | The same for any flat list of tool deltas, whatever the interleaving of indices |
| OpenAiStream.LaysWholeContent | src/byoai/agent_context_cache/openai_compat.py:258-275 | Wherever the text block started among the tool blocks, moving it to the front gives the block list of the whole-response translation |
| OpenAiStream.SendText | src/byoai/agent_context_cache/openai_compat.py:377-396 | The text block opens once, at the first non-empty piece; the client then holds the text so far |
| OpenAiStream.SendToolCall | src/byoai/agent_context_cache/openai_compat.py:398-428 | A tool block opens at the first delta of its index, a non-empty fragment goes to that index's own block, and the client holds exactly the accumulated tools |
| OpenAiStream.StopBlocks | src/byoai/agent_context_cache/openai_compat.py:430-433 | What is added to the events is one stop per open block, the text first, then the tools in order of appearance; for the client nothing else changes |
| OpenAiStream.CloseStream | src/byoai/agent_context_cache/openai_compat.py:435-455 | Stop reason, stop sequence and usage at the end are those the whole-response translation would give |
| OpenAiResponse.OpenAiToAnthropic | src/byoai/agent_context_cache/openai_compat.py:249-302 | Text block if non-empty, then one tool_use per call with parsed input (missing, empty or malformed arguments become the empty object), stop reason and usage |
| OpenAiResponse.ReplyHolds | src/byoai/agent_context_cache/openai_compat.py:249-279 | What any such reply holds: the text first if there is any, then call by call its id, name and input, the input read back from its JSON, or the empty object if there is none |
| OpenAiResponse.StopTable | src/byoai/agent_context_cache/openai_compat.py:282-288 | length, tool_calls and content_filter give max_tokens, tool_use and refusal; a plain stop gives stop_sequence if and only if the backend reports one or the text ends with a listed string; anything else ends the turn |
| OpenAiResponse.ReplyIsUnique | src/byoai/agent_context_cache/openai_compat.py:249-302 | The relation those contracts use determines the reply, so the two response paths cannot satisfy it differently |
| OpenAiResponse.DetectStopSequence | src/byoai/agent_context_cache/openai_compat.py:216-246 | The backend's own non-empty report, else the first listed non-empty string the text ends with, else none |
| OpenAiResponse.DetectedStopIsUnique | src/byoai/agent_context_cache/openai_compat.py:216-246 | At most one answer meets that description |
| OpenAiResponse.StopOf | src/byoai/agent_context_cache/openai_compat.py:282-288 | Only finish_reason "stop" can become stop_sequence; every other reason follows the table, unknown ones end the turn |
| OpenAiRequest.ContentToParts | src/byoai/agent_context_cache/openai_compat.py:30-109 | One pass over the blocks produces three independent selections: parts, tool messages and tool calls, each in block order |
| OpenAiRequest.TranslateRequest | src/byoai/agent_context_cache/openai_compat.py:117-157 | The messages: a system message first if there is text, then per turn an assistant message, or tool messages before the remaining user content |
| OpenAiRequest.TranslateBody | src/byoai/agent_context_cache/openai_compat.py:112-201 | The whole body: those messages, the settings that are there copied, each tool under its own name with what it lacks filled in, and the forced tool choice |
| RequestContents.EverythingIsSaid | src/byoai/agent_context_cache/openai_compat.py:128-157 | Over a whole conversation, turn by turn and block by block: an assistant turn becomes one message with its texts run together and its calls; any other turn its tool results and then one user message with every text, image and document, or no user message if there is none |
| RequestContents.EveryBlockGoesSomewhere | src/byoai/agent_context_cache/openai_compat.py:50-107 | The blocks to show become the parts, the tool results the tool messages and the tool uses the calls, each one for one, in order and with its own content |
| RequestContents.ResultReads | src/byoai/agent_context_cache/openai_compat.py:79-97 | A tool result reads as its string, the texts of its list one to a line, or its JSON |
| RequestContents.SystemIsSaid | src/byoai/agent_context_cache/openai_compat.py:119-126 | The system prompt is one message with its text, the entries of a list one to a line, or none if that is empty |
| OpenAiRequest.IdsConserved | src/byoai/agent_context_cache/openai_compat.py:128-157 | Over a whole conversation the tool_use ids of assistant turns become the tool_call ids, and the tool_result ids of the other turns the tool messages, in sequence: none lost, invented or reordered |
| OpenAiRequest.EveryIdConservedIff | src/byoai/agent_context_cache/openai_compat.py:128-157 | Counting every turn, the tool_use ids come through if and only if none stands outside an assistant turn, and the tool_result ids if and only if none stands inside one; the code drops those |
| OpenAiRequest.PairingPreserved | src/byoai/agent_context_cache/openai_compat.py:128-157 | If each tool_use turn is answered by the very next turn and by exactly its ids, each message with tool_calls is followed by exactly its own tool messages before anything else, and tool messages appear nowhere else |
| OpenAiRequest.CallsReadBack | src/byoai/agent_context_cache/openai_compat.py:63-74 | Calls built from tool_use blocks read back as the same ids, names and inputs |
| OpenAiRequest.RoundTrip | src/byoai/agent_context_cache/openai_compat.py:137-146 | An assistant turn sent as a request and read back as a response becomes its normal form: one text block if there is text, then the tool uses in order |
| OpenAiRequest.NormalFormIsFixed | src/byoai/agent_context_cache/openai_compat.py:137-146 | A turn already in normal form comes back unchanged |
| Coercion.CoerceMessages | src/byoai/stages.py:328-377 | The loop with its two flags computes the automaton the lemmas below are about, and its flag says a merge is still owed |
| Coercion.CoercionGroups | src/byoai/stages.py:328-377 | The output is exactly: survivors cut into groups, each merged left to right, where neighbours are in one group if and only if a dropped turn lies between them and they are the same mergeable role; the flag is set exactly when a drop follows the last survivor |
| Coercion.SameRoleMeansNoDrop | src/byoai/stages.py:284-377 | Two neighbouring user (or assistant) messages in the output come from items with no dropped turn between them |
| Coercion.NoDropNoMerge | src/byoai/stages.py:303-377 | Without a dropped turn the surviving messages come out one for one |
| Coercion.ToolRepliesVanish | src/byoai/stages.py:224-243 | A well-formed tool reply vanishes if and only if only tool replies separate it from a dropped turn before it |
| Coercion.AfterDropMeaning | src/byoai/stages.py:355-368 | The skip flag in terms of item positions |
| Coercion.DropBetweenMeaning | src/byoai/stages.py:355-377 | The merge flag in terms of item positions |
| Coercion.CallsConserved | src/byoai/stages.py:284-300 | The sequence of live tool calls of the survivors is conserved through every merge |
| Merging.ContentsConserved | src/byoai/stages.py:246-300 | Every message of the output holds exactly the contents of the survivors in its group: their texts joined by blank lines; with a block list among them, the texts before the first list as one block and then every block in order, a string as its own. Its name is the one they agree on, its metadata every key with the last value, its calls all of theirs |
| Merging.MergeIsUnique | src/byoai/stages.py:246-300 | That description fits one message only |
| Merging.SeamMeaning | src/byoai/stages.py:303-325 | A message is merged if and only if the seam owes it and the last message has the same role, user or assistant; what comes of it is the merge of the two, and anywhere else it stands for itself |
| Merging.DictKept | src/byoai/stages.py:145-243 | Which dicts are kept, and with what role, content, name, id and calls; and which are dropped turns |
| Merging.SavedMessageReadsBack | src/byoai/types.py:48-56 | A message saved as a dict and coerced comes back as saved, is a dropped turn exactly if it was one, and has null content read as text exactly where no live call stands |
| Merging.SavedHistoryCoercesAlike | src/byoai/types.py:48-56 | A whole history coerces alike from the messages and from the dicts they were saved as |
| Coercion.ContentAssociativity | src/byoai/stages.py:246-261 | Merging content is associative if and only if it is not two strings beside a list (on either side) |
| Coercion.MergeAssociativity | src/byoai/stages.py:264-300 | The same condition decides it for whole messages: every other field merges associatively |
| Coercion.AppendMessages | src/byoai/stages.py:303-325 | Appending merges the seam only when one is owed and both sides are the same user or assistant role |
| Seam.SplitCoercion | src/byoai/stages.py:76-90 | For every history and every input, coercing the two apart and joining them with the flag is one pass over both if and only if none of three things happens. A reply is lost: the history ends skipping replies, and the tool items the input opens with hold a well-formed one. A merge comes late: a turn is dropped before the first survivor of the input, none after the last of the history, and the two are of one mergeable role. Contents fuse: the seam is merged and a string meets a string before a list, or a list meets two strings |
| Seam.MessageFoldsAgree | src/byoai/stages.py:246-300 | Merging a message into a left-to-right fold is merging it with the fold if and only if no contents fuse |
| Seam.FoldsAgreeIff | src/byoai/stages.py:246-261 | The same for contents alone, of any number and kind |
| Seam.TextNeverFuses | src/byoai/stages.py:246-261 | With text-or-None content nothing fuses, so only a lost reply or a late merge tells the two ways apart |
| Seam.SplitFailsOnLists | src/byoai/stages.py:246-261 | A concrete history and input with a block list where contents fuse and the two ways differ |
| Seam.SplitFailsOnDrop | src/byoai/stages.py:355-377 | A concrete one with text: an input opening with a dropped turn, merged by one pass and not by the join |
| Seam.SplitLosesReply | src/byoai/stages.py:355-368 | A concrete one with a reply that one pass skips and the join keeps |
| ContextResolver.Resolve | src/byoai/stages.py:69-142 | System prompt, windowed history and normalized input, joined with the trailing-drop flag; the configuration error exactly when the input normalizes to nothing |
| ContextResolver.History | src/byoai/stages.py:93-121 | The last messages of the coerced history from a user message on, and the flag only if something is left |
| ContextResolver.DropUntilValidStart | src/byoai/stages.py:380-398 | The list from its first user message on |
| ContextResolver.WindowMeaning | src/byoai/stages.py:93-121 | The window is the longest end of the coerced history, of at most max_history_messages, that starts at a user message |
| ContextResolver.NormalizedMeaning | src/byoai/stages.py:123-142 | A text is one user message, a message itself, a list what it coerces to; a dict its messages if they come to anything, else its query, else its input, else its prompt |
| ContextResolver.ResolvedIsOnePass | src/byoai/stages.py:69-121 | When some history is sent along, the resolved list is the prompt and then the end, from a user message on, of one pass over history and input together, if and only if no reply is lost, nothing is merged late and no contents fuse |
| ToolResults.WrittenText | src/byoai/stages.py:688-716 | Writing a set of slots changes what exactly those slots read |
| ToolResults.SetWritten | src/byoai/stages.py:705-716 | One setter more is one slot more in the set written: setters do not disturb each other |
| ToolResults.NoWrite | src/byoai/stages.py:688-716 | Writing nothing rebuilds the same tree |
| ToolResults.SlotMeaning | src/byoai/stages.py:688-702 | A text is a slot if and only if it is the content, or in a text part, of a tool_result block of a user turn |
| ToolResults.OthersLeftAlone | src/byoai/stages.py:688-702 | Turns of other roles and blocks of other types are not touched |
| ToolResults.WrittenMarkers | src/byoai/stages.py:650-662 | Rewriting tool_result texts leaves the recursive cache_control count alone |
| SessionDedup.BuildToolNames | src/byoai/stages.py:726-738 | One pass over the blocks builds the map from tool_use ids to names that NameIsLast is about |
| SessionDedup.NameIsLast | src/byoai/stages.py:726-738 | An id has a name if and only if some tool_use block of a turn carries it, and it is the name in the last such block |
| SessionDedup.Messages.TruncateOversized | src/byoai/stages.py:887-904 | Exactly the tool_result texts over 1200 characters are rewritten, each by the rule for its own tool; nothing else in the tree changes |
| SessionDedup.Messages.FindOccurrences | src/byoai/stages.py:919-930 | Every tool_result text over 2000 characters is recorded under its digest and nothing else is, each list in document order |
| SessionDedup.Messages.CollapseRepeated | src/byoai/stages.py:907-932 | Exactly the large texts that occur again later are replaced by the placeholder for their digest, whatever order the digests are worked through; nothing else in the tree changes |
| SessionDedup.SurvivesOnce | src/byoai/stages.py:907-932 | After a collapse each large text survives in full in exactly one slot, the last one that had it; every other copy was earlier and is now a placeholder |
| SessionDedup.LastCopy | src/byoai/stages.py:907-932 | Each large text has a last slot in document order |
| SessionDedup.CollapseReads | src/byoai/stages.py:907-932 | What each slot reads afterwards: the placeholder if its text comes again, otherwise its own text |
| SessionDedup.PlaceholderShows | src/byoai/stages.py:929-932 | The placeholder shows the first eight digits of the digest and depends on nothing else |
| SessionDedup.NameForMeaning | src/byoai/stages.py:890-892 | The rule for a result is that of the tool its tool_use_id names |
| SessionDedup.CollapseAgain | src/byoai/stages.py:907-932 | A second collapse writes nothing |
| SessionDedup.Optimize | src/byoai/stages.py:868-885 | The body afterwards is the old one with its messages truncated and then collapsed, and the two numbers are the estimates of the body before and after |
| SessionDedup.OptimizeBody | src/byoai/stages.py:868-885 | The same with the truncation rules of ToolOutput |
| SessionDedup.OptimizeIsDeterministic | src/byoai/stages.py:830-863 | The outcome depends on the body alone, so a resend is sent the same |
| SessionDedup.OptimizeKeeps | src/byoai/stages.py:868-932 | Every key but messages is untouched, and so is the recursive cache_control count |
| SessionDedup.InjectCommutes | src/byoai/stages.py:799-822 | Injecting markers and optimizing commute on the body, and one raises exactly when the other order would |
| PromptCache.Inject | src/byoai/stages.py:799-822 | The in-place edits amount to marking system and then tools, or raise on a last item that is not a dict; a raise at the tools leaves the system prompt marked, one at the system prompt leaves the body as it was |
| PromptCache.RaisesIff | src/byoai/stages.py:799-822 | A body with a marker anywhere is left as it is; any other raises if and only if the system prompt or the tools end in something that is not a dict |
| PromptCache.InjectedMarkers | src/byoai/stages.py:799-822 | A body with markers keeps its count; any other ends with one per non-empty system prompt and tool list |
| PromptCache.NeverTooMany | src/byoai/stages.py:665-668 | The count afterwards is at most the larger of the old count and two |
| PromptCache.InjectIsIdempotent | src/byoai/stages.py:799-822 | Injecting twice is injecting once |
| PromptCache.InjectOnlyMarks | src/byoai/stages.py:799-822 | Only system and tools can change, and those only by an ephemeral marker on their last item (a string system prompt becoming its own text block) |
| ToolOutput.TruncatingAgain | src/byoai/stages.py:741-751 | Truncating head and tail twice is the same as once if and only if the text has at most 4000 characters or exactly 4116, where the notice is as long as what it stands for |
| ToolOutput.OneOverGrows | src/byoai/stages.py:741-751 | An input: 4001 characters come out longer than they went in, and a second truncation changes them again |
| ToolOutput.GenericShorterIff | src/byoai/stages.py:741-751 | Head and tail make a text shorter if and only if it has at least 4117 characters |
| ToolOutput.LogShorterIff | src/byoai/stages.py:754-769 | A long log gets shorter if and only if it has no error lines, or its last 25 joined are more than 82 characters shorter than it |
| ToolOutput.ShorterIff | src/byoai/stages.py:741-769 | Of the outputs over 1200 characters exactly these get shorter: log-like ones under the last condition, others from 4117 characters on |
| ToolOutput.OneErrorLineGrows | src/byoai/stages.py:754-769 | An input: a long log that is one error line comes out whole with the notice below it |
| ToolOutput.UnnamedStays | src/byoai/stages.py:741-769 | An input: from a tool without a name, up to 4000 characters stay as they are |
| ToolOutput.StaysIff | src/byoai/stages.py:741-769 | Of the outputs over 1200 characters exactly these stay as they are: from tools that are not log-like those up to 4000 characters, and those already truncated |
| ToolOutput.LogStays | src/byoai/stages.py:754-769 | A long log stays as it is if and only if it has been pruned already |
| ToolOutput.CommasInjective | src/byoai/stages.py:741-751 | Counts with thousands separators are told apart |
| ToolOutput.PrunedLogLines | src/byoai/stages.py:754-769 | A long log with error lines splits afterwards into exactly its last 25 error lines, a blank line and the notice |
| ToolOutput.LogKeepsStart | src/byoai/stages.py:767-769 | A long log without error lines keeps exactly its first 600 characters |
| ToolOutput.GenericKeepsEnds | src/byoai/stages.py:741-751 | A long output of another tool keeps exactly its first and last 2000, with the count of those left out between them |
| ToolOutput.LogToolMeaning | src/byoai/stages.py:675-680 | A tool is log-like if and only if its name in lower case holds one of the listed words |
| ToolOutput.ErrorLineMeaning | src/byoai/stages.py:760-761 | A line is an error line if and only if it holds one of the four markers |
| ToolOutput.LinesRoundTrip | src/byoai/stages.py:754-769 | Splitting into lines and joining are inverse |
| PrivateKeys.RedactPrivateKeys | src/byoai/browser_extension/shield-core.js:145-170 | The memoised forward-only END search writes the same output as one that searches afresh from every accepted header. Over the whole run no position is compared with the END token twice, so the searches compare at most as many positions as the text has, and no END candidate is tried twice |
| PrivateKeys.KeysCovered | src/byoai/browser_extension/shield-core.js:137-170 | By positions: every header that lies in no earlier key starts one, which runs to the end of the first END line after the header if that starts within 8192 characters, and otherwise is the header alone; and every key replaced is that of a header |
| PrivateKeys.SearchEnd | src/byoai/browser_extension/shield-core.js:159-165 | The search finds the first END line at or after the header's end, comparing and trying only new positions |
| PrivateKeys.SearchStands | src/byoai/browser_extension/shield-core.js:159-166 | What an earlier search found (or that it found none) still holds for every later start up to it |
| PrivateKeys.PiecesTile | src/byoai/browser_extension/shield-core.js:149-169 | Kept slices and replaced spans tile the text, so replacing each span by itself returns the text |
| PrivateKeys.PlaceholdersTellApart | src/byoai/browser_extension/shield-core.js:118-130 | Two values get the same placeholder exactly when they are the same value |
| PrivateKeys.Numbering.Number | src/byoai/browser_extension/shield-core.js:124-128 | Values are numbered from 1 as first seen, and keep their number |
| ShieldBody.Redactor.RedactText | src/byoai/browser_extension/shield-core.js:118-135 | All rules in turn on one text: new values are numbered by first sight, the result is the text redacted under the numbering reached, and the rules recorded are exactly those that replaced something |
| ShieldBody.Redactor.WalkNode | src/byoai/browser_extension/content.js:158-172 | The walk over the tree, threading one numbering through the leaves in order, leaves the tree each leaf would give under the final numbering; ids, inline payloads and anything nested deeper than 64 stay as they are |
| ShieldBody.RedactJsonBody | src/byoai/browser_extension/content.js:183-192 | Each leaf of the output is redacted under one numbering of the whole body, which numbers every replaced value from 1 under its label in the order the leaves are visited; the rules reported are exactly those that replaced something, and with none the original string is sent |
| ShieldBody.NoHitNoRewrite | src/byoai/browser_extension/content.js:190 | When no rule hits, the rewritten tree is the tree |
| ShieldBody.TextStays | src/byoai/browser_extension/shield-core.js:118-135 | Later numbering never changes how an earlier text was redacted |
| ShieldBody.NodeAgrees | src/byoai/browser_extension/content.js:158-172 | The rewritten tree depends on the leaves only, and is the same tree if no leaf changes |
| ShieldBody.ItemsPointwise | src/byoai/browser_extension/content.js:164-172 | Arrays keep their length and order, each item on its own |
| ShieldBody.FieldsPointwise | src/byoai/browser_extension/content.js:164-172 | Objects keep their keys and order, each value on its own |
| ShieldBody.HitsApply | src/byoai/browser_extension/shield-core.js:118-130 | A rule is reported if and only if it is asked for, not flag-tier, and something it matches passes its validator |
| ShieldBody.RuleByRule | src/byoai/browser_extension/shield-core.js:118-135 | The rules go over a text in order, each over what the one before left; one that is not asked for or is flag-tier leaves it alone |
| ShieldBody.EveryLeaf | src/byoai/browser_extension/content.js:158-172 | At any path of a body, a string within 64 levels that is no id or payload of its key is redacted; every other string, number, boolean and null is as it was |
| ShieldBody.SeeValueMeaning | src/byoai/browser_extension/shield-core.js:124-128 | A new value takes the next number under its label, and no other number changes under any label |
| ShieldBody.CutsAreValid | src/byoai/browser_extension/shield-core.js:118-170 | A rule that cuts at its matches, or as the private key search does, gives pieces that tile the text, which is all the results on a body ask of a rule |
| CheckDigits.Luhn | src/byoai/browser_extension/shield-core.js:56-66 | 13 to 19 digits, after removing everything else, whose weighted sum from the right is a multiple of ten |
| CheckDigits.KnownNumbers | src/byoai/browser_extension/shield-core.js:56-66 | Zeros and then 18 are valid for exactly the lengths 13 to 19, and zeros and then 81 never: the last digit but one is doubled |
| CheckDigits.LuhnSubstitution | src/byoai/browser_extension/shield-core.js:56-66 | Every single-digit substitution in a valid number is rejected |
| CheckDigits.LuhnTransposition | src/byoai/browser_extension/shield-core.js:56-66 | An adjacent transposition in a valid number passes if and only if the digits are equal or are 0 and 9 |
| CheckDigits.Iban | src/byoai/browser_extension/shield-core.js:67-76 | After white space is removed and the rest upper-cased, the digit-by-digit remainder is that of the whole expanded and rotated number mod 97, compared with 1 |
| CheckDigits.MiddleDecides | src/byoai/browser_extension/shield-core.js:71-75 | Replacing any middle part of the rotated string by one of the same width keeps the remainder if and only if the parts agree mod 97 |
| CheckDigits.RotatedSubstitution | src/byoai/browser_extension/shield-core.js:71-75 | One letter for another or one digit for another always changes the remainder |
| CheckDigits.RotatedTransposition | src/byoai/browser_extension/shield-core.js:71-75 | Swapping neighbours of the rotated string goes unnoticed if and only if they are equal or 1/B, 2/M or 3/X |
| CheckDigits.IbanSubstitution | src/byoai/browser_extension/shield-core.js:67-76 | A valid number with one character mistyped for another of its kind is rejected |
| CheckDigits.IbanTransposition | src/byoai/browser_extension/shield-core.js:67-76 | Swapping any two neighbours of a valid number passes if and only if they are equal, or past the fourth place are one of those pairs; across the fourth place, which the rotation sends to the two ends, it is always noticed |
| CheckDigits.BlindSwapPasses | src/byoai/browser_extension/shield-core.js:67-76 | An input: a valid number and a neighbour swap of it, past the fourth place, that is valid too |
| CheckDigits.PowersDiffer | src/byoai/browser_extension/shield-core.js:71-75 | No power of ten up to an IBAN's expanded length is 1 mod 97 |
| CheckDigits.EndsSwapped | src/byoai/browser_extension/shield-core.js:71-75 | Different digits swapped between the two ends of the rotated string change the remainder |
| Worker.EveryRunIsSafe | src/byoai/workers.py:270-342 | On every interleaving of loop, jobs and stop: free permits + unreleased jobs + the permit the loop holds = concurrency; the counters account for every job; each job runs once, is stored after it ran and acked after it was stored; unfinished jobs are in flight |
| Worker.ReturnedMeansFinished | src/byoai/workers.py:249-310 | When run() has returned without giving up on a drain, every popped job ran once and is finished, processed + failed = popped, acks + errors = popped, and every permit is free |
| Worker.AckedOnlyAfterStored | src/byoai/workers.py:331-342 | At no point of any run is a job acked whose result is not stored, nor are more than concurrency jobs unfinished |
| Worker.NoTimeoutNoGivingUp | src/byoai/workers.py:249-262 | Without a shutdown timeout no drain gives up |
| Worker.LeftUnfinished | src/byoai/workers.py:249-310 | Once run() is over a job can be unfinished only because a pop raised or a drain gave up |
| Worker.RaisingLeavesAJob | src/byoai/workers.py:298-310 | A concrete run: a pop that raises ends run() without a drain, a job still unfinished |
| Worker.GivingUpLeavesAJob | src/byoai/workers.py:253-262 | A concrete run: a drain that gives up leaves one |
| Worker.StopTakesAtMostOneMore | src/byoai/workers.py:286-310 | After stop() at most one more job is popped, and none if the loop was not already past its check |
| WorkerRuns.WhyReturned | src/byoai/workers.py:263-310 | On every run that has returned there is one event at which it did: a stop had been asked for, or it runs until idle and that event was a pop that found nothing with nothing in flight. Without a stop it is the latter, so a run not until idle goes on until stop() |
| WorkerRuns.EmptyPop | src/byoai/workers.py:298-305 | A pop that finds nothing returns if and only if the run is until idle with nothing in flight, drains what is in flight if it is until idle, and otherwise goes on; the permit is free again |
| WorkerRuns.EmptyRoundChangesNothing | src/byoai/workers.py:286-305 | Not until idle, a whole round on an empty queue leaves the worker exactly as it was |
| WorkerRuns.IdleRoundLooksAgain | src/byoai/workers.py:249-305 | Until idle, such a round waits for exactly what is in flight and then looks at the queue again |
| WorkerRuns.StopGetsThrough | src/byoai/workers.py:276-297 | A stop reaches a loop that waits for a permit, which leaves at once with no permit held |
| WorkerRuns.JobsFollowTheirSteps | src/byoai/workers.py:312-342 | On every run each job is where its own steps brought it, processed and failed count the jobs that executed well and badly, acks and errors those that got through to the queue and those that did not |
| WorkerRuns.DiscardedStaysOut | src/byoai/workers.py:306-308 | A finished job whose callback has run is never in flight again |
| Worker.RuntimeWorker.AfterWait | src/byoai/workers.py:288-297 | A stop seen while waiting gives an acquired permit back |
| Worker.RuntimeWorker.AfterPop | src/byoai/workers.py:298-307 | A job takes over the loop's permit; an empty queue gives it back and may end or drain an until-idle run |
| Worker.RuntimeWorker.Process | src/byoai/workers.py:312-342 | One await of a job: run, store, ack, with the permit released whatever fails |
| Worker.RuntimeWorker.RequestStop | src/byoai/workers.py:344-345 | stop() only sets the event |
| Worker.RuntimeWorker.CheckStopping | src/byoai/workers.py:286 | The loop goes on, or leaves for the final drain |
| Worker.RuntimeWorker.Acquire | src/byoai/workers.py:287 | A free permit passes to the loop |
| Worker.RuntimeWorker.DrainEnds | src/byoai/workers.py:249-262 | A drain ends when every awaited job is finished, or gives up on its timeout |
| StreamQueue.RedisStreamQueue.Pop | src/byoai/workers.py:174-196 | Popped and buffered jobs are, in order, what was kept of everything the group handed out; the buffer never outgrows the prefetch; a malformed payload raises |
| StreamQueue.AllBuffered | src/byoai/workers.py:174-196 | Everything handed out reaches the buffer if and only if every payload handed out is JSON |
| StreamQueue.AllServedIff | src/byoai/workers.py:174-196 | Everything handed out is popped, in order, if and only if every payload is JSON and nothing waits in the buffer |
| StreamQueue.AllFinishedIff | src/byoai/workers.py:95-97 | After a run that returned without giving up on a drain, every entry handed out has been worked through if and only if every payload is JSON and nothing waits in the buffer |
| StreamQueue.MalformedHidesRest | src/byoai/workers.py:187-195 | A batch adds its jobs up to the first payload that is not JSON, which keeps the rest of it from the buffer |
| StreamQueue.StopsEarly | src/byoai/workers.py:174-196 | A run: two good entries fetched at once and one pop leave an entry handed out in the buffer, which is where a stop() after that pop leaves it |
| HashStore.InMemoryHashStore.GetSession | src/byoai/session_hash.py:95-106 | The store after a touch: a live session is marked, a missing or stale one starts empty and the oldest may be evicted |
| HashStore.InMemoryHashStore.PruneSessions | src/byoai/session_hash.py:87-93 | Least recently touched sessions go until the cap is met |
| HashStore.InMemoryHashStore.IsDuplicate | src/byoai/session_hash.py:108-109 | True exactly when the session is live and holds the hash; a query touches the session |
| HashStore.InMemoryHashStore.Add | src/byoai/session_hash.py:111-121 | A hash already there keeps its place; a new one may push out the first seen |
| HashStore.CapsHold | src/byoai/session_hash.py:87-121 | Over every history sessions and hashes per session stay within their caps |
| HashStore.SessionsHoldWindows | src/byoai/session_hash.py:95-121 | Over every history a session holds exactly the FIFO window of what was added to it since its last reset or eviction; other sessions do not matter |
| HashStore.QueryAnswersFromWindow | src/byoai/session_hash.py:108-121 | A query says duplicate if and only if the session is live and the hash is in that window |
| HashStore.WindowMeaning | src/byoai/session_hash.py:111-121 | The window holds only what was added, and all of it, by first sight, while it fits the cap |
| HashStore.FirstSeenGoesFirst | src/byoai/session_hash.py:111-121 | A full window lets go of the hash seen first, for a new one only |
| HashStore.SeenUntilStale | src/byoai/session_hash.py:95-109 | A hash just added is a duplicate until the session is older than its time to live, and not after |
| HashStore.NamedSessionStays | src/byoai/session_hash.py:87-106 | With a clock that does not run backwards the session an operation names is never evicted by it |
| HashStore.EvictsOldest | src/byoai/session_hash.py:87-93 | An evicted session was touched no later than any that stays |
| HashStore.NothingEvictedInVain | src/byoai/session_hash.py:87-106 | Nobody is evicted while there is room, or for a session that is already there |
| MemoryCache.MemoryCache.Get | src/byoai/cache/memory.py:42-50 | The live value, or nothing; an expired entry is removed |
| MemoryCache.MemoryCache.Set | src/byoai/cache/memory.py:52-62 | The entry goes to the end and the oldest writes fall off; a non-positive TTL writes nothing |
| MemoryCache.MemoryCache.Delete | src/byoai/cache/memory.py:64-65 | Afterwards the key reads as absent at any time, every other key reads as before, and the keys stay distinct |
| MemoryCache.AfterDelete | src/byoai/cache/memory.py:64-65 | The same of the store a removal leaves |
| MemoryCache.GetAfterSet | src/byoai/cache/memory.py:42-62 | A get after a set sees the value until it expires, other keys keep theirs or are evicted, and the cap holds |
| MemoryCache.OldestGoFirst | src/byoai/cache/memory.py:52-62 | Another key keeps its value if and only if it and those written after it fit beside the new one |
| MemoryCache.GetRemovesExpired | src/byoai/cache/memory.py:42-50 | A get removes an entry if and only if it has expired, and changes no other read |
| MemoryCache.FullKeysInside | src/byoai/cache/memory.py:39-40 | Every key is kept inside the namespace, and one that is in it already stays as it is |
| MemoryCache.FullKeysApart | src/byoai/cache/memory.py:39-40 | Keys of one length stay apart under the namespace |
| ResponseCache.Runtime.Execute | src/byoai/runtime.py:240-270 | In whatever cache state earlier requests, expiries and evictions left, a caller gets the answer it would get without a cache; from the cache exactly when a live entry is there, and saved exactly when fresh, non-empty and keyed; every entry stays a non-empty answer to a request with its key |
| ResponseCache.Runtime.ServeAll | src/byoai/runtime.py:240-270 | Over any sequence of requests, clocks and outages every caller gets the answer it would get without a cache |
| ResponseCache.ServeFresh | src/byoai/runtime.py:240-270 | The same from an empty cache of any size and lifetime |
| ResponseCache.Runtime.constructor | src/byoai/runtime.py:240-270 | An empty cache meets the invariant the other results need |
| ResponseCache.Runtime.LookUp | src/byoai/stages.py:447-477 | A key that cannot be computed or a cache that is down means no cache for this request; a hit short-circuits with the saved answer |
| ResponseCache.Runtime.RunPipeline | src/byoai/pipeline.py:102-120 | Stages run until one short-circuits; the provider is called exactly when there was no hit |
| ResponseCache.Runtime.WriteBack | src/byoai/runtime.py:366-398 | Exactly fresh, non-empty, keyed answers are written; a cache that is down is ignored |
| ResponseCache.HitIsAnswer | src/byoai/stages.py:426-477 | A hit is the provider's own non-empty answer to this request |
| ResponseCache.SameKeyIff | src/byoai/stages.py:414-445 | Two requests share an entry if and only if they have the same messages, model, options but for provider metadata, filters and extra key |
| ResponseCache.SavedAnswerHits | src/byoai/runtime.py:375-398 | Once saved, the same request hits exactly until the entry expires |
| ExtensionQueue.EveryRowIsSomewhere | src/byoai/browser_extension/background.js:341-528 | On every interleaving of captures, overlapping flushes and consent changes each captured row is in exactly one of queue, one batch in flight, delivered or dropped, and queue and batches never exceed 50 |
| ExtensionQueue.WithdrawnIsNeverSent | src/byoai/browser_extension/background.js:407-414 | A row waiting in the queue when consent is withdrawn is never delivered on any continuation |
| ExtensionQueue.NeverSentIff | src/byoai/browser_extension/background.js:407-414 | Of the rows captured before a withdrawal, those never sent on any continuation are exactly those then in the queue or dropped already; those in flight can be |
| ExtensionQueue.FailedWhileOff | src/byoai/browser_extension/background.js:511-515 | A batch that fails while consent is off is dropped with the queue |
| ExtensionQueue.PutBackIff | src/byoai/browser_extension/background.js:510-516 | On every run a row of a failed batch goes back to the queue if and only if consent is on and it is among the last 50 of batch and queue; otherwise it is dropped |
| ExtensionQueue.InFlightCanBeRetried | src/byoai/browser_extension/background.js:488-516 | A concrete run: a batch already in flight at a withdrawal is put back and sent once consent is given again before it fails |
| ExtensionQueue.OffMeansEmptyStep | src/byoai/browser_extension/background.js:282-287 | "Consent off means an empty queue" survives an event if and only if the event is not a late storage echo of a withdrawal with rows waiting |
| ExtensionQueue.LateEcho | src/byoai/browser_extension/background.js:282-287 | A concrete run in which it does fail |
| ExtensionQueue.OffMeansEmptyAlways | src/byoai/browser_extension/background.js:365-377 | If each choice is made after the storage events of the one before have come back, consent off means an empty queue throughout |
| ExtensionQueue.ConsentSettles | src/byoai/browser_extension/background.js:282-377 | Hurried or not, once the storage events are back consent is what the user chose last |
| ExtensionQueue.CaptureDropsOldest | src/byoai/browser_extension/background.js:341-350 | With consent a row goes to the end; with 50 waiting the oldest falls off |
| ExtensionQueue.FlushTakesAll | src/byoai/browser_extension/background.js:488-495 | With consent a flush takes all that waits as one batch in order; without, it drops it |
| ExtensionQueue.ChoiceTakesEffect | src/byoai/browser_extension/background.js:365-377 | A choice takes effect at once, a withdrawal drops what waits, and the change comes back as an event |
| ExtensionQueue.Background.OnCapture | src/byoai/browser_extension/background.js:341-350 | Nothing is queued without consent; the oldest rows fall off beyond the cap |
| ExtensionQueue.Background.SetConsentTo | src/byoai/browser_extension/background.js:365-377 | A withdrawal drops everything waiting at once |
| ExtensionQueue.Background.BeginFlush | src/byoai/browser_extension/background.js:488-495 | The queue becomes the batch, or is dropped without consent |
| ExtensionQueue.Background.FlushFailed | src/byoai/browser_extension/background.js:510-516 | The batch goes back in front within the cap, or is dropped without consent |
| ExtensionQueue.Background.FlushPosted | src/byoai/browser_extension/background.js:501-509 | A posted batch is delivered, whatever happened to consent meanwhile |
| ExtensionQueue.Background.OnChanged | src/byoai/browser_extension/background.js:282-287 | A storage event sets consent and drops nothing |
| Witness.WarnsWhenShorter | src/byoai/browser_extension/background.js:154-172 | From an accepted record there is a warning if and only if some report is shorter than the one before; without one the witness is the last report |
| Witness.WarningSticks | src/byoai/browser_extension/background.js:154-172 | The warning names the first shortening, and later reports do not change it |
| Witness.WitnessStore.NoteWitness | src/byoai/browser_extension/background.js:154-172 | One serialized check: compare, then flag or raise the witness |
| Witness.WitnessStore.AcceptRecord | src/byoai/browser_extension/background.js:174-181 | Accepting moves the witness and clears the flag |
| HeldSend.DecidedOnce | src/byoai/browser_extension/content.js:245-269 | On every run each held send is waiting or decided, never both and never twice |
| HeldSend.LateIsIgnored | src/byoai/browser_extension/content.js:262-269 | For a decided or unknown id no answer and no timer changes anything |
| HeldSend.TimeoutCancels | src/byoai/browser_extension/content.js:248-252 | The timer of a send still waiting cancels it |
| HeldSend.AlwaysTimed | src/byoai/browser_extension/content.js:247-269 | A timer runs for exactly the sends that wait, and none waits without a relay |
| HeldSend.SentOnlyAsChosen | src/byoai/browser_extension/content.js:313-344 | By the one event that decides a send: nothing leaves on a cancel or the timer; its own body under keep on the answer sent; its own body under all its names on redacted or removed, and when the relay goes or is found gone; and no other event decides it |
| HeldSend.AnswerDecides | src/byoai/browser_extension/content.js:263-269 | A listed answer decides the send that waits for it, as it says |
| HeldSend.GoneDecidesAll | src/byoai/browser_extension/content.js:258-261 | When the relay goes every waiting send is decided no_relay, oldest first |
| HeldSend.ContentScript.OnRelayGone | src/byoai/browser_extension/content.js:258-261 | Every waiting send is decided no_relay, oldest first |
| HeldSend.ContentScript.AskUser | src/byoai/browser_extension/content.js:248-256 | Without a relay the answer is no_relay at once; otherwise the send waits with a timer |
| HeldSend.ContentScript.OnAnswered | src/byoai/browser_extension/content.js:263-269 | An unknown id or a choice not on the list is ignored |
| HeldSend.ContentScript.OnTimer | src/byoai/browser_extension/content.js:252 | The timer cancels the send it belongs to, if that still waits |
| RunPlan.PlanRuns | examples/agent_showcase/backfill.py:100-130 | Raises exactly when some agent's slots outnumber its pool, for the first such agent; otherwise every agent's slots, earliest first and with its cases as dealt, sorted by time and id |
| RunPlan.PlanIsSound | examples/agent_showcase/backfill.py:111-130 | A plan that does not raise is in order of time, has each agent's slots as runs (one at most without a pool), and deals no case of a pool twice |
| RunPlan.AgentRunsAtItsSlots | examples/agent_showcase/backfill.py:112-128 | An agent with a pool runs at exactly its slots, earliest first, the j-th with the j-th case dealt |
| RunPlan.AgentRunsOnce | examples/agent_showcase/backfill.py:114-118 | Without a pool it runs once, at the last of its slots |
| RunPlan.SlotsAreDrawn | examples/agent_showcase/backfill.py:103-109 | The slots of an id are at the times drawn for its agents on the days of the plan, and no others |
| Backfill.SlotsBound | examples/agent_showcase/backfill.py:63-68 | For every number of days, start date and draw, an id's slots stay within max_runs for each agent of that id, with a business day to spare |
| Backfill.PoolsSuffice | examples/agent_showcase/backfill.py:63-130 | With one agent an id and pools of max_runs cases no schedule runs out |
| Backfill.NeverRaisesIff | examples/agent_showcase/backfill.py:100-130 | No draw and no date can make the plan raise if and only if every pool holds its id's top schedule from every weekday: per agent of the id the sum of the rounded top draws over the business days |
| Backfill.SharedId | examples/agent_showcase/backfill.py:63-68 | Two agents of one id with pools of max_runs: for a week some draw overruns them, for a day none does |
| Backfill.FewWeekdays | examples/agent_showcase/backfill.py:92-97 | Any n consecutive days hold at most 5⌊n/7⌋ + min(n mod 7, 5) weekdays |
| Backfill.MondayStretch | examples/agent_showcase/backfill.py:67 | From a Monday, as max_runs counts, it is exactly that many |
| Backfill.RoundIsMonotone | examples/agent_showcase/backfill.py:68 | Rounding half to even is monotone |
| Backfill.RoundMeaning | examples/agent_showcase/backfill.py:68 | To the nearest, and to the even one of two equally near |
| Backfill.WeeksTop | examples/agent_showcase/backfill.py:63-68 | max_runs of every agent for a week |

## Left out

- OpenAiStream.TranslateStream: the message id and the text framing of events are not modelled, and the emitted model name is the requested one.
- OpenAiRequest.TranslateBody: values that are only copied are opaque, and a tool choice without a type is one that nobody knows.
- OpenAiResponse.OpenAiToAnthropic: response ids, and values of an unexpected JSON type, are not modelled.
- Coercion.CoerceMessages: tool calls and raw blocks are opaque strings; only equality and order of them matter.
- SessionDedup.Optimize: the token estimate is a parameter; a turn that is not a dict, or a text that is not a string, raises in Python and is skipped here.
- ToolOutput.PrunedLogLines: log-like output has no length bound when its error lines are long, so none is stated.
- PrivateKeys.RedactPrivateKeys: what the header and END expressions match is a parameter; what one comparison with the END token costs is not counted.
- ShieldBody.RedactJsonBody: what each rule matches, which keys are ids and which values are payloads are parameters; objects iterate in the given field order.
- CheckDigits.Iban: which characters are white space and what upper-casing does are parameters.
- Worker.ReturnedMeansFinished: assumes no cancellation from outside; a drain that gave up is excluded because its jobs may still run.
- StreamQueue.RedisStreamQueue.Pop: the server is a parameter that never hands an entry to this consumer twice; publishing, trimming and group creation are left out.
- HashStore.NamedSessionStays: needs a clock that does not run backwards and room for one session.
- ResponseCache.Runtime.Execute: covers requests one after another; the invariants on the context do not mention the cache, so other requests may run in between. A bare string in the cache, which the runtime never writes, can be read but not served under the invariant. Usage, raw responses and events are left out.
- ExtensionQueue.EveryRowIsSomewhere: storage calls succeed and the worker is not restarted; timers and alarms only decide when a flush starts, and a flush may start at any time.
- Witness.WitnessStore.NoteWitness: re-pairing with another Shield starts a fresh store and is not an event.
- HeldSend.SentOnlyAsChosen: ids are taken from a counter, so they never repeat; held files use the same waiting map but their own outcome, which is not modelled.
- RunPlan.PlanRuns: times within a day and the order in which cases are sampled are parameters; weights and rounding are in exact hundredths, and no weight times a table count falls on a half.
- RedisHashStore, the semantic cache, streaming execution and retrieval: not modelled, because what they answer depends on services outside the code.
- Pipeline.add, remove and replace: not modelled; they edit the stage list before any request runs.
- Restoring the extension queue after a worker restart, badges and the popup: not modelled.
- HTTP proxying, the ledger, the mandate gate, user interface and demo code: not modelled.
