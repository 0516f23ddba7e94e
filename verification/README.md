# Verified model of go-gemini-sdk

The SDK drives a Gemini CLI process over JSON-RPC. This project models the parts of it that carry
its own logic and proves what they promise:

- `JsonRpc`, `Delivery`, `Closing`, `Connection` — the JSON-RPC connection. `JsonRpc` is a step system
  whose steps are the sections run under a lock and the operations on channels; callers, the read loop
  and a shutdown interleave freely, and every sequence of steps is a run. `Connection` is the object,
  whose methods are proved to be runs of those steps in the source's order.
- `ReadLoop` — which messages are dispatched, and the bounded channel that carries notifications.
- `Turn`, `Confluence`, `TurnRuns` — one response turn, the two signals that end it in either order, and
  all the client's turns with the slot of the active one, again over every interleaving.
- `Wildcard`, `Rules`, `Paths`, `Args`, `Policy`, `Verdicts`, `Permission` — the permission policy, from rule texts and
  tool arguments to the reply: the wildcard-to-regex translation, the rule syntax, path normalisation,
  the paths read from a JSON tree in any visiting order, the decision and its laws, the chosen option.
  `Verdicts` says the decision on its inputs.
- `StderrTail`, `Query` — the bounded tail of standard error and the forwarding loop of a query.
- `Text`, `Platform` — Go's string functions, and the functions of other packages the policy calls. The latter
  are fields of a `World` and stay uninterpreted: case folding, the shell parser and printer,
  `doublestar.Match` and the working directory. Results hold for every `World`.

Channels are sequences with a closed flag. Closing or sending on a closed channel sets a `panicked` flag
rather than being forbidden, so that its absence is a theorem about runs. Maps are visited by picking any
key left, and a `select` by picking any branch that is ready. Identifiers, keys and counters are
mathematical; the 64-bit wrap of the request counter is written out.

Places where the code does less than one might expect, each with its exact condition:

- A normalised path that ends in white space changes when it is normalised again, as path matching does
  (`Paths.RenormalizeIff`, `Paths.RenormalizeExample`).
- The id in a permission reply is checked after trimming but returned as the callback wrote it
  (`Permission.ReplyIsOfferedIff`, `Permission.ReplyIsOfferedExample`); the policy's own callback returns it trimmed.
- Where a prompt result falls among a turn's events can matter (`Confluence.AckCommutesIff`): without a stop
  reason it can change the turn id of the result message (`Confluence.AckCommutesExample`); with one it ends the
  turn there and drops the events after it (`Confluence.StopReasonEndsTurn`, `Confluence.StopReasonExample`).
- A handler sends after it has released its lock, and the channels may be closed by then. A turn that has not
  panicked can panic exactly when a handler has something to send while another handler closes the channels or
  something has begun to (`TurnRuns.LateSendIff`), which needs no failure (`TurnRuns.LateSendExample`). Without
  one, only messages of events can be lost so, never the result (`TurnRuns.ResultPrecedesClose`).

## Model

| member | source | states |
|---|---|---|
| JsonRpc.StepKeepsInv | jsonrpc.go:122-193 | every step of every actor keeps the ownership invariant: a channel is in the map, with the read loop, or with the shutdown, never with two |
| JsonRpc.ChannelsAreSafe | jsonrpc.go:300-311 | in every interleaving no response channel is closed twice or sent to after closing, and the non-blocking send never drops |
| JsonRpc.AnswerCarriesID | jsonrpc.go:39-41 | a response under the numeral of an id, as the request was sent, is found under that numeral |
| JsonRpc.ResponsesAreCorrelated | jsonrpc.go:167-192 | a call returns only with a response whose id is the numeral of the id it drew, and no call has two responses accepted |
| JsonRpc.AdmitChecksDone | jsonrpc.go:126-130 | a new call on a closed connection ends at once with the recorded cause, and is admitted otherwise |
| Delivery.KeysCollideIff | jsonrpc.go:137-148 | two draws of the 64-bit counter have the same decimal key exactly when they are a multiple of 2^64 apart |
| Delivery.RunKeysAreDistinct | jsonrpc.go:137-152 | in a run of fewer than 2^64 draws the keys of different calls differ |
| Delivery.RunLosesNone | jsonrpc.go:150-156 | a registered or waiting call without an accepted response is still in the map, in the map a shutdown took, or has its channel closed by the shutdown |
| Delivery.TakenIsReceived | jsonrpc.go:300-311 | once the read loop has taken a call's entry for a response, then in every interleaving that follows no other response is ever what the call returns with, and while it waits the response is ready or about to be sent |
| Delivery.ResponseIsDelivered | jsonrpc.go:167-192 | a response under the numeral of the id a waiting call drew is accepted, and the same holds for it in every continuation of the run |
| Delivery.AnswerIsDelivered | jsonrpc.go:137-152 | in particular the answer under the very id the request was sent with |
| Delivery.AcceptedIsClosed | jsonrpc.go:305-310 | between two messages of the read loop the channel of every call a response was accepted for is closed |
| Delivery.StrayResponseIsIgnored | jsonrpc.go:302-305 | a second response, or one after a cancellation or a failed write, changes nothing |
| Delivery.UnknownResponseIsIgnored | jsonrpc.go:302-305 | in every run, a response whose id is the numeral of no id a call drew changes nothing |
| Closing.CauseIsFirst | jsonrpc.go:369-371 | the recorded cause is that of the first shutdown of the run, whatever later shutdowns pass |
| Closing.CauseIsNormalized | jsonrpc.go:393-402 | a missing cause and one that wraps an end of file become a closed pipe, any other stays |
| Closing.InactiveErrorIsFirstCause | jsonrpc.go:393-411 | every error from an inactive branch is the first cause, or a closed pipe if that is missing or wraps an end of file |
| Closing.EmptyReceiveMeansShutdown | jsonrpc.go:174-177 | a channel found closed and empty was closed by a shutdown, and its cause is returned |
| Closing.NoWaiterIsStuck | jsonrpc.go:172-173 | once `done` is closed every waiting call can return with the cause |
| Closing.ShutdownCanStep | jsonrpc.go:377-386 | a shutdown that has begun always has a next step of its own, and a bounded number of them |
| Closing.WaiterReturnsAfterShutdown | jsonrpc.go:369-391 | from any state of a begun shutdown its own steps close `done`, after which a waiting call, however late it registered, returns the cause |
| Connection.Conn.RemovePending | jsonrpc.go:426-435 | exactly the entry of the key leaves the map and is returned |
| Connection.Conn.SetCloseErr | jsonrpc.go:393-402 | only the first cause is kept, a missing one and an end of file becoming a closed pipe |
| Connection.Conn.InactiveError | jsonrpc.go:404-411 | the kept cause, or a closed pipe |
| Connection.Conn.BeginCall | jsonrpc.go:122-165 | nothing for an empty method name; else the call is the run admit, draw, register, write, with removal after a failed write, or stops at the first obstacle; the request handed to the writer carries method and parameters under the registered id |
| Connection.Conn.Wait | jsonrpc.go:167-193 | whichever ready branch is taken, the call ends by the steps of that branch |
| Connection.Conn.DispatchResponse | jsonrpc.go:300-311 | take, send and close for a registered key, and only the lookup otherwise |
| Connection.Conn.Shutdown | jsonrpc.go:369-391 | the first call records the cause, swaps the map, closes every entry exactly once in any order and then `done`; later calls change nothing |
| ReadLoop.Loop | jsonrpc.go:241-280 | dispatches the longest prefix of acceptable messages and stops with the cause of what follows |
| ReadLoop.LongestPrefixIsLongest | jsonrpc.go:256-267 | that prefix has only messages whose bytes are within the limit, and what follows it is not such a message |
| ReadLoop.RoutesOnFields | jsonrpc.go:269-278 | the four routes, by whether a message names a method and whether it has an id that is not null |
| ReadLoop.NotificationsAreTheOnes | jsonrpc.go:272-273 | the notifications among messages are exactly those with a method and without an id |
| ReadLoop.NotificationsAreForwarded | jsonrpc.go:292-298 | in every run, until an outside shutdown, notifications consumed, buffered and waiting are those dispatched, in order; never more than 128 are buffered; one waits exactly while the buffer is full, and something can always happen |
| Turn.MessageTellsOfEvent | message.go:67-106 | an event yields a message exactly when the message has its ids and the content its kind calls for |
| Turn.EventEndsTurn | turn.go:55-78 | the events that end a turn are those marked done and those of the kinds completed and error; with the prompt's result in, such an event closes the handle with a result whose fields are given |
| Turn.TurnHandle.TryCloseLocked | turn.go:118-130 | a result is made exactly when the handle is open and both signals are in |
| Turn.TurnHandle.LockedEvent | turn.go:59-78 | the locked section of an event: new fields, its message, and a result exactly when it closes the handle |
| Turn.TurnHandle.LockedResult | turn.go:92-106 | the locked section of a prompt result |
| Turn.TurnHandle.HandleEvent | turn.go:55-87 | for handlers taken one at a time: on an open handle sends the message and, if the event ends an acknowledged turn, the result, and closes; nothing once closed; panics exactly if the channels were closed before it and it has something to send |
| Turn.TurnHandle.HandlePromptResult | turn.go:89-112 | for handlers taken one at a time: sends the result and closes when the terminal event is already in or there is a stop reason; panics exactly if the channels were closed before it and it completes the turn |
| Turn.TurnHandle.Close | turn.go:132-144 | only the first call counts: at most one error, then all three channels closed |
| Turn.TurnHandle.Fail | turn.go:114-116 | the error is delivered unless the handle was closed before |
| Confluence.PlayInserted | turn.go:55-130 | wherever the prompt result falls, the messages are the mapped events in order and one result, whose fields are given |
| Confluence.AckCommutesIff | turn.go:89-112 | the messages do not depend on where the prompt result falls exactly when its turn id agrees with the events or, with a stop reason, when the events say nothing a result before them would miss |
| Confluence.AckCommutesExample | turn.go:97-99 | two turn ids: the one that comes last is reported |
| Confluence.StopReasonEndsTurn | turn.go:100-105 | with a stop reason, wherever the prompt result falls: exactly the messages of the events before it and one result, whose ids, reason and error are given |
| Confluence.StopReasonExample | turn.go:100-105 | the same turn keeps its message or loses it, by where the prompt result falls |
| TurnRuns.TurnsEndOnce | turn.go:55-144 | over all interleavings with any number of failures and closes: one result if both signals are in and none otherwise, which is sent once or still with its handler; each channel closed at most once; the error fits its buffer; a send panics only once the messages channel is closed |
| TurnRuns.LateSendIff | turn.go:78-86 | a reachable turn can go on to panic exactly when a handler is late: it has something to send, and a close has begun or another handler is to close |
| TurnRuns.LateSendExample | turn.go:78-86 | a run without a failure that panics: a prompt result with a stop reason overtakes a text on its way |
| TurnRuns.ResultPrecedesClose | turn.go:83-86 | in runs without failures a close begins only after the one result was sent, and there is no error |
| TurnRuns.FailureIsReported | turn.go:114-144 | the error of a failure on a turn nothing has begun to close is the only one ever reported, and is there once the close ends |
| TurnRuns.InputResults | turn.go:118-130 | a locked section makes a result exactly when it closes the handle, which both signals do |
| TurnRuns.SignalsNeverRevert | turn.go:97-103 | the two signals, the closed mark and a completed close never revert |
| TurnRuns.HandlerIsARun | turn.go:55-112 | a handler run without interruption is the one-step handler, the panic included |
| TurnRuns.TurnRunIsARun | turn.go:55-144 | a turn's own steps lead to the same turn in the client's run |
| TurnRuns.SlotMoves | client.go:570-598 | over every run, what each step does to the slot: from none to a new turn when one begins, back to none when the active turn is released or its close ends, else nothing |
| TurnRuns.LaterIsNewer | client.go:570-598 | a turn that is active later in a run is the same or a newer one |
| TurnRuns.OnlyItsOwnReleaseClears | client.go:592-598 | only the active turn's own release or close clears the slot; a late release of another never does |
| TurnRuns.ClosedTurnIsNeverActive | turn.go:140-142 | after a turn's close has completed, no continuation makes it active |
| TurnRuns.ActiveTurn.BeginTurn | client.go:570-590 | refused when not connected or while a turn is active; otherwise a new turn takes the slot |
| TurnRuns.ActiveTurn.ReleaseTurn | client.go:592-598 | clears the slot only for the active turn |
| Wildcard.RewriteIsTranslation | policy/parser.go:688-690 | quoting and the two replacements translate the pattern character by character |
| Wildcard.CompileIsCorrect | policy/parser.go:688-695 | the expression always compiles and accepts exactly the wildcard's strings, newlines excepted |
| Wildcard.GlobMatchIsWild | policy/parser.go:678-696 | the matcher decides the folded, trimmed wildcard relation; a lone star also covers newlines |
| Wildcard.NormalizedWords | policy/parser.go:733-736 | whatever white space stands between words, one space each is left |
| Wildcard.NormalizedHasOnlySpaces | policy/parser.go:733-736 | the only white space left is the space |
| Wildcard.GlobMatchOnCommand | policy/parser.go:428-430 | on normalised commands the newline exception disappears |
| Rules.CanonicalNames | policy/parser.go:387-407 | the names that mean execute, read, edit, delete and nothing; every other name is kept in lower case |
| Rules.CanonicalIsIdempotent | policy/parser.go:387-407 | canonical tool names are trimmed and stay as they are |
| Rules.ParseRuleAccepts | policy/parser.go:100-132 | a rule text is accepted exactly if it is a plain name, or a named tool before a pattern that ends it |
| Rules.ParsedRuleIs | policy/parser.go:100-132 | the rule that `tool(pattern)` and `tool` stand for, a blank pattern being `*` |
| Rules.NormalFormTheorem | policy/parser.go:100-132 | rules with a tool that parsing returns are the normal ones, and printing then parsing gives each back |
| Rules.CompileRuleList | policy/parser.go:88-98 | all rules in order, or the first bad one |
| Paths.NormalizedIsClean | policy/parser.go:605-616 | a normalised target is absolute without empty, `.` or `..` segments |
| Paths.TargetIsAnchored | policy/parser.go:605-616 | it is the cleaned target, under the base directory if relative; blank targets are refused |
| Paths.BaseDirIsClean | policy/parser.go:698-714 | the base directory is absolute and clean whenever there is something to anchor it to |
| Paths.BaseDirIs | policy/parser.go:698-714 | it is the directory given, under the working directory if relative, or the working directory |
| Paths.CleanRelative | policy/parser.go:698-714 | cleaning a relative path leaves steps up and then names, and under any directory it leads to the same place |
| Paths.CleanFixesClean | policy/parser.go:614-615 | cleaning leaves exactly the clean absolute paths alone |
| Paths.CleanDropsSlash | policy/parser.go:614-615 | repeated slashes count as one |
| Paths.CleanStopsAtRoot | policy/parser.go:614-615 | the root is its own parent |
| Paths.DetourIff | policy/parser.go:614-615 | a piece of path leads back to where it starts, wherever that is, exactly when its segments never climb above their start and end there |
| Paths.NormalizeDropsDetour | policy/parser.go:605-616 | such a piece inserted after any slash changes nothing |
| Paths.LastDetourIff | policy/parser.go:605-616 | such a piece at the end changes nothing exactly when the target neither is empty nor ends in white space |
| Paths.FirstDetour | policy/parser.go:605-616 | such a piece before a relative target changes nothing |
| Paths.DotsAreNoOps | policy/parser.go:605-616 | in particular `.` and `x/..`, inside, after and before a target |
| Paths.RenormalizeIff | policy/parser.go:631-639 | normalising again changes nothing exactly when the path does not end in white space |
| Paths.RenormalizeExample | policy/parser.go:631-639 | the target `/a /` is one that changes |
| Args.JoinStringArray | policy/parser.go:497-524 | the strings that are not blank, trimmed and joined |
| Args.StringPartsOf | policy/parser.go:509-519 | item by item, a string that is not blank gives itself trimmed, anything else nothing |
| Args.CommandFieldOrder | policy/parser.go:461-474 | `command` counts before `cmd`, `script`, `argv` and `args`, each if it holds text |
| Args.ShellScriptByShape | policy/parser.go:446-495 | the script for each shape of the arguments, and when there is none |
| Args.TrimQuotesParts | policy/parser.go:494 | quotes come off both ends and nothing else |
| Args.CommandLikeTextByShape | policy/parser.go:648-676 | the text of a generic call for each shape of the arguments |
| Args.PathSetIs | policy/parser.go:526-585 | the candidate paths are the trimmed strings that stand, however deep, under one of the eleven keys |
| Args.FieldsInAnyOrder | policy/parser.go:571-575 | what an object contributes does not depend on which key comes first |
| Args.CollectPaths | policy/parser.go:546-576 | the same multiset of paths in every visiting order |
| Args.CompactStringSlice | policy/parser.go:716-731 | first occurrences of the trimmed values that are not blank |
| Args.CompactContents | policy/parser.go:716-731 | no duplicates, and exactly those values |
| Args.ExtractCandidatePaths | policy/parser.go:526-544 | the set of candidate paths, each once; an error exactly if there are none |
| Policy.ToolCandidates | policy/parser.go:364-385 | the canonical names of kind and tool, in any order, without repetition |
| Policy.MatchesTool | policy/parser.go:333-343 | a rule is about a call if it names `*` or one of its candidates |
| Policy.HasMatchingToolRule | policy/parser.go:324-331 | some rule is about the call |
| Policy.AnyMatches | policy/parser.go:225-237 | some rule hits some command; the same loop serves paths |
| Policy.AllAllowed | policy/parser.go:239-271 | there is something to allow and every subject is hit by a rule; the same loop serves paths |
| Policy.NormalizeTargetPaths | policy/parser.go:587-603 | the set of normalised targets, each once |
| Policy.DecideSubjects | policy/parser.go:165-174 | deny before ask before allow; with nothing to judge, deny if any rule is about the call |
| Policy.Decide | policy/parser.go:134-204 | the decision is one function of call and rules in every visiting order of the maps |
| Policy.JudgeIsMeet | policy/parser.go:225-322 | judging two non-empty lists of commands or paths together is the stricter of judging each |
| Policy.MoreDeny | policy/parser.go:144-146 | adding deny rules changes a decision only to deny |
| Policy.MoreAsk | policy/parser.go:147-149 | adding ask rules only makes a decision stricter |
| Policy.MoreAllow | policy/parser.go:150-153 | adding allow rules never changes a deny, ask or allow |
| Policy.RuleOrderIsIrrelevant | policy/parser.go:206-332 | the order and repetition of rules do not matter |
| Policy.EmptyToolMatchesNothing | policy/parser.go:366-370 | a rule with an empty tool name is about no call |
| Policy.PathMatchOnTarget | policy/parser.go:631-646 | a normalised target without trailing white space is matched as it stands |
| Verdicts.NormalizedCommandsAre | policy/parser.go:421-436 | every command the parser returns is judged, its white space evened out and blank ones dropped, and nothing else |
| Verdicts.ShellVerdict | policy/parser.go:156-175 | the decision on a script, from the commands the parser returns and the rules about the call: when it is deny, ask, allow or none |
| Verdicts.FileVerdict | policy/parser.go:177-204 | the decision on a file call, from the paths in its arguments that have a normal form |
| Verdicts.TextVerdict | policy/parser.go:144-154 | the decision on any other call, from its text; an empty text is covered only by rules without a pattern |
| Verdicts.FailsClosed | policy/parser.go:157-192 | without a script that parses to some command, or without a usable path, the decision is deny exactly if some rule of any list is about the call, and none otherwise |
| Permission.FindOptionByPrefix | policy/handler.go:50-65 | the id of the first option with the prefix, case folded |
| Permission.OptionIDOrder | events.go:67-72 | the id of the current protocol counts before the one of the older protocol |
| Permission.PrefixIsFolded | client.go:465-480 | what it means for an id to carry a prefix |
| Permission.FirstWithPrefix | client.go:465-480 | what is found is offered and has the prefix; nothing is found only if nothing has it |
| Permission.PickSafeFallbackOption | client.go:450-463 | reject before allow before the first id |
| Permission.HasPermissionOption | client.go:482-493 | the trimmed id is one of the effective ids |
| Permission.HandlePermissionRequest | client.go:357-396 | the reply for each choice of the callback |
| Permission.PolicyHandler | policy/handler.go:36-47 | the option chosen for the decision |
| Permission.AnswerWithPolicy | client.go:357-396 | policy and client end to end |
| Permission.PolicyReplyIsFinalID | client.go:380-388 | the check that the id was offered never refuses what the policy chose |
| Permission.PolicyReplyIsSafe | client.go:380-395 | a reply is an offered id, exists exactly if some option has an id, and with a reject option offered starts with `allow_` only on an allow |
| Permission.PolicyReplyCases | policy/handler.go:37-46 | each decision selects the first option it asks for; if none is offered, the first reject option, else the first allow option, else the first with an id |
| Permission.ReplyIsOfferedIff | client.go:376-395 | for any callback, from its choice alone: which reply or refusal is given, which option stands in for a blank choice, and that the id is an offered one exactly when the choice is blank or has no surrounding white space |
| Permission.ReplyIsOfferedExample | client.go:386-394 | a leading space in the choice reaches the reply |
| StderrTail.StderrRing.constructor | transport.go:168-176 | an empty ring, of the default size if none is given |
| StderrTail.StderrRing.Append | transport.go:183-197 | the ring holds the last bytes of everything appended |
| StderrTail.StderrRing.Write | transport.go:178-181 | appends and reports every byte written |
| StderrTail.StderrRing.String | transport.go:199-203 | the tail of the stream, never longer than the ring |
| StderrTail.StderrRing.Drain | transport.go:205-215 | copying chunk after chunk appends the whole stream |
| StderrTail.ChunkingIsIrrelevant | transport.go:183-197 | the contents depend on the stream only, not on how it was cut into chunks |
| Query.Forward | gemini.go:18-56 | the output is a prefix of the turn's messages; at most one error, the context's or the turn's first; without one the output is the whole stream |

## Left out

- TurnRuns.LateSendIff: what the other goroutines do after a panic has ended the process is not modelled; a run may go on after it.
- Turn.MessageTellsOfEvent: the payload of a tool call stays raw text, where the source decodes it.
- Paths.FirstDetour: goes one way, because a target that trimming or the piece before it turns absolute may still lead to the same place by chance of the base directory.
- ReadLoop.NotificationsAreForwarded: says nothing about order or loss after a shutdown from outside, since the source may then drop a notification or send on the closed channel.
- Delivery.ResponseIsDelivered: is for runs of fewer than 2^64 calls, as is every result that needs distinct ids, because the source's counter wraps.
- Query.Forward: the turn's streams are finite and complete; waiting for the next message is not a state.
- The errors channel of the connection, handlers of incoming requests and their replies.
- Decoding of session updates, tool calls and permission requests from JSON; a payload stays raw text.
- Merging of the `permissions` section and decoding of the policy file.
- `regexp` itself beyond the expressions the translation produces, and its limits on the size of an expression.
- The shell parser and printer, `doublestar.Match` and Unicode case folding, which are parameters.
- Strings that are not valid UTF-8, and paths that are not slash-separated.
- Process start, exit and kill, the environment, command-line arguments, temporary files, timeouts as durations.
- Overlapping `Connect` calls, and the inactive branch of `beginTurn`, which locks a mutex it already holds.
