# Prism adapter: a verified model

A Dafny model of the Prism adapter's execution protocol and of the TOTP rotation worker, with
proofs over every run: what the adapter hands to the provider, what it remembers of it, and
what it will never do twice. `dafny verify dfyconfig.toml` checks everything.

| module | what it models |
|---|---|
| `Prelude` | optional values, results, names that are only compared |
| `Json`, `Canonical` | JSON text as `strict_json` reads it and `json.dumps` prints it; key order; digests |
| `Tools`, `History`, `Output`, `Bridge`, `Requests` | the tool bridge: declarations, history, answers, and the whole request |
| `NextTurn`, `ClosedLoop` | how one turn's answer and the next turn's history undo each other, through the bridge and the lease table |
| `Leases` | the durable table of tool calls |
| `StartGate` | the gate in front of the provider in multiplex mode |
| `AdapterRuns` | requests, leases and gates together: at most one execution |
| `Admission`, `Journals`, `Conversations` | three-level admission, pending records of both executor versions, and turns under admission |
| `Polling`, `Contexts` | many turns polling through one page; browser contexts and projects |
| `BrowserMode` | the gate and the polls of browser mode |
| `EventStream`, `Wire` | the event stream of a finished response, as events and as text |
| `Rotation` | replacing a TOTP secret with failure or death at any step |

Concurrent code is modelled as a state machine whose steps are the stretches of code between two
`await`s, system calls or network calls; `IsRun` and `After` speak of every sequence of such
steps. Objects that update fields are classes whose methods are proved to make exactly those
steps; the rotation protocol is a state machine only. SHA-256 is taken to be collision-free, so a
digest is represented by the text that is hashed; random ids are parameters that are assumed new
where the source draws them.

Two things one might expect do not hold and are not claimed. An error raised before anything was
sent does not always release the lease (a deadline arrives as a cancellation), so only "released
implies nothing is executing" is proved. And `reserved` does not mean that the outcome is unknown:
a known failure of the provider leaves rows reserved too.

Two statements one would make are false of the code as it stands.

- The calls of one response are meant to share their state, but the group name is a sanitised
  request id, and two request ids can be sanitised to the same name.
  `Leases.SharedNameSplitsGroup` gives the run of three requests that takes a group apart;
  `Leases.CompleteKeepsGroups` says exactly when `complete` keeps groups together.
- A start gate is meant to have made as many attempts as it saw reconnects, plus one while a start
  is outstanding. But a reconnect is counted before the journal notes it, so if that note fails the
  gate stays shut with the reconnect counted. `StartGate.UnstoredReconnect` gives the run of four
  events; `StartGate.CountersAgreeUnlessUnstored` says that the counters agree after exactly those
  runs in which no note of a reconnect failed.

## Model

| member | source | states |
|---|---|---|
| `Json.ValueRoundTrip` | prism-adapter/tool_bridge.py:28-38 | the reader takes back exactly the printed value and leaves whatever follows it, in both separator styles |
| `Json.DumpsRoundTrip` | prism-adapter/tool_bridge.py:28-38 | `strict_json(json.dumps(v)) == v` for every value without repeated keys |
| `Json.LoadsIsStrict` | prism-adapter/tool_bridge.py:29-38 | what `strict_json` accepts repeats no key at any depth |
| `Json.PrintInjective` | prism-adapter/tool_state.py:12-14 | different values print differently |
| `Canonical.DigestNamesValue` | prism-adapter/tool_state.py:12-14 | two values have one digest if and only if they are equal up to key order at every depth, a relation defined without sorting |
| `Canonical.DigestOfPrinted` | prism-adapter/tool_state.py:12-14 | reading back canonical text gives a value with the same digest |
| `Canonical.SameLength` | prism-adapter/tool_bridge.py:221-222 | the size limit on arguments does not depend on key order |
| `Leases.ToolState.Reserve` | prism-adapter/tool_state.py:44-67 | the loop of updates equals deciding on the table as it was and then marking; directly: it succeeds if and only if every call may be presented and, where fresh input is needed, some call was issued and not yet presented, which is then reserved under the lease; it answers `tool_result_replayed` if and only if fresh input is needed and every call was consumed before with this very result; nothing changes on an error |
| `Leases.ObjectionMeans` | prism-adapter/tool_state.py:46-62 | row by row, when each refusal of a single call is given: unknown, without result, with another result than before, held by a request, fresh without its whole group |
| `Leases.FirstRefusal` | prism-adapter/tool_state.py:46-62 | the first presented call something stands against decides the answer |
| `Leases.ReserveAdmits` | prism-adapter/tool_state.py:44-67 | a request is admitted if and only if each call may be presented and, where needed, one of them is fresh |
| `Leases.ReserveMarks` | prism-adapter/tool_state.py:63-67 | admitting reserves exactly the presented issued calls, with their results and the lease, and changes no other row |
| `Leases.ReplayIsRefused` | prism-adapter/tool_state.py:65-66 | a replay is refused as such if and only if every call was consumed with the very result it brings |
| `Leases.ToolState.Complete` | prism-adapter/tool_state.py:69-77 | all new calls are inserted and the lease's rows consumed, or nothing changes |
| `Leases.CompleteMeans` | prism-adapter/tool_state.py:69-77 | it succeeds if and only if at most 50000 rows result and every id is new; the answer's calls are then issued under the group, what the lease held is consumed, and every other row is unchanged |
| `Leases.ToolState.NotSent` | prism-adapter/tool_state.py:79-81 | row by row: what the lease holds becomes an issued row with its identity kept, every other row is unchanged |
| `Leases.NotSentUndoesReserve` | prism-adapter/tool_state.py:44-81 | `not_sent` after `reserve` under a new lease restores the table exactly |
| `Leases.EveryTableOk` | prism-adapter/tool_state.py:44-81 | in every reachable table issued rows have neither hash nor lease, reserved rows both, consumed rows a hash only, and there are at most 50000 rows |
| `Leases.RunFrame` | prism-adapter/tool_state.py:44-81 | over any run rows are never removed, their scope, fingerprint and group never change, consumed rows never change, and other scopes' operations never alter a row |
| `Leases.ReservedBlocks` | prism-adapter/tool_state.py:55-56 | no request that presents a reserved call is admitted |
| `Leases.MateIsUnseen` | prism-adapter/tool_state.py:57-62 | a request that presents one fresh call of a response presents all of them |
| `Leases.CompleteKeepsGroups` | prism-adapter/tool_state.py:69-77 | `complete` keeps the calls of each response together if and only if the group name is not worn by calls that have moved on |
| `Leases.EveryGroupAgrees` | prism-adapter/tool_state.py:44-81 | with such names and paired results, all calls of a response share state and lease in every reachable table |
| `Leases.SharedNameSplitsGroup` | prism-adapter/server.py:620-625 | two request ids that sanitise to one name, and a run of issue, reserve and complete after which their calls have come apart |
| `StartGate.BrowserStart.RouteStart` | prism-adapter/multiplex_browser.py:207-228 | lets a start through exactly when the gate is open, armed and unsent and model, effort, project and intent fit |
| `StartGate.BrowserStart.HearResponse` | prism-adapter/multiplex_browser.py:243-248 | makes the hear step, and decodes if and only if the answer is to the body outstanding and nothing was resolved yet |
| `StartGate.BrowserStart.DecodeResponse` | prism-adapter/multiplex_browser.py:249-277 | makes the decode step of the gate, whose results over every run are `DecodeMeans` and `HasAnswerMeans` |
| `StartGate.RouteMeans` | prism-adapter/multiplex_browser.py:207-241 | in every run a request is let out if and only if it is a POST of the armed, open turn with its model, effort and project, every earlier start was refused for now, and the intent is the first one's; anything else is a violation |
| `StartGate.HearMeans` | prism-adapter/multiplex_browser.py:243-248 | in every run a callback decodes only the answer to the last start |
| `StartGate.DecodeMeans` | prism-adapter/multiplex_browser.py:249-277 | in every run decoding logs the reply; the gate opens again if and only if it was a reconnect with attempts left whose note was stored |
| `StartGate.HasAnswerMeans` | prism-adapter/multiplex_browser.py:249-310 | in every run, said of the log: the turn has its answer if and only if the gate is closed without violation and the last start was answered with a request id, or by a reconnect with no attempts left; and it has the id of that very reply |
| `StartGate.StartsOfATurn` | prism-adapter/multiplex_browser.py:207-277 | under any event sequence at most three starts, all of one intent, model, effort and project, at most one not answered by an explicit reconnect; attempts equal reconnects plus one if a start is out exactly if no note of a reconnect failed |
| `StartGate.CountersAgreeUnlessUnstored` | prism-adapter/multiplex_browser.py:258-270 | the counters agree if and only if no event of the run was a reconnect with attempts left whose journal update failed |
| `StartGate.UnstoredReconnect` | prism-adapter/multiplex_browser.py:265-266 | the shortest run in which they do not: arm, start, answer, reconnect not stored |
| `StartGate.SentMeansUnrefused` | prism-adapter/multiplex_browser.py:243-277 | a start counts as outstanding if and only if some start was not refused, or the last refusal could not rearm the gate |
| `StartGate.ClosedForGood` | prism-adapter/multiplex_browser.py:319-324 | after `close` nothing is let through, and a gate closed with nothing outstanding stays so |
| `AdapterRuns.AtMostOnce` | prism-adapter/server.py:711-738 | over every interleaving of requests, failures and deaths, a tool result is the fresh input of at most one start that may have executed |
| `AdapterRuns.UnknownIsNeverReplayed` | prism-adapter/server.py:711-738 | once a start may have executed, no later request gets its results as fresh input |
| `AdapterRuns.ReplayStartsNothing` | prism-adapter/tool_state.py:65-66 | in every run a request that needs fresh input and presents none adds no turn and changes nothing |
| `AdapterRuns.FreshTurnHoldsFresh` | prism-adapter/tool_state.py:63-67 | in every run a turn that needed fresh input holds a call that was issued and is reserved by it now |
| `AdapterRuns.ReturnMeansAnswered` | prism-adapter/multiplex_browser.py:279-317 | in every run a turn returns, and can complete its lease, only if its last start came back with a request id and did not invite another try |
| `AdapterRuns.ReleasedMeansUnsent` | prism-adapter/multiplex_browser.py:510-526 | a lease is released only for a turn none of whose starts executed or ever will |
| `AdapterRuns.UnsentIsIssuedAgain` | prism-adapter/server.py:711-738 | in every run a turn that failed with nothing outstanding can be released, and each call it held is then issued as before |
| `AdapterRuns.ExecutionIsReachable` | prism-adapter/server.py:711-738 | the statements above speak of something: a run exists in which a request arms, sends, is answered and issues a call, and the call's result is the fresh input of another start that may have executed |
| `Tools.CollectIsRegister` | prism-adapter/tool_bridge.py:142-195 | collecting nested declarations is flattening them and registering the tools in order |
| `Tools.CollectedIsDeclared` | prism-adapter/tool_bridge.py:142-195 | it succeeds if and only if every declaration is well-formed, no two disagree under one key and at most 96 keys result; then the catalogue holds exactly the declared tools (what a declaration is: `ClientIsDeclared`, `GroupIsDeclared`, `HostedIsDeclared`) |
| `Tools.ClientIsDeclared` | prism-adapter/tool_bridge.py:157-186 | a definition is a client tool if and only if its own fields say so: valid name, kind `function` or `custom`, description, no deferral, no foreign callers, parameters or format, strict flag; the entry carries exactly those, or their defaults |
| `Tools.GroupIsDeclared` | prism-adapter/tool_bridge.py:157-169 | it is a namespace if and only if its type, name and list of tools make it one, under the qualified name |
| `Tools.HostedIsDeclared` | prism-adapter/tool_bridge.py:152-156 | it is left to the provider if and only if its type is a hosted one, outside any namespace |
| `Tools.DeclaredInIsWellFormed` | prism-adapter/tool_bridge.py:142-195 | a list is accepted, conflicts and number apart, if and only if it is well-formed at every depth, down to eight levels of at most 96 definitions |
| `Tools.WrittenIsFound` | prism-adapter/tool_bridge.py:142-204 | a tool written at any depth of an accepted list is found under its names with equal contents, and every new entry was written there |
| `Tools.CollectedIsChecked` | prism-adapter/tool_bridge.py:184-193 | the schema or format of every collected tool is put to the validator as it is |
| `Tools.DeclaredIsFound` | prism-adapter/tool_bridge.py:142-204 | every declared tool is found under its namespace and name, with equal contents |
| `Tools.LookupIsExact` | prism-adapter/tool_bridge.py:197-204 | `lookup` returns a tool if and only if it is in the catalogue under that namespace and name |
| `Tools.OneKeyPerTool` | prism-adapter/tool_bridge.py:157-190 | qualified keys and (namespace, name) pairs correspond one to one although names may contain dots |
| `Tools.CollectAgain` | prism-adapter/tool_bridge.py:187-191 | collecting the same declarations again changes nothing |
| `History.FingerprintNamesCall` | prism-adapter/tool_bridge.py:258-262 | the digest of a call as `history` writes it equals the digest of a call as `output` wrote it if and only if kind, id, name, namespace and value agree |
| `History.CallIsRead` | prism-adapter/tool_bridge.py:250-265 | a call item of a declared tool is accepted if and only if the kinds agree and the id has the adapter's form and is not taken; it adds that record and asks the validator for that tool and value |
| `History.OnlyCallsAreRead` | prism-adapter/tool_bridge.py:250-265 | and every accepted call item is one: declared tool, id and value are those its fields give |
| `History.RecordMeans` | prism-adapter/tool_bridge.py:258-262 | a record names its tool, and its text reads back to the value up to key order |
| `History.ResultIsRead` | prism-adapter/tool_bridge.py:266-278 | a result item is accepted if and only if it is the first for an earlier call of its kind and is text or text parts; it is kept as it is |
| `History.ReasoningIsRead` | prism-adapter/tool_bridge.py:239-247 | reasoning is accepted if and only if nothing in it is encrypted and its summary is text |
| `History.OtherIsRead` | prism-adapter/tool_bridge.py:235-283 | messages and further declarations are passed over, and an item of no known type is refused |
| `History.HistoryIsAccepted` | prism-adapter/tool_bridge.py:226-284 | a history is accepted if and only if there is one, every item can be read after those before it, calls and results are paired and there are at most 64 |
| `History.FreshIsNeeded` | prism-adapter/tool_bridge.py:283-283 | fresh results are required if and only if there are results and the last item that counts is not a message from the user's side |
| `History.ResultDigest` | prism-adapter/tool_bridge.py:276-276 | two results of one call have one digest if and only if their outputs are equal up to key order |
| `History.HistoryIsPaired` | prism-adapter/tool_bridge.py:226-284 | an accepted history has distinct calls, exactly one result each, at most 64, and asks the validator one question per tool and call |
| `History.EchoIsTheCall` | prism-adapter/tool_bridge.py:206-264 | an item is read as the issued call if and only if it repeats its identity and its value up to key order and spelling |
| `Output.ReleasedObeysChoice` | prism-adapter/tool_bridge.py:293-308 | `none`, `required`, a named tool and sequential calls are honoured, at most 8 calls, never past 64 in history |
| `Output.ReleasedIsDeclared` | prism-adapter/tool_bridge.py:311-331 | every released call is of a declared tool with a value of its shape and size |
| `Output.CallsAreReleased` | prism-adapter/tool_bridge.py:299-332 | calls are released if and only if their number is allowed, each element names an admissible tool with a value and nothing else, no two are alike, and the validator accepts each value with its tool's schema or format |
| `Output.FinalIsReleased` | prism-adapter/tool_bridge.py:293-298 | a final text is released, as it is, if and only if the frame holds it and nothing else, it is not blank and no call was demanded |
| `Output.OnlyFramesAreReleased` | prism-adapter/tool_bridge.py:288-301 | nothing else is ever released |
| `Output.FramedMeans` | prism-adapter/tool_bridge.py:288-293 | blanks around it aside, an answer is the marker, a line break and JSON text, and stands for the object that text denotes |
| `Output.ReleasedAreDifferent` | prism-adapter/tool_bridge.py:320-323 | no two calls of an answer ask one tool for one value, whatever their key order |
| `Bridge.ToolBridge.Collect` | prism-adapter/tool_bridge.py:142-195 | the recursive loop over the fields computes the catalogue, the first error in order, and the hosted kinds named at the top |
| `Bridge.ToolBridge.Declare` | prism-adapter/tool_bridge.py:186-195 | a tool is added, recognised or refused as conflicting or one too many |
| `Bridge.ToolBridge.AddCall` | prism-adapter/tool_bridge.py:251-265 | a call item is looked up, checked in order and recorded |
| `Bridge.ToolBridge.AddResult` | prism-adapter/tool_bridge.py:266-278 | a result item is matched to its call and recorded once |
| `Bridge.ToolBridge.History` | prism-adapter/tool_bridge.py:226-284 | the loop computes the paired history or the first error |
| `Bridge.ToolBridge.Output` | prism-adapter/tool_bridge.py:286-334 | the answer is released as specified, and the validator is asked about at most 8 calls |
| `Bridge.PreparedIsOk` | prism-adapter/tool_bridge.py:72-107 | a prepared request has a sound catalogue and a paired history, and its validator batch has at most 160 commands, within the validator's 192 |
| `Bridge.ForcedIsDeclared` | prism-adapter/tool_bridge.py:93-101 | a named choice resolves to a declared tool |
| `Requests.RequestIsCollected` | prism-adapter/tool_bridge.py:82-92 | the three places for declarations together: they are accepted if and only if each is well-formed, no two definitions written anywhere conflict and 1 to 96 names result; the catalogue has exactly those names, each with a definition written in the request |
| `Requests.WrittenIsInCatalogue` | prism-adapter/tool_bridge.py:82-92 | each tool written in an accepted request is found with equal contents |
| `Requests.ChoiceMeans` | prism-adapter/tool_bridge.py:93-104 | what each `tool_choice` is read as, in both directions; a named one by qualified name, or by name and namespace, and only with the tool's own kind |
| `Requests.RequestIsPrepared` | prism-adapter/tool_bridge.py:79-106 | a request is let through if and only if model, parallel flag, declarations, choice and history are accepted and the validator accepts the batch |
| `Requests.PreparedIsChecked` | prism-adapter/tool_bridge.py:184-224 | the batch holds every declared schema and format, and every earlier value with its tool's |
| `Requests.AnswerObeysRequest` | prism-adapter/tool_bridge.py:286-308 | said of the request's fields: no calls for `none`, some for `required`, one call of the very tool named, one at most if parallel calls are off, eight at most, 64 with the history |
| `Requests.AnswerCallsWritten` | prism-adapter/tool_bridge.py:309-331 | every released call is of a tool written in the request and carries the value of its element, under a new id |
| `NextTurn.ReleasedComesBack` | prism-adapter/tool_bridge.py:226-334 | whatever an answer releases, sent back in any spelling with one result each somewhere after its call, is read as the earlier calls plus exactly those; the earlier input may have been plain text |
| `ClosedLoop.RequestComesBack` | prism-adapter/tool_bridge.py:72-334 | the whole next request is prepared with the same catalogue and choice and those calls; only the validator can still object |
| `ClosedLoop.TurnComesBack` | prism-adapter/server.py:711-741 | end to end: after reserve, answer and complete, the client's next request is prepared with exactly the released calls added, and `reserve` admits what it presents with exactly the released ids fresh |
| `ClosedLoop.OnlyTheCallIsKnown` | prism-adapter/tool_state.py:48-51 | under the id of an issued call, `reserve` answers `unknown_tool_call` if and only if the presented call differs from it |
| `ClosedLoop.ChangedResultIsRefused` | prism-adapter/tool_state.py:52-54 | once a request with its results was answered, a later request that brings one of its calls again conflicts if and only if the output changed, up to key order, and is then refused |
| `ClosedLoop.MarkedIsPresented` | prism-adapter/tool_state.py:74-76 | what is stored for released calls is what the next request presents |
| `ClosedLoop.NextReserve` | prism-adapter/tool_state.py:44-77 | after reserve and complete, the next request with the earlier results and results for all new calls is admitted, and exactly the new calls are its fresh input |
| `Admission.Gatekeeper.Arrive` | prism-adapter/multiplex_runtime.py:80-93 | refused when closed or full, otherwise counted in and given the objects filed for its keys |
| `Admission.EnterMeans` | prism-adapter/multiplex_runtime.py:80-93 | in every run a request is turned away if and only if the executor was stopped before or as many are outstanding as may run and wait; otherwise it waits for its conversation, or for its account if it names none |
| `Admission.AcquireMeans` | prism-adapter/multiplex_runtime.py:93-100 | in every run a waiting ticket can move on if and only if fewer tickets than allowed hold what it waits for: one for a conversation, the configured numbers for an account and overall |
| `Admission.Gatekeeper.Leaves` | prism-adapter/multiplex_runtime.py:106-118 | returns what it holds and drops the entries nobody else uses |
| `Admission.EveryRunIsSafe` | prism-adapter/multiplex_runtime.py:80-118 | in every interleaving all tickets of a key share one lock object, at most one turn runs per conversation, running turns stay within both limits and outstanding ones within limit plus queue |
| `Admission.WaitingHoldsNothing` | prism-adapter/multiplex_runtime.py:96-100 | in every run a ticket waiting for its conversation holds nothing, and one waiting for its account at most its conversation |
| `Admission.SomeTicketMoves` | prism-adapter/multiplex_runtime.py:93-118 | in every run, while there are tickets, one can acquire its next lock or has them all: no deadlock |
| `Admission.TicketsAreSeparate` | prism-adapter/multiplex_runtime.py:98-110 | the locks a ticket has acquired are different objects that exist, so releasing them in turn returns each once |
| `Admission.Drained` | prism-adapter/multiplex_runtime.py:106-118 | in every run, when all tickets have left, both dictionaries are empty and every lock ever made is at full capacity |
| `Journals.TurnJournal.Begin` | prism-adapter/multiplex_runtime.py:28-47 | creates the folder and the record, or answers `pending_turn` |
| `Journals.TurnJournal.Finish` | prism-adapter/multiplex_runtime.py:54-65 | removes an owned record, and the folder with the last one |
| `Journals.StateDirectory.Begin` | prism-adapter/server.py:236-247 | creates the v1 record exclusively |
| `Journals.EveryOpeningIsExclusive` | prism-adapter/multiplex_runtime.py:28-47 | over any mix of both executors, call by call, no turn opens its record beside an unresolved turn that excludes it |
| `Journals.OpensUnlessExcluded` | prism-adapter/multiplex_runtime.py:28-47 | and no other is refused: in every run a v2 turn that makes its two calls in a row opens its record if and only if no unresolved turn excludes it |
| `Journals.ClosingRemovesOwn` | prism-adapter/multiplex_runtime.py:54-65 | in every run a turn that closes its own record finds it and takes it away, the folder with the last one, and no other record changes |
| `Journals.UnresolvedBlocksAccount` | prism-adapter/server.py:211-213 | an unresolved v1 turn refuses every v2 turn of its account, any unresolved v2 turn refuses v1 |
| `Journals.LastCloseUnblocks` | prism-adapter/multiplex_runtime.py:54-65 | when the account's turns are over and none died midway, v1 is admitted again |
| `Conversations.PendingMeansUnresolved` | prism-adapter/multiplex_browser.py:430-437 | under admission `pending_turn` means a legacy record, or a record of that named conversation left behind by a turn that is over or died; never a predecessor still running, never an anonymous turn |
| `Conversations.PendingMeans` | prism-adapter/multiplex_browser.py:430-437 | in every run a turn that may begin is turned away if and only if its account has a legacy record or some turn of its conversation is in use, was kept or died |
| `Conversations.PendingHasCause` | prism-adapter/multiplex_browser.py:432-437 | for such a turn there is the step of the run that left the record: the end of a turn whose gate had let out a start not refused or refused for good, or a death |
| `Conversations.RecordOutlivesTurn` | prism-adapter/multiplex_browser.py:491-526 | in every reachable state, after a turn ends its record is on disk if and only if its terminal was not recorded and its gate let out a start that was not refused or was refused for good; no other record changes |
| `Conversations.RecordMeansAnswered` | prism-adapter/multiplex_browser.py:485-491 | in every run a record is removed with its terminal recorded only if the turn's last start came back with a request id and did not invite another try |
| `Conversations.GoneForGood` | prism-adapter/multiplex_browser.py:319-324 | once a record was removed for lack of a start, every start its turn ever let out was refused, over every continuation, and the record never comes back |
| `Conversations.LeftForGood` | prism-adapter/multiplex_browser.py:517-526 | a record left behind stays on disk over every continuation |
| `Conversations.LateCallbackIsHarmless` | prism-adapter/multiplex_browser.py:258-277 | a response callback that resumes after its turn is over rewrites its own turn's record, still there, and no other |
| `Polling.AccountBrowser.RouteStatus` | prism-adapter/multiplex_browser.py:126-141 | makes the route step of the machine of all turns, keeps its invariant, and what it continues carries its own turn's id and latest state |
| `Polling.AccountBrowser.Expect` | prism-adapter/multiplex_browser.py:143-148 | makes the poll step: the turn waits for its body, or is over because another turn waits for an equal one |
| `Polling.AccountBrowser.Withdraw` | prism-adapter/multiplex_browser.py:149-161 | makes the result step: the grant goes, and the turn goes on if and only if the answer succeeded, its request was let through for this poll, and it names the turn's own id or none |
| `Polling.AnswerDecides` | prism-adapter/multiplex_browser.py:474-482 | in every run a turn goes on after exactly such an answer, with its new state if there is one; any other ends it with its state as it was |
| `Polling.StateIsOwn` | prism-adapter/multiplex_browser.py:474-482 | in every run the state a turn keeps was handed over with it, or came in an answer that succeeded, named its own id or none and followed a passage of that very poll |
| `Polling.ForeignAnswerEnds` | prism-adapter/multiplex_browser.py:480-481 | in every run a turn that got anything else is over and never passes again |
| `Polling.PollsNeverCross` | prism-adapter/multiplex_browser.py:126-161 | for any number of concurrent turns, each request let through carries its own turn's trusted id and latest non-empty state, and each poll lets at most one through |
| `Polling.OnlyWaitingPass` | prism-adapter/multiplex_browser.py:126-135 | in every run a request is let through only for a turn waiting for exactly that body, and the body carries that turn's id and latest state |
| `Polling.WaitingPassesOnce` | prism-adapter/multiplex_browser.py:126-148 | in every run what a turn waits for is let through if and only if it was not yet, for this poll |
| `Contexts.Pool.Acquire` | prism-adapter/multiplex_browser.py:407-428 | a matching context is shared, a stale or idle one makes room, a busy one never does |
| `Contexts.AskMeans` | prism-adapter/multiplex_browser.py:407-428 | in every run: when a turn joins a context, when one is opened for it and when it is refused, each if and only if; only idle contexts are closed, and one more than the stale one only when there is no room |
| `Contexts.SessionComesBack` | prism-adapter/multiplex_browser.py:285-317 | the next turn of a session gets the earlier one's project if and only if that succeeded, the turn may reuse it and it is recent; otherwise one of its own |
| `Contexts.Pool.PruneDue` | prism-adapter/multiplex_browser.py:534-543 | closes exactly the idle contexts that are due |
| `Contexts.ContextsAreSafe` | prism-adapter/multiplex_browser.py:407-545 | contexts stay within the limit, `refs` equals the turns in flight, and no context with turns is evicted, rotated or pruned |
| `Contexts.ProjectsAreSeparate` | prism-adapter/multiplex_browser.py:285-296 | two turns get one project only if they share account and session and both may reuse it |
| `BrowserMode.BrowserRequest.RouteRequest` | prism-adapter/server.py:336-364 | continues, holds back or aborts a request of the page |
| `BrowserMode.BrowserRequest.Response` | prism-adapter/server.py:366-393 | learns id and terminal only from answers to its own requests that decode and could be noted, then judges the held poll, also after an answer that does not decode |
| `BrowserMode.RouteMeans` | prism-adapter/server.py:336-364 | which requests are let through, held back and refused, and which make the turn fail |
| `BrowserMode.RunMeans` | prism-adapter/server.py:336-393 | in every run the turn has failed, is over and knows an id if and only if an event of the run made it so: which events those are is said of the event alone and what was known before |
| `BrowserMode.EarlyPollIsJudged` | prism-adapter/server.py:341-393 | a poll that came before the start's answer goes out after it if and only if it carries the id the answer gave |
| `BrowserMode.OneStartThenItsPolls` | prism-adapter/server.py:274-393 | at most one start is let through, first, with the turn's model, effort and project; every poll after it, held back or not, carries the id its answer gave |
| `BrowserMode.TerminalIsFinal` | prism-adapter/server.py:347-352 | in every run, after a terminal nothing is let through, whatever follows |
| `EventStream.CompletedEvents` | prism-adapter/response_events.py:4-33 | the nested loops emit the specified stream |
| `EventStream.Replay` | prism-adapter/response_events.py:4-33 | a client that folds added, content, arguments and input events and checks every closing event rebuilds exactly the output, and refuses the stream if and only if some item is not completed |
| `EventStream.StreamOpens` | prism-adapter/response_events.py:4-11 | two openings with the response in progress and without output, the whole response at the end, and in between as many events as the items need |
| `EventStream.StreamTells` | prism-adapter/response_events.py:12-32 | item by item and part by part, in order: announced in progress without its contents, told in full, and closed with the whole item |
| `Wire.TextReplay` | prism-adapter/server.py:748-750 | the same from the bytes written, read line by line, with the numbers 0, 1, 2, ... |
| `Wire.PrintOnOneLine` | prism-adapter/server.py:750-750 | printed JSON never breaks a line |
| `Rotation.WriteAhead` | tools/openai_totp_rotation.py:176-213 | with failure or death at any step and any number of runs, an activation is sent only for a candidate the journal holds with the secret then in force and the API acknowledged, and no task is activated twice |
| `Rotation.ActivationIsReachable` | tools/openai_totp_rotation.py:183-205 | for every usable candidate other than the secret in force some run does send the activation |
| `Rotation.SuccessIsReachable` | tools/openai_totp_rotation.py:176-215 | and some rotation of it ends in success |
| `Rotation.VerificationIsReachable` | tools/openai_totp_rotation.py:165-215 | for either verification, with the secret in force where the action expects it and any other on the other side, some run ends in success |
| `Rotation.SentIsNew` | tools/openai_totp_rotation.py:194-205 | in every run an activation is sent only for a usable candidate that is not the secret in force |
| `Rotation.SecretIsRecorded` | tools/openai_totp_rotation.py:185-207 | the secret in force is the initial one or the candidate of a journal entry of the account |
| `Rotation.EarlyFailureMeansUnsent` | tools/openai_totp_rotation.py:180-222 | a run reported `login_failed` or `enrollment_failed` sent no activation |
| `Rotation.SuccessMeansVerified` | tools/openai_totp_rotation.py:165-173 | success is reported only when the accepted secret was in force and the other was not, and only after events of that run logged in with the first and were explicitly denied with the second in a strictly later 30-second step |
| `Rotation.SuccessAnswersClaim` | tools/openai_totp_rotation.py:165-215 | in every run success answers the claim the run began with: the accepted secret is the candidate this run activated, the claim's candidate for `verify_new` or its secret for `verify_old`, and the other one is the rejected |
| `Rotation.NapCrossesStep` | tools/openai_totp_rotation.py:169-171 | sleeping `31 - t % 30` always reaches a later time step |
| `Rotation.RecoverAll` | tools/openai_totp_rotation.py:72-80 | the recovery loop hands over every candidate whose calls succeed, notes one only after the API answered, keeps the others and changes no candidate |

## Left out

- `Json`: floats are kept by the spelling an unspecified `repr(float(text))` gives them; literals that overflow to infinity, lone surrogates, the recursion limit and the digit limit on integers are not modelled, and `1 == 1.0 == True` of Python is not.
- `fingerprint` of prism-adapter/multiplex_browser.py escapes non-ASCII text where `digest` does not; both are represented by the one canonical text, since both name the value.
- The prompt text, its 128000-character limit, `parse_prompt`, `has_tools` and the byte limit on validator payloads; the validator itself is an arbitrary predicate on its commands, and its busy answer a refusal.
- `History`: the translated messages for the prompt are not modelled, only what is kept of calls, results and commands.
- `terminal_text` and `terminal_failure_reason`: whether an answer is terminal or an explicit reconnect is part of the events the gates receive.
- `Conversations` and `AdapterRuns` are separate compositions of the start gate, with admission and journals and with the lease table; the two are not run together.
- `AdapterRuns` runs the multiplex executor; browser mode has its own module and is not composed with the lease table.
- `Admission`: the fairness of asyncio's queues and the wait timeout are not modelled; any ticket whose lock is free may acquire it, and may leave at any time. Account and scope dictionaries are one dictionary with tagged keys.
- `Journals`: the contents of pending records and receipts, and `fsync`, are not modelled; a record exists or it does not.
- `Contexts`: which idle context is evicted, which are due for pruning and whether a remembered project is recent are left open, because clocks are; shutdown, which closes every context, is not modelled.
- `Polling`: the page's own transport is not modelled; it may send any request at any time.
- `Rotation.SuccessMeansVerified`: that a secret is in force or not relies on the provider accepting only the secret in force and rejecting it only for a code of the same step that this worker presented before; logins by others are not modelled. Secret normalisation and Base32 are uninterpreted functions.
- `Rotation`: runs are sequential, as the task lease makes them; two workers on one task at once are not modelled.
- `Wire`: the gateway's own checks of the stream (backend/internal/service/openai_prism_browser.go) are not modelled.
- HTTP parsing, authentication headers, memory probes, logging, `created_at`, the thread plumbing of the workers, model selection and page automation, and the login runners.
- The Go gateway, its generated database code, the frontend, deployment files and scripts.
