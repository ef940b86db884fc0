# A verified model of the speech-to-speech assistant

This project models the parts of the assistant whose guarantees span several components, and proves those guarantees
for every run. `dafny verify dfyconfig.toml` checks all of it.

Each stateful component appears twice. A class has the fields and the methods of the component and changes them in
place; a value type and pure functions say what one call does to that state. Every method is proved to do exactly what its
function says, and the results over whole runs are lemmas about the functions. Random ids, clocks, regular
expressions, letter tables and answers of the identity provider are parameters of the steps. Hashes of stored secrets and
idempotency keys are injective constructors; the digest and the message authentication code of envelopes are arbitrary
functions, assumed injective only where a lemma says so. A database transaction is one step, and so is a statement outside of one; a
session may stop between any two steps.

The main results, from the outside in:

- **One effect per request.** Any number of planner sessions over one durable ledger, with requests lost, delayed or delivered
  again and crashes anywhere: each idempotency key applies its effect once, all successful replies agree, nothing that a
  planner issued meets a conflict, and a confirmed effect goes back to a request that was approved in time
  (`ExactlyOnce`, `Approval`). What a call is answered is told from the history of the session alone (`PlanHistory`). The
  agenda built this way never holds overlapping events, notes are conserved, and both hold exactly what was created and not
  deleted or cancelled (`DurableStores`, `StoreRecords`).
- **The client plays what the loops tell it.** Any session of mappers that opens its turns safely, renewals included, fed to
  the client raises no error exactly when at most 128 turns were interrupted, and then every chunk of a turn is played once
  and in order (`VoiceComposition`). Every run of either loop is such a session, so this holds of both when the ids that the
  server draws are fresh and valid (`AgentVoice`, `AccountVoice`). The player then holds exactly the audio of the open turn, and
  nothing once it is interrupted, renewed or replaced (`Playback`). What a mapper tells depends only on what it was called with
  and told before (`MapperLog`). In the mapper an interrupted turn stays entirely silent
  (`MapperRuns`); in both loops no transcript, audio, completion or second interruption of it follows, unless the stream is
  renewed and the turn started again under the same id, which fresh ids exclude. Announcements of its tool calls can follow,
  see below. Audio is numbered 1 to n, also in both loops as long as the server draws fresh ids, and the history is the
  longest fitting suffix of the completed exchanges (`AgentTurns`, `AccountTurns`, `MapperHistory`).
- **Agent loops.** In the assistant's loop at most four jobs are active, no worker blocks, results reach the stream that asked,
  what is released begins or is answered as busy, and input frames are in unbroken sequence (`AgentWork`, `BusyWork`,
  `AgentInputs`, `InputFrames`). In both loops the planner is asked exactly what is due (`LoopOps`), what it is told of the user
  is the user's whole utterance (`AgentSpeech`, `AccountSpeech`), and results are told once each, in the order in which they
  came (`LoopResults`); when a loop ends is said exactly (`LoopEnds`). In the account loop a login begins at most once
  and only after consent (`AccountRules`), and what accepts or declines the invitation is said word by word (`WelcomeWords`,
  `AccountAnswers`).
- **Sessions and stores.** Refresh rotation with family revocation (`IdentityRuns`), and exactly which tokens, logins and
  session references are accepted (`IdentityTokens`, `IdentityAnswers`); profile versions and replays (`ProfileStore`) and what
  each column holds (`ProfileColumns`); agenda intervals and slot search (`AgendaRules`).
- **Codecs and buffers.** Canonical JSON printed by two libraries and read back, signed envelopes between Go and Java and
  what a signature binds on each side, RIFF/WAVE files, the capture path from microphone to commit, the latency ring.

Some things that are commonly expected of this code do not hold, and the model says exactly when they do:

- Go and Jackson print the same canonical payload exactly when it holds no control character whose escape has a
  hexadecimal letter (U+000B, U+000E, U+000F, U+001A to U+001F) and no number `-0`: `CanonicalRules.LibrariesAgreeIff`. The
  comment at packages/go/mcpwire/envelope_v2.go:85-86 says the form is unambiguous; the model follows the code.
- An accepted confirmation in the app releases the pending job exactly when time and the call limit allow it and the tool
  name has no hyphen: `Approval.AcceptedConfirmationReleases`.
- Audio of a turn is numbered 1 to n exactly when the turn is not started again between two of its chunks
  (`MapperRuns.TurnAudioIsOneToN`); a greeting that begins after an input can cause that (`LateGreeting.LateGreetingRestartsInput`).
  Neither loop can as long as the ids that the server draws are fresh and the client names none of them.
- An interruption does not stop the tool calls of its turn. A call of an interrupted turn is planned, and may then begin
  like any other, exactly when its content ends while it is not active and was announced by the mapper, and its turn is still the
  current one; in the account loop also only when it asks for no login: `InterruptedCalls.InterruptedCallIsPlannedIff`,
  `AccountInterruptedCallIsPlannedIff`. The app is told that the call starts whenever its content ends and it is not active, even
  if it is then refused: `CallIsAnnouncedIff`. `LateCalls.InterruptedCallBegins` is such a run from the opening of the loop.
- The app is not told of an interruption that the provider signals by ending the content of a call that is active, and only
  then: `InterruptedCalls.InterruptionIsWithheldIff`. The composition with the client holds all the same.
- The greeting of the account agent ends exactly when the end of the opening turn is put out before the first renewal, as long as
  nothing else is named as that turn is: `AccountGreeting.GreetingEndsInTimeIff`. A result of the app that renews the stream
  earlier leaves the greeting open for good, and every later input is only queued (`GreetingOutlastsRenewal`,
  `CrossedResults.GreetingIsLeftOpen`).
- Mapper and client stay together exactly when each opened turn has a valid id, is not known as interrupted and is not the current
  one with audio (`VoiceComposition.StepComposesIff`): an interrupted turn is an error at once, the current one at the next chunk.
- Seeding the agenda keeps it sound exactly when the fixture's id is taken or its hour is free: `AgendaRules.SeedingIsSoundIff`.
- In the account loop, unlike the assistant's, a result of a job that the app started renews the stream while other jobs are
  active, and their results go to a stream that did not ask: `CrossedResults.ResultsCross` is such a run, and
  `AccountResults.ResultsReachIff` and `ResultsReachIffNotOver` say exactly when every result goes to the stream that asked. The app's
  jobs are also not counted against the limit of four, so a worker may have to wait for room: `AccountResults.WorkersWaitIff`.
- A device is sure to have at most five live logins exactly when its begins do not overlap: `LoginBounds.FiveIffOneAtATime`. The
  count and the insertion are two statements without a transaction, so k overlapping begins can leave 4 + k live logins, and no
  more; `LoginBounds.FiveIffNotOvertaken` says of each run whether it keeps the bound.
- A mutation that the planner releases and the loop then answers as `tool_busy` can never run in that session: `BusyWork.BusyNeverRuns`.
- A spoken turn longer than 937 frames is not refused as a whole: the session keeps the first 937 and refuses the rest, as
  `CaptureRuns.CommitReturnsCapture` states.

## Model

| member | source | states |
|---|---|---|
| ExactlyOnce.EffectsHappenAtMostOnce | packages/go/actionruntime/tools.go:112-224 | over every run of any number of sessions with crashes and redelivery, no two committed effects share a key, the data is the initial data with each effect applied once in commit order, and no request meets an idempotency conflict |
| ExactlyOnce.SuccessesAgree | apps/mcp-agenda/internal/adapters/sqlite/store.go:154-213 | every successful reply was caused by one effect, and all successful replies for a key carry the same result |
| ExactlyOnce.RetriesReplay | apps/mcp-notes/internal/adapters/sqlite/store.go:117-124 | a request of a reconnected session for a recorded key gets the recorded result and changes no data |
| ExactlyOnce.ConfirmedEffectsWereApproved | packages/go/actionruntime/tools.go:168-181 | a durable effect of a tool that needs confirmation comes from a confirmed job whose exact request was approved in time |
| ExactlyOnce.OneRequestPerSessionAndKey | packages/go/actionruntime/tools.go:160-191 | one session sends each mutation key at most once |
| ExactlyOnce.StepKeepsConsistent | packages/go/actionruntime/tools.go:193-224 | sessions, ledger, replies and effects stay consistent through every connect, crash, call, delivery and completion |
| Approval.ConfirmedJobsWereApproved | packages/go/actionruntime/tools.go:168-181 | every confirmed job goes back to a pending request with the same tool and canonical arguments, unreplaced, approved and released within 60 seconds |
| Approval.NothingIntervenes | packages/go/actionruntime/tools.go:253-296 | between request and release there is no interruption, no effective refusal, no expiry and no other confirmed job |
| Approval.ApprovalsAreSingleUse | packages/go/actionruntime/tools.go:170-172 | the next confirmed job has its own, later request and approval |
| Approval.OneJobPerMutationKey | packages/go/actionruntime/tools.go:160-191 | a session releases at most one job for a mutation key |
| Approval.PendingOrigin | packages/go/actionruntime/tools.go:173-179 | a pending request goes back to the call that parked it, and an approved one to its approval |
| Approval.AcceptedConfirmationReleases | apps/account-agent/internal/account/tools.go:75-89 | an accepted confirmation in the app releases the pending job if and only if it has not expired, the call limit is not reached and the tool name has no hyphen |
| ActionRuntime.KeysIdentifyOperations | packages/go/actionruntime/tools.go:112-118 | equal keys mean the same namespace, tool and canonical arguments, and conversely |
| ActionRuntime.BindTools | packages/go/actionruntime/tools.go:60-110 | every bound tool is allowed, has the policy of its trusted profile and a model name of its own |
| ActionRuntime.Session.Plan | packages/go/actionruntime/tools.go:122-191 | planning changes the session, answers or releases a job exactly as the planner's specification says |
| ActionRuntime.Session.Complete | packages/go/actionruntime/tools.go:213-224 | a result is cached under its key unless the tool is read-only |
| ActionRuntime.Session.ConfirmationPhrase | packages/go/actionruntime/tools.go:308-318 | the phrase asked for is that of the pending tool's profile, else the default |
| ActionRuntime.Session.ObserveUser | packages/go/actionruntime/tools.go:253-278 | an utterance sets the intent and approves, drops or keeps the pending request as specified |
| ActionRuntime.Session.Confirm | packages/go/actionruntime/tools.go:279-295 | the app approves or drops the pending request only by its id, in time and when its profile allows |
| ActionRuntime.Session.Interrupt | packages/go/actionruntime/tools.go:296-296 | an interruption drops the pending request and the intent |
| PlanHistory.CallsAreAnswered | packages/go/actionruntime/tools.go:122-191 | over every session, what each call is answered, told from what happened before: a call counts when its form is in order, its id was not used for another operation and fewer than 128 calls counted; one that counts goes, gets the result recorded last, or waits for an outcome, for an approval or for the words of its turn |
| PlanHistory.PendingIff | packages/go/actionruntime/tools.go:168-181 | a request is pending if and only if a call parked it and nothing withdrew, refused, found expired, used or replaced it since, and approved if and only if something since then approved it |
| PlanHistory.RefusalIff | packages/go/actionruntime/tools.go:274-276 | an utterance is a refusal exactly when it is a no, begins with one, or calls off |
| Ledger.ReplayIsStable | apps/mcp-notes/internal/adapters/sqlite/store.go:117-124 | once recorded, the same operation under a key returns its result and changes nothing |
| NotesStore.Store.Mutate | apps/mcp-notes/internal/adapters/sqlite/store.go:95-165 | one transaction replays, rejects as a conflict, rejects, or applies the operation and records it under its key |
| AgendaStore.Agenda.MutateAgenda | apps/mcp-agenda/internal/adapters/sqlite/store.go:136-214 | one transaction replays, rejects, or creates or cancels an event and records the result |
| AgendaStore.Agenda.CancelActive | apps/mcp-agenda/internal/adapters/sqlite/store.go:192-200 | exactly the active event with the id becomes cancelled, and the number of rows changed is returned |
| AgendaStore.Agenda.Slots | apps/mcp-agenda/internal/adapters/sqlite/store.go:108-135 | the search answers with the first hundred free grid points of the interval, or rejects interval or duration |
| AgendaStore.Agenda.Search | apps/mcp-agenda/internal/adapters/sqlite/store.go:116-134 | the bounded loop ends and finds the first hundred free slots |
| AgendaRules.ReachableAgendasAreSound | apps/mcp-agenda/internal/adapters/sqlite/store.go:167-201 | in every agenda built by create and cancel, active events are available and pairwise disjoint |
| AgendaRules.AtMostNineHoursADay | apps/mcp-agenda/internal/scheduling/model.go:30-42 | the active events of any local date last at most nine hours together |
| AgendaRules.CancelUndoesCreate | apps/mcp-agenda/internal/adapters/sqlite/store.go:186-201 | cancelling a created event frees exactly the time that creating it took |
| AgendaRules.SeedingIsSoundIff | apps/mcp-agenda/internal/adapters/sqlite/store.go:217-220 | seeding keeps a sound agenda sound if and only if the id is taken or the fixture's hour is free |
| AgendaRules.FreeSlotsExact | apps/mcp-agenda/internal/adapters/sqlite/store.go:119-133 | a time is found if and only if it is on the grid, in the interval, available and unconflicted; times ascend |
| AgendaRules.SlotsAreBookable | apps/mcp-agenda/internal/adapters/sqlite/store.go:168-191 | every slot found can be booked by create_event in the same agenda |
| DurableStores.AgendaStaysSound | apps/mcp-agenda/internal/adapters/sqlite/store.go:77-83 | whatever sessions crash or requests repeat, no active events overlap and no date holds more than nine hours |
| DurableStores.NotesAreConserved | apps/mcp-notes/internal/adapters/sqlite/store.go:129-148 | the store holds as many notes as were created less those deleted, each operation counted once |
| StoreRecords.TakesEffectIff | apps/mcp-notes/internal/adapters/sqlite/store.go:112-164 | in every run a delivered mutation takes effect if and only if it is admitted, no effect has its key and the data allow it; otherwise effects and data stay |
| StoreRecords.NotesAreThoseCreated | apps/mcp-notes/internal/adapters/sqlite/store.go:129-149 | in every run the notes held are exactly those that an effect created and none deleted since, each with the title and content of its request and the time of its creation |
| StoreRecords.NoteAllowedIff | apps/mcp-notes/internal/adapters/sqlite/store.go:130-148 | a note can be created if and only if its texts are in order and its id is new, and deleted if and only if it is there |
| StoreRecords.EventsAreThoseCreated | apps/mcp-agenda/internal/adapters/sqlite/store.go:186-201 | in every run the agenda holds the events that effects created, in order, with the title and times of their requests, active unless a later effect cancelled them |
| StoreRecords.EventAllowedIff | apps/mcp-agenda/internal/adapters/sqlite/store.go:168-191 | in a sound agenda an event can be created if and only if its request names a period of at most 31 days, in opening hours and with no second taken, with a title in order and a new id |
| StoreRecords.CancelAllowedIff | apps/mcp-agenda/internal/adapters/sqlite/store.go:193-200 | in a sound agenda an event can be cancelled if and only if it is there and active |
| StoreRecords.AvailableIff | apps/mcp-agenda/internal/scheduling/model.go:38-42 | a period is available if and only if it lies between nine and eighteen o'clock of one day from Monday to Friday, three hours behind UTC, and lasts at most eight hours |
| StoreRecords.SlotsFoundIff | apps/mcp-agenda/internal/adapters/sqlite/store.go:119-133 | in a sound agenda a beginning is found if and only if it lies a multiple of fifteen minutes after that of the period and a meeting from there ends in it, is in opening hours and takes no second that is taken |
| RealtimeMapper.Mapper.Map | packages/go/realtime/mapper.go:79-183 | one provider event changes the mapper and emits events exactly as specified, or fails |
| RealtimeMapper.Mapper.StartUserContent | packages/go/realtime/mapper.go:90-113 | user content interrupts a response, opens a turn when the current one is closed, and listens |
| RealtimeMapper.Mapper.StartOtherContent | packages/go/realtime/mapper.go:114-126 | other content is ignored while a user is awaited, else recorded, and may begin responding |
| RealtimeMapper.Mapper.EndContent | packages/go/realtime/mapper.go:153-181 | the end of a content interrupts, records the exchange with eviction, or completes the turn |
| RealtimeMapper.Mapper.StartAssistant | packages/go/realtime/mapper.go:37-44 | a greeting opens a responding turn with numbering at zero |
| RealtimeMapper.Mapper.QueueInput | packages/go/realtime/mapper.go:48-48 | the next input is remembered and nothing else changes |
| RealtimeMapper.Mapper.StartInput | packages/go/realtime/mapper.go:50-63 | an input interrupts a response and opens a listening turn with numbering at zero |
| RealtimeMapper.Mapper.Interrupt | packages/go/realtime/mapper.go:69-77 | an active turn is cancelled once, with its events |
| RealtimeMapper.Mapper.Complete | packages/go/realtime/mapper.go:185-189 | the turn is answered and the mapper idle |
| RealtimeMapper.Mapper.Evict | packages/go/realtime/mapper.go:169-171 | the loop drops two messages at a time until the history fits, within range |
| RealtimeMapper.Mapper.SumBytes | packages/go/realtime/mapper.go:191-197 | the loop adds up the bytes of the history |
| MapperRuns.InterruptedTurnsStaySilent | packages/go/realtime/mapper.go:69-77 | after a turn is interrupted, no transcript, audio, tool or completion event of it follows, and it is not interrupted again |
| MapperRuns.AudioIsNumbered | packages/go/realtime/mapper.go:138-150 | audio numbers continue by one within the turn last started, over any calls |
| MapperRuns.TurnAudioIsOneToN | packages/go/realtime/mapper.go:138-150 | over any calls, the audio numbers of a turn are exactly 1 to n if and only if no start of the turn lies after one of its chunks and before another |
| MapperRuns.FreshIdsNumberEveryTurn | packages/go/realtime/mapper.go:96-105 | with fresh input and random ids every turn starts at most once, so its audio is numbered 1 to n |
| LateGreeting.LateGreetingRestartsInput | packages/go/realtime/mapper.go:37-44 | a concrete run in which a greeting begins after an answered input, and the input is then opened again and its audio numbered 1, 1 |
| MapperLife.FreshIffDrawsFresh | packages/go/realtime/mapper.go:96-105 | when each input is named once, all ids that one mapper receives are fresh if and only if those that the server names are |
| AgentTurns.TurnsAreFreshIff | apps/personal-assistant-agent/internal/agent/runtime.go:191-212 | over every run of the loop its mapper is where its calls took it, the ids it received are fresh if and only if those the server drew are not empty, repeated or named by the client, and then each turn starts at most once with audio numbered 1 to n |
| AccountTurns.AccountTurnsAreFreshIff | apps/account-agent/internal/account/runtime.go:238-262 | the same for the account loop, whose first mapper begins the opening turn and whose inputs may wait |
| MapperHistory.HistoryIsLongestFittingSuffix | packages/go/realtime/mapper.go:158-173 | across renewals the history is the longest suffix of completed exchanges within 32 messages and 65536 bytes, alternates roles and ends with the newest |
| MapperHistory.EvictionStaysInRange | packages/go/realtime/mapper.go:169-171 | for any history, eviction never slices out of range and keeps a fitting suffix that ends with the newest answer |
| MapperHistory.AppendKeepsLongest | packages/go/realtime/mapper.go:168-171 | appending an exchange to the kept suffix and evicting keeps the longest suffix of the longer log |
| MapperLog.DialogueIsDue | packages/go/realtime/mapper.go:37-189 | over every run of a mapper each call is answered with exactly the events that are due after what it was called with and told before, and refused exactly when none are |
| MapperLog.CompletedIsSaid | packages/go/realtime/mapper.go:158-173 | the exchanges that the history remembers are the final texts of the user, joined in their turn, with the final answer that ended in it |
| ConversationClient.ConversationState.Handle | apps/apple/VoiceCore/Sources/VoiceCore/ConversationState.swift:37-96 | one delivery changes session, turn, numbering and cancelled turns and yields effects, or fails, as specified |
| ConversationClient.ConversationState.HandleServer | apps/apple/VoiceCore/Sources/VoiceCore/ConversationState.swift:45-95 | turn and audio events of the session are accepted, rejected or refused as specified |
| ConversationClient.ConversationState.Disconnect | apps/apple/VoiceCore/Sources/VoiceCore/ConversationState.swift:35-35 | the session and its turn are forgotten; cancelled turns are not |
| VoiceSessions.SilentUntilReopened | packages/go/realtime/mapper.go:69-77 | over every session of mappers, whatever its owner withholds, nothing is heard of an interrupted turn until the stream is renewed and the turn then started again |
| VoiceSessions.FreshStaysSilent | packages/go/realtime/mapper.go:96-105 | with ids that are fresh across renewals an interrupted turn is not heard again in the session |
| VoiceSessions.InterruptionIsKept | packages/go/realtime/mapper.go:69-77 | a turn whose interruption was written stays cancelled until the stream is renewed |
| VoiceComposition.EmittedIsPlayed | apps/apple/VoiceCore/Sources/VoiceCore/ConversationState.swift:45-60 | what is written over any disciplined session is exactly what the client plays; the client fails if and only if more than 128 turns are interrupted |
| VoiceComposition.FreshIsDisciplined | packages/go/realtime/mapper.go:96-105 | a session with valid ids that are fresh across renewals is disciplined |
| VoiceComposition.StepComposesIff | packages/go/realtime/mapper.go:37-189 | an action keeps mapper and client coupled and is received faithfully if and only if the turn it opens, if any, is valid, not known to the client as interrupted and not the current one once it has audio, or the client has no room for another interruption |
| VoiceComposition.OpeningIsSafeIff | packages/go/realtime/mapper.go:37-63 | the same for each call that opens a turn, in every coupled state, with the turn named |
| VoiceComposition.RestartingInterruptedTurnFails | apps/apple/VoiceCore/Sources/VoiceCore/ConversationState.swift:47-49 | in every coupled state, opening a turn that the client knows as interrupted is an invalid event |
| VoiceComposition.RestartingCurrentTurnFails | apps/apple/VoiceCore/Sources/VoiceCore/ConversationState.swift:56-60 | in every coupled state, opening the current turn again once it has audio is accepted, and then the next chunk of it is out of order |
| Playback.QueueHoldsOpenTurn | apps/apple/VoiceCore/Sources/VoiceCore/ConversationState.swift:45-60 | whatever the events, as long as the client accepts them the player holds exactly the audio of the open turn since it was opened, in order, and nothing when no turn is open |
| Playback.PlayedIsQueued | apps/apple/VoiceCore/Sources/VoiceCore/ConversationState.swift:47-60 | for events that are played in full, as those of both loops are, the same holds after each event, and the player is empty right after a renewal, an interruption of the open turn and the opening of another |
| Playback.SessionIsQueued | apps/apple/VoiceCore/Sources/VoiceCore/ConversationState.swift:47-60 | the same over every disciplined session of mappers with at most 128 interrupted turns |
| Playback.StopEmpties | apps/apple/VoiceCore/Sources/VoiceCore/ConversationState.swift:92-92 | after any accepted events the server's stop empties the player and is reported, and no further event is accepted |
| Playback.InputIsRenewed | apps/apple/VoiceCore/Sources/VoiceCore/ConversationState.swift:91-91 | the input is renewed once for each renewal of the stream |
| Playback.ShowsLastTold | apps/apple/VoiceCore/Sources/VoiceCore/ConversationState.swift:46-91 | the phase that the client shows is the one it was told last |
| Deliveries.AcceptedIff | apps/apple/VoiceCore/Sources/VoiceCore/ConversationState.swift:37-44 | a delivery is accepted if and only if it has a known version and fits the session that was announced and not stopped since, and its event is accepted |
| Deliveries.OnlyTheSessionIsHeard | apps/apple/VoiceCore/Sources/VoiceCore/ConversationState.swift:37-44 | in every sequence of accepted deliveries each fits the session open before it |
| Deliveries.SessionIsHeard | apps/apple/VoiceCore/Sources/VoiceCore/ConversationState.swift:40-45 | a new client to which a valid session is announced receives every event delivered in it |
| AgentVoice.InterruptedStaysSilent | apps/personal-assistant-agent/internal/agent/runtime.go:102-147 | over every run of the loop, once an interruption is put out no transcript, audio, completion or interruption of the turn is, until the stream is renewed and the turn started again |
| AgentVoice.SessionIsFreshIff | apps/personal-assistant-agent/internal/agent/runtime.go:191-212 | over every run and across renewals all ids are fresh if and only if the server's draws are, and then an interrupted turn is never heard again |
| AgentVoice.InterruptionStands | apps/personal-assistant-agent/internal/agent/runtime.go:221-239 | over every run a turn whose interruption was put out is cancelled in the mapper until the stream is renewed |
| AgentVoice.LoopIsPlayed | apps/personal-assistant-agent/internal/agent/runtime.go:102-129 | over every run with valid and fresh draws, the client plays what it is told before the first error, and fails if and only if more than 128 turns were interrupted |
| AccountVoice.InterruptedStaysSilent | apps/account-agent/internal/account/runtime.go:142-191 | the same silence over every run of the account loop, its opening turn included |
| AccountVoice.SessionIsFreshIff | apps/account-agent/internal/account/runtime.go:238-262 | the same of fresh ids, among them the opening turn's |
| AccountVoice.InterruptionStands | apps/account-agent/internal/account/runtime.go:270-288 | the same of turns whose interruption was put out |
| AccountVoice.AccountLoopIsPlayed | apps/account-agent/internal/account/runtime.go:142-173 | the client plays what the account loop tells it from the opening turn on |
| AccountGreeting.GreetingEndsIff | apps/account-agent/internal/account/runtime.go:142-146 | over every run the greeting has ended if and only if the opening turn's end was put out before the first renewal, or after that turn was started again on another stream |
| AccountGreeting.GreetingEndsInTimeIff | apps/account-agent/internal/account/runtime.go:348-356 | when neither app nor server names the opening turn again, if and only if it was put out before the first renewal |
| AccountGreeting.GreetingOutlastsRenewal | apps/account-agent/internal/account/runtime.go:246-250 | a greeting that a renewal finds unfinished lasts for the rest of the run and every new input is only queued |
| InterruptedCalls.InterruptedCallIsPlannedIff | apps/personal-assistant-agent/internal/agent/runtime.go:320-334 | in every state and for every step, a call of an interrupted turn is planned if and only if its content ends, it was announced and is not active, and its turn is the current one |
| InterruptedCalls.AccountInterruptedCallIsPlannedIff | apps/account-agent/internal/account/runtime.go:455-475 | in the account loop if and only if, besides, it asks for no login and the filter lets the event pass |
| InterruptedCalls.OtherPlansAreLogins | apps/account-agent/internal/account/runtime.go:126-139 | other steps of the account loop plan only the invitation's login, apart from the app's confirmations |
| InterruptedCalls.CallIsAnnouncedIff | apps/personal-assistant-agent/internal/agent/runtime.go:320-337 | the app is told that a call of a turn starts if and only if the content of a staged call of that turn ends and the call is not active |
| InterruptedCalls.AccountCallIsAnnouncedIff | apps/account-agent/internal/account/runtime.go:455-479 | the same for provider events in the account loop |
| InterruptedCalls.InterruptionIsWithheldIff | apps/personal-assistant-agent/internal/agent/runtime.go:320-325 | an interruption by a provider event is kept from the app if and only if the event ends the content of an active call |
| InterruptedCalls.AccountInterruptionIsWithheldIff | apps/account-agent/internal/account/runtime.go:455-460 | the same in the account loop for events that pass the filter |
| LateCalls.InterruptedCallBegins | apps/personal-assistant-agent/internal/agent/runtime.go:319-366 | for any ids and any tool that a new planner releases, a run from the opening of the loop interrupts the turn and then plans, announces and begins its call |
| LateCalls.LateMutationBegins | apps/personal-assistant-agent/internal/agent/runtime.go:319-366 | an instance in which a mutation begins after its turn was interrupted |
| AgentWork.WorkersNeverBlock | apps/personal-assistant-agent/internal/agent/tools.go:103-114 | at most four jobs are active, each exactly one worker that runs or has one result waiting, and in no order of finishing does a worker wait for room |
| WorkerPool.MayBlockIff | apps/personal-assistant-agent/internal/agent/tools.go:103-114 | some order of finishing makes a worker wait for room if and only if more than four jobs are active |
| AgentWork.ResultsReachTheirStream | apps/personal-assistant-agent/internal/agent/runtime.go:130-176 | over every run each result goes to the stream whose model asked for it |
| LoopWork.AnsweredIff | apps/personal-assistant-agent/internal/agent/runtime.go:250-264 | for any history of staging, answering, launching, delivering and opening streams, every result goes to who asked if and only if no opening leaves a worker behind whose result is sent later and no result of the app is sent |
| BusyWork.ReleasesBeginOrAreBusy | apps/personal-assistant-agent/internal/agent/runtime.go:334-342 | over every run, what the planner releases begins in the same step when fewer than four jobs are active, and is otherwise answered as busy, with its key attempted and its confirmation used up |
| BusyWork.BusyNeverRuns | packages/go/actionruntime/tools.go:160-191 | a mutation answered as busy never runs in the session: every later call for it is refused, as pending or unknown once it passes the checks on id, arguments and number of calls |
| AgentInputs.InputIsSequenced | apps/personal-assistant-agent/internal/agent/runtime.go:191-212 | the frames heard of an input turn are one unbroken stretch numbered from 1, and at most 128 turns are heard |
| InputFrames.FramesAreHeardIff | apps/personal-assistant-agent/internal/agent/runtime.go:191-212 | whatever frames arrive and wherever the input is given up, a frame is accepted if and only if it carries the next number of the open turn, or number 1 of a turn not heard before while fewer than 128 were |
| AgentSpeech.ConfirmedWorkWasApproved | apps/personal-assistant-agent/internal/agent/runtime.go:302-366 | over every run of the loop a confirmed job that begins goes back to a pending request, approved in the app or by the user's whole utterance in another turn, unreplaced and within 60 seconds |
| AgentPlans.PlannerAccounted | apps/personal-assistant-agent/internal/agent/runtime.go:221-264 | the planner is where the loop's calls took it, and whatever begins was released by one of them |
| AgentSpeech.UtterancesAreWhole | apps/personal-assistant-agent/internal/agent/runtime.go:276-304 | over every run the planner is told an utterance exactly when other content begins, the user has finished saying something and no content is still speaking; it names the turn that spoke last and is the whole of what its ended contents said since the turn took over |
| AgentSpeech.AllWereSaid | apps/personal-assistant-agent/internal/agent/runtime.go:302-304 | every utterance among the calls of a run was the user's whole one when the planner was told it |
| Utterances.JoinKeepsWords | apps/personal-assistant-agent/internal/agent/runtime.go:290-296 | the words of an utterance are those of its texts, in order: none is missing and none added |
| Utterances.UtteranceIsUnique | apps/personal-assistant-agent/internal/agent/runtime.go:290-296 | at each point there is one utterance at most |
| LoopOps.StepAsksPlanner | apps/personal-assistant-agent/internal/agent/runtime.go:190-371 | in every state and for every step, what the planner is asked, and when |
| LoopOps.CallIsAnswered | apps/personal-assistant-agent/internal/agent/runtime.go:319-366 | a closing call is announced; one of another turn or unannounced is told to be cancelled, any other is planned, begins when released with fewer than four active, and else its answer, or that the tools are busy, goes to model and app, and the app is asked to confirm what is pending |
| LoopEnds.LoopEndsIff | apps/personal-assistant-agent/internal/agent/runtime.go:150-371 | in every state and for every step the assistant's loop ends if and only if the app stops the session, cancels the turn or a late renewal comes while jobs are active, the turn times out, or the provider fails or says more than the loop keeps |
| LoopEnds.FramesAreForwarded | apps/personal-assistant-agent/internal/agent/runtime.go:190-214 | in both loops an accepted frame goes to the open stream once and last, and a refused one is only reported |
| LoopResults.StagedIsAsked | apps/personal-assistant-agent/internal/agent/runtime.go:305-318 | a staged call is the one the provider asked for, in the turn that is on, cancelled exactly when its content is not of a turn that is on |
| LoopResults.ResultsAreTold | apps/personal-assistant-agent/internal/agent/runtime.go:250-264 | over every run results are delivered in the order in which workers finished, none lost and none twice, to the planner, the open stream and the app |
| WorkerPool.TidyCount | apps/personal-assistant-agent/internal/agent/tools.go:103-114 | active jobs are the running workers and the waiting results, counted once each |
| AgentLoop.Runtime.Rotate | apps/personal-assistant-agent/internal/agent/runtime.go:130-147 | a new stream and mapper take over the history; staged calls and the pending request are dropped |
| AgentLoop.Runtime.Renew | apps/personal-assistant-agent/internal/agent/runtime.go:158-176 | the renewal timer waits for active jobs and an idle mapper, or ends at the hard limit |
| AgentLoop.Runtime.TimeOut | apps/personal-assistant-agent/internal/agent/runtime.go:152-157 | a turn that does not complete in time is interrupted and the loop ends |
| AgentLoop.Runtime.HearAudio | apps/personal-assistant-agent/internal/agent/runtime.go:191-212 | a frame opens an unused turn, continues the current one, or is refused |
| AgentLoop.Runtime.CancelTurn | apps/personal-assistant-agent/internal/agent/runtime.go:221-239 | cancelling interrupts, ends the loop when jobs are active, else renews the stream |
| AgentLoop.Runtime.Take | apps/personal-assistant-agent/internal/agent/runtime.go:190-249 | each client event has the specified effect |
| AgentLoop.Runtime.Finish | apps/personal-assistant-agent/internal/agent/tools.go:106-113 | a worker leaves its one result in the channel |
| AgentLoop.Runtime.Deliver | apps/personal-assistant-agent/internal/agent/runtime.go:250-264 | a result completes its job, and goes to the open stream and to the client |
| AgentLoop.Runtime.Collect | apps/personal-assistant-agent/internal/agent/runtime.go:278-287 | the loop adds the final user transcripts and stops at one that is too long |
| AgentLoop.Runtime.EndSpeech | apps/personal-assistant-agent/internal/agent/runtime.go:288-301 | a finished content joins the utterance of its turn |
| AgentLoop.Runtime.Observe | apps/personal-assistant-agent/internal/agent/runtime.go:302-304 | the planner observes an utterance only when other content begins and no user content is open |
| AgentLoop.Runtime.RunCall | apps/personal-assistant-agent/internal/agent/runtime.go:325-365 | a closed call is planned and answered, refused as busy, or given a worker |
| AgentLoop.Runtime.UseTools | apps/personal-assistant-agent/internal/agent/runtime.go:305-368 | calls are staged until their content closes, and not run twice while active |
| AgentLoop.Runtime.Map | apps/personal-assistant-agent/internal/agent/runtime.go:265-371 | one provider event passes through mapper, speech, planner and tools as specified |
| AccountRules.LoginNeedsOneConsent | apps/account-agent/internal/account/runtime.go:98-139 | identity.begin_login is released at most once, never when authenticated, and only by approval of the invitation or an utterance whose words are one of the affirmative answers, after the opening response began |
| AccountRules.OtherNameOtherJob | apps/account-agent/internal/account/runtime.go:467-474 | what a call of another name releases is no login |
| AccountRules.KeepsUnheard | apps/account-agent/internal/account/runtime.go:370-387 | before the opening response begins no user speech is collected |
| AccountRules.ObservingLogins | apps/account-agent/internal/account/runtime.go:420-439 | observing begins a login only while the invitation stands and for an utterance whose words are one of the affirmative answers |
| WelcomeWords.AnswersIff | apps/account-agent/internal/account/welcome.go:24-40 | an utterance is a yes if and only if its words, without letter case and punctuation, are one of the listed affirmative answers, and a no if and only if they are one of the listed refusals |
| AccountAnswers.InvitationIsAnswered | apps/account-agent/internal/account/runtime.go:420-434 | over every run and in every step, the session is stopped if and only if the app asks for it, or the invitation stands and the app or an utterance declines it; the invitation is withdrawn and its login planned if and only if it stands and the app or an utterance accepts it; any other utterance leaves it standing |
| AccountSpeech.AccountUtterancesAreWhole | apps/account-agent/internal/account/runtime.go:393-422 | over every run of the account loop the planner is told an utterance exactly when one is due, and it is the user's whole one among the events that pass the filter |
| AccountSpeech.AnswersAreWhole | apps/account-agent/internal/account/runtime.go:420-434 | a step accepts or declines the invitation by voice if and only if the user's whole utterance is due and its words are one of the listed answers |
| AccountFilter.IgnoredIff | apps/account-agent/internal/account/runtime.go:370-387 | over every run an event is ignored if and only if it is an interruption before the opening response, or of a content of the user that began before it, from its start to its end |
| LoopOps.StepAsksAccount | apps/account-agent/internal/account/runtime.go:225-510 | in every state of the account agent and for every step, what the planner is asked, and when |
| LoopOps.CancellationIsTold | apps/account-agent/internal/account/runtime.go:420-439 | a pending request that the app refuses or an utterance drops is told to be cancelled |
| LoopEnds.AccountLoopEndsIff | apps/account-agent/internal/account/runtime.go:225-510 | the account loop ends if and only if, besides, the app or the words of an utterance decline the invitation, and not on an event that the filter withholds |
| LoopEnds.LoginBegins | apps/account-agent/internal/account/runtime.go:98-139 | the login of an accepted invitation begins as a job of the app if the planner releases it; else its answer is told |
| LoopEnds.ApprovedBegins | apps/account-agent/internal/account/runtime.go:292-326 | so does the request that the app approves, after it is announced |
| LoopResults.AccountResultsAreTold | apps/account-agent/internal/account/runtime.go:330-364 | over every run results are delivered in the order in which workers finished; those of the model's jobs go to the open stream, those of the app's into the history with which another stream is opened |
| AccountResults.ResultsReachIff | apps/account-agent/internal/account/runtime.go:330-364 | over every run, every result goes to the stream that asked if and only if each result sent to a model was asked for by one and no stream was opened while its worker was at work |
| AccountResults.ResultsReachIffNotOver | apps/account-agent/internal/account/runtime.go:348-356 | when the app starts jobs under ids that are not active, this holds if and only if no result of the app is delivered while a job outside the app is active whose result is sent later |
| CrossedResults.ResultsCross | apps/account-agent/internal/account/runtime.go:348-356 | a concrete run from the opening of the loop in which the login renews the stream over a reading job, whose result then goes to a stream that did not ask |
| CrossedResults.GreetingIsLeftOpen | apps/account-agent/internal/account/runtime.go:348-356 | in that run the stream is renewed while the greeting lasts |
| AccountResults.ActiveBounded | apps/account-agent/internal/account/runtime.go:308-326 | over every run the jobs of models are at most four, and active jobs at most four and those of the app |
| AccountResults.WorkersWaitIff | apps/account-agent/internal/account/runtime.go:126-139 | a worker may have to wait for room if and only if more than four jobs are active |
| AccountLoop.AccountRuntime.Emit | apps/account-agent/internal/account/runtime.go:142-173 | the greeting ends when the opening turn completes or is interrupted |
| AccountLoop.AccountRuntime.BeginWelcomeLogin | apps/account-agent/internal/account/runtime.go:126-139 | the invitation is withdrawn, and the login planned under its id and started if released |
| AccountLoop.AccountRuntime.Confirm | apps/account-agent/internal/account/tools.go:75-89 | the app's answer drops the pending operation or plans and starts it |
| AccountLoop.AccountRuntime.HearAudio | apps/account-agent/internal/account/runtime.go:238-262 | while the greeting lasts a new input is queued instead of interrupting it |
| AccountLoop.AccountRuntime.Take | apps/account-agent/internal/account/runtime.go:237-329 | each client event has the specified effect |
| AccountLoop.AccountRuntime.DeliverUi | apps/account-agent/internal/account/runtime.go:348-356 | the result of the app's job goes into the history and renews the stream |
| AccountLoop.AccountRuntime.Deliver | apps/account-agent/internal/account/runtime.go:330-364 | results of the model's jobs go to the open stream, those of the app's do not |
| AccountLoop.AccountRuntime.Filter | apps/account-agent/internal/account/runtime.go:373-387 | what the provider attributes to the user before its opening response is ignored |
| AccountLoop.AccountRuntime.Observe | apps/account-agent/internal/account/runtime.go:420-439 | an utterance is observed and, while the invitation stands, read as its answer |
| AccountLoop.AccountRuntime.RunCall | apps/account-agent/internal/account/runtime.go:461-505 | the model's login calls are answered and never planned |
| AccountLoop.AccountRuntime.Map | apps/account-agent/internal/account/runtime.go:365-510 | one provider event passes through filter, mapper, speech, consent and tools as specified |
| IdentityStore.IdentityService.Begin | apps/mcp-identity/src/main/java/local/sts/identity/IdentityService.java:15-20 | undisturbed, a login begins for a valid device with room among its live logins; counting and inserting read the clock each |
| IdentityStore.IdentityService.CountLogins | apps/mcp-identity/src/main/java/local/sts/identity/IdentityService.java:16-17 | the first statement finds room exactly when the device is valid and has fewer than five live logins |
| IdentityStore.IdentityService.InsertLogin | apps/mcp-identity/src/main/java/local/sts/identity/IdentityService.java:18-19 | the second statement inserts a live login whatever the count is by then |
| IdentityStore.IdentityService.Claim | apps/mcp-identity/src/main/java/local/sts/identity/IdentityService.java:22-24 | a live login is claimed once, on its device and with its state |
| IdentityStore.IdentityService.Open | apps/mcp-identity/src/main/java/local/sts/identity/IdentityService.java:26-30 | a session opens for an enabled identity with the provider's subject and email |
| IdentityStore.IdentityService.Complete | apps/mcp-identity/src/main/java/local/sts/identity/IdentityService.java:23-31 | completing a login is claiming it and then opening its session |
| IdentityStore.IdentityService.Refresh | apps/mcp-identity/src/main/java/local/sts/identity/IdentityService.java:33-42 | a consumed token revokes its session; a current one rotates both tokens and is consumed |
| IdentityStore.IdentityService.Introspect | apps/mcp-identity/src/main/java/local/sts/identity/IdentityService.java:43-46 | an access token is granted only for its active session, device and enabled identity |
| IdentityStore.IdentityService.Session | apps/mcp-identity/src/main/java/local/sts/identity/IdentityService.java:45-46 | a session reference is granted only with its subject, code and device |
| IdentityStore.IdentityService.Logout | apps/mcp-identity/src/main/java/local/sts/identity/IdentityService.java:47-47 | logging out revokes exactly the admitted session |
| IdentityStore.IdentityService.LogoutRefresh | apps/mcp-identity/src/main/java/local/sts/identity/IdentityService.java:48-52 | a current refresh token revokes its session |
| IdentityRuns.EveryTokenIsCurrentOrConsumed | apps/mcp-identity/src/main/java/local/sts/identity/IdentityService.java:35-40 | every refresh token ever issued is the single current token of its session or recorded as consumed, never both |
| IdentityRuns.ReplayRevokesFamily | apps/mcp-identity/src/main/java/local/sts/identity/IdentityService.java:34-35 | presenting a consumed token, from any device, revokes the session it was issued for |
| IdentityRuns.RevocationIsPermanent | apps/mcp-identity/src/main/java/local/sts/identity/IdentityService.java:33-47 | once revoked, in every continuation no refresh, introspection or session check of that family succeeds |
| IdentityTokens.IntrospectsIff | apps/mcp-identity/src/main/java/local/sts/identity/IdentityService.java:43-46 | over every run an access token introspects to a principal if and only if it is the newest of its session, on its device, the session unrevoked and within its thirty days, the clock before the end announced with the token, and the owner enabled; every other token is denied |
| IdentityTokens.SessionAdmitsIff | apps/mcp-identity/src/main/java/local/sts/identity/IdentityService.java:45-46 | over every run a session reference passes if and only if its session is in force in the same sense and the subject and code are those of its enabled owner |
| IdentityTokens.RevokedIff | apps/mcp-identity/src/main/java/local/sts/identity/IdentityService.java:34-52 | a session is revoked if and only if a logout or the replay of an exchanged token revoked it |
| IdentityAnswers.RefreshIff | apps/mcp-identity/src/main/java/local/sts/identity/IdentityService.java:33-42 | over every run a refresh reports the family revoked if and only if its token was exchanged before, and exchanges it if and only if its session is in force on the device and the provider confirms the enabled owner |
| IdentityAnswers.RefreshEnd | apps/mcp-identity/src/main/java/local/sts/identity/IdentityService.java:38-40 | the end announced at a refresh is the earliest of a quarter of an hour, the provider's end and the session's |
| IdentityAnswers.OpensIff | apps/mcp-identity/src/main/java/local/sts/identity/IdentityService.java:26-30 | a claimed login opens its session if and only if the provider confirms an enabled identity and its answer is not stale |
| IdentityAnswers.OpeningEnd | apps/mcp-identity/src/main/java/local/sts/identity/IdentityService.java:27-29 | the end announced at an opening is the earlier of a quarter of an hour and the provider's end, and is to come |
| IdentityAnswers.ClaimIff | apps/mcp-identity/src/main/java/local/sts/identity/IdentityService.java:22-24 | over every run a login is claimed if and only if it was begun less than ten minutes ago on this device with this state, and not claimed before |
| IdentityRuns.LoginsAreSingleUse | apps/mcp-identity/src/main/java/local/sts/identity/IdentityService.java:22-31 | every session was opened by a login, and a login opens at most one session |
| LoginBounds.LiveLoginsBounded | apps/mcp-identity/src/main/java/local/sts/identity/IdentityService.java:15-20 | over every run with at most k begins of a device between their count and their insertion, the device has at most 4 + k live logins |
| LoginBounds.BurstReaches | apps/mcp-identity/src/main/java/local/sts/identity/IdentityService.java:15-20 | for every k from 1 some such run leaves 4 + k live logins |
| LoginBounds.FiveIffOneAtATime | apps/mcp-identity/src/main/java/local/sts/identity/IdentityService.java:17-17 | the bound of five live logins holds in all runs with at most k overlapping begins if and only if k is at most one |
| LoginBounds.FiveIffNotOvertaken | apps/mcp-identity/src/main/java/local/sts/identity/IdentityService.java:17-19 | a run keeps the bound of five if and only if no begin inserts after another of the device inserted since its count while four were live, with five live ever since |
| LoginBounds.TwoBeginsOverlap | apps/mcp-identity/src/main/java/local/sts/identity/IdentityService.java:17-19 | a concrete run in which two begins both count four live logins and both insert, which makes six |
| ProfileStore.ProfileService.Validate | apps/mcp-profile/src/main/java/local/sts/profile/ProfileService.java:40-40 | the loop accepts exactly the valid changes |
| ProfileStore.ProfileService.Apply | apps/mcp-profile/src/main/java/local/sts/profile/ProfileService.java:34-34 | the loop patches exactly the changed columns |
| ProfileStore.ProfileService.Update | apps/mcp-profile/src/main/java/local/sts/profile/ProfileService.java:27-39 | one transaction replays, refuses, or applies changes and records the result under the key |
| ProfileStore.ProfileIsFold | apps/mcp-profile/src/main/java/local/sts/profile/ProfileService.java:30-36 | the stored profile is the initial one with every committed change applied in order |
| ProfileStore.CommitsAreConsecutive | apps/mcp-profile/src/main/java/local/sts/profile/ProfileService.java:33-35 | the i-th commit was made against version initial + i |
| ProfileStore.LedgerHoldsHistory | apps/mcp-profile/src/main/java/local/sts/profile/ProfileService.java:35-37 | the ledger holds each committed key's profile just after its commit, and no key commits twice |
| ProfileStore.ReplaysReturnHistory | apps/mcp-profile/src/main/java/local/sts/profile/ProfileService.java:31-32 | a replay after any further updates returns the stored result and changes nothing |
| ProfileStore.ProfilesStayValid | apps/mcp-profile/src/main/java/local/sts/profile/ProfileService.java:40-40 | stored profiles always satisfy the column limits |
| ProfileColumns.UpdateCommitsIff | apps/mcp-profile/src/main/java/local/sts/profile/ProfileService.java:27-39 | an update commits if and only if caller, confirmation, changes, key and version fit; then each column holds the last value given to it, stripped of outer white space, or what it held, and otherwise nothing changes |
| ProfileColumns.ColumnsHoldLastChange | apps/mcp-profile/src/main/java/local/sts/profile/ProfileService.java:34-34 | over every run each stored column holds the value of the last committed change that names it, else its initial value |
| ProfileColumns.ReplaysHoldColumns | apps/mcp-profile/src/main/java/local/sts/profile/ProfileService.java:31-37 | a replay returns a profile whose columns hold the last changes committed up to its commit |
| ProfileColumns.PatchedByColumn | apps/mcp-profile/src/main/java/local/sts/profile/ProfileService.java:34-34 | patching leaves in every column the last value given to it, or what it held |
| ProfileColumns.ValidChangeIff | apps/mcp-profile/src/main/java/local/sts/profile/ProfileService.java:40-40 | a change is allowed if and only if it names a column that takes its value as given and its text has no control character |
| ProfileColumns.StrippedIsUnique | apps/mcp-profile/src/main/java/local/sts/profile/ProfileService.java:34-34 | a text has one stripped form |
| JsonRoundTrip.ParseInvertsPrint | packages/go/mcpwire/envelope.go:83-89 | reading what either library prints gives back the value, for every well-formed value |
| Canonical.SameValueIffNormal | packages/go/mcpwire/envelope.go:83-89 | two values are the same JSON value, objects as maps, exactly when they normalize alike |
| CanonicalRules.CanonicalIdentifiesValues | apps/mcp-identity/src/main/java/local/sts/identity/Envelope.java:53-61 | two payloads print alike if and only if they are the same JSON value |
| CanonicalRules.CanonicalIsIdempotent | packages/go/mcpwire/envelope.go:57-68 | reading a canonical text and printing it again gives the same text |
| CanonicalRules.OrderIsInsensitive | apps/mcp-identity/src/main/java/local/sts/identity/Envelope.java:56-56 | the members of an object print the same in any order |
| CanonicalRules.IntegersIdentified | packages/go/mcpwire/envelope_v2.go:115-117 | Jackson tells integer literals apart exactly by value; Go also tells -0 from 0 |
| CanonicalRules.LibrariesAgreeIff | packages/go/mcpwire/envelope_v2.go:85-123 | Go and Java print the same canonical text if and only if the value holds no letter-escaped control character and no -0 |
| CanonicalRules.PrintAgrees | apps/mcp-identity/src/main/java/local/sts/identity/Envelope.java:53-53 | both libraries print texts of equal length, equal exactly when all strings are portable |
| Envelopes.HexRoundTrip | packages/go/mcpwire/envelope.go:131-132 | decoding an encoded digest gives it back |
| Envelopes.IntText | packages/go/mcpwire/envelope.go:91-98 | the text of an integer is a JSON integer with that value |
| EnvelopeRules.UnwrapInvertsWrap | packages/go/mcpwire/envelope.go:100-137 | unwrapping returns canonical payload, key, confirmation and identity exactly from second t to t + 59 and within the size limits |
| EnvelopeRules.SignatureBinds | packages/go/mcpwire/envelope_v2.go:62-83 | two envelopes that pass with one signature say the same in every field and in the payload |
| EnvelopeRules.ContextReads | packages/go/mcpwire/envelope.go:70-81 | strict decoding of a printed context gives back every field |
| EnvelopeRules.PairReadsRaw | packages/go/mcpwire/envelope.go:113-121 | the members of a printed envelope are read with the very text of their values |
| JavaEnvelopes.VerifyAt | apps/mcp-identity/src/main/java/local/sts/identity/Envelope.java:22-48 | the verifier accepts exactly what its specification admits |
| JavaEnvelopes.BuildSigned | apps/mcp-identity/src/main/java/local/sts/identity/Envelope.java:35-40 | the loop joins the canonical texts of the fields in their order, or denies |
| JavaEnvelopes.AppendIdentity | apps/mcp-identity/src/main/java/local/sts/identity/Envelope.java:38-38 | the inner loop joins the canonical texts of the identity's fields |
| JavaEnvelopes.SignedTextPrints | apps/mcp-identity/src/main/java/local/sts/identity/Envelope.java:35-40 | the text built from strings is the printed context with an empty signature |
| JavaEnvelopeRules.JavaAcceptsGo | apps/mcp-identity/src/main/java/local/sts/identity/Envelope.java:22-48 | Java accepts what Go wrapped if and only if the clock is in the window, the identity matches Java's patterns, the key is not blank and neither payload nor context holds what the libraries print differently |
| JavaBinds.JavaSignatureBinds | apps/mcp-identity/src/main/java/local/sts/identity/Envelope.java:22-48 | two trees that Java accepts with one signature have the same audience, tool, fields of context and identity, and payload |
| WavFiles.ReadPCM16WAV | packages/go/audio/wav.go:11-54 | the bounded reader gives exactly the specified result or error |
| WavFiles.ReadBody | packages/go/audio/wav.go:24-53 | the chunk loop ends, stays in range and computes the recursive specification |
| WavFiles.ReadsExactlyValidFiles | packages/go/audio/wav.go:10-54 | the reader returns pcm if and only if the file is a RIFF list of padded chunks with valid formats and pcm as its only data chunk, in any order |
| WavFiles.WritePCM16WAV | packages/go/audio/wav.go:56-84 | the header filled in place and the audio make exactly the specified file, or the arguments are refused |
| WavFiles.ReadInvertsWrite | packages/go/audio/wav.go:10-84 | what is written reads back as the same audio if and only if the rate is the same and the length within the reader's limit |
| AudioCapture.AudioFrames.Append | apps/apple/VoiceCore/Sources/VoiceCore/AudioFrames.swift:7-15 | a buffer gives the frames of the pending bytes and itself, the remainder stays, and bad buffers change nothing |
| AudioCapture.AudioFrames.Reset | apps/apple/VoiceCore/Sources/VoiceCore/AudioFrames.swift:16-16 | nothing is pending |
| AudioCapture.FramesOfParts | apps/apple/VoiceCore/Sources/VoiceCore/AudioFrames.swift:7-15 | how a capture is cut into buffers changes neither its frames nor its remainder |
| AudioCapture.FramesJoin | apps/apple/VoiceCore/Sources/VoiceCore/AudioFrames.swift:11-13 | the frames and the remainder make up the bytes |
| AudioCapture.VoiceInputPump.Send | apps/apple/VoiceCore/Sources/VoiceCore/VoiceInputPump.swift:30-42 | the frames of a buffer become events of the turn with consecutive numbers |
| AudioCapture.VoiceInputPump.Renew | apps/apple/VoiceCore/Sources/VoiceCore/VoiceInputPump.swift:21-23 | a new turn numbers from one with nothing pending |
| AudioCapture.VoiceOutbox.EnqueueControl | apps/apple/VoiceCore/Sources/VoiceCore/VoiceOutbox.swift:23-27 | a control is admitted unless the outbox is closed or two above its capacity |
| AudioCapture.VoiceOutbox.EnqueueAudio | apps/apple/VoiceCore/Sources/VoiceCore/VoiceOutbox.swift:29-41 | audio is admitted below capacity, else waits, or fails when cancelled, closed or late |
| AudioCapture.VoiceOutbox.Admit | apps/apple/VoiceCore/Sources/VoiceCore/VoiceOutbox.swift:43-46 | an event is counted and appended to the stream |
| AudioCapture.VoiceOutbox.Sent | apps/apple/VoiceCore/Sources/VoiceCore/VoiceOutbox.swift:47-47 | one event fewer is counted, never below zero |
| AudioCapture.VoiceOutbox.Close | apps/apple/VoiceCore/Sources/VoiceCore/VoiceOutbox.swift:48-48 | the outbox is closed |
| FakeConversation.Session.Append | apps/personal-assistant-agent/internal/fake/conversation/session.go:35-67 | a frame opens, continues or interrupts turns, or is refused without any change |
| FakeConversation.Session.Commit | apps/personal-assistant-agent/internal/fake/conversation/session.go:69-77 | a listening turn with audio is handed over and responding |
| FakeConversation.Session.Cancel | apps/personal-assistant-agent/internal/fake/conversation/session.go:79-86 | an active matching turn is dropped |
| FakeConversation.Session.Complete | apps/personal-assistant-agent/internal/fake/conversation/session.go:88-94 | a responding matching turn becomes idle |
| FakeConversation.Session.Close | apps/personal-assistant-agent/internal/fake/conversation/session.go:96-96 | the session is closed and its audio dropped |
| FakeConversation.ReceivedFrames | apps/personal-assistant-agent/internal/fake/conversation/session.go:35-67 | after k numbered frames the session holds those that fit and has refused every later one |
| FakeTurns.RequestsAreAnswered | apps/personal-assistant-agent/internal/fake/conversation/session.go:35-96 | over every sequence of requests each comes to what is due after the outcomes before it: turns are begun once, frames go on in order while they fit, and what is handed over is all their audio |
| CaptureRuns.CaptureIsOrderedAndBounded | apps/apple/VoiceCore/Sources/VoiceCore/VoiceOutbox.swift:22-48 | over every interleaving occupancy is at most capacity + 2, audio at most capacity, nothing is overtaken, and frames are numbered 1, 2, 3 |
| CaptureRuns.CommitReturnsCapture | apps/personal-assistant-agent/internal/fake/conversation/session.go:69-77 | end to end, a commit returns exactly the captured bytes truncated to whole frames and to the 937 that fit |
| CaptureRuns.AdmittedIff | apps/apple/VoiceCore/Sources/VoiceCore/VoiceOutbox.swift:22-48 | over every interleaving, while the outbox is open a control is admitted if and only if fewer than capacity + 2 events are in it, and always when fewer than two controls are; audio if and only if uncancelled and fewer than capacity are |
| LatencyWindow.Window.Add | apps/voice-gateway/internal/adapters/voice/server.go:41-50 | a sample is appended, or overwrites the oldest |
| LatencyWindow.Window.Percentiles | apps/voice-gateway/internal/adapters/voice/server.go:52-69 | the reported values are those of the specification |
| LatencyWindow.RingHoldsLast | apps/voice-gateway/internal/adapters/voice/server.go:41-50 | after any number of samples the ring holds exactly the last 1024, the oldest at next |
| LatencyWindow.PercentileIsNearestRank | apps/voice-gateway/internal/adapters/voice/server.go:60-67 | the value is a sample, at least that percentage is not above it, and of any smaller value fewer are |
| LatencyWindow.PercentilesAscend | apps/voice-gateway/internal/adapters/voice/server.go:68-68 | the median is at most the 95th percentile |

## Left out

- ExactlyOnce.EffectsHappenAtMostOnce: read-only calls are delivered without effect and their results are not modelled; envelopes in transit carry the planner's arguments unchanged, so re-canonicalisation by a transport is not modelled.
- ActionRuntime.Session.Complete: a job without a key is not cached; the source stores it under the empty key, which no call looks up.
- ActionRuntime.Session.Plan: one clock reading is taken per call where the source takes up to three; schema checks, date-time fields and intent patterns are functions of the tool.
- ConversationClient.ConversationState.HandleServer: transcript lines with their 16384 byte limit, tool operation lists and metrics of the client are not modelled, so errors that only they raise are not either.
- RealtimeMapper.Mapper.Map: metrics and times are not modelled, and base64 audio is a constructor that holds the bytes or is malformed.
- AgentLoop.Runtime.Map: writing evidence and failures of writes to client and provider, which end the loop, are not modelled; the turn timer's arming is not, a time-out may come at any step.
- AgentLoop.Runtime.Take: the metric start that a commit sets is not modelled; tools are always configured; events that do not decode or name another session only report an error and have no step.
- AccountRules.LoginNeedsOneConsent: the tool named identity.begin_login is taken to be bound to its own trusted profile (apps/account-agent/internal/account/config.go:41-47), which is what AccountHost says.
- AccountLoop.AccountRuntime.Deliver: the surfaces shown after a login or logout and the reduced texts of results are not modelled; observing and planning within one event read the clock once.
- AccountLoop.AccountRuntime.Take: letter case and punctuation tables are parameters of the answer to the invitation.
- AgendaRules.AtMostNineHoursADay: times are seconds and the local zone is three hours behind UTC all year; RFC 3339 texts and the zone database are not modelled.
- IdentityStore.IdentityService.Refresh: a transaction is one step, so row locks inside it are not modelled, nor that of two refreshes with one token that overlap the second may be denied instead of revoking; answers of the provider are parameters and stored ciphers are not decrypted.
- IdentityStore.IdentityService.Logout: the session is checked and revoked in one step, and revocation at the provider is not modelled.
- IdentityStore.IdentityService.LogoutRefresh: revocation at the provider is not modelled.
- AgentLoop.Runtime.Rotate: failing to open the new stream, which ends the loop, is not modelled.
- AgentLoop.Runtime.Deliver: failures of evidence and of writes, which end the loop, are not modelled.
- AgentLoop.Runtime.RunCall: failures of evidence and of writes, which end the loop, are not modelled.
- AccountLoop.AccountRuntime.RunCall: the source announces a call to the app without its arguments; here the announcement carries them, as the personal assistant's does.
- AccountLoop.AccountRuntime.Map: failures of writes, which end the loop, and the turn timer's arming are not modelled.
- AccountLoop.AccountRuntime.DeliverUi: the surfaces shown after a login or logout are not modelled.
- AccountResults.ResultsReachIffNotOver: that the app uses ids that are not active is a condition, because a provider may repeat an id; ResultsReachIff does without it.
- Results of tools and confirmation requests towards the client, which touch neither turns nor audio there, and the transcript that the account loop writes before its opening turn.
- ConversationClient.ConversationState.Handle: errors that only transcripts and tool operations raise are not modelled.
- CanonicalRules.CanonicalIdentifiesValues: numbers are the literals that were read; floating point printing in version 1 is not modelled.
- EnvelopeRules.UnwrapInvertsWrap: member names are matched without regard to ASCII case only, invalid UTF-8 and the depth limit of the decoder are not modelled.
- JavaEnvelopes.VerifyAt: a version given as text, fraction or wrapped number and expiry times beyond 64 bits are refused here where Jackson would convert them.
- WavFiles.WritePCM16WAV: short writes and errors of the destination are not modelled.
- AudioCapture.VoiceInputPump.Send: a renewal between two frames of one buffer is not modelled in the method; the run model numbers and sends frame by frame within one turn.
- AudioCapture.VoiceOutbox.EnqueueAudio: the method is one look of the waiting loop; sleeping and the clock are parameters.
- LatencyWindow.Window.Percentiles: the library's sort is an insertion sort, and floating point division is exact.
- Lists of events and notes, and identity preparation, status and seeding: queries and one-branch checks.
- Sockets, HTTP, subprocesses, schema migrations, legacy ledgers, user interfaces, audio devices, configuration: plumbing around the modelled state.
