# Conversation protocols of the pyry daemon, verified

This project models the per-conversation protocols in `cmd/pyry` as Dafny state machines and proves what they
guarantee over every run: late completions, retries, failures, crashes and interleavings included.

Each module follows one component. It holds the state as a value, one function per locked section or per step of the
single drain goroutine, an invariant that every step keeps, theorems over all runs, and a class whose methods update
fields the way the source does and are proved against those functions. Theorems come in both directions: what is refused,
never doubled and never out of order, and what is accepted, announced and said, each tied to the steps alone.

| module | component |
|---|---|
| `LiveState` | the live-state owner: generations, revisions, reserve-then-complete operations |
| `ChannelDelivery` | host posts: a durable outbox reconciled against history, and the gate that excludes user turns |
| `ChannelOutcomes` | what a drain completes, leaves and announces |
| `TurnEmitter` | the turn emitter: text lanes, frame numbers, projected phase, shared flush timer |
| `TurnPlain` | the same emitter without buffering, and that the two cannot be told apart |
| `Utf8Split` | UTF-8 text (RFC 3629, sections 3 and 4) and the byte-bounded split |
| `CodexRunner` | two-factor permission confirmation, rotation gate and thread ownership |
| `CodexApprovals` | admission, draining and answering of approval requests |
| `ReplyEvidence` | joining replies to user messages, and the text boundary of exported rows |
| `ReplyJoin` | the same join read off the entries |
| `ChannelCarry` | carry-forward of posts by count |
| `AgentEndings` | agent calls and background tasks, and their endings |
| `AgentHistory` | what a history of events makes known of them |
| `Handover` | the recent-exchange walk and the bounded hand-over note |
| `Credential` | replacing the file-backed credential |
| `Vocabulary` | the single-flight vocabulary writer |
| `Common` | the optional value they share |

Assumptions: minted ids are fresh, and so are the turn and lane ids taken over from those captured at acceptance
(cmd/pyry/interactive_turn_v2.go:911-913, 944-946); a write reservation is finished at most once; a history append, a
file rename and each locked section are atomic; paging is a complete backward walk; history ids increase and start
above 0; the queue runs one drain per conversation; clocks do not run backwards. Except where the last section says
otherwise, every append, save, page read, write and mint may fail.

Five claims one might expect are false of the code; each has a run that shows it and the exact condition:

- Posts of one conversation need not be recorded in acceptance order: the hold answer is read outside the lock and may
  turn free within a pass (`FlippedHoldReordersPosts`). `OrderIffNoOvertaking` gives the condition for a whole pass and
  `CrashOrderIff` for one cut short, both for every pattern of failures; `AcceptanceOrder` is the guarantee over runs.
- Closing a conversation may announce idle ahead of text another source still holds (`AheadIsReachable`,
  `CloseInOrderIff`), and the turn-opened record may precede held child text (`OpenedAheadIsReachable`,
  `OpenedRecordAheadOfTextIff`). The comments at cmd/pyry/interactive_turn_v2.go:301-303 promise arrival order without
  these exceptions.
- The flush timer is not armed exactly while text is held, as cmd/pyry/interactive_turn_v2.go:167-169 says: an empty
  chunk arms it too (`EmptyChunkArms`). `TimerExactIff` gives the condition for each step, `TimerExactWithoutEmptyChunks`
  the guarantee over runs; held text always has an armed timer (`TimerCoversHeldText`).
- A reservation may be completed twice (`DismissalCompletesTwice`): directly after an accepted completion exactly when
  that was a dismissal (`SecondCompletion`), and never once a reading was retained (`CompletesOnce`).
- After a drain, a later drain's reopening admits requests again (`LaterDrainMayReopen`). `AdmissionIff` says exactly
  when admission is open, `OnlyOwnReopeningAdmitsIff` exactly when only the drain's own reopening admits.

## Model

| member | source | states |
|---|---|---|
| `LiveState.ReachableState` | cmd/pyry/daemon_live_state.go:73-176 | After every interleaving of captures, transitions, admissions, reservations, completions, retentions, retirements, closings and removals, each retained reading carries the current generation, sits under its own family and id and has a revision between 1 and that key's counter; every bound source names a live, unstopped conversation at its current generation |
| `LiveState.StepKeeps` | cmd/pyry/daemon_live_state.go:73-355 | Every locked section keeps the invariant of the maps and lets no counter fall back |
| `LiveState.RunKeeps` | cmd/pyry/daemon_live_state.go:73-355 | The same over every sequence of sections, from any good state |
| `LiveState.PublishedInOrder` | cmd/pyry/daemon_live_state.go:248-282 | Over every run, publication of one family and id of a conversation never goes back to an older generation or revision, and a revision is published again only after a dismissal that carried it |
| `LiveState.AdmissionAfterReservation` | cmd/pyry/daemon_control_live.go:43-56 | After any further steps an admission of a reserved key and generation takes a larger revision than the reservation |
| `LiveState.ReservationAfterAdmission` | cmd/pyry/daemon_control_live.go:43-56 | The same the other way round: so only completing one dismissal twice publishes one revision twice |
| `LiveState.GenerationNeverRepeats` | cmd/pyry/daemon_live_state.go:118-176 | A generation a conversation has left never comes back, even through removal and re-creation |
| `LiveState.InvalidationKills` | cmd/pyry/daemon_live_state.go:124-176 | A transition or a removal puts every generation the conversation had reached out of use |
| `LiveState.ReactivationKills` | cmd/pyry/daemon_live_state.go:88-117 | So does a capture that advances the conversation: for another session, a newer incarnation or a stopped conversation |
| `LiveState.LeftIsDead` | cmd/pyry/daemon_live_state.go:118-176 | Over every run, a generation the conversation has left by any of these ways is out of use |
| `LiveState.LeftIsRefusedForever` | cmd/pyry/daemon_live_state.go:240-344 | Whatever was captured in a generation the conversation has left is refused after any further steps, removal and re-creation included |
| `LiveState.DeadStays` | cmd/pyry/daemon_live_state.go:300-317 | A generation out of use stays out of use |
| `LiveState.DeadIsRefusedForever` | cmd/pyry/daemon_live_state.go:240-344 | Whatever was captured in a generation out of use never again admits, reserves, completes, continues, retains, closes or is judged current, and changes nothing when it tries |
| `LiveState.AdmittedIff` | cmd/pyry/daemon_live_state.go:248-282 | The other half: an envelope is admitted exactly when its source's generation is served and it is fit; it is then retained and published as it came, under the key's next revision, and nothing else moves |
| `LiveState.ReservedIff` | cmd/pyry/daemon_control_live.go:43-56 | A reservation is granted exactly when its generation is served, and takes the key's next revision alone |
| `LiveState.CompletedIff` | cmd/pyry/daemon_control_live.go:57-92 | A reservation that nothing overtook completes exactly with a fit envelope of its family in a served generation, unless it retained one before; what that says is retained and published |
| `LiveState.ReplyOnlyAnswers` | cmd/pyry/daemon_control_live.go:75-81 | A reply-only completion retains and publishes nothing, and its model list is the current one in place of an older one |
| `LiveState.ContinuedIff` | cmd/pyry/daemon_control_live.go:288-304 | A continuation is granted exactly while its reservation stands |
| `LiveState.RetainedIff` | cmd/pyry/daemon_live_state.go:321-344 | A delayed reading is retained exactly when its generation is live, it is fit and its revision is news |
| `LiveState.RetiredIff` | cmd/pyry/daemon_live_state.go:345-363 | Retirement takes exactly a retained reading of the source's generation away and uses up a revision |
| `LiveState.EventActsIff` | cmd/pyry/daemon_live_source.go:50-70 | An event acts exactly for a source that is still streaming: its fit admissions are published once each and in order, and each key is left as the last effect about it said |
| `LiveState.CloseStops` | cmd/pyry/daemon_live_source.go:219-236 | The end of a stream stops exactly the conversation whose generation it belongs to: nobody stays bound, no progress is retained, other conversations are as they were |
| `LiveState.CapturedIff` | cmd/pyry/daemon_live_state.go:88-117 | An unbound producer gets the conversation its session owns at its generation, and is bound unless that is stopped; it is refused exactly for an older incarnation or another session that nothing reactivates |
| `LiveState.BoundIff` | cmd/pyry/daemon_live_state.go:73-87 | A bound producer keeps its source under the provenance it last gave |
| `LiveState.ControlIff` | cmd/pyry/daemon_control_live.go:109-143 | A control gets the conversation's generation and the tag it asked for, unless it asks for another session |
| `LiveState.TransitionMoves` | cmd/pyry/daemon_live_state.go:124-176 | A transition gives the conversation a new generation under the new session and tag, running and with nobody bound; others are as they were |
| `LiveState.AcceptedStaysCurrent` | cmd/pyry/daemon_live_relay.go:250-283 | Over every further run an admitted reading stays retained and current until something touches its key; reservations and other keys never displace it |
| `LiveState.DismissalStaysCurrent` | cmd/pyry/daemon_live_relay.go:261-263 | A published dismissal is current until its key's counter moves, and what it dismissed is not |
| `LiveState.ReplacedPhase` | cmd/pyry/daemon_live_relay.go:272-280 | A queued running phase may still be delivered after a later phase replaced it, an idle one may not |
| `LiveState.StoppedTakes` | cmd/pyry/daemon_control_live.go:231-233 | What a stopped conversation still takes |
| `LiveState.CapturedIsServed` | cmd/pyry/daemon_live_state.go:73-117 | Over every run, what was captured is served as long as the conversation stays in its generation and runs |
| `LiveState.OvertakenForever` | cmd/pyry/daemon_control_live.go:57-92 | Completing a reservation that a later reservation, update or generation has overtaken changes nothing, however late |
| `LiveState.NewerWorkOvertakes` | cmd/pyry/daemon_control_live.go:43-92 | Every accepted admission, reservation, continuation or retention on a key overtakes the operations reserved before it |
| `LiveState.CompletesOnce` | cmd/pyry/daemon_control_live.go:57-92 | A reservation whose completion retained a reading is refused ever after |
| `LiveState.SecondCompletion` | cmd/pyry/daemon_control_live.go:82-89 | Completing the same reservation twice in a row is accepted exactly when the first completion was a dismissal |
| `LiveState.DismissalCompletesTwice` | cmd/pyry/daemon_control_live.go:82-89 | A run from the start whose reservation is completed twice, both times accepted |
| `LiveState.AdvanceLeavesMarkers` | cmd/pyry/daemon_live_state.go:162-176 | A new generation starts with exactly one cleared marker per family, each at revision 1 |
| `LiveState.LiveOwner.Capture` | cmd/pyry/daemon_live_state.go:73-87 | The bound source of a known producer, and no change otherwise |
| `LiveState.LiveOwner.CaptureAfterResolve` | cmd/pyry/daemon_live_state.go:88-117 | The section after resolving: joins the live conversation of the session, advances it for a new session or incarnation, or starts one; keeps the invariant |
| `LiveState.LiveOwner.CaptureForControl` | cmd/pyry/daemon_control_live.go:109-143 | A control source at the conversation's current generation |
| `LiveState.LiveOwner.NewConversation` | cmd/pyry/daemon_live_state.go:118-123 | A conversation at a generation above everything issued |
| `LiveState.LiveOwner.Transition` | cmd/pyry/daemon_live_state.go:124-140 | The section before resolving: advances a known conversation, whose earlier generations are then out of use; otherwise changes nothing |
| `LiveState.LiveOwner.TransitionAfterResolve` | cmd/pyry/daemon_live_state.go:141-161 | The section after resolving: only a conversation the session still resolves to is created if missing and advanced |
| `LiveState.LiveOwner.AdvanceLocked` | cmd/pyry/daemon_live_state.go:162-176 | The loop over the families leaves the generation raised and one cleared marker per family |
| `LiveState.LiveOwner.AdmitLocked` | cmd/pyry/daemon_live_state.go:248-282 | Admission under the generation guard, with revision and publication |
| `LiveState.LiveOwner.ReleaseSources` | cmd/pyry/daemon_live_state.go:283-299 | The loop leaves no source and no turn bound to the conversation and all others as they were |
| `LiveState.LiveOwner.RemoveConversation` | cmd/pyry/daemon_live_state.go:300-320 | The conversation and everything bound to it is gone, and its generation stays used |
| `LiveState.LiveOwner.RetainReading` | cmd/pyry/daemon_live_state.go:321-344 | A reading is retained only at its generation and above its key's counter |
| `LiveState.LiveOwner.RetireLocked` | cmd/pyry/daemon_live_state.go:345-363 | A retained reading is dropped and its revision used up |
| `LiveState.LiveOwner.Reserve` | cmd/pyry/daemon_control_live.go:43-56 | A reservation takes the next revision of its key |
| `LiveState.LiveOwner.CompleteOperation` | cmd/pyry/daemon_control_live.go:57-92 | A completion is accepted only while nothing overtook the reservation |
| `LiveState.LiveOwner.Continue` | cmd/pyry/daemon_control_live.go:288-304 | A continuation takes a new revision only from a reservation that still stands |
| `LiveState.LiveOwner.AcceptEventLocked` | cmd/pyry/daemon_live_source.go:50-70 | An event acts only for a source that is still streaming, and its admissions and retirements keep the invariant |
| `LiveState.LiveOwner.RetireAllProgress` | cmd/pyry/daemon_live_source.go:219-236 | The loop drops every progress reading of the conversation and uses up its revision |
| `LiveState.LiveOwner.Close` | cmd/pyry/daemon_live_source.go:219-236 | Closing stops only the conversation the source is still current for |
| `ChannelDelivery.NothingLostNothingTwice` | cmd/pyry/channel_delivery.go:135-243 | Across every pattern of append failures, save failures and crash-reloads an accepted post is in the durable file or completely in history; what history holds of it is a prefix of its chunks and completion, each once; at most one wake announced it, after completion |
| `ChannelDelivery.CompleteSaysText` | cmd/pyry/channel_delivery.go:366-430 | A completely recorded post says exactly its text, in non-empty bounded chunks numbered from 0, then one completion |
| `ChannelDelivery.MissingIsRest` | cmd/pyry/channel_delivery.go:399-430 | When what is recorded is a prefix of the plan, the entries the reconciliation finds missing are exactly the rest, and the completion is there exactly when all is |
| `ChannelDelivery.AcceptanceOrder` | cmd/pyry/channel_delivery.go:205-243 | Over every run whose hold answers never turn from held to free within a pass, a post with any entry in history finds every earlier post of its conversation complete |
| `ChannelDelivery.OrderedPositions` | cmd/pyry/channel_delivery.go:205-243 | Read off positions: no entry of an earlier post follows one of a later post |
| `ChannelDelivery.OrderIffNoOvertaking` | cmd/pyry/channel_delivery.go:205-253 | For every pattern of failures a pass keeps that order if and only if no post overtakes a held one: an earlier incomplete post of its conversation is held when looked at, and it is itself free, behind no failure of its conversation and able to append; the state and the answers before the pass decide it |
| `ChannelDelivery.FailedIffBlocked` | cmd/pyry/channel_delivery.go:214-236 | A pass skips a conversation from the first failure of a free post on, and only then; the answers tell it beforehand |
| `ChannelDelivery.CrashOrderIff` | cmd/pyry/channel_delivery.go:205-243 | The same if-and-only-if for a pass cut short by a crash, wherever it dies |
| `ChannelDelivery.FlippedHoldReordersPosts` | cmd/pyry/channel_delivery.go:247-253 | A hold that turns free between two posts of one pass does reorder them, for any text and any positive number of appends |
| `ChannelDelivery.GateHoldsInPass` | cmd/pyry/channel_delivery.go:205-253 | A pass, whole or cut short, records nothing of a post whose conversation has a published turn, a write reservation or an outside hold when it is looked at |
| `ChannelDelivery.NoPostDuringTurn` | cmd/pyry/channel_delivery.go:290-361 | Over every run, while a turn is published or a write reserved no entry of any post of that conversation reaches history |
| `ChannelDelivery.TurnOpensAfterPosts` | cmd/pyry/channel_delivery.go:290-322 | An ordinary delivery opens its turn only when every post accepted for the conversation is complete |
| `ChannelDelivery.ReservationsExact` | cmd/pyry/channel_delivery.go:279-342 | Over every run the reservation count of each conversation is the number of writes begun and not finished, and no zero is kept |
| `ChannelOutcomes.CompletesIff` | cmd/pyry/channel_delivery.go:205-243 | A pass completes exactly the posts that are free when looked at, behind no failure of their conversation and whose own attempt does not fail |
| `ChannelOutcomes.DrainAnnounces` | cmd/pyry/channel_delivery.go:366-430 | A drain announces exactly the posts it completes, each once and in outbox order |
| `ChannelOutcomes.DrainLeaves` | cmd/pyry/channel_delivery.go:205-243 | Outbox and file then hold exactly the posts not delivered before nor by the pass, or all of them with marks when the save fails |
| `ChannelOutcomes.CompleteIsAnnounced` | cmd/pyry/channel_delivery.go:424-430 | Over every run a completely recorded post was announced, or the daemon died in the very attempt that completed it |
| `ChannelOutcomes.AcceptedIff` | cmd/pyry/channel_delivery.go:135-163 | A post is taken on exactly when acceptance is open, its turn new and the list saved, and is then last in outbox and file |
| `ChannelOutcomes.HeldIff` | cmd/pyry/channel_delivery.go:247-253 | Over every run the gate holds a conversation exactly while its turn is published, a write of it is open or something outside holds it |
| `ChannelOutcomes.DeliveryOpensIff` | cmd/pyry/channel_delivery.go:300-316 | A delivery opens its turn exactly when nothing holds the conversation and no undelivered post waits for it |
| `ChannelOutcomes.SendNowIff` | cmd/pyry/channel_delivery.go:323-340 | A send-now delivery reserves exactly for a busy conversation that is not being torn down |
| `ChannelOutcomes.FinishesOne` | cmd/pyry/channel_delivery.go:279-286 | Finishing a write ends that reservation and no other |
| `ChannelOutcomes.PublishedIff` | cmd/pyry/channel_delivery.go:352-361 | Over every run a turn counts as published exactly when something published it and nothing withdrew it since; acceptance is sealed exactly when it was stopped and not reloaded since |
| `ChannelDelivery.StepKeeps` | cmd/pyry/channel_delivery.go:135-430 | Every step keeps the outbox, log and gate invariants and never takes anything back |
| `ChannelDelivery.RunKeeps` | cmd/pyry/channel_delivery.go:76-430 | The same over every run, reloads included |
| `ChannelDelivery.Reconcile` | cmd/pyry/channel_delivery.go:376-398 | The backward walk over the pages marks exactly the planned entries the history holds |
| `ChannelDelivery.Delivery.AcceptPost` | cmd/pyry/channel_delivery.go:135-163 | A post is taken on exactly when acceptance is open and the candidate list was saved |
| `ChannelDelivery.Delivery.DeliverPost` | cmd/pyry/channel_delivery.go:366-430 | Appends what is missing in order until an append fails; wakes exactly when it recorded the completion itself |
| `ChannelDelivery.Delivery.Visit` | cmd/pyry/channel_delivery.go:214-236 | The loop body is the pass step: a held post, one behind a failure of its conversation and one already delivered leave history alone and stay pending or not as marked |
| `ChannelDelivery.Delivery.DrainPosts` | cmd/pyry/channel_delivery.go:205-243 | The loop is the pass over all posts, and the file is rewritten only when something was delivered |
| `ChannelDelivery.Delivery.HasPending` | cmd/pyry/channel_delivery.go:270-277 | Whether an undelivered post waits for the conversation |
| `ChannelDelivery.Delivery.TryBeginDelivery` | cmd/pyry/channel_delivery.go:300-316 | One look under the lock: opens, marks and reserves, or changes nothing |
| `ChannelDelivery.Delivery.TryBeginSendNow` | cmd/pyry/channel_delivery.go:323-340 | Reserves only for a busy conversation that is not being torn down |
| `ChannelDelivery.Delivery.AppendMissing` | cmd/pyry/channel_delivery.go:399-430 | The loop appends the missing entries in order until one fails |
| `ChannelDelivery.Delivery.EndWrite` | cmd/pyry/channel_delivery.go:279-286 | Ends one reservation and keeps the count exact |
| `ChannelDelivery.Delivery.PublishBoundary` | cmd/pyry/channel_delivery.go:352-361 | Publishes or withdraws the conversation's turn |
| `ChannelDelivery.Delivery.StopAccepting` | cmd/pyry/channel_delivery.go:180-186 | Seals acceptance |
| `Utf8Split.SplitDeltaText` | cmd/pyry/interactive_turn_v2.go:1202-1223 | The chunks concatenate to the text, are non-empty and at most max bytes, and cut valid UTF-8 only between characters |
| `Utf8Split.SplitLoop` | cmd/pyry/interactive_turn_v2.go:1202-1223 | The loop is the recursive split, for every input |
| `Utf8Split.NextCut` | cmd/pyry/interactive_turn_v2.go:1213-1218 | The back-up loop finds the nearest rune start, or keeps the stride |
| `Utf8Split.SplitRebuilds` | cmd/pyry/interactive_turn_v2.go:1202-1223 | For every text, valid or not, the chunks rebuild it and are non-empty and bounded |
| `Utf8Split.SplitKeepsRunes` | cmd/pyry/interactive_turn_v2.go:1213-1218 | Valid text (section 3 of RFC 3629) is cut only between characters, each chunk but the last within three bytes of the bound |
| `TurnEmitter.TextIsExact` | cmd/pyry/interactive_turn_v2.go:294-410 | In every reachable state at most one source of a conversation holds text, and what was sent followed by what is held is byte for byte, lane for lane and in order what was taken in; TurnPlain says what that is |
| `TurnEmitter.LaneTextIsExact` | cmd/pyry/interactive_turn_v2.go:1000-1014 | The deltas of a lane followed by its buffer concatenate to the text received there |
| `TurnEmitter.NoTextHeldBack` | cmd/pyry/interactive_turn_v2.go:1241-1286 | Everything that arrived has been sent exactly when no source of the conversation holds text |
| `TurnEmitter.DeltasAreNumbered` | cmd/pyry/interactive_turn_v2.go:1241-1269 | Every delta of every run carries the number of earlier deltas of its lane, is non-empty, at most 10000 bytes and valid UTF-8 when all text before it was |
| `TurnPlain.TakesInWhatStepsSay` | cmd/pyry/interactive_turn_v2.go:294-456 | Over every run, all that is taken in, framed, announced or opened is, item by item and in order, what an emitter without buffer, timer and frame numbers does at the same steps |
| `TurnPlain.TextIsWhatStepsSay` | cmd/pyry/interactive_turn_v2.go:350-386 | The text sent followed by the text held is the text of the events that found their turn and lane, once and on that lane |
| `TurnPlain.SeesWhatStepsSay` | cmd/pyry/interactive_turn_v2.go:294-456 | Over every run whose closings pass the check of CloseInOrderIff, what clients see, completed by what is held, is text and frames in exactly the order of the emitter without buffering |
| `TurnPlain.SnapshotIsWhatStepsSay` | cmd/pyry/interactive_turn_v2.go:1019-1074 | The snapshot shows the phase of the source that acted last and has not ended: thinking for thoughts, responding for main text and tools |
| `TurnPlain.EventSame` | cmd/pyry/interactive_turn_v2.go:294-456 | Every event takes in and announces the same with a buffer as without |
| `TurnPlain.CloseSame` | cmd/pyry/interactive_turn_v2.go:1152-1186 | So does closing a conversation |
| `TurnEmitter.FramesFollowText` | cmd/pyry/interactive_turn_v2.go:294-410 | Over every run whose closings pass the check of the next row, each content, status or phase frame follows all text of its conversation that arrived before it |
| `TurnEmitter.CloseInOrderIff` | cmd/pyry/interactive_turn_v2.go:1152-1186 | Closing a conversation announces behind all text if and only if it is not the case that none of its sources runs and one with an open turn closes ahead of one that holds text |
| `TurnEmitter.AheadIsReachable` | cmd/pyry/interactive_turn_v2.go:1152-1186 | A run that reaches the failing case |
| `TurnEmitter.OpenedRecordAheadOfTextIff` | cmd/pyry/interactive_turn_v2.go:906-930 | The turn-opened record is written ahead of text exactly when its own source holds child text |
| `TurnEmitter.OpenedAheadIsReachable` | cmd/pyry/interactive_turn_v2.go:906-930 | A run from the start that does so: child text, then a tool mark of the same source |
| `TurnEmitter.CloseAnnouncesOnlyIdle` | cmd/pyry/interactive_turn_v2.go:1152-1186 | Closing a conversation with any number of open sources announces only idle, never a restored running phase |
| `TurnEmitter.SnapshotIsProjection` | cmd/pyry/interactive_turn_v2.go:1019-1074 | After every event the snapshot shows the phase of the most recently active running source and is absent exactly when none runs |
| `TurnEmitter.TimerCoversHeldText` | cmd/pyry/interactive_turn_v2.go:373-386 | Whenever a conversation holds text the shared timer is armed, due within one window of that text's oldest chunk |
| `TurnEmitter.TimerExactIff` | cmd/pyry/interactive_turn_v2.go:373-386 | With the timer armed exactly while text is held, a step leaves it so if and only if it does not take an empty chunk while nothing else is held |
| `TurnEmitter.TimerExactWithoutEmptyChunks` | cmd/pyry/interactive_turn_v2.go:167-169 | Over every run without empty chunks the timer is armed exactly while some source holds text |
| `TurnEmitter.EmptyChunkArms` | cmd/pyry/interactive_turn_v2.go:373-386 | One empty chunk from the start arms it with nothing held |
| `TurnEmitter.HandleGood` | cmd/pyry/interactive_turn_v2.go:294-410 | Every event of every source keeps all of this and sends nothing ahead of text |
| `TurnEmitter.FireGood` | cmd/pyry/interactive_turn_v2.go:1276-1286 | The timer's fire leaves no text held |
| `TurnEmitter.CloseGood` | cmd/pyry/interactive_turn_v2.go:1152-1186 | Closing keeps the invariant and leaves no source of the conversation |
| `TurnEmitter.CompleteGoesOut` | cmd/pyry/interactive_turn_v2_completion.go:11-23 | A complete child block goes out whole and at once: exactly the pieces of its split, numbered on from its lane's counter, with the buffer untouched |
| `TurnEmitter.Emitter.SendPieces` | cmd/pyry/interactive_turn_v2.go:1252-1261 | The loop appends one delta per piece, numbered on from the lane's counter, and leaves the counter behind the last |
| `TurnEmitter.Emitter.FlushDelta` | cmd/pyry/interactive_turn_v2.go:1241-1270 | Sends the buffer on its lane, clears it, and stops the timer only when nobody else holds text |
| `TurnEmitter.Emitter.AnyHeld` | cmd/pyry/interactive_turn_v2.go:258-265 | Whether any source holds text |
| `TurnEmitter.Emitter.ReleaseSource` | cmd/pyry/interactive_turn_v2.go:246-254 | Forgets a source that retains nothing |
| `TurnEmitter.Emitter.StartTurnIfNeeded` | cmd/pyry/interactive_turn_v2.go:906-930 | Opens the turn on a fresh lane, or leaves it closed when no id is minted |
| `TurnEmitter.Emitter.EnsureDeltaLane` | cmd/pyry/interactive_turn_v2.go:936-957 | Opens a child lane on a fresh id |
| `TurnEmitter.Emitter.RunningPhase` | cmd/pyry/interactive_turn_v2.go:1019-1028 | The loop finds the phase of the most recently active running source |
| `TurnEmitter.Emitter.TransitionTo` | cmd/pyry/interactive_turn_v2.go:1033-1061 | Announces exactly a change of the projection |
| `TurnEmitter.Emitter.CloseTurn` | cmd/pyry/interactive_turn_v2.go:1033-1074 | The idle transition and the end of the turn |
| `TurnEmitter.Emitter.RememberLauncher` | cmd/pyry/interactive_turn_v2.go:964-974 | Keeps a launching call's first known turn |
| `TurnEmitter.Emitter.EmitChildTool` | cmd/pyry/interactive_turn_v2.go:978-998 | Fixes a child call's origin on first sight and sends behind the text |
| `TurnEmitter.Emitter.TakeChunk` | cmd/pyry/interactive_turn_v2.go:373-386 | Buffers the chunk and starts the window only for the oldest text |
| `TurnEmitter.Emitter.EmitCompleteChildText` | cmd/pyry/interactive_turn_v2_completion.go:11-23 | Flushes, then sends the block at once |
| `TurnEmitter.Emitter.HandleTextChunk` | cmd/pyry/interactive_turn_v2.go:350-386 | The text arm is the step that keeps stream, numbering, phase and timer: turn, boundary flush, lane, phase, then the chunk |
| `TurnEmitter.Emitter.HandleThinking` | cmd/pyry/interactive_turn_v2.go:340-349 | The thinking arms: nothing for a child, otherwise text first, then the thinking phase |
| `TurnEmitter.Emitter.OpenInPhase` | cmd/pyry/interactive_turn_v2.go:340-410 | Opens the turn, sends the text held and announces the phase |
| `TurnEmitter.Emitter.HandleTool` | cmd/pyry/interactive_turn_v2.go:387-410 | The tool arms: a child call goes to its fixed origin, a main call behind the text and the responding phase |
| `TurnEmitter.Emitter.HandleToolMark` | cmd/pyry/interactive_turn_v2.go:411-456 | Progress of a child call goes to its origin, of any other to the turn, behind the text and without touching the phase |
| `TurnEmitter.Emitter.HandleStatus` | cmd/pyry/interactive_turn_v2.go:411-456 | A status goes out behind the text, turn or no turn |
| `TurnEmitter.Emitter.HandleTurnEnd` | cmd/pyry/interactive_turn_v2.go:411-456 | The end goes out behind the text and closes the turn; without a turn nothing changes |
| `TurnEmitter.Emitter.HandleForSource` | cmd/pyry/interactive_turn_v2.go:294-410 | One event: other sources' text first, then the arm, then the release |
| `TurnEmitter.Emitter.FlushAll` | cmd/pyry/interactive_turn_v2.go:1276-1286 | Flushes every source and stops the timer |
| `TurnEmitter.Emitter.SortSources` | cmd/pyry/interactive_turn_v2.go:1158-1172 | The sources in closing order |
| `TurnEmitter.Emitter.CloseForConversation` | cmd/pyry/interactive_turn_v2.go:1152-1186 | Closes every source, the least recently active first |
| `CodexRunner.ConfirmedModeIsJustified` | cmd/pyry/codex_confirmation.go:17-96 | In every reachable state a confirmed mode is the mode of the latest attempt, whose response and whose root-thread start from the current child carried the same id, with nothing in between that ends an attempt and no other root turn |
| `CodexRunner.ConfirmedIff` | cmd/pyry/codex_confirmation.go:17-96 | And the converse: over every run a mode is confirmed exactly when such an attempt, response and start exist, in either order of the two |
| `CodexRunner.AttemptAcceptedIff` | cmd/pyry/codex_confirmation.go:24-63 | An attempt is accepted exactly from the child bound last, unless it was unbound, torn down or exited since or the gate is closed |
| `CodexRunner.StaleEpochIsInert` | cmd/pyry/codex_confirmation.go:64-77 | A response with a superseded epoch has no effect, ever |
| `CodexRunner.HeldThreadIsFresh` | cmd/pyry/codex_runner.go:574-602 | A held thread belongs to the current fresh sequence, and each report names the tag of the sequence that started its thread |
| `CodexRunner.StaleSpawnIsSilent` | cmd/pyry/codex_runner.go:958-971 | A spawn begun before a fresh restart neither restores nor reports a thread afterwards |
| `CodexRunner.BindHoldsIff` | cmd/pyry/codex_runner.go:574-602 | A bind holds the thread its spawn resumed or started, and reports a started one under the newest tag, exactly when no fresh restart came since the spawn began |
| `CodexRunner.GateOpensOnlyBy` | cmd/pyry/codex_runner.go:939-971 | An armed rotation gate opens only by the latest arm's own abort or by binding a spawn begun after a later fresh restart |
| `CodexRunner.GateOpensIff` | cmd/pyry/codex_runner.go:939-971 | And these do open it: the latest arm's abort and any accepted bind whose spawn began after a fresh restart behind that arm |
| `CodexRunner.GenerationRises` | cmd/pyry/codex_runner.go:574-623 | The child generation counts accepted binds and unbinds, so an earlier child's never comes back |
| `CodexRunner.GateStaysClosed` | cmd/pyry/codex_runner.go:939-957 | Arming closes the gate under a new number, and it stays closed until one of these |
| `CodexRunner.ArmedGateRefusesTurns` | cmd/pyry/codex_confirmation.go:49-62 | While the gate is armed no attempt begins and no mode is confirmed |
| `CodexRunner.EvidenceExists` | cmd/pyry/codex_confirmation.go:64-96 | The two factors held in any reachable state came from steps of the latest attempt |
| `CodexRunner.Runner.ConfirmedPermissionMode` | cmd/pyry/codex_confirmation.go:38-48 | The mode is reported only while its child is live and the gate open |
| `CodexRunner.Runner.BeginPermissionAttempt` | cmd/pyry/codex_confirmation.go:49-63 | A new epoch for the current child, or a refusal |
| `CodexRunner.Runner.FinishPermissionAttempt` | cmd/pyry/codex_confirmation.go:64-77 | The response counts only for its own client, generation and epoch |
| `CodexRunner.Runner.PermissionTurnStarted` | cmd/pyry/codex_confirmation.go:78-90 | The start counts only from the bound translator and the root thread |
| `CodexRunner.Runner.Join` | cmd/pyry/codex_confirmation.go:91-96 | Two equal factors confirm the pending mode |
| `CodexRunner.Runner.Invalidate` | cmd/pyry/codex_confirmation.go:17-22 | Forgets the attempt and moves to a new epoch |
| `CodexRunner.Runner.BeginSpawn` | cmd/pyry/codex_runner.go:482-487 | The snapshot a spawn works from |
| `CodexRunner.Runner.AdoptThread` | cmd/pyry/codex_runner.go:590-605 | Holds and reports the thread only in the current sequence |
| `CodexRunner.Runner.BindClient` | cmd/pyry/codex_runner.go:574-602 | The binding section: a cancelled spawn binds nothing, the attempt is forgotten, and the gate opens only for a sequence after the arm |
| `CodexRunner.Runner.UnbindClient` | cmd/pyry/codex_runner.go:608-623 | The child is gone and with it the attempt |
| `CodexRunner.Runner.EndTheIteration` | cmd/pyry/codex_runner.go:854-868 | Ends the iteration's attempt |
| `CodexRunner.Runner.Teardown` | cmd/pyry/codex_runner.go:928-938 | Ends the attempt |
| `CodexRunner.Runner.ArmRotation` | cmd/pyry/codex_runner.go:939-957 | Arms the gate under a new number |
| `CodexRunner.Runner.AbortRotation` | cmd/pyry/codex_runner.go:945-956 | Opens the gate only for the latest arm |
| `CodexRunner.Runner.Fresh` | cmd/pyry/codex_runner.go:958-971 | Starts a new fresh sequence without a thread |
| `CodexApprovals.AnsweredAtMostOnce` | cmd/pyry/codex_runner.go:1098-1196 | Over every run each request is answered at most once and the handler count is exact |
| `CodexApprovals.AnsweredIff` | cmd/pyry/codex_runner.go:1078-1196 | Over every run a request was answered exactly when a step answered it: its refusal, its decline, or its response section finding it resolved and not withdrawn |
| `CodexApprovals.AnswerComes` | cmd/pyry/codex_runner.go:1098-1196 | Whatever others do meanwhile, a request that is registered, parked, resolved and comes to its response section without a withdrawal is answered |
| `CodexApprovals.LiveIff` | cmd/pyry/codex_runner.go:1098-1196 | Over every run a request is withdrawn exactly when that was recorded, and in the live table exactly from its parking until it is forgotten |
| `CodexApprovals.NeverAnsweredAfterWithdrawal` | cmd/pyry/codex_runner.go:1175-1196 | Once its withdrawal is recorded no answer to a request is written |
| `CodexApprovals.DrainSettlesEverythingAdmitted` | cmd/pyry/codex_runner.go:1408-1442 | When a drain is through, every request admitted before it closed admission is turned away, resolved or answered |
| `CodexApprovals.SettledStays` | cmd/pyry/codex_runner.go:1408-1442 | Settled requests stay settled |
| `CodexApprovals.DrainGetsThrough` | cmd/pyry/codex_runner.go:1408-1442 | With no handler in flight, a drain that takes its snapshot and resolves it is through, and what it waited for is settled |
| `CodexApprovals.HandlerLeaves` | cmd/pyry/codex_runner.go:1098-1147 | A handler leaves once its request was declined, parked or answered, and no other does with it |
| `CodexApprovals.AdmissionIff` | cmd/pyry/codex_runner.go:1078-1097 | Over every run, a drain later admission is open if and only if some open, or a reopening that named the generation then current, happened since the drain and no drain began after it |
| `CodexApprovals.OnlyOwnReopeningAdmitsIff` | cmd/pyry/codex_runner.go:1443-1453 | While nothing opens, every admission after a drain is behind that drain's own reopening if and only if no later drain's reopening took effect |
| `CodexApprovals.ReopenIffNotSuperseded` | cmd/pyry/codex_runner.go:1443-1453 | A drain's own reopening takes effect exactly when no open and no other drain began since |
| `CodexApprovals.LaterDrainMayReopen` | cmd/pyry/codex_runner.go:1443-1453 | Two drains of an opened lifecycle: the later one's reopening admits what the earlier one had fenced off, and the earlier one's own does not |
| `CodexApprovals.GenerationCounts` | cmd/pyry/codex_runner.go:1064-1077 | The generation counts opens and drains |
| `CodexApprovals.StepKeeps` | cmd/pyry/codex_runner.go:1064-1453 | Every section keeps the request, handler and drain invariants |
| `CodexApprovals.RunKeeps` | cmd/pyry/codex_runner.go:1064-1453 | The same over every run |
| `CodexApprovals.Approvals.OpenLifecycle` | cmd/pyry/codex_runner.go:1064-1077 | Opens admission under a new generation |
| `CodexApprovals.Approvals.BeginRequest` | cmd/pyry/codex_runner.go:1078-1087 | Admits and counts, or answers at once |
| `CodexApprovals.Approvals.Handle` | cmd/pyry/codex_runner.go:1098-1147 | Declines in place, or registers and parks |
| `CodexApprovals.Approvals.WriteResponse` | cmd/pyry/codex_runner.go:1175-1196 | Writes exactly when the request was not withdrawn |
| `CodexApprovals.Approvals.CloseAdmission` | cmd/pyry/codex_runner.go:1408-1420 | Closes admission under a new generation |
| `CodexApprovals.Approvals.ResolveSnapshot` | cmd/pyry/codex_runner.go:1421-1442 | The loop leaves no request admitted before the drain unsettled |
| `CodexApprovals.Approvals.ReopenAdmission` | cmd/pyry/codex_runner.go:1443-1453 | Reopens only for the current generation |
| `ReplyEvidence.EachMessageAnsweredOnce` | cmd/pyry/memory_transcript_replies.go:566-646 | For every history a user message is joined to at most one reply lifetime, and to one of its own source |
| `ReplyEvidence.FirstTerminalDecides` | cmd/pyry/memory_transcript_replies.go:620-633 | Whatever follows, a lifetime keeps its user message, its first terminal and that terminal's verdict |
| `ReplyEvidence.TerminalIsTheEntry` | cmd/pyry/memory_transcript_replies.go:620-633 | The terminal is the end or interruption that was read, also for a lifetime that entry creates, and only an end completes |
| `ReplyEvidence.ReplacementEndsWaiting` | cmd/pyry/memory_transcript_replies.go:556-564 | A message still waiting at a logical replacement is never joined afterwards |
| `ReplyJoin.AnswersIff` | cmd/pyry/memory_transcript_replies.go:566-646 | Over every history, a lifetime answers exactly the message that waited when it opened, or failing that when its own work or terminal first found one: the latest of the source, with no logical replacement and nothing that took or dropped it in between |
| `ReplyJoin.WaitsIff` | cmd/pyry/memory_transcript_replies.go:566-646 | What waits for a source is its latest message that nothing cleared since |
| `ReplyJoin.MessageThenOpening` | cmd/pyry/memory_transcript_replies.go:605-612 | A message directly followed by an opening of its source is that lifetime's message, whatever follows |
| `ReplyJoin.EndsIff` | cmd/pyry/memory_transcript_replies.go:620-633 | A lifetime has a terminal exactly when an end or interruption acts on it; the first is its terminal and alone decides completion |
| `ReplyJoin.DeltasAre` | cmd/pyry/memory_transcript_replies.go:634-644 | A lifetime's text is exactly the non-empty deltas that act on it, in order |
| `ReplyJoin.TextsIff` | cmd/pyry/memory_transcript_replies.go:634-644 | A row that a delta created belongs to the lifetime the delta acted on |
| `ReplyJoin.FindsNewest` | cmd/pyry/memory_transcript_replies.go:596-612 | A key's facts find its newest lifetime, and an opening the lifetime it opened |
| `ReplyJoin.TraceIsFeedAll` | cmd/pyry/memory_transcript_replies.go:531-646 | These histories are the ones the page loop feeds |
| `ReplyEvidence.FeedKeeps` | cmd/pyry/memory_transcript_replies.go:531-646 | Every entry keeps the join invariant; lifetimes only fill in |
| `ReplyEvidence.FeedAll` | cmd/pyry/memory_transcript_replies.go:531-646 | The same over every stretch of history |
| `ReplyEvidence.IntervalsDisjoint` | cmd/pyry/memory_transcript_replies.go:651-675 | The intervals of two rows of one lifetime share no id |
| `ReplyEvidence.DeltaHasRow` | cmd/pyry/memory_transcript_replies.go:651-675 | Every delta from a lifetime's first row on lies in the interval of one of its rows |
| `ReplyEvidence.CountBelow` | cmd/pyry/memory_transcript_replies.go:666-669 | The binary search counts the deltas below the bound |
| `ReplyEvidence.LastBefore` | cmd/pyry/memory_transcript_replies.go:665-672 | The largest delta of an interval, if any |
| `ReplyEvidence.Evidence.FeedEntries` | cmd/pyry/memory_transcript_replies.go:531-646 | The loop over a page is the feed of its entries |
| `ReplyEvidence.Evidence.FeedFact` | cmd/pyry/memory_transcript_replies.go:584-644 | A referenced interruption ends exactly the lifetime it names if source and turn agree; any other fact acts on its key's lifetime |
| `ReplyEvidence.Evidence.FinishLife` | cmd/pyry/memory_transcript_replies.go:620-633 | Only the first terminal counts; a message heard since the opening is joined, and what still waits for the current turn is dropped |
| `ReplyEvidence.Evidence.AddWork` | cmd/pyry/memory_transcript_replies.go:634-644 | A lifetime without user and terminal takes the waiting message; a delta is recorded in order |
| `ReplyEvidence.Evidence.ExportRows` | cmd/pyry/memory_transcript_replies.go:651-675 | Each exported row shows its lifetime's user and exactly the largest recorded non-empty delta of its own interval; other rows show nothing |
| `ChannelCarry.CarriedOnceInOrder` | cmd/pyry/channel_carry.go:134-235 | For every interleaving of posts, failed attempts, abandoned heads and send-now deliveries, the posts of confirmed deliveries followed by those pending are the recorded posts in order |
| `ChannelCarry.NextConfirmedAttemptCarriesAll` | cmd/pyry/channel_carry.go:172-186 | The next confirmed attempt delivers everything pending |
| `ChannelCarry.FailedAttemptLosesNothing` | cmd/pyry/channel_carry.go:160-186 | A failed attempt's posts are carried again with those that came meanwhile |
| `ChannelCarry.LatePostStays` | cmd/pyry/channel_carry.go:210-235 | A post that arrives during an attempt outlives its confirmation |
| `ChannelCarry.TakenIff` | cmd/pyry/channel_carry.go:134-157 | A post is taken on exactly when fewer than 64 wait and all bytes together stay within 65536, and then waits last |
| `ChannelCarry.AttemptCarries` | cmd/pyry/channel_carry.go:172-186 | An attempt carries everything that waits |
| `ChannelCarry.RowsIff` | cmd/pyry/channel_carry.go:134-157 | A row exists exactly for a conversation created, and no step touches another's |
| `ChannelCarry.ComposeCarry` | cmd/pyry/channel_carry.go:257-272 | Nothing pending is the identity; otherwise header first, payload last, and the length is exactly that of the parts |
| `ChannelCarry.QuotedInOrder` | cmd/pyry/channel_carry.go:257-272 | Every post stands in the block behind those before it |
| `ChannelCarry.Carry.RecordPost` | cmd/pyry/channel_carry.go:134-157 | Taken on exactly when both bounds allow; the newest is refused |
| `ChannelCarry.Carry.Begin` | cmd/pyry/channel_carry.go:172-186 | Composes all pending posts and notes their count |
| `ChannelCarry.Carry.ClearDelivered` | cmd/pyry/channel_carry.go:210-235 | Drops exactly the posts the confirmed attempt carried; nothing for a send-now delivery |
| `AgentEndings.ClosedAtMostOnce` | cmd/pyry/agent_session_endings.go:12-51 | Over a whole lifetime, with any number of rosters and endings, a task and a call are each closed at most once and count as ended from then on |
| `AgentEndings.EndedStaysQuiet` | cmd/pyry/agent_history.go:164-186 | What has ended, by outcome, denial or otherwise, is not closed again |
| `AgentEndings.EndingReports` | cmd/pyry/agent_session_endings.go:12-51 | Exactly what an ending reports, in order: each open task no earlier open task of its call speaks for, then each call without result that neither ended nor is spoken for |
| `AgentEndings.EndingLeavesNothingOpen` | cmd/pyry/agent_session_endings.go:12-51 | After an ending every observed call has ended and every task has, itself or through its call |
| `AgentEndings.SecondEndingIsSilent` | cmd/pyry/agent_session_endings.go:12-51 | A second ending changes and reports nothing |
| `AgentEndings.GoneOnlyFromCompleteRoster` | cmd/pyry/agent_history.go:214-242 | A task is inferred gone only from a complete roster without it, while it is linked to an observed call and neither has ended |
| `AgentEndings.ObserveKeeps` | cmd/pyry/agent_history.go:124-186 | Every event keeps the invariant |
| `AgentEndings.RunKeeps` | cmd/pyry/agent_history.go:124-242 | Every history keeps it |
| `AgentHistory.CallsAreTold` | cmd/pyry/agent_history.go:134-168 | Over every history a call is observed, spawns agents and has a result exactly when a start, a remembered start and a final update of a spawning call said so |
| `AgentHistory.TasksAreTold` | cmd/pyry/agent_history.go:171-209 | A task is known, linked and ended exactly as rows named it, the last readable link said, and a status, a complete roster or an ending told |
| `AgentHistory.EndsAreTold` | cmd/pyry/agent_history.go:160-209 | A call has ended exactly when it was denied, a task of it ended, an ended task was linked to it or the session ended |
| `AgentHistory.RosterReports` | cmd/pyry/agent_history.go:181-242 | Exactly what a complete roster infers, in id order, before its own rows are logged |
| `AgentHistory.CutRosterInfersNothing` | cmd/pyry/agent_history.go:214-225 | A cut or partly unreadable roster infers nothing |
| `AgentHistory.EventLogs` | cmd/pyry/agent_history.go:124-209 | Each other event is logged once, as what it told |
| `AgentEndings.Agents.EndAgentWork` | cmd/pyry/agent_session_endings.go:12-51 | Both loops together report that list and leave every call ended |
| `AgentEndings.Agents.ObserveGoneRoster` | cmd/pyry/agent_history.go:214-242 | The roster loops are the inference over the sorted tasks |
| `AgentEndings.Agents.ObserveTaskIdentity` | cmd/pyry/agent_history.go:189-209 | Learns the task and its link; a link of an ended task ends the call |
| `AgentEndings.Agents.ObserveRoster` | cmd/pyry/agent_history.go:181-185 | Inference before this roster's own links |
| `AgentEndings.Agents.ObserveCall` | cmd/pyry/agent_history.go:134-168 | A repeated start keeps a known result; a result counts only for a known launcher; a denial ends the call |
| `AgentEndings.Agents.ObserveUpdate` | cmd/pyry/agent_history.go:171-179 | A reported status ends the task and its call |
| `Handover.SwitchRecentExchanges` | cmd/pyry/conversation_handover.go:77-178 | For every way of cutting history into pages the walk returns the same at most three most recent exchanges, oldest first, as the forward rendering of completed turns defines them |
| `Handover.CountIsRenderedSize` | cmd/pyry/conversation_handover.go:152-167 | The running byte count equals the rendered length whenever that is within the limit, and passes the limit exactly when it does |
| `Handover.RenderRows` | cmd/pyry/conversation_handover.go:97-111 | The builder loop is the chronological rendering |
| `Handover.FinishTurn` | cmd/pyry/conversation_handover.go:87-112 | A turn contributes nothing without both sides, a placeholder when oversized, its rendering otherwise |
| `Handover.ComposeSwitchHandoff` | cmd/pyry/conversation_handover.go:49-72 | Never longer than the limit; exchanges go whole, oldest first and no more than needed; the summary is cut only when no exchange is left, between characters and by at most three bytes too much |
| `Handover.BoundedSwitchSummary` | cmd/pyry/conversation_handover.go:39-47 | The longest prefix within the limit that ends between characters |
| `Handover.OversizedNeverKept` | cmd/pyry/conversation_handover.go:91-96 | An exchange larger than a note is never part of one, nor is anything older |
| `Handover.ExchangeReads` | cmd/pyry/conversation_handover.go:97-111 | An answered turn reads as question and answer under their headings |
| `Handover.LatestTurn` | cmd/pyry/conversation_handover.go:77-178 | A completed turn with both sides is found, and what follows the last turn end is not looked at |
| `Handover.OneSidedTurn` | cmd/pyry/conversation_handover.go:87-90 | A turn with one side only is no exchange |
| `Handover.ReversedAt` | cmd/pyry/conversation_handover.go:166-175 | The exchanges come oldest first |
| `Credential.SelectionIsAlwaysWhole` | cmd/pyry/memory_credential_file.go:135-163 | After any failures and crashes the selection names a token file holding the whole token last committed |
| `Credential.OldOrNew` | cmd/pyry/memory_credential_file.go:226-308 | Every single file operation leaves the selected credential as it was or, at the rename alone, puts the whole new one in place |
| `Credential.ReferenceIsKept` | cmd/pyry/memory_credential_file.go:245-258 | Once set the reference never changes |
| `Credential.BeginsIff` | cmd/pyry/memory_credential_file.go:236-268 | A replacement begins whenever none is in flight, keeps the selected reference and notes the generation it will replace |
| `Credential.FailedLeavesNothing` | cmd/pyry/memory_credential_file.go:276-300 | A failed attempt leaves none of its files and touches no other, unless a removal fails |
| `Credential.CommittedRemovesOld` | cmd/pyry/memory_credential_file.go:301-307 | A committed one removes the token it replaced and no other file |
| `Credential.StepKeeps` | cmd/pyry/memory_credential_file.go:204-308 | Every operation, failure, clean-up and crash keeps the invariant |
| `Credential.RunKeeps` | cmd/pyry/memory_credential_file.go:204-308 | The same over every run |
| `Credential.Store.WriteFile` | cmd/pyry/memory_credential_file.go:204-225 | Exclusive creation, then the content; a failure of either ends the attempt and removes what it can |
| `Credential.Store.Perform` | cmd/pyry/memory_credential_file.go:204-300 | Each file operation carried out is the next step of the state machine |
| `Credential.Store.Discard` | cmd/pyry/memory_credential_file.go:226-308 | The end of a failed attempt is its failing step, whatever the removals leave |
| `Credential.Store.Set` | cmd/pyry/memory_credential_file.go:226-308 | Succeeds exactly when no needed operation failed; success selects the new token under the kept reference, failure leaves the reading as it was; its directories are those of the steps it takes, so the theorems over all runs hold at each of them |
| `Vocabulary.SingleFlight` | cmd/pyry/model_vocabulary_store.go:338-348 | Never a second writer, and an unsaved value has a writer unless the store is closed |
| `Vocabulary.StoppedMeansSaved` | cmd/pyry/model_vocabulary_store.go:382-410 | When the writer has stopped without a failed write the file encodes the newest retained lists |
| `Vocabulary.OpenStoreSavesOrFailed` | cmd/pyry/model_vocabulary_store.go:382-410 | Before closing, only a failure of the last snapshot keeps the newest lists out of the file |
| `Vocabulary.HoldsNewest` | cmd/pyry/model_vocabulary_store.go:294-334 | The store holds what was retained last |
| `Vocabulary.RetainedIsTaken` | cmd/pyry/model_vocabulary_store.go:338-410 | What was retained is unsaved or in the last snapshot |
| `Vocabulary.WriterGetsThere` | cmd/pyry/model_vocabulary_store.go:382-410 | Nobody retaining meanwhile, a writer with something unsaved writes the lists held and stops |
| `Vocabulary.ClosedStartsNothing` | cmd/pyry/model_vocabulary_store.go:338-366 | A closed store without a writer never has one again |
| `Vocabulary.UnchangedIsNotWritten` | cmd/pyry/model_vocabulary_store.go:396-405 | A body already in the file is not written again |
| `Vocabulary.RunKeeps` | cmd/pyry/model_vocabulary_store.go:294-410 | Every interleaving keeps the writer invariant |
| `Vocabulary.Store.ScheduleWrite` | cmd/pyry/model_vocabulary_store.go:338-348 | Starts a writer only when none drains and the store is open |
| `Vocabulary.Store.RetainList` | cmd/pyry/model_vocabulary_store.go:326-334 | Replaces Claude's list and schedules |
| `Vocabulary.Store.RetainCodexList` | cmd/pyry/model_vocabulary_store.go:294-301 | Replaces Codex's list unless the new one is empty |
| `Vocabulary.Store.CloseStore` | cmd/pyry/model_vocabulary_store.go:358-366 | Stops scheduling |
| `Vocabulary.Store.WriteSnapshot` | cmd/pyry/model_vocabulary_store.go:396-405 | Writes unless nothing changed; a failure leaves the file |
| `Vocabulary.Store.Drain` | cmd/pyry/model_vocabulary_store.go:382-410 | The loop ends by itself with nothing dirty and, without a failure, the held lists in the file |

## Left out

- JSON encoding and decoding, envelope size checks and log lines; a live envelope carries a flag for whether it is well formed, and cleared markers are taken to fit.
- Live state: contents of turn records, the inventories cache, publisher queue bounds and the order of a snapshot; an accepted event brings its admissions and retirements as input.
- Counters are unbounded; wrap-around of the 64-bit counters is not modelled.
- Host posts: timestamps, session metadata, the one-time hold warning, validation of a reloaded file, the waits of `beginDelivery` and `beforeInbound` between two looks; busy, teardown and boundary state come in as one outside answer per look.
- Host posts: a crash between two file operations of one save is a save that failed or one that succeeded.
- Turn emitter: sealed sources and the closing of a single runtime source, agent-history and tool-interruption records, wake-ups, suggested replies and the context-usage record; events that only flush and publish are one case.
- Turn emitter: delivery to connections and the ids of envelopes.
- Codex: spawning and stopping processes, turn settings, wrap-up, interrupts; approval payload parsing and display. A turn attempt is finished at most once, and a started thread has a new id.
- Reply evidence: ownership of calls and tasks by children; whether a fact belongs to a child is an input.
- Carry-forward: registry saves and removal of a conversation's row.
- Agent history: a failed mint or append of a fact; the log holds the facts the code sets out to record.
- Hand-over: a failed page read or an expired context, which drops the whole batch; fencing and storing of the note.
- Credential: the operating-system keychains, file protection checks, and files that somebody else tampered with.
- Vocabulary: loading the file; the encoding is a parameter that may fail.
- Relay fan-out, thread publication, command-line handling, service installation and the control client.
- Vocabulary.Store.Drain: is run without retentions arriving between its sections, because a sequential method has no other caller; the theorems over all interleavings cover them.
- LiveState.LiveOwner.AcceptEventLocked: does not compute an event's own effects, because they come from the contents of turn records, which are not modelled.
- ChannelCarry.Carry.RecordPost: does not model a failed registry save, because only the order and count of posts within one daemon run are at stake.
