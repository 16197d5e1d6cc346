# Core Deck: verified model of the daemon's alert engine, transport and session protocols

Core Deck is a small HID device that shows what several Claude Code sessions are doing and lets the user answer their
permission prompts. A daemon sits between the device, the wrapper processes around each `claude`, and the hooks that
`claude` calls. This project models the parts of it whose correctness is not visible in one function, and proves what
they are for.

* **The alert engine**, twice. `AlertSections` is a machine whose steps are single critical sections: every task is a
  program counter, any task may be started or scheduled at any moment, and what other locks and the device say is an
  arbitrary input of the step. `AlertSafety` proves what holds in every interleaving, `AlertLimits` shows what does
  not and exactly which step breaks it, and `AlertKeys` keeps a history of what each key press came back with.
  `EnrollmentLocks` and `EnrollmentFlag` do the same for the two Auto-approve sets and the flag beside them.
  `AlertWorld` is the engine with every operation run to completion, as pure functions; `AlertRuns` proves invariants
  over every run of operations, `AlertPromotion` gives promotion in closed form, `AlertOutcomes` says what single
  operations do to whom, `AlertReplies` what the permission hook is answered, and that nothing is ever allowed
  unasked, `AlertOptOut` follows opt-outs. `AlertEngine` is the daemon's own form, a class with its fields, loops and
  early returns, each method proved to change the world as its function in `AlertWorld` does. `AlertAlone` proves that
  the two models agree: a run of complete operations is a run of the lock-section machine. Which device writes fail is
  an arbitrary set.
* **The HID transport.** `Packets` frames messages and puts them on the wire, `HidReader` is the reader with its read
  loops and the shared TypeString buffer, `Transport` proves the response round trip, `TypeStrings` that a TypeString
  survives whoever reads its chunks, `DeviceEvents` the same of key presses and state reports, `Utf8` what counts as
  text, `Replies` which trimmed replies decode to what was sent. Timeouts and read errors are part of the input.
* **Stream parsers and quoting.** `FocusReports` and `OscTitles` are the two byte automata with the classes that run
  them, `Quoting` the nested shell quoting against a model of POSIX field splitting and quote removal.
* **Registry and session order.** `WrapperRegistry` is the protocol of wrapper processes, connections, tokens and
  daemon restarts; `SessionOrder` the recent list, the tab order, swapping and cycling.
* **Hook settings.** `HookSettings` merges and unmerges hooks over abstract JSON.

`Prelude` and `AlertTypes` hold shared definitions. `dafny verify dfyconfig.toml` checks everything.

## Where the code does not do what its comments say

Each of these is proved, with a run or an input that shows it and the exact condition.

* An opt-out is said to clear when Auto-approve toggles (`crates/coredeck/src/hooks.rs:1390-1396`). A handler that
  resumes after the switch still records its denial, so a tab can be opted out without ever having been asked since:
  `AlertOptOut.DenialOutlivesSwitch`, `AlertOptOut.OptOutOutlivesExactlyByLateDenial`.
* Idle notices are said to be shown once the slot frees (`crates/coredeck/src/alerts.rs:606-607`). `show_idle_alert`
  releases the slot's lock before it queues, so a notice can be queued when nobody is left to look:
  `AlertLimits.NoticeStranded`, `AlertLimits.StrandsExactlyWhenTooLate`.
* A prompt nobody awaits is not to be put on the device (`crates/coredeck/src/alerts.rs:446-449`). The receiver is
  looked at before the slot is claimed, and a handler can give up in between: `AlertLimits.AbandonedPromptLive`,
  `AlertLimits.AbandonsExactlyWhenClaimed`.
* A mark is meant to opt its wrapper in, or out until Auto-approve toggles (`crates/coredeck/src/wrapper.rs:1050-1053`).
  Marks that overlap can leave it in neither set: `EnrollmentLocks.OverlappingMarksCancel` is a run, and
  `EnrollmentLocks.LastCallDecides` and `EnrollmentLocks.OppositeMarks` say exactly when, over every interleaving.
* An approval is not to enroll a wrapper once Auto-approve is off (`crates/coredeck/src/hooks.rs:1373-1376`). The flag
  is read under one lock and the mark made under another: `EnrollmentFlag.ApprovalOutlivesSwitch`,
  `EnrollmentFlag.OptInOutlivesExactlyByLateApproval`. Draining the queue does not read the flag at all:
  `AlertPromotion.DrainIgnoresFlag`.
* A refresh is to cancel an alert whose wrapper is gone (`crates/coredeck/src/alerts.rs:1148-1150`). It locks the slot
  again without looking at what is on it, and can cancel the prompt of a session that has a tab:
  `AlertLimits.SeatedPromptCancelled`, `AlertLimits.TakesSeatedExactlyWhenSwapped`.
* Trimmed replies lose data in two cases the padding does not cover, an older firmware's `Default` with keycode
  0x0000 and stored sequences or strings that end in 0x00: `Replies.LostReplies`, `Replies.KeycodeReplyRoundTrip`,
  `Replies.StoredDataRoundTrip`. A dump of no slots is an error: `Replies.EmptyDumpRefused`,
  `Replies.ThemeDumpRoundTrip`.
* A decision key that meets another alert than the one it was aimed at is said to pass through
  (`crates/coredeck/src/alerts.rs:991-992`); it comes back as consumed instead, exactly when the alert it was aimed at
  has left the slot: `AlertKeys.AllowIsSwallowed`, `AlertKeys.SwallowedExactlyWhenAlertLeft`.
* A focus report cut right after its ESC leaks, as the comment of `FocusStripper` admits; that is the only way:
  `FocusReports.CutReportLeaks`, `FocusReports.ChunkingMatters`.

## Model

| member | source | states |
|---|---|---|
| AlertSafety.NoLostWakeUp | crates/coredeck/src/alerts.rs:349-546 | in every interleaving of lock sections: slot free and prompts queued implies some running task still owes a promotion |
| AlertSafety.OwedPromotionDelivers | crates/coredeck/src/alerts.rs:433-546 | however other tasks run in between, an owing task that is scheduled often enough sees the slot fill or the queue run empty, whatever device and enrollment sets answer |
| AlertSafety.OneshotsConserved | crates/coredeck/src/alerts.rs:355-528 | every parked id is in exactly one of live, queued, carried by one task, answered or dropped |
| AlertSafety.AnsweredOnce | crates/coredeck/src/alerts.rs:1018-1063 | an answer or a drop is never revised later in the run |
| AlertSafety.OneInterval | crates/coredeck/src/alerts.rs:37-41 | an id occupies the slot for one contiguous interval of a run, always with the same alert |
| AlertSafety.KeyPressHitsItsTarget | crates/coredeck/src/alerts.rs:902-1001 | a decision key that takes effect takes the alert it was classified against, which stayed live all the time in between |
| AlertKeys.SwallowedExactlyWhenAlertLeft | crates/coredeck/src/alerts.rs:902-1000 | over every run a decision key comes back consumed with nothing moved if and only if its alert left the slot between classify and resolve; only an Esc dismissing a notice still there is passed through |
| AlertKeys.AllowIsSwallowed | crates/coredeck/src/alerts.rs:993-1000 | a reachable state: an Allow meets another prompt than it was aimed at, is consumed, and that prompt stays live |
| AlertSafety.QueueBounded | crates/coredeck/src/alerts.rs:355-380 | with at most n promotions in flight, queue and carried prompts stay within the cap plus n in spite of the re-queue at the head |
| AlertSections.InvAlways | crates/coredeck/src/alerts.rs:349-1263 | the places of all ids agree with slot, queue and tasks in both directions, and a wake-up is owed, after any events |
| AlertAlone.OperationsAreRuns | crates/coredeck/src/alerts.rs:226-1263 | every run of complete operations, on any link, is a run of the lock-section machine that ends with the same slot, queues, closed receivers and answers |
| AlertAlone.OperationAlone | crates/coredeck/src/alerts.rs:226-1263 | from any state in which both models agree, an operation whose lock sections nobody interrupts does what the operation does as a whole, promotion included, and leaves its handler parked or nothing |
| AlertAlone.WakeAlone | crates/coredeck/src/alerts.rs:695-723 | a parked handler whose sections nobody interrupts closes its receiver, takes its own alert off if that is still live, and promotes, as the operation does as a whole |
| AlertLimits.NoticeStranded | crates/coredeck/src/alerts.rs:278-296 | a reachable state: slot free, an idle notice queued, no task left that would show it |
| AlertLimits.StrandsExactlyWhenTooLate | crates/coredeck/src/alerts.rs:608-674 | a step strands a notice if and only if it queues one after the slot freed and every promotion ended |
| AlertLimits.AbandonedPromptLive | crates/coredeck/src/alerts.rs:446-455 | a reachable state: a prompt is live whose receiver is gone, and no task will clear it |
| AlertLimits.AbandonsExactlyWhenClaimed | crates/coredeck/src/alerts.rs:496-542 | a step leaves a live prompt unattended if and only if it claims the slot for a prompt whose handler has already looked and gone |
| AlertLimits.SeatedPromptCancelled | crates/coredeck/src/alerts.rs:1184-1217 | a reachable state in which a refresh cancels the prompt of a session that has a tab |
| AlertLimits.TakesSeatedExactlyWhenSwapped | crates/coredeck/src/alerts.rs:1184-1217 | over every run a refresh cancels the alert of a session with a tab if and only if the session it looked at has none and the slot now holds an alert, never the one it looked at, of a session that has |
| EnrollmentLocks.EnrollmentExclusive | crates/coredeck/src/wrapper.rs:1060-1095 | in every interleaving a wrapper is in both sets only while a mark is between its two halves |
| EnrollmentLocks.LastCallDecides | crates/coredeck/src/wrapper.rs:1060-1095 | over every interleaving, once no call is under way a wrapper is in the set of the last mark that began, unless a call taking it out of that set was under way then; after a drop or clear it is in neither |
| EnrollmentLocks.OppositeMarks | crates/coredeck/src/wrapper.rs:1060-1080 | two opposite marks, in either order and finishing in either order, leave the wrapper undecided if and only if the second began before the first finished; otherwise the second stands |
| EnrollmentLocks.OverlappingMarksCancel | crates/coredeck/src/wrapper.rs:1060-1080 | a run of two overlapping marks that ends as if neither had been made |
| EnrollmentFlag.OptInOutlivesExactlyByLateApproval | crates/coredeck/src/hooks.rs:1371-1383 | a step leaves a wrapper opted in without Auto-approve if and only if it is the mark of an approval that read the flag before it went off and the sets were cleared |
| EnrollmentFlag.GuardedUnlessLate | crates/coredeck/src/main.rs:687-793 | over every run without such a mark, opted in means Auto-approve is on or about to be cleared |
| EnrollmentFlag.ApprovalOutlivesSwitch | crates/coredeck/src/hooks.rs:1371-1383 | a run after which every call has returned, Auto-approve is off and a wrapper is opted in |
| EnrollmentFlag.CallsGetDone | crates/coredeck/src/main.rs:754-793 | whoever finds the flag on, the switch itself or an approval, opts in the wrapper it had in mind, and whoever switches it off empties the opt-ins, whatever others do in between |
| AlertRuns.QuiescenceAndOrder | crates/coredeck/src/alerts.rs:226-674 | over all runs of complete operations: slot free implies both queues empty; prompts go live in strictly increasing id order; at most 16 idle notices, one per session |
| AlertRuns.AutoAllowSafety | crates/coredeck/src/main.rs:687-793 | over all runs: every request allowed without a key press had Auto-approve on, its wrapper opted in, and no user-input tool; opt-ins imply Auto-approve, which implies a state report |
| AlertRuns.DeviceMirrors | crates/coredeck/src/alerts.rs:1160-1263 | over all runs on a sound link: while connected, the device shows exactly the live alert at its session's current tab, or nothing |
| AlertRuns.ReconnectMirrors | crates/coredeck/src/alerts.rs:573-604 | resync leaves exactly the live alert on the device, whatever its sixteen tabs showed |
| AlertRuns.InvKept | crates/coredeck/src/alerts.rs:226-1263 | every single operation keeps order, bounds, enrollment, justification, mirroring and quiescence, on any link |
| AlertPromotion.PromotionSettlesPrefix | crates/coredeck/src/alerts.rs:433-546 | promotion in closed form, every field of the new world: prompts before the first that reaches the device are allowed, on record, or dropped, that one goes live with its id, the rest stay in order; with none left the notices follow |
| AlertPromotion.IdlePromotionShowsFirst | crates/coredeck/src/alerts.rs:649-674 | idle promotion in closed form, every field of the new world: the first notice with a tab, not suppressed, whose send succeeds is shown, earlier ones are gone, later ones stay in order |
| AlertPromotion.NoticesComeLast | crates/coredeck/src/alerts.rs:439-444 | a queued notice is shown only when no prompt is queued |
| AlertPromotion.NoticesTakeOver | crates/coredeck/src/alerts.rs:433-546 | when no queued prompt reaches the device, promotion shows the first notice worth showing whose send succeeds, after the writes that failed for prompts, keeps the later ones in order, and leaves the slot free only if none reaches it |
| AlertPromotion.UndecidedIsAsked | crates/coredeck/src/alerts.rs:445-495 | on a device that takes every write the first queued prompt only the user can decide is the next one asked and never passed over; of those before it exactly the awaited prompts of opted-in wrappers are allowed |
| AlertPromotion.OneDecisionSettlesSiblings | crates/coredeck/src/alerts.rs:1037-1074 | one decision on an enrollment prompt settles any number of sibling prompts behind it: Allow allows them all, anything else drops them unanswered, none is asked |
| AlertPromotion.DrainIgnoresFlag | crates/coredeck/src/alerts.rs:457-495 | prompts of an opted-in wrapper at the head of the queue are allowed whether Auto-approve is on or off |
| AlertPromotion.ProgressLeavesNothing | crates/coredeck/src/alerts.rs:728-760 | after a session's progress nothing of it is live or queued, whatever promotion brings up |
| AlertPromotion.TabsLeaveOnlySeated | crates/coredeck/src/alerts.rs:1160-1224 | after a tab refresh only alerts and prompts of sessions with a tab are left |
| AlertOutcomes.FocusTakesNoticesOnly | crates/coredeck/src/alerts.rs:762-798 | looking at a session's window removes all its notices; with a prompt live nothing else changes |
| AlertOutcomes.ProgressTakesPromptsOnly | crates/coredeck/src/alerts.rs:800-813 | coarse progress removes every prompt of the session, live or queued, and leaves a notice on screen |
| AlertOutcomes.ToolProgressIsScoped | crates/coredeck/src/alerts.rs:815-833 | tool progress changes nothing unless the live prompt is that session's and that tool's; then what stays queued is the end of the queue |
| AlertOutcomes.ProgressTakes | crates/coredeck/src/alerts.rs:728-760 | the whole new world: the session's alert, prompts and notices are gone, nothing of another session is, and if the slot was freed promotion in its closed form follows |
| AlertOutcomes.FocusTakes | crates/coredeck/src/alerts.rs:762-798 | the whole new world: the session's notices are gone, shown or queued, then promotion |
| AlertOutcomes.CancelTakes | crates/coredeck/src/alerts.rs:800-880 | the whole new world: a live prompt of the session and tool is taken off, with its queued siblings if no tool is named, then promotion |
| AlertOutcomes.TabsTake | crates/coredeck/src/alerts.rs:1160-1263 | the whole new world: prompts without a tab are gone; the live alert stays, moves in two writes, lost ones included, or goes and promotion follows |
| AlertOutcomes.UnregisterForgets | crates/coredeck/src/wrapper.rs:238-264 | the end of a connection forgets its wrapper's decision and no other, takes its tab and keeps the others in order, and leaves no alert or prompt of a session without a tab |
| AlertOutcomes.KeyTakes | crates/coredeck/src/alerts.rs:902-1082 | the whole new world: a key that means something for the alert takes it off, answers it, settles its wrapper's enrollment if that was asked, then promotion |
| AlertOutcomes.WakeTakes | crates/coredeck/src/alerts.rs:695-723 | a resuming handler takes its own alert off, if still live, and no other |
| AlertOutcomes.DecisionIsSent | crates/coredeck/src/alerts.rs:1018-1074 | the decision reaches the live prompt if it is awaited; any other answer given is an Allow to a prompt that leaves the queue |
| AlertOutcomes.KeysThatMoveNothing | crates/coredeck/src/alerts.rs:882-982 | a key leaves everything as it was if and only if it is no answer to what is on screen |
| AlertOutcomes.KeysComeBack | crates/coredeck/src/alerts.rs:885-1082 | an if-and-only-if for each result of a key press; only an Esc that dismisses the active session's notice is passed through with something changed |
| AlertOutcomes.FlipEnrollsActive | crates/coredeck/src/main.rs:754-793 | only a flip changes enrollment: on, exactly the wrapper of the active session, or the first if that has none, joins; off, nobody is left |
| AlertOutcomes.NoticeShownOrQueued | crates/coredeck/src/alerts.rs:226-330 | a notice is dropped exactly if it says a session waits whose terminal is focused or never reports focus; otherwise it is shown at its tab, queued behind another alert, or lost with the failed send |
| AlertOutcomes.NoDeadPrompt | crates/coredeck/src/alerts.rs:446-455 | over all runs of complete operations no live prompt has lost its receiver |
| AlertOptOut.OptOutOutlivesExactlyByLateDenial | crates/coredeck/src/hooks.rs:1388-1400 | an operation leaves an opt-out without Auto-approve if and only if it is a denied handler resuming after the switch |
| AlertOptOut.DenialOutlivesSwitch | crates/coredeck/src/hooks.rs:1388-1400 | a run after which a tab is opted out with Auto-approve off, and is refused a prompt once it is on again |
| AlertReplies.NothingAllowedUnasked | crates/coredeck/src/hooks.rs:1179-1415 | over all runs the hook answers Allow only if Auto-approve was on with the device there and the wrapper opted in, or the user pressed an Allow key on that very prompt, or it was drained while its wrapper was opted in under Auto-approve; never to a question to the user |
| AlertReplies.DecisionReachesHandler | crates/coredeck/src/hooks.rs:1349-1415 | over all runs a key on an awaited prompt is what its handler answers, whatever happens until it resumes: Allow allows, anything else denies, or hands an enrollment back to the terminal |
| AlertReplies.ReplyIsSettled | crates/coredeck/src/hooks.rs:1349-1415 | what became of a prompt that left slot and queue never changes, so its handler answers the same whenever it resumes |
| AlertReplies.RequestAnswers | crates/coredeck/src/hooks.rs:1227-1347 | Allow if and only if nobody needs to be asked, and only that goes on record; questions to the user, declined wrappers and missing sessions pass with nothing changed; parked if and only if there is room, and then live at its tab or last in the queue |
| AlertReplies.QuestionsAreTheTerminals | crates/coredeck/src/hooks.rs:1214-1234 | `ExitPlanMode` and `AskUserQuestion` pass with nothing changed in every state; no other tool is held back by its name |
| AlertReplies.WakeAnswers | crates/coredeck/src/hooks.rs:1349-1415 | an if-and-only-if for each answer of the resumed handler, and what it does to the enrollment sets |
| AlertReplies.AwayAsksNobody | crates/coredeck/src/main.rs:687-711 | over all runs, from a disconnect until the device is back nothing is live or waits and every request is left to its terminal, Auto-approve or not |
| AlertReplies.DisconnectDisarms | crates/coredeck/src/main.rs:687-793 | after a disconnect and a reconnect the first state report arms Auto-approve for no wrapper |
| AlertEngine.Engine.TryInstallNextPending | crates/coredeck/src/alerts.rs:433-546 | the loop ends and takes the world where the closed-form promotion says |
| AlertEngine.Engine.PromoteQueuedIdle | crates/coredeck/src/alerts.rs:649-674 | the loop ends on queue length although it calls back into the installer |
| AlertEngine.Engine.ShowIdleAlert | crates/coredeck/src/alerts.rs:236-320 | shows, queues, suppresses or gives up exactly as `AlertWorld.ShowIdle` |
| AlertEngine.Engine.QueueIdle | crates/coredeck/src/alerts.rs:608-634 | replaces a session's notice in place, else appends, losing the oldest at the cap |
| AlertTypes.Enqueue | crates/coredeck/src/alerts.rs:608-634 | the idle queue never passes sixteen entries, holds the new notice, keeps one per session, and keeps the other sessions' notices in order, losing the oldest only when a new session meets a full queue |
| AlertEngine.Engine.InstallPendingAlert | crates/coredeck/src/alerts.rs:332-409 | parks behind a live alert up to the cap, goes live on a free slot if the device takes it, else nothing |
| AlertEngine.Engine.ClearAlertIf | crates/coredeck/src/alerts.rs:700-723 | clears and promotes only if the live alert is the handler's own |
| AlertEngine.Engine.CancelForSessionProgress | crates/coredeck/src/alerts.rs:728-760 | cancels live alert, queued prompts and notices of the session, then promotes if the slot was freed |
| AlertEngine.Engine.CancelIdleForSession | crates/coredeck/src/alerts.rs:767-798 | cancels idle notices of the session only |
| AlertEngine.Engine.CancelPendingInner | crates/coredeck/src/alerts.rs:835-880 | cancels a live prompt of the session, tool-scoped or with its queued siblings |
| AlertEngine.Engine.ConsumeInputForDecision | crates/coredeck/src/alerts.rs:902-1082 | result and new world of a key press, from the raw keycode, on every alert state |
| AlertEngine.KeysByModifier | crates/coredeck/src/alerts.rs:1103-1144 | which of all 16-bit keycodes decide: Enter, y, n and Esc without Ctrl, Ctrl-C exactly, the Claude button exactly |
| AlertEngine.Engine.RefreshForTabs | crates/coredeck/src/alerts.rs:1160-1263 | drops prompts without a tab, cancels or relocates the live alert, promotes |
| AlertEngine.Engine.ResyncDevice | crates/coredeck/src/alerts.rs:573-604 | clears sixteen tabs and re-sends the live alert |
| AlertEngine.Engine.OnDisconnected | crates/coredeck/src/main.rs:687-711 | disarms Auto-approve, clears enrollment, drops all alerts |
| AlertEngine.Engine.OnStateReport | crates/coredeck/src/main.rs:754-793 | only a flip after the first report enrolls the active wrapper or clears the sets |
| AlertEngine.Engine.HandlePermissionRequest | crates/coredeck/src/hooks.rs:1179-1347 | answers, or parks, exactly as `AlertWorld.Request` |
| AlertEngine.Engine.ResumeRequest | crates/coredeck/src/hooks.rs:1349-1400 | cleans up its own alert only, marks enrollment, and answers the hook |
| Packets.BuildIsFrames | crates/coredeck/src/hid/protocol.rs:231-263 | the chunk pipeline frames a message as cutting it off front to back does |
| Packets.WireKeepsChunk | crates/coredeck/src/hid/device.rs:1303-1375 | in both modes a chunk arrives with its flags, command and bytes, then zeros |
| Packets.VialDropsOnlyPadding | crates/coredeck/src/hid/device.rs:1303-1332 | the byte the VIAL prefix pushes off is always padding: the frame is restored |
| Packets.HidPacket.SetPayload | crates/coredeck/src/hid/protocol.rs:203-211 | truncates, copies and zeroes the rest in place |
| Packets.PackChunk | crates/coredeck/src/hid/protocol.rs:245-262 | a command packet filled with a chunk is that chunk's frame |
| HidReader.Reader.ReadRawPacket | crates/coredeck/src/hid/device.rs:1344-1375 | skips VIA echoes, strips the prefix, tells silence from an error |
| HidReader.Reader.ReadResponse | crates/coredeck/src/hid/device.rs:1437-1531 | the twenty-read loop equals the recursive specification, events and inbox included |
| HidReader.Reader.DrainResponse | crates/coredeck/src/hid/device.rs:1039-1069 | at most three reads, state reports consumed silently |
| HidReader.Reader.DispatchIncoming | crates/coredeck/src/hid/device.rs:1539-1606 | events and TypeString buffer after one packet, trimming in a loop |
| Transport.RoundTrip | crates/coredeck/src/hid/device.rs:1437-1531 | any payload in either mode, among any echoes and unsolicited packets within the read limit (twenty in the code), comes out up to trailing zeros; those packets are heard and the rest of the inbox is untouched |
| Transport.ErrorRoundTrip | crates/coredeck/src/hid/device.rs:1501-1513 | an error response of any length among any traffic is told apart from a reply, with its code |
| Transport.NoResponseSaysWhy | crates/coredeck/src/hid/device.rs:1437-1463 | packets that do not complete a response and then silence give a timeout, then a fault a read error; what came in between is heard and the rest is untouched |
| Transport.ReadLimitReached | crates/coredeck/src/hid/device.rs:1450-1531 | as many reads as allowed without a whole response end the wait, with nothing behind them touched |
| Transport.DrainTakesOneResponse | crates/coredeck/src/hid/device.rs:1039-1069 | a drain takes one response off the device, up to its last packet, or stops at silence, a fault or its read limit, with nothing behind touched; keys and strings in between are passed on, state reports are not |
| Transport.RestAssembles | crates/coredeck/src/hid/device.rs:1477-1490 | at any point of a response the remaining frames complete the payload |
| TypeStrings.TypedOnce | crates/coredeck/src/hid/device.rs:1565-1598 | a TypeString of any length, its chunks read by any mix of polls, drains and response reads, whatever their read limits, types its text once with its flag, nothing if it is not UTF-8, and empties the buffer |
| TypeStrings.UsesKeepStrings | crates/coredeck/src/hid/device.rs:371-453 | over any sequence of device uses, strings typed and chunks unread together stay the same |
| Utf8.ValidExactlyIfEncoded | crates/coredeck/src/hid/device.rs:1586-1595 | what is typed is text: bytes are taken for UTF-8 if and only if they encode a sequence of Unicode scalar values |
| DeviceEvents.SignalHeard | crates/coredeck/src/hid/device.rs:1544-1564 | in either mode every 16-bit keycode and every state byte arrives as itself, as one event, with the TypeString buffer left alone |
| DeviceEvents.EventsArrive | crates/coredeck/src/hid/device.rs:1437-1606 | the keys pressed reach the daemon each once, in order, whoever reads their packets among other traffic; so do the states, if nothing is drained |
| DeviceEvents.UsesKeepEvents | crates/coredeck/src/hid/device.rs:371-453 | over any sequence of device uses, key presses heard and key presses unread together stay the same |
| DeviceEvents.DrainHearsNoState | crates/coredeck/src/hid/device.rs:1039-1069 | a drain passes no state report on |
| Replies.ReplyIsRead | crates/coredeck/src/hid/device.rs:1497-1526 | a reply of status and body is read with its status and its body up to trailing zeros |
| Replies.ThemeDumpRoundTrip | crates/coredeck/src/hid/device.rs:1386-1418 | a palette dump, with any extra bytes, decodes to its colours if and only if it has at most 64 slots and is not trimmed to nothing |
| Replies.ParseThemeDump | crates/coredeck/src/hid/device.rs:1386-1418 | the parsing loop equals its specification, both errors included |
| Replies.SetThemeRoundTrip | crates/coredeck/src/hid/device.rs:953-969 | the echoed colour is restored, black too |
| Replies.KeycodeReplyRoundTrip | crates/coredeck/src/hid/device.rs:756-806 | a keycode reply decodes to its keycode if and only if it is not keycode 0x0000 reported as Default |
| Replies.StoredDataRoundTrip | crates/coredeck/src/hid/device.rs:777-787 | a stored string or sequence is read back if and only if it does not end in 0x00 |
| Replies.LostReplies | crates/coredeck/src/hid/device.rs:756-806 | replies that decode to something else than the device holds |
| Replies.StaleReplyRefused | crates/coredeck/src/hid/device.rs:767-776 | a reply for another key is an error, unless trimmed below two bytes |
| Replies.ResetRoundTrip | crates/coredeck/src/hid/device.rs:850-876 | the nine-byte reset reply decodes to its three keys whatever zeros it ends in |
| FocusReports.NothingLost | crates/coredeck-claude/src/main.rs:67-140 | for every chunking: forwarded bytes, reports and what is held make up the input in order; bytes in are bytes out plus three per report plus held; only `ESC [` is ever held |
| FocusReports.ChunkingMatters | crates/coredeck-claude/src/main.rs:55-140 | the stripper equals deleting every report of the whole input if and only if no read ends between a report's ESC and the rest of it |
| FocusReports.CutReportLeaks | crates/coredeck-claude/src/main.rs:55-66 | a report cut behind its ESC is forwarded byte for byte and not reported |
| FocusReports.FocusStripper.Process | crates/coredeck-claude/src/main.rs:74-139 | the loop emits the bytes and reports of one read of the specification |
| OscTitles.SequenceEmitted | crates/coredeck-claude/src/main.rs:186-246 | from any reachable state a well-formed sequence resets the sniffer, and is emitted once, code saturated and body cut at 512, if and only if it started outside a sequence and has a code |
| OscTitles.StreamSniffed | crates/coredeck-claude/src/main.rs:180-246 | of any stream cut in any way every OSC sequence that has a code and an end, with a body or without, is emitted once, in order; broken ones and everything else emit nothing and leave the sniffer ready |
| OscTitles.ValidAlways | crates/coredeck-claude/src/main.rs:146-247 | the body never passes 512 bytes and nothing is kept outside a sequence |
| OscTitles.ChunkingIrrelevant | crates/coredeck-claude/src/main.rs:180-184 | reads of any size emit what one read of everything emits |
| OscTitles.OscSniffer.Process | crates/coredeck-claude/src/main.rs:186-246 | the in-place step equals the specification |
| Quoting.NestedRoundTrip | crates/coredeck-claude/src/main.rs:538-547 | the outer shell reads the quoted command as one word, the inner one reads that word as exactly the original arguments |
| Quoting.ArgumentsRead | crates/coredeck-claude/src/main.rs:541-545 | quoted arguments joined by spaces are read back as themselves, empty ones too |
| Quoting.QuotersAgree | crates/coredeck/src/hooks.rs:2148-2150 | the two quoting functions agree on every string |
| Quoting.ShQuote | crates/coredeck-claude/src/main.rs:431-443 | the loop computes the quoted string |
| Quoting.RemoteCommand | crates/coredeck-claude/src/main.rs:538-547 | the command built from the arguments |
| WrapperRegistry.EntryStandsForLastRegister | crates/coredeck/src/wrapper.rs:121-264 | over any interleaving, restarts included, an id is on record exactly while the connection that registered it last is not torn down, and its commands go there |
| WrapperRegistry.SessionsWerePosted | crates/coredeck/src/wrapper.rs:271-301 | every session held for a wrapper id, in registry, cache or flight, was posted for that id |
| WrapperRegistry.SessionIsLastPosted | crates/coredeck/src/wrapper.rs:121-301 | over any interleaving, restarts included, a wrapper on record has the session posted last while it stood, or else the one its registration preserved or adopted |
| WrapperRegistry.PostBinds | crates/coredeck/src/wrapper.rs:271-301 | a post binds exactly the wrapper it names, under the token and connection it has, and is on its way there; for an unknown wrapper nothing changes |
| WrapperRegistry.BindingLasts | crates/coredeck/src/wrapper.rs:112-253 | over any run a binding lasts as long as its wrapper stays on record and nothing else is posted for it |
| WrapperRegistry.PostReachesWrapper | crates/coredeck-claude/src/main.rs:991-1138 | a wrapper that connected and registered caches the next session posted for it |
| WrapperRegistry.PostOutlivesRestart | crates/coredeck/src/wrapper.rs:286-291 | a session posted for a connected wrapper is bound again after a daemon restart, however many frames were on their way |
| WrapperRegistry.InvKept | crates/coredeck-claude/src/main.rs:991-1138 | each event of processes, connections and daemon keeps tokens unique, entries standing and sessions genuine |
| WrapperRegistry.FlapPreserves | crates/coredeck/src/wrapper.rs:112-160 | a reconnect before the old teardown keeps the binding and survives that teardown |
| WrapperRegistry.RestartAdopts | crates/coredeck/src/wrapper.rs:116-160 | a restarted daemon adopts the session the wrapper cached |
| WrapperRegistry.Daemon.Unregister | crates/coredeck/src/wrapper.rs:244-253 | removes an entry only for its own token |
| WrapperRegistry.Daemon.RegisterWrapper | crates/coredeck/src/wrapper.rs:121-160 | preserves an earlier binding, else adopts the cached one |
| SessionOrder.RecentsAreLatest | crates/coredeck/src/state.rs:194-199 | the recent list is the first sixteen distinct sessions of the reversed activation history |
| SessionOrder.SwapToggles | crates/coredeck/src/wrapper.rs:1222-1247 | a swap is undone by the next one if and only if the first session still has a wrapper; then the two toggle |
| SessionOrder.TabOrderUnique | crates/coredeck/src/wrapper.rs:459-470 | the tab order does not depend on the order the registry is iterated in |
| SessionOrder.TabIndexIsTabOf | crates/coredeck/src/wrapper.rs:459-470 | on the sorted registry the tab index is the one the alert engine works with |
| SessionOrder.CycleVisitsAll | crates/coredeck/src/wrapper.rs:1164-1213 | n steps forward visit each of n bound sessions once and end where they began |
| SessionOrder.BackUndoesForward | crates/coredeck/src/wrapper.rs:1197-1203 | a step back undoes a step forward if and only if the active session has a seat |
| SessionOrder.ColdStart | crates/coredeck/src/wrapper.rs:1197-1203 | with nothing active the first turn lands on the first seat forward and the last one back |
| SessionOrder.SeatsAreDistinct | crates/coredeck/src/wrapper.rs:1164-1180 | with at most one wrapper per session the reachable sessions are distinct |
| SessionOrder.ClaudeState.SetActiveSession | crates/coredeck/src/state.rs:194-199 | promotes in place; the list stays duplicate-free, capped and headed by the active session |
| SessionOrder.ClaudeState.EndSession | crates/coredeck/src/hooks.rs:1661-1667 | an ended session leaves the list and is no longer active; the rest keeps its order |
| SessionOrder.ClaudeState.PreviousSession | crates/coredeck/src/state.rs:204-210 | finds the latest other session that is live |
| SessionOrder.ClaudeState.TabOrder | crates/coredeck/src/wrapper.rs:459-466 | any iteration of the registry, sorted, gives the one tab order |
| SessionOrder.ClaudeState.CycleActive | crates/coredeck/src/wrapper.rs:1164-1213 | activates the neighbour in the ring of reachable sessions, or does nothing |
| HookSettings.InstallIdempotent | crates/coredeck/src/hooks.rs:2006-2144 | installing again, also for another address, leaves exactly what one install would |
| HookSettings.UninstallRestores | crates/coredeck/src/hooks.rs:2262-2307 | uninstall after install gives back the settings if and only if they are restorable: the condition is spelled out |
| HookSettings.UninstallAfterInstall | crates/coredeck/src/hooks.rs:2262-2307 | the closed form of uninstall after install for any settings whatsoever |
| HookSettings.UserBlocksKept | crates/coredeck/src/hooks.rs:2194-2210 | under any sequence of installs and uninstalls every event keeps the user's blocks in order |
| HookSettings.FreshIsManaged | crates/coredeck/src/hooks.rs:2157-2190 | every block the installer writes, quoted path and all, is recognised as ours |
| HookSettings.HooksUrlIsCutOff | crates/coredeck/src/hooks.rs:2168-2179 | cutting a URL off at its end and looking how its path begins is the same as finding some authority followed by `/hooks/` |
| HookSettings.LocalPathsAreTheUsers | crates/coredeck/src/hooks.rs:2163-2168 | a user's command without a URL and without our scripts' names is not ours, whatever `hooks` directory it is in |
| HookSettings.MentionsSomeString | crates/coredeck/src/hooks.rs:2152-2161 | a value is ours if and only if some key or string in it is, however deep |
| HookSettings.JsonTextReadsBack | crates/coredeck/src/hooks.rs:2183-2191 | the text a string is looked for in is its JSON text: read as JSON it gives the string |
| HookSettings.InstalledHooksRun | crates/coredeck/src/hooks.rs:2023-2115 | after an install each of the twelve events, and no other, ends in a block whose commands, read by a POSIX shell, are the script's path, whatever characters that has, and the event's name |
| HookSettings.SettingsFile.ApplyHookEntries | crates/coredeck/src/hooks.rs:2006-2144 | the twelve merges in order give the closed form |
| HookSettings.SettingsFile.MergeManagedHook | crates/coredeck/src/hooks.rs:2194-2210 | replaces our block, keeps the others, replaces what is not an array |
| HookSettings.SettingsFile.UninstallHooks | crates/coredeck/src/hooks.rs:2262-2307 | strips events and status lines in place; the flag says exactly whether something was removed |

## Left out

- Real I/O: hidapi, sockets, PTYs, files, ssh, signals. They are sequences of arrivals, bytes and events here.
- Wall-clock time: the five minutes are a step that may happen at any time; the read timeouts are arrivals.
- Tray, settings page, raise and spawn adapters, setup and the update checker: user interface and foreign processes.
- REST and `/ws` writes to the device, which bypass the alert engine and would break the mirror.
- Cancellation of half-run handlers, and poisoned locks.
- Protocol-mode detection and its discarding reads; everything here happens after it.
- Keymap tables, byte-to-enum mappings, frame encoding for the GUI and label truncation: they would only add easy members.
- AlertRuns.DeviceMirrors: not over interleavings, because several operations clear the slot and release its lock before they clear the tab, and `refresh_for_tabs` re-locks without looking at the id; it holds for operations run to completion.
- AlertRuns.AutoAllowSafety: for complete handlers; with the flag read and the mark under separate locks it fails, and `EnrollmentFlag` says exactly when. `hid.is_connected()` and the `connected` flag are one flag here.
- AlertEngine.Engine.WrapperIdForSession: the source takes any wrapper bound to the session in hash order, the model the first in tab order; they are the same with at most one wrapper per session.
- AlertEngine.Engine.RefreshForTabs: a registry change and the refresh that follows it are one operation; `AlertLimits` shows what a refresh on an old snapshot cancels, but the tab numbers it would relocate to are not modelled at that granularity.
- HookSettings.Mentions: asks each string of a value, as JSON text has it, rather than the whole text; no script name or URL can span two strings.
- HookSettings.SettingsFile.UninstallHooks: the tree only; scripts and the file itself are not part of this model.
- SessionOrder.ClaudeState.EndSession: the session table and the pending permission details are not part of this model.
- WrapperRegistry.RestartAdopts: what the wrapper cached may be older than what the daemon last knew if a SessionBound frame was lost in a flap; nothing is claimed about that.
- Titles, labels and session summaries: the text of alerts is carried along unchanged.
