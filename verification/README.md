# Models and proofs of the client's and the node's state machines

This project models nine self-contained parts of the repository in Dafny and proves what they promise over every run.

Each stateful part has two layers. Functions over a value of the state say what every operation does; lemmas about
them speak of all runs. Beside them stands a class whose methods change their fields step by step, as the source
does, each proved to leave exactly the state its function gives. What comes from outside (clock readings, answers,
texts, taps, other threads) is a parameter or an event of the run, in any order.

- **Call chrome** (`CallChrome.dfy`, `RosterKeys.dfy`). Each poll the gate compares the last snapshot with the new one
  and pushes as little as it can. It agrees with redrawing everything each poll, but for meters held back for up to
  200 ms. The roster key joins names and pictures unescaped; `RosterKeys.dfy` says exactly which rosters it tells apart
  (`Clear`), and from every other one there is a change that is never drawn.
- **PIN gate** (`PinGate.dfy`, `PinLedger.dfy`, `PinSubmissions.dfy`, `PinGateController.dfy`). Seven pages, a pad or a
  field, checks answered late and in any order. A log of what went over the gate's ports carries the justification of
  every entry. A gate that awaits an answer stays as it is until one of a few events frees it; an error shown on the pad
  is one of them, also while a check of settings still runs. The controller's handlers require and keep `Valid()`, the
  invariant of the run theorems.
- **Node heartbeat** (`Heartbeat.dfy`, `HeartbeatThreads.dfy`). The main loop's timestamps, due times and backoff,
  and the state word under its compare-and-swap loop with any number of threads. The comment at
  `src/app/node/NodeHeartbeat.h:16` says that the state only advances; the code also accepts the move from draining
  to active. The model follows the code and proves that this move is the only one that goes back.
- **Active speaker** (`ActiveSpeaker.dfy`). The spotlight and the rings, against the whole history of updates. The
  times may be any numbers; what needs time not to step back says so, and the exact result without that is there too.
- **Call metrics** (`CallMetrics.dfy`, `CallMetricsRuns.dfy`, `CallMetricsFigures.dfy`). The lines of every call and
  their figures. Exactly two cases break the report of a call: it is placed again under its own id, or it first
  connects at time 0. A later tick at time 0, of a clock that stepped back, loses the time of the next one.
- **Storage manager** (`Storage.dfy`, `StorageBackStack.dfy`, `StorageRows.dfy`, `StorageSelection.dfy`,
  `StorageCounts.dfy`, `StorageTiles.dfy`, `StorageManagerController.dfy`). Pages and the shell's back stack, rows
  and items, marks and selection, counts and their answers, the name on a tile. Here too the handlers keep `Valid()`.
- **UI latency probe** (`LatencyProbe.dfy`). Two threads over any number of runs, one shared access per event.
- **Status endpoint** (`StatusHttp.dfy`, `StatusHttpRequests.dfy`). The request parser on a growing buffer, the bind
  address, the token comparison.
- **Wire formats** (`WireCodec.dfy`, `WireMessages.dfy`). UTF-8, length prefixes, and the byte strings built of them.

`Text.dfy` holds facts about strings that several parts use, `Wrappers.dfy` the value that may be missing.
`dafny verify dfyconfig.toml` checks everything.

Times are integers in milliseconds, unbounded above; 64-bit overflow of a clock is not modelled. The heartbeat's
"long ago" is the smallest 64-bit number, as in the code. Levels are reals. Bytes and characters are told apart only
in the wire formats and the tile names.

## Model

| member | source | states |
|---|---|---|
| `CallChrome.ScreenIsAFullRedraw` | src/gui/CallChromeSync.cpp:51-222 | after any sequence of polls of clear rosters, with the shell applying each update, the screen is the one a full redraw of the last poll gives; only meter values may lag, and only while the last meter push is under 200 ms old |
| `CallChrome.PollShows` | src/gui/CallChromeSync.cpp:210-222 | one poll keeps gate, shell and screen in step, whatever part of the snapshot the gate keeps ahead of the shell or behind it |
| `CallChrome.NoneIffNothingSeenDiffers` | src/gui/CallChromeSync.cpp:51-170 | no update exactly when only off-screen meters or the lines of a closed story sheet differ |
| `CallChrome.MeterPushesAreApart` | src/gui/CallChromeSync.cpp:210-222 | on a clock that does not step back, meter-only pushes are at least 200 ms apart in every run |
| `CallChrome.ChangedVariablesCover` | src/gui/CallChromeSync.cpp:172-208 | for PartsOnly and LevelsOnly, drawing just the changed variables gives the full redraw |
| `CallChrome.ChangedVariables` | src/gui/CallChromeSync.cpp:172-208 | the listed variables are exactly those whose values differ |
| `CallChrome.CallGroupIsComplete` | src/gui/shell/ShellHost.cpp:1133-1199 | the shell's list of the call group leaves out no label, part, meter or array of rows |
| `CallChrome.CallChromeSyncGate.Decide` | src/gui/CallChromeSync.cpp:210-222 | the answer, and the new snapshot, meter time and meter flag of the gate |
| `RosterKeys.SpeakingChanged` | src/gui/CallChromeSync.cpp:32-43 | true exactly when the number of rows or some row's ring differs |
| `RosterKeys.RingChangesShow` | src/gui/CallChromeSync.cpp:32-43 | with equal roster keys of clear rosters, the speaking keys differ exactly when SpeakingChanged sees a row flag differ |
| `RosterKeys.BuildRosterKey` | src/gui/CallController.cpp:221-231 | the loop builds the roster key of the rows |
| `RosterKeys.BuildSpeakingKey` | src/gui/CallController.cpp:233-242 | the loop builds the speaking key of the rows |
| `RosterKeys.RosterKeyFaithful` | src/gui/CallController.cpp:215-231 | equal roster keys of as many rows mean rows drawn alike but for their rings, when one of the rosters is clear |
| `RosterKeys.ClearIsExact` | src/gui/CallController.cpp:215-231 | exactly the clear rosters are told apart by their key from all others of their length: with paths that hold no bar, one row or no name that holds a whole key tail; with any paths, no header in a name nor, with something after it, in a picture, and no end in a name nor, with something before it, in a picture, but for the first name and the last picture |
| `CallChrome.ClearRostersExactly` | src/gui/CallController.cpp:1147-1188 | the gate shows every change from a roster on if and only if it is clear; from any other there is a change to as many people that it does not see; a letter need not be that of its name here |
| `CallChrome.NamesHideARosterChange` | src/gui/CallController.cpp:221-231 | such a change, from any three people: two rosters of two, another person in the second place, equal counts and keys, no update |
| `RosterKeys.PresenterMakesTwins` | capabilities/people/src/lib/people/AvatarGlyph.cpp:113-124 | these two rosters hold only rows as the presenter makes them, the letter of a missing photo taken from the name, when the three names begin with one letter or the later two people have photos |
| `RosterKeys.SpeakingKeyFaithful` | src/gui/CallController.cpp:233-242 | equal speaking keys list the same streams in the same order |
| `CallChrome.ApplySpotlight` | src/gui/CallController.cpp:665-684 | who is spotlit (the choice while in the call, else the grid, the active speaker or the peer), the choice dropped once its person left, the rows split by the spotlit stream, with the rings of who is speaking |
| `CallChrome.ResolveSpotlight` | src/gui/CallSpotlight.h:23-48 | the loops find who is spotlit |
| `CallChrome.SpotlightShowsEveryone` | src/gui/CallController.cpp:665-684 | whoever is spotlit is in the call and has a row; spotlight rows and strip together are the roster, nobody lost or shown twice |
| `PinLedger.OneModeAndAnExactPad` | src/gui/PinGateController.cpp:100-116 | in every reachable state one of the seven modes is set while the gate is active, and while the pad shows its dots, its OK key and the limits on what is typed are exact |
| `PinSubmissions.ASubmissionMakesBusy` | src/gui/PinGateController.cpp:616-719 | in every run a PIN goes out, to the app or for a check, only by a key or Continue and on a gate that was not busy, and leaves it busy exactly on the pad and on the settings pages |
| `PinSubmissions.ASubmissionHoldsUntilFreed` | src/gui/PinGateController.cpp:118-190 | from such a submission on, over any further events, page, flow, pad, what is typed on the pad and all that went out stay as they are, but for the waiting screen, if and only if none of these has come: the answer to the newest check, an error shown on the pad, a decline on a page that is not of settings, another page shown, a dismissal, the cancel of a settings flow |
| `PinSubmissions.OneSubmissionAtATime` | src/gui/PinGateController.cpp:559-793 | between two submissions, the first of them awaited, one of these events came |
| `PinSubmissions.ABusyPadIgnoresInput` | src/gui/PinGateController.cpp:746-862 | until one of them comes after a submission of the pad, no key, OK, switch, Continue or typing changes anything |
| `PinSubmissions.AnErrorLetsKeysThrough` | src/gui/PinGateController.cpp:168-190 | a run in which an error is shown while a check of a verify runs: four keys later a second check is out, and neither was answered |
| `PinLedger.OnOkIsEarned` | src/gui/PinGateController.cpp:616-744 | a verify's on_ok is called at most once, right after the answer that accepted a check of that same flow, and the gate was neither closed nor taken by another page or flow since that flow took it |
| `PinLedger.PinsHandedOverAreChosen` | src/gui/PinGateController.cpp:559-719 | every PIN given to create, change or the link flow was entered twice alike and passes the length rule, or is the default PIN and flagged so; the old PIN given to change was accepted by that flow's check or is the one it was opened with |
| `PinLedger.SettingsCancelStaysInside` | src/gui/PinGateController.cpp:864-878 | the cancel port is called only while no settings flow has the gate |
| `PinLedger.OnOkInGoodLog` | src/gui/PinGateController.cpp:642-650 | in any justified log, what an on_ok goes back to: its flow, its check, the accepting answer |
| `PinLedger.OnOkOnce` | src/gui/PinGateController.cpp:645-646 | no flow gets two on_ok calls |
| `PinLedger.RunKeepsInvariant` | src/gui/PinGateController.cpp:23-878 | every event, with checks answered late and in any order, keeps the shape of the gate and the ledger of what may be handed over |
| `PinGate.StepKeepsShape` | src/gui/PinGateController.cpp:63-878 | every event keeps one mode, the limits on what is typed and the exact dots |
| `PinLedger.StepKeepsLedger` | src/gui/PinGateController.cpp:118-878 | every event keeps what ties the gate's closures, numbers and pins to what went over its ports |
| `PinGateController.PinGateController.OnSubmitDeclined` | src/gui/PinGateController.cpp:149-166 | the pad takes keys again; the flows of settings keep their own busy state; keeps shape and ledger |
| `PinGateController.PinGateController.ShowError` | src/gui/PinGateController.cpp:168-190 | the pad starts over, after the unlock page took a closed gate; keeps shape and ledger |
| `PinGateController.PinGateController.Dismiss` | src/gui/PinGateController.cpp:275-286 | the gate closes with no flow, no closure and no PIN left; keeps shape and ledger |
| `PinGateController.PinGateController.ShowUnlock` | src/gui/PinGateController.cpp:343-367 | the unlock page takes the gate: every settings closure dropped, every check out void, the pad for a known PIN of 4 to 8 digits or the field; keeps shape and ledger |
| `PinGateController.PinGateController.ShowVerify` | src/gui/PinGateController.cpp:412-440 | a verify flow takes the gate under a new name, with its closures; every check out is void; keeps shape and ledger |
| `PinGateController.PinGateController.ShowChange` | src/gui/PinGateController.cpp:442-469 | a change flow takes the gate, at its second step when the PIN is known; keeps shape and ledger |
| `PinGateController.PinGateController.OnUseDefaultPin` | src/gui/PinGateController.cpp:535-557 | the default PIN goes to the link flow, flagged, or the app's port is called; keeps shape and ledger |
| `PinGateController.PinGateController.OnSubmit` | src/gui/PinGateController.cpp:559-614 | what the field's Continue does on every page: paste, unlock, a check with a fresh number, a new PIN; keeps shape and ledger |
| `PinGateController.PinGateController.OnCheckDone` | src/gui/PinGateController.cpp:721-744 | a void answer does nothing; the newest one clears, goes on or closes and calls on_ok; keeps shape and ledger |
| `PinGateController.PinGateController.OnKey` | src/gui/PinGateController.cpp:746-793 | one digit, within the limits, and the submission of a full entry; keeps shape and ledger |
| `PinGateController.PinGateController.OnBackspace` | src/gui/PinGateController.cpp:795-810 | one digit less of the entry under way; keeps shape and ledger |
| `PinGateController.PinGateController.OnKeypadOk` | src/gui/PinGateController.cpp:812-824 | on to the repeat, from 4 digits on; keeps shape and ledger |
| `PinGateController.PinGateController.OnUseText` | src/gui/PinGateController.cpp:826-842 | the field instead of the pad; keeps shape and ledger |
| `PinGateController.PinGateController.OnUseKeypad` | src/gui/PinGateController.cpp:844-862 | the pad instead of the field; keeps shape and ledger |
| `PinGateController.PinGateController.OnCancel` | src/gui/PinGateController.cpp:864-878 | a settings flow closes, the pages of onboarding call the cancel port, the unlock page stays; keeps shape and ledger |
| `Heartbeat.TimestampsFollowTheClock` | src/app/node/NodeHeartbeat.cpp:106-113 | the n-th timestamp is the largest of n and of clock i + (n - i) over the first n readings, whatever the wall clock does |
| `Heartbeat.TimestampsIncrease` | src/app/node/NodeHeartbeat.cpp:111-113 | timestamps strictly increase in every run |
| `Heartbeat.NeverStale` | src/app/node/NodeHeartbeat.cpp:151-160 | a server that takes only newer timestamps, starting below the first, never answers 409 |
| `Heartbeat.ReregistrationsBackOff` | src/app/node/NodeHeartbeat.cpp:177-193 | re-registrations k and k + 1 with no accepted heartbeat in between are at least min(10 s doubled k - 1 times, 300 s) apart, even on a clock that steps back |
| `Heartbeat.DelayIsBackoff` | src/app/node/NodeHeartbeat.cpp:182-185 | the delay field is that backoff of the re-registrations since the last accepted tick |
| `Heartbeat.NextSendIsWithinAPeriod` | src/app/node/NodeHeartbeat.cpp:195-214 | after a tick that sent at time t the next heartbeat is due between t and t + 300 s |
| `Heartbeat.HeartbeatsAreFew` | src/app/node/NodeHeartbeat.cpp:195-214 | from a heartbeat until the next is due, one goes out for every changed state, and besides at most one for every answer in between that the node is not registered |
| `Heartbeat.RetriesAreFew` | src/app/node/NodeHeartbeat.cpp:177-214 | over any stretch, answers that the node is not registered come at most twice per re-registration, once per changed state, and once more |
| `Heartbeat.HeartbeatsOfAPeriod` | src/app/node/NodeHeartbeat.cpp:195-214 | within 300 s of a heartbeat at most one more goes out per changed state and per not-registered answer |
| `Heartbeat.NodeHeartbeat.SetState` | src/app/node/NodeHeartbeat.cpp:81-97 | alone, it moves unless retiring would be left, through any spurious failures of the exchange |
| `Heartbeat.NodeHeartbeat.Send` | src/app/node/NodeHeartbeat.cpp:106-175 | the timestamp, and the outcome of each answer |
| `Heartbeat.NodeHeartbeat.HandleNotRegistered` | src/app/node/NodeHeartbeat.cpp:177-193 | postponed, or registered again with the delay doubled |
| `Heartbeat.NodeHeartbeat.Tick` | src/app/node/NodeHeartbeat.cpp:195-214 | the whole new state of one tick |
| `Heartbeat.NodeHeartbeat.SendFinal` | src/app/node/NodeHeartbeat.cpp:216-223 | retiring, and one heartbeat that says so |
| `HeartbeatThreads.SetStateLinearizes` | src/app/node/NodeHeartbeat.cpp:81-97 | under every interleaving of loads and exchanges of any number of threads, spurious failures included, SetState behaves as one atomic step taken when it returns |
| `HeartbeatThreads.RetiringIsFinal` | src/app/node/NodeHeartbeat.cpp:84-89 | once retiring was made or met, every later call is refused unless it asks for retiring |
| `HeartbeatThreads.RetiringHeartbeatsAreLast` | src/app/node/NodeHeartbeat.cpp:195-223 | once one heartbeat carries retiring every later one does, under every interleaving |
| `HeartbeatThreads.OnlyDrainingToActiveGoesBack` | src/app/node/NodeHeartbeat.h:16-17 | the state fails to advance exactly when draining is moved to active |
| `HeartbeatThreads.DrainingCanBeUndone` | src/app/node/NodeHeartbeat.cpp:81-97 | a run in which draining is undone |
| `ActiveSpeaker.SinceIsTheStart` | src/gui/CallActiveSpeaker.h:33-46 | speaking_since is exactly the start of each stream's unbroken run at or above the level |
| `ActiveSpeaker.SpotlightIsEarned` | src/gui/CallActiveSpeaker.h:41-55 | a stream takes the spotlight only as the loudest of those 600 ms into an unbroken run, and never from someone speaking in that update |
| `ActiveSpeaker.MovesAreApart` | src/gui/CallActiveSpeaker.h:50-54 | two moves of the spotlight are at least 3000 ms apart |
| `ActiveSpeaker.RingIffHeardInTime` | src/gui/CallActiveSpeaker.h:64-76 | whatever the clock does, only streams heard within 500 ms have a ring, and such a stream has one if and only if its last loud update is within 500 ms and no question since came more than 500 ms after it |
| `ActiveSpeaker.RingIsWhoWasHeard` | src/gui/CallActiveSpeaker.h:64-76 | when time does not step back, Speaking gives exactly the streams heard within 500 ms, however calls interleave |
| `ActiveSpeaker.RingExactly` | src/gui/CallActiveSpeaker.h:64-76 | whatever the clock does: the streams whose last loud update is within 500 ms and was not pruned since |
| `ActiveSpeaker.ClockStepLosesARing` | src/gui/CallActiveSpeaker.h:66-70 | the condition on time is needed |
| `ActiveSpeaker.AscendingIsUnique` | src/gui/CallActiveSpeaker.h:74-75 | the sorted list does not depend on the order of the hash map |
| `ActiveSpeaker.CallActiveSpeaker.Update` | src/gui/CallActiveSpeaker.h:29-56 | the whole new state, and the spotlit stream |
| `ActiveSpeaker.CallActiveSpeaker.Speaking` | src/gui/CallActiveSpeaker.h:64-76 | the ringed streams in ascending order; the rest is forgotten |
| `ActiveSpeaker.CallActiveSpeaker.Reset` | src/gui/CallActiveSpeaker.h:78-83 | as new |
| `CallMetricsRuns.EveryCallIsReportedOnce` | src/gui/CallMetricsTracker.h:47-63 | a call that ends, by another call or by the grace, emitted one call.setup and a call.summary after it exactly when it connected: if and only if it was not placed again under its own id and did not first connect at time 0 |
| `CallMetricsRuns.UnconnectedCallsSayWhy` | src/gui/CallMetricsTracker.h:294-303 | declined, not_connected, failed or missed, from what happened during the call |
| `CallMetricsRuns.ConnectingTellsTheTimes` | src/gui/CallMetricsTracker.h:271-292 | the setup line of a connecting call tells the time to the accept and the time from the accept or the dialling |
| `CallMetricsRuns.AcceptTimeIsTheFirst` | src/gui/CallMetricsTracker.h:65-69 | the accept that counts is the first one at a time other than 0 |
| `CallMetricsFigures.SpanMedia` | src/gui/CallMetricsTracker.h:82-135 | what the tracker holds of a connected call is what its media ticks add up to |
| `CallMetricsFigures.SummaryAddsUp` | src/gui/CallMetricsTracker.h:305-372 | the summary of any call that connected at a time other than 0: quality times add up to the connected time less what is lost behind ticks at time 0, reconnects are the falling edges, the average jitter target never exceeds the maximum, stalls are the stall lines; when some time was counted percentages add up to 95 to 100, or with n negative buckets to 95 + n to 99 + n; none is negative when time does not step back |
| `CallMetricsFigures.TimeIsConserved` | src/gui/CallMetricsTracker.h:112-118 | the buckets add up to all the time from connecting to the last tick if and only if nothing is lost |
| `CallMetricsFigures.TimeIsCounted` | src/gui/CallMetricsTracker.h:112-118 | for any trace the six buckets add up to the time from connecting to the last media tick, less the sum of the times of all ticks that follow a tick at time 0 |
| `CallMetricsFigures.LostWhenPastZero` | src/gui/CallMetricsTracker.h:112-113 | on a clock that does not step back time is lost exactly when a tick at 0 is followed by a later time |
| `CallMetricsFigures.BucketIsTimeIn` | src/gui/CallMetricsTracker.h:112-118 | each bucket is the time at its quality, less what is lost of it, and no_audio that of NoAudio |
| `CallMetricsFigures.ATickAtZeroLosesTime` | src/gui/CallMetricsTracker.h:112-113 | a clock that steps back to 0 between two ticks loses the half second after it |
| `CallMetricsFigures.PercentsAddUp` | src/gui/CallMetricsTracker.h:311-316 | on any clock, when the total is positive and n buckets are negative: six truncated percentages add up to 95 + n at least, and at most to 100 for n = 0 and to 99 + n otherwise |
| `CallMetricsFigures.ReconnectsAreFalls` | src/gui/CallMetricsTracker.h:108-111 | reconnects counts exactly the falling edges of connected |
| `CallMetricsFigures.AverageIsBelowTheMaximum` | src/gui/CallMetricsTracker.h:125-127 | the average jitter target never exceeds the maximum |
| `CallMetricsFigures.FirstAudioExactly` | src/gui/CallMetricsTracker.h:119-121 | on any clock first_audio_ms is the time from connecting to the first tick with audio that is not before it; without such a tick that of the last tick with audio; without audio -1 |
| `CallMetricsFigures.FirstAudioIsFirst` | src/gui/CallMetricsTracker.h:119-121 | so it is that of the first tick with audio if and only if that one is not before connecting, or all are and the last came at the same time; always when time does not step back |
| `CallMetricsFigures.SummaryTellsTheTiles` | src/gui/CallMetricsTracker.h:177-195 | the tile times are the times between frames that both showed the tile |
| `CallMetrics.CallMetricsTracker.NoteOutbound` | src/gui/CallMetricsTracker.h:47-52 | the new state and the lines: a call placed |
| `CallMetrics.CallMetricsTracker.NoteRing` | src/gui/CallMetricsTracker.h:55-63 | the new state and the lines: a call ringing |
| `CallMetrics.CallMetricsTracker.NoteAccept` | src/gui/CallMetricsTracker.h:65-73 | the new state and the lines: the first accept |
| `CallMetrics.CallMetricsTracker.NoteDecline` | src/gui/CallMetricsTracker.h:75-79 | the new state and the lines: declined |
| `CallMetrics.CallMetricsTracker.NoteMedia` | src/gui/CallMetricsTracker.h:82-135 | the new state and the lines: a media tick, and the setup line when it connects |
| `CallMetrics.CallMetricsTracker.CountTick` | src/gui/CallMetricsTracker.h:103-133 | the new state and the lines: what a tick adds to a connected call |
| `CallMetrics.CallMetricsTracker.NoteUiLatency` | src/gui/CallMetricsTracker.h:138-147 | the new state and the lines: a stall of 1 to 60 s |
| `CallMetrics.CallMetricsTracker.NoteTick` | src/gui/CallMetricsTracker.h:153-168 | the new state and the lines: alive, in its grace, or over with its final line |
| `CallMetrics.CallMetricsTracker.NoteVideoFrame` | src/gui/CallMetricsTracker.h:177-195 | the new state and the lines: the tiles of a frame |
| `CallMetrics.CallMetricsTracker.Begin` | src/gui/CallMetricsTracker.h:242-257 | the new state and the lines: the final line of another call |
| `CallMetrics.CallMetricsTracker.End` | src/gui/CallMetricsTracker.h:305-372 | the new state and the lines: the final line |
| `StorageBackStack.BackStackIsInStep` | src/gui/StorageManagerController.cpp:290-393 | in every reachable state the shell's back stack holds exactly the steps of (page, selecting), among those of others |
| `StorageBackStack.PopIsInStep` | src/gui/shell/ShellHost.cpp:869-880 | the shell's back takes the nearest step of the page |
| `StorageBackStack.RestoredIsInStep` | src/gui/StorageManagerController.cpp:301-322 | restoring after a layout switch puts exactly the page's steps back |
| `StorageRows.RowsDrawTheirItems` | src/gui/StorageManagerController.cpp:433-500 | in every reachable state cell i draws item i of the tab and file row j draws item the number of cells + j, thumbnails included |
| `StorageRows.LoadMoreExtends` | src/gui/StorageManagerController.cpp:544-551 | in every reachable state loading more keeps every row where it is and adds rows; no row changes, its mark included, if and only if the marks agreed with the selection |
| `StorageRows.NothingMoreMeansAllDrawn` | src/gui/StorageManagerController.cpp:498-498 | without more to load every item of the tab is drawn |
| `StorageRows.MediaIsNewestFirst` | src/gui/StorageManagerController.cpp:441-447 | photos and videos stand together, newest first |
| `StorageRows.ChatItemsAreComplete` | src/feature/settings/StorageManagerModel.cpp:199-211 | a chat's tab lists every content of its kind and nothing else |
| `StorageSelection.ToggleKeepsMarksExactly` | src/gui/StorageManagerController.cpp:587-602 | a tap keeps marks and selection in agreement if and only if no other drawn row has the same content |
| `StorageSelection.MarksAgreeInEveryState` | src/gui/StorageManagerController.cpp:587-669 | in every reachable state the picked marks say what is selected, when the lists hold each content once |
| `StorageSelection.TabItemsAreDistinct` | src/gui/StorageManagerController.cpp:433-457 | a page of distinct contents lists each once on every tab |
| `StorageCounts.AppliedCountsAreTheirAnswers` | src/gui/StorageManagerController.cpp:940-976 | an applied count is the three answers of one start, and no count is applied twice or after a newer one |
| `StorageCounts.VoidCountsStayOut` | src/gui/StorageManagerController.cpp:290-299 | a reset or a newer start voids what is under way |
| `StorageCounts.TheListIsTheLastCounted` | src/gui/StorageManagerController.cpp:978-1009 | the stored list is that of the last count applied |
| `StorageTiles.TileKeepsToItsLine` | src/gui/StorageManagerController.cpp:118-150 | a name of at most 14 columns stays; any other keeps its extension and the most characters that fit |
| `StorageTiles.TilesAreText` | src/gui/StorageManagerController.cpp:118-150 | the tile of a UTF-8 name is UTF-8: it is cut between characters |
| `StorageTiles.TileName` | src/gui/StorageManagerController.cpp:118-150 | the loops give that tile |
| `StorageManagerController.StorageManagerController.Enter` | src/gui/StorageManagerController.cpp:271-288 | the section is entered on its first page with nothing selected, and a new count voids those under way; keeps Valid |
| `StorageManagerController.StorageManagerController.DoReset` | src/gui/StorageManagerController.cpp:290-299 | the page's steps leave the stack, rows and selection go, counts under way are void; keeps Valid |
| `StorageManagerController.StorageManagerController.RestoreBackStack` | src/gui/StorageManagerController.cpp:301-322 | exactly the page's steps stand on the stack, on top of others |
| `StorageManagerController.StorageManagerController.OnOpenLarge` | src/gui/StorageManagerController.cpp:336-344 | the large files, when there are any; keeps Valid |
| `StorageManagerController.StorageManagerController.OnOpenChat` | src/gui/StorageManagerController.cpp:346-354 | a chat of the list, and no other index; keeps Valid |
| `StorageManagerController.StorageManagerController.OnSetTab` | src/gui/StorageManagerController.cpp:403-412 | another tab, from its first rows; keeps Valid |
| `StorageManagerController.StorageManagerController.BuildPageItems` | src/gui/StorageManagerController.cpp:414-424 | the loop collects the items of the page |
| `StorageManagerController.StorageManagerController.BuildCells` | src/gui/StorageManagerController.cpp:433-500 | the loop makes the tab's items and a row for each shown: cells for photos and videos, file rows for files |
| `StorageManagerController.StorageManagerController.OnThumbnailReady` | src/gui/StorageManagerController.cpp:522-542 | a thumbnail reaches the cells of its item, and no other; keeps Valid |
| `StorageManagerController.StorageManagerController.OnLoadMore` | src/gui/StorageManagerController.cpp:544-551 | 60 more; keeps Valid |
| `StorageManagerController.StorageManagerController.OnTapCell` | src/gui/StorageManagerController.cpp:553-562 | in select mode the selection and that cell's mark; otherwise the item that opens is the one the cell draws; keeps Valid |
| `StorageManagerController.StorageManagerController.OnTapFile` | src/gui/StorageManagerController.cpp:564-573 | in select mode the selection and that row's mark; otherwise the item that opens is the one the row draws; keeps Valid |
| `StorageManagerController.StorageManagerController.PickByLongPress` | src/gui/StorageManagerController.cpp:575-585 | selecting starts with that item; keeps Valid |
| `StorageManagerController.StorageManagerController.OnToggleSelect` | src/gui/StorageManagerController.cpp:636-645 | select mode on with an empty selection, or off with no marks left; keeps Valid |
| `StorageManagerController.StorageManagerController.OnBack` | src/gui/StorageManagerController.cpp:671-685 | one step back, of select mode, the items or the page; keeps Valid |
| `StorageManagerController.StorageManagerController.OnDeleteDone` | src/gui/StorageManagerController.cpp:899-906 | select mode is left and a new count begins; keeps Valid |
| `StorageManagerController.StorageManagerController.OnAnswer` | src/gui/StorageManagerController.cpp:944-950 | one of three answers; the last one of the newest count applies it; keeps Valid |
| `StorageManagerController.StorageManagerController.ApplyCounts` | src/gui/StorageManagerController.cpp:978-1009 | fresh rows from the counted list, the selection kept where its items are still there |
| `StorageManagerController.StorageManagerController.OnShellPop` | src/gui/shell/ShellHost.cpp:869-880 | the shell takes its top step and the page follows; keeps Valid |
| `StorageManagerController.StorageManagerController.OnLayoutSwitch` | src/gui/StorageManagerController.cpp:301-322 | the steps restored on the stack of others; keeps Valid |
| `StorageManagerController.StorageManagerController.PushBackStep` | src/gui/shell/ShellHost.cpp:954-960 | the id once, on top |
| `StorageManagerController.StorageManagerController.ClearBackStep` | src/gui/shell/ShellHost.cpp:968-974 | no entry of that id, the others in order |
| `LatencyProbe.OnePingAtATime` | src/gui/UiLatencyProbe.h:40-59 | in every interleaving at most one ping of a run is posted and not run yet |
| `LatencyProbe.NoReportAfterStop` | src/gui/UiLatencyProbe.h:50-57 | no latency of a run is reported after its Stop returned, over any number of starts and stops |
| `LatencyProbe.OneThreadAtMost` | src/gui/UiLatencyProbe.h:34-37 | only the current run's probe thread lives |
| `LatencyProbe.StopReturns` | src/gui/UiLatencyProbe.h:63-75 | the join always ends: the thread can step, and every step brings it nearer its end |
| `StatusHttp.AcceptedFromTheEndOn` | src/app/node/StatusHttpProtocol.cpp:212-277 | of the beginnings of an accepted buffer exactly those that hold header end + 4 + content length bytes are accepted, all with the same request |
| `StatusHttp.ExtensionsParseAlike` | src/app/node/StatusHttpProtocol.cpp:212-277 | every extension gives the same request |
| `StatusHttp.BodyIsBounded` | src/app/node/StatusHttpProtocol.cpp:259-275 | a body holds at most 1024 bytes |
| `StatusHttp.HeadersMeanTheirLastLines` | src/app/node/StatusHttpProtocol.cpp:241-271 | headers are refused exactly when the value of some Content-Length does not begin with a number up to 1024; else each field is that of the last line of its name |
| `StatusHttpRequests.RequestRoundTrip` | src/app/node/StatusHttpProtocol.cpp:212-277 | every well-formed request is accepted with its fields, whatever follows it (section 3 of RFC 9112) |
| `StatusHttp.TryParse` | src/app/node/StatusHttpProtocol.cpp:212-277 | the parser gives the specified request or none |
| `StatusHttp.ReadHeaders` | src/app/node/StatusHttpProtocol.cpp:243-270 | the loop reads the header lines one by one and ends |
| `StatusHttp.CutRequestLine` | src/app/node/StatusHttpProtocol.cpp:223-239 | method, path and query |
| `StatusHttp.TryParseBind` | src/app/node/StatusHttpProtocol.cpp:156-205 | the bind address or none |
| `StatusHttp.HostPortRoundTrip` | src/app/node/StatusHttpProtocol.cpp:177-204 | host:port gives both back, the last colon dividing |
| `StatusHttp.BracketRoundTrip` | src/app/node/StatusHttpProtocol.cpp:165-175 | [host]:port gives both back |
| `StatusHttp.BarePortRoundTrip` | src/app/node/StatusHttpProtocol.cpp:178-189 | a bare port binds loopback |
| `StatusHttp.TextAfterThePortIsIgnored` | src/app/node/StatusHttpProtocol.cpp:156-205 | host:port binds as it says whatever text without a colon follows the port's digits |
| `StatusHttp.TextAfterTheLengthIsIgnored` | src/app/node/StatusHttpProtocol.cpp:259-263 | so is text behind the digits of a Content-Length: 10abc is 10 |
| `StatusHttp.ConstantTimeEquals` | src/app/node/StatusHttpProtocol.cpp:51-60 | true exactly when both tokens are the same bytes |
| `StatusHttp.Trim` | src/app/node/StatusHttpProtocol.cpp:27-35 | the loops give the trimmed text |
| `StatusHttp.TrimmedTakesBlanks` | src/app/node/StatusHttpProtocol.cpp:27-35 | only blanks are taken, and all at both ends |
| `StatusHttp.EqualsIgnoreCase` | src/app/node/StatusHttpProtocol.cpp:37-48 | equal but for the case of ASCII letters |
| `WireCodec.ReadInverts` | projects/e2e-message-crypto/tools/wire_codec.py:9-22 | reading gives the text back at any offset inside any bytes |
| `WireCodec.ReadWhatWasWritten` | projects/e2e-message-crypto/tools/wire_codec.py:18-22 | what is read was written there exactly when its length stays inside the data |
| `WireCodec.LenUtf8IsPrefixFree` | projects/e2e-message-crypto/tools/wire_codec.py:9-11 | no length-prefixed text is the start of another |
| `WireCodec.DecodeInverts` | projects/e2e-message-crypto/tools/wire_codec.py:9-22 | decoding inverts encoding (section 3 of RFC 3629) |
| `WireCodec.EncodeInverts` | projects/e2e-message-crypto/tools/wire_codec.py:9-22 | a text has one encoding |
| `WireCodec.NumberRoundTrip` | projects/e2e-message-crypto/tools/wire_codec.py:11-19 | big-endian numbers round-trip |
| `WireMessages.AadIsInjective` | projects/e2e-message-crypto/tools/gen_aead_vectors.py:30-46 | additional data is injective in its seven fields |
| `WireMessages.BuildAad` | projects/e2e-message-crypto/tools/gen_aead_vectors.py:30-46 | the appended parts, or a failure |
| `WireMessages.SignBytesAreInjective` | projects/e2e-message-crypto/tools/gen_sign_vectors.py:24-41 | sign bytes are injective in their seven fields for hashes of one length |
| `WireMessages.HashLengthMatters` | projects/e2e-message-crypto/tools/gen_sign_vectors.py:24-41 | the condition on the hash is needed: two whole envelopes with every other field the same, hashes of another length and other message ids have the same sign bytes |
| `WireMessages.BuildSignBytes` | projects/e2e-message-crypto/tools/gen_sign_vectors.py:24-41 | the appended parts, or a failure |
| `WireMessages.PayloadsAreInjective` | projects/e2e-message-crypto/tools/chatpayload_codec.py:31-46 | chat payloads are injective across text, text with format and system |
| `WireMessages.EncodeText` | projects/e2e-message-crypto/tools/chatpayload_codec.py:31-37 | the bytes of a text payload, or a failure |
| `WireMessages.EncodeSystem` | projects/e2e-message-crypto/tools/chatpayload_codec.py:40-46 | the bytes of a system payload, or a failure |

## Left out

- CallChrome.ScreenIsAFullRedraw: for rosters that are clear, an exact condition, and for rows of one stream that ring
  together. The story-step, guest-action and avatar keys are single texts compared as a whole. `on_hold`,
  `video_allowed` and a row's `is_local` and `identity` are not part of the snapshot the gate compares, and not of the
  model's rows.
- CallChrome.ClearRostersExactly: the letter that stands for a missing photo is any one character here, where the
  presenter takes it from the name. That a clear roster shows every change holds all the more for such rows; the change
  given from a roster that is not clear may need a letter that does not fit its name.
  RosterKeys.PresenterMakesTwins says when the two rosters of CallChrome.NamesHideARosterChange fit.
- CallChrome.MeterPushesAreApart: needs a clock that does not step back, as the steady clock of the caller.
- Heartbeat.NextSendIsWithinAPeriod: needs the steady clock not to step back.
- Heartbeat.NodeHeartbeat.SetState: here no other thread writes the word; the interleavings are those of
  HeartbeatThreads, a state machine of one atomic access per event.
- CallMetrics.CallMetricsTracker.End: the counters of the line that are plain differences (sent frames, underruns,
  concealed frames, drops), the rates per second, the CPU and battery figures.
- LatencyProbe.OnePingAtATime: both threads are one state machine, not a class; memory orders weaker than sequential
  consistency are not modelled, nor is a post that runs the ping at once.
- StorageRows.RowsDrawTheirItems: a file row's sound state (playing, progress, cover) and its formatted texts are not
  part of a row; sizes and times stand for their texts.
- StorageSelection.MarksAgreeInEveryState: for stored lists with one item per chat and content and a list of large
  files with one per content, which their builders keep.
- PIN gate: titles, messages, errors and the activity line; the biometric and forgot buttons; the saved copy of a
  recovery phrase; an over-long paste kept apart from its field. The ports of the gate are bound; a settings flow's
  closures may each be missing.
- PIN gate: keys typed into a field while another page shows; the shell edits fields only where it shows them.
- Heartbeat: metric gauges and log lines, the text of the signed body, JSON and HTTP.
- StorageManagerController.StorageManagerController.ApplyCounts: the overview's bars and the usage and chat rows; the
  list of large files and of chats are inputs of a count.
- Storage manager: what an opened item shows or plays, the sizes a selection frees, the confirmation of a delete, the
  overview's bars and chat rows, when the recompute gate asks for a count (a count may start at any time), ports that
  are not bound. The list of large files and of chats are inputs of a count.
- Storage manager: which thumbnails are asked for, and looking for new ones when something changed; a thumbnail's path
  is known from the moment it is made and stays.
- Storage manager: the back stack of a layout switch that drops the section altogether; the section is then reset.
- Status endpoint: the routes and their answers, the loopback host test, formatting a response.
- Wire formats: encryption, hashing and base64, and negative offsets of a read.
- Everything else in the repository: wiring, documents, rendering, devices, translations, transports.
