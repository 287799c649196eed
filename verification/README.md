# Verified models of the terminal renderer, the input tokenizer and the agent loop

This project models the parts of the repository whose correctness is hardest to see by reading, and proves what
they are for. `dafny verify dfyconfig.toml` checks all of it.

**The differential renderer.** `Terminal.dfy` is a terminal: all rows ever shown, a cursor, and relative moves that
clamp at the screen's edges (ECMA-48, sections 8.3.19 and 8.3.22), line feeds that scroll, and erasures (sections
8.3.39 and 8.3.41). `Renderer.dfy` says what a render emits and records, `RendererProofs.dfy` what the pieces do to a
terminal, `Fidelity.dfy` when a render is faithful, and `Session.dfy` what holds after any sequence of frames, forced
repaints, resizes and changed settings: with clearing on shrink, or while frames never get shorter, the patched
terminal equals a full repaint. Otherwise that is false; the exact condition is proved, and `SessionExamples.dfy` has
concrete sessions that break it. `Economy.dfy` says what a render does not
write. `Tui.dfy` is the class, each method refining the specification.

**Overlays.** `Layout.dfy` places an overlay, `Compositor.dfy` paints overlays in order of focus, and
`OverlayStack.dfy` is the stack with its handles.

**The input tokenizer.** `Strings.dfy`, `Sequences.dfy` (control sequences and control strings, ECMA-48 sections 5.4
and 5.6), `EscapeGrammar.dfy` (which escapes are complete, as a grammar), `InputModel.dfy` (conservation over runs), `Chunking.dfy` (when the split into chunks matters, exactly),
`Tokens.dfy` (print and read back) and `StdinBuffer.dfy`, the class.

**The agent loop.** `AgentModel.dfy` is the loop as a function of everything nondeterministic (`Env`: replies, tool
outcomes, completion order, queued messages). `AgentGrammar.dfy` is an automaton that reads its log, `AgentTools.dfy`
and `AgentRuns.dfy` prove what every run does, `AgentOutcomes.dfy` what the results say, `AgentFold.dfy` what the Agent's state makes of the stream,
`AgentPending.dfy` when its set of pending calls is exact, `AgentExamples.dfy` two runs in which promises fail, and
`Agent.dfy` holds the classes.

**Smaller loops.** `Proxy.dfy` (a subset of section 9.2.6 of the WHATWG HTML Living Standard), `Fuzzy.dfy` with
`FuzzyTokens.dfy` and `StableSort.dfy`, and `Kitty.dfy`. `Common.dfy` has what several modules need.

## Model

| member | source | states |
|---|---|---|
| `Session.DifferentialRefinesRepaint` | packages/pi-tui/src/tui.ts:878-1161 | After any session of frames, forced repaints, size changes and changed settings, scrollback and screen are exactly what clearing and printing the whole frame gives on any terminal of that size, the cursor is where the marker was, shown or hidden as set, on screen on the recorded row, no move was clamped and no line wrapped; with clearing on this holds of every frame without overlays, and else of frames no shorter than the one before |
| `Session.StepKeepsInvariant` | packages/pi-tui/src/tui.ts:878-1161 | Every safe render, forced repaint, size change and change of a setting keeps the shadow truthful about the terminal, and after a render it holds the new frame with the cursor in its place |
| `Session.InvariantHolds` | packages/pi-tui/src/tui.ts:878-1161 | In every state a session of safe frames reaches, the shadow is true of the terminal or a repaint is due |
| `Session.EveryRenderRecords` | packages/pi-tui/src/tui.ts:923-1160 | After every render of every session, faithful or not, with clearing on or off and whatever was forced, resized or overlaid: the frame is recorded, within the working height, the top is `max(0, max - height)` at the size rendered, and the render did not scroll ahead |
| `Session.RecordedAlways` | packages/pi-tui/src/tui.ts:469-478 | In every state of every session the recorded lines never outgrow the working height and the recorded top is that of the working height |
| `Session.FittingIsSafe` | packages/pi-tui/src/tui.ts:960-967 | With clearing on every frame without overlays, and with it off every frame no shorter than the last, meets the condition for a faithful patch, and leaves the working height the frame's own |
| `Session.FittingSessionsAreSafe` | packages/pi-tui/src/tui.ts:878-1161 | Sessions of such frames, read off the frames alone, are safe throughout, however the settings change |
| `Session.SwitchingOnIsSafeExactlyWhen` | packages/pi-tui/src/tui.ts:275-277 | Once clearing is switched on, every frame is safe if and only if the working height is that of the last frame or fits the screen |
| `SessionExamples.SwitchingOnCanFail` | packages/pi-tui/src/tui.ts:275-277 | Four lines, then three, then clearing switched on and four lines again with the second changed: no repaint is taken and the picture is wrong |
| `Session.CompositedFramesFit` | packages/pi-tui/src/tui.ts:878-897 | Frames with overlays composited in are never too short, whatever is under the overlays |
| `SessionExamples.WithoutClearingItFails` | packages/pi-tui/src/tui.ts:1041-1049 | With the default setting the refinement is false: after four lines, then three, then an edit of the second, on two rows, the screen shows the edited line over the third and nothing below, where a repaint shows both |
| `Fidelity.SafeRenderIsFaithful` | packages/pi-tui/src/tui.ts:969-1161 | From a truthful, blank or to-be-repainted terminal, a render whose changes, last line and cursor are all on screen leaves exactly the new frame displayed with the cursor on its row and column, shown or hidden as set, clamps no move and wraps no line |
| `Fidelity.FaithfulExactlyWhenSafe` | packages/pi-tui/src/tui.ts:1041-1161 | Among frames whose changes can be seen, a render is faithful if and only if that condition holds before it, but for emptying a one-row screen |
| `Fidelity.RenderRecords` | packages/pi-tui/src/tui.ts:923-935 | Every render keeps the recorded fields in step, whatever the terminal shows |
| `Fidelity.PatchNeverScrollsAhead` | packages/pi-tui/src/tui.ts:1053-1067 | The branch that scrolls ahead of the screen is never taken by a patch |
| `Fidelity.CursorMoves` | packages/pi-tui/src/tui.ts:1168-1199 | Placing the hardware cursor ends on the marker's row and column (the last column if that is past it), shown exactly when asked for, without clamping, and changes no cell; without a marker it is hidden |
| `Fidelity.DeleteOpsClear` | packages/pi-tui/src/tui.ts:1001-1039 | The deletion-only path blanks exactly the rows past the new end, and no move is clamped |
| `Fidelity.PatchedPicture` | packages/pi-tui/src/tui.ts:1079-1112 | Repainting from the first to the last changed row and blanking the rest turns the old picture into the new one |
| `Fidelity.PatchOpsPaint` | packages/pi-tui/src/tui.ts:1051-1112 | The patch's moves, clears and rows put that picture on the terminal |
| `PaintProofs.FullPaints` | packages/pi-tui/src/tui.ts:909-936 | A full repaint shows the frame in scrollback and screen, from a blank screen or, when it clears, from any terminal |
| `PaintProofs.PaintRangePaints` | packages/pi-tui/src/tui.ts:1079-1091 | Clearing and printing rows one after another changes exactly those rows, scrolling nothing |
| `Terminal.ScrollbackIsOutOfReach` | packages/pi-tui/src/tui.ts:1005-1112 | No operation but erasing it changes a row once scrolled off the screen |
| `Economy.OneUpdate` | packages/pi-tui/src/tui.ts:909-1160 | A render writes one synchronized update and then only places the cursor; the update erases screen and scrollback if and only if the size changed, clearing was asked for, a line changed above the last screenful, or more lines went than the screen has rows; the frame shown before is not written again |
| `Economy.RedrawsAreCounted` | packages/pi-tui/src/tui.ts:909-937 | The count of full redraws goes up by one for each frame printed from the top, and only then |
| `Economy.EndIsRecorded` | packages/pi-tui/src/tui.ts:923-935 | Every render keeps the row recorded as the end of the content the last row of the frame |
| `Economy.OnlyChangesAreWritten` | packages/pi-tui/src/tui.ts:1051-1091 | Where lines changed from one row to another, exactly those rows are printed |
| `Economy.UnchangedWritesNothing` | packages/pi-tui/src/tui.ts:993-998 | A frame like the one before prints and erases nothing |
| `Tui.FramesAreClosed` | packages/pi-tui/src/tui.ts:788-797 | After the resets every line is non-empty, and a found cursor marker lies in the last screenful |
| `Tui.MarkerIsTakenOut` | packages/pi-tui/src/tui.ts:858-876 | The cursor is at the lowest marker of the last screenful, in the column after what stood before it; the marker goes, and no other line changes but for the reset |
| `Tui.NoMarkerNoCursor` | packages/pi-tui/src/tui.ts:858-876 | Without a marker there, there is no cursor and the lines are as they were |
| `Tui.TUI.RequestRender` | packages/pi-tui/src/tui.ts:469-485 | A forced request makes the next render a repaint; a render is scheduled once |
| `Tui.TUI.SetClearOnShrink` | packages/pi-tui/src/tui.ts:275-277 | Changes that setting and nothing else |
| `Tui.TUI.SetShowHardwareCursor` | packages/pi-tui/src/tui.ts:257-264 | Changes that setting, hides the cursor at once when off, and asks for a render unless nothing changed |
| `Tui.TUI.ExtractCursorPosition` | packages/pi-tui/src/tui.ts:858-876 | The lowest marker of the last screenful is found with its column, and only it is stripped |
| `Tui.TUI.ApplyLineResets` | packages/pi-tui/src/tui.ts:788-797 | Every line, and nothing else, gets the reset |
| `Tui.TUI.FindChanges` | packages/pi-tui/src/tui.ts:969-990 | The first and last rows that differ, appended rows included |
| `Tui.TUI.PositionHardwareCursor` | packages/pi-tui/src/tui.ts:1168-1199 | The moves sent and the row recorded agree with the specification of cursor placement |
| `Tui.TUI.FullRender` | packages/pi-tui/src/tui.ts:909-936 | Terminal and all recorded fields become those of a full repaint |
| `Tui.TUI.ClearDeleted` | packages/pi-tui/src/tui.ts:1001-1039 | Terminal and fields after the deletion-only path |
| `Tui.TUI.BuildPatch` | packages/pi-tui/src/tui.ts:1051-1112 | The bytes of a patch: scroll, seek, rows, trailing clears and return, and where the cursor ends |
| `Tui.TUI.PatchScreen` | packages/pi-tui/src/tui.ts:1143-1160 | Terminal and fields after a patch |
| `Tui.TUI.Decide` | packages/pi-tui/src/tui.ts:946-1049 | Which of the five paths a frame takes |
| `Tui.TUI.RenderFrame` | packages/pi-tui/src/tui.ts:946-1161 | One render is one step of a session, to which the theorems apply |
| `Tui.TUI.DoRender` | packages/pi-tui/src/tui.ts:878-1161 | The same from raw lines, marker and resets included |
| `Tui.TUI.Tick` | packages/pi-tui/src/tui.ts:480-485 | The scheduled render runs once and clears the request |
| `Layout.Position` | packages/pi-tui/src/tui.ts:627-688 | An overlay keeps its near margin always and its far margin exactly when it has room; a request that fits is granted; anchors sit at an edge or within a cell of the middle |
| `Layout.Resolve` | packages/pi-tui/src/tui.ts:591-689 | Width and height limit do not depend on the height; the overlay lies between its margins exactly when it fits: across, when the margins leave a column |
| `Layout.AnchorsHold` | packages/pi-tui/src/tui.ts:691-723 | Each of the nine anchors puts an overlay that fits at its edges, or within a cell of the middle |
| `Layout.RequestsGranted` | packages/pi-tui/src/tui.ts:636-688 | A row and a column asked for, moved by their offsets, are granted when they keep the margins |
| `Layout.WidthGranted` | packages/pi-tui/src/tui.ts:613-620 | The width is the one asked for, or 80, kept within what the margins leave; a least width raises it if that fits |
| `Layout.HeightGranted` | packages/pi-tui/src/tui.ts:622-627 | The height limit is the one asked for, kept within what the margins leave; without a readable one there is none |
| `Layout.MarginsAreTheirSides` | packages/pi-tui/src/tui.ts:599-607 | A margin counts on its own side, and not below zero |
| `Layout.PercentsHold` | packages/pi-tui/src/tui.ts:627-671 | Percent positions run from the near end to the far end and never backwards |
| `Compositor.CompositeLineCells` | packages/pi-tui/src/tui.ts:800-848 | A composited line is as wide as the terminal, with the overlay's cells in its columns and the line's own elsewhere |
| `Compositor.LayerShows` | packages/pi-tui/src/tui.ts:736-755 | An overlay shows the first lines of what it renders at its width, all or as many as its limit lets it |
| `Compositor.FrontmostShows` | packages/pi-tui/src/tui.ts:726-784 | Each cell of the composited frame shows the visible overlay of greatest focus order covering it, else the frame |
| `Compositor.NeverClipped` | packages/pi-tui/src/tui.ts:755-775 | An overlay loses rows exactly when it reaches below the screen of a frame that fills it; one that fits its margins never does and lies within them |
| `Compositor.CompositeHeight` | packages/pi-tui/src/tui.ts:757-767 | The composited frame is as high as the lines, the overlays and the working height need |
| `Compositor.PaintAllCells` | packages/pi-tui/src/tui.ts:769-781 | Painting layers in order leaves in each cell the last layer covering it |
| `StableSort.SortIsStable` | packages/pi-tui/src/tui.ts:737-738 | Sorting by focus order, or by score, orders, keeps all items, and keeps equal ones in their order |
| `OverlayStack.Overlays.ShowOverlay` | packages/pi-tui/src/tui.ts:297-311 | The new overlay is last, in front of all others, and focused if it captures focus and is visible |
| `OverlayStack.Overlays.Hide` | packages/pi-tui/src/tui.ts:315-327 | Exactly that overlay is removed, if there, and focus it held goes to the topmost visible one or back; focus orders stay distinct |
| `OverlayStack.OthersStay` | packages/pi-tui/src/tui.ts:315-327 | Removing an overlay leaves all others, in order |
| `OverlayStack.HeirIs` | packages/pi-tui/src/tui.ts:319-322 | Focus goes to the last visible overlay that takes it, and only without one to what had it before |
| `OverlayStack.ShowThenHide` | packages/pi-tui/src/tui.ts:297-327 | Showing and hiding leaves the stack as it was; the focus returns if and only if it was not taken, or no visible overlay that takes it is left, or the last of these had it |
| `OverlayStack.Overlays.SetHidden` | packages/pi-tui/src/tui.ts:328-346 | Hiding gives focus up; showing a capturing overlay again takes it and brings the overlay to the front |
| `OverlayStack.Overlays.Focus` | packages/pi-tui/src/tui.ts:348-355 | A visible overlay of the stack gets the focus and the greatest focus order; others keep theirs |
| `OverlayStack.Overlays.Unfocus` | packages/pi-tui/src/tui.ts:356-361 | Focus goes to the topmost visible overlay unless it is this one, else to where it came from |
| `OverlayStack.Overlays.HideOverlay` | packages/pi-tui/src/tui.ts:367-377 | The last overlay goes, with its focus |
| `OverlayStack.Overlays.HasOverlay` | packages/pi-tui/src/tui.ts:380-382 | Whether any overlay is visible |
| `OverlayStack.Overlays.SetFocus` | packages/pi-tui/src/tui.ts:279-292 | Only the focused component carries the focus flag, if it can |
| `OverlayStack.Overlays.GetTopmostVisible` | packages/pi-tui/src/tui.ts:394-402 | The last entry that is visible and captures focus |
| `OverlayStack.TopmostIsLast` | packages/pi-tui/src/tui.ts:394-402 | That entry is visible and capturing, and none after it is; there is none exactly when no entry is |
| `OverlayStack.Overlays.ViewsAreDistinct` | packages/pi-tui/src/tui.ts:233-241 | Focus orders in the stack are distinct, as the painter's theorem needs |
| `OverlayStack.Overlays.CompositeOverlays` | packages/pi-tui/src/tui.ts:726-784 | The loops that place, pad and paint compute the composited frame |
| `OverlayStack.CompositeViews` | packages/pi-tui/src/tui.ts:726-784 | The same on the entries as read |
| `OverlayStack.PaintLayer` | packages/pi-tui/src/tui.ts:769-781 | One overlay's rows are spliced into exactly the rows it covers |
| `Sequences.ExtractCuts` | packages/pi-tui/src/stdin-buffer.ts:184-224 | Sequences and remainder together are the buffer; each sequence is one ordinary character or a minimal complete escape, and the remainder an unfinished escape |
| `EscapeGrammar.MinimalExactlyWhenEscape` | packages/pi-tui/src/stdin-buffer.ts:29-182 | A minimal complete escape is exactly a sentence of a grammar with one case for each kind: two characters, application keys, both mouse reports, control sequences, operating system commands, device control and application strings |
| `EscapeGrammar.ExtractFollowsGrammar` | packages/pi-tui/src/stdin-buffer.ts:184-224 | The tokenizer cuts off ordinary characters and sentences of the grammar, and keeps back only what has no such prefix |
| `Sequences.ExtractStreams` | packages/pi-tui/src/stdin-buffer.ts:184-224 | Parsing `a + b` gives the sequences of `a`, then those of its remainder followed by `b` |
| `Sequences.FallbackNeverFires` | packages/pi-tui/src/stdin-buffer.ts:104-120 | The second mouse test accepts nothing the first does not |
| `Stdin.ExtractCompleteSequences` | packages/pi-tui/src/stdin-buffer.ts:184-224 | The nested loops cut the buffer as specified |
| `InputModel.ProcessConserves` | packages/pi-tui/src/stdin-buffer.ts:255-341 | One chunk neither adds, reorders nor loses input, but for an unfinished escape directly before a paste |
| `InputModel.ActConserves` | packages/pi-tui/src/stdin-buffer.ts:343-367 | The same for the timer and `flush`; and the state stays valid: paste mode, empty buffer, no end marker, timer armed exactly while something is buffered |
| `InputModel.RunConserves` | packages/pi-tui/src/stdin-buffer.ts:255-367 | Over any run, what came out followed by what is pending is the input in order; and bytes are dropped only as an unfinished escape whose next item is a paste, or that the run leaves in one; an empty chunk puts at most an empty data event in between |
| `Chunking.SplitFeed` | packages/pi-tui/src/stdin-buffer.ts:255-341 | A text read in two parts is read as a whole, when the text is steady: what is left over before each paste stays unfinished while the paste marker arrives |
| `Chunking.ChunksAfter` | packages/pi-tui/src/stdin-buffer.ts:255-341 | The same for any number of chunks |
| `Chunking.SomeSplitMatters` | packages/pi-tui/src/stdin-buffer.ts:304-317 | A text that is not steady has a split in two that gives other events |
| `Chunking.ChunkInvariantExactlyWhenSteady` | packages/pi-tui/src/stdin-buffer.ts:255-341 | Every chunking gives the same events and state if and only if the text is steady |
| `Tokens.PrintedParses` | packages/pi-tui/src/stdin-buffer.ts:255-341 | Printed tokens read at once come back exactly, and leave nothing pending |
| `Tokens.RoundTripInAnyChunks` | packages/pi-tui/src/stdin-buffer.ts:184-341 | Printed characters, escapes and pastes come back exactly in any chunking |
| `Tokens.ChunkingCanMatter` | packages/pi-tui/src/stdin-buffer.ts:304-317 | A concrete text, an escape before a paste, whose events depend on the chunking |
| `Stdin.StdinBuffer.Process` | packages/pi-tui/src/stdin-buffer.ts:255-341 | The recursive method emits what the specification says and keeps the state valid; its recursion ends |
| `Stdin.StdinBuffer.BeginPaste` | packages/pi-tui/src/stdin-buffer.ts:304-317 | Text before a paste is emitted, the marker consumed, the rest read as pasted |
| `Stdin.StdinBuffer.FinishPaste` | packages/pi-tui/src/stdin-buffer.ts:319-332 | The paste is emitted up to its end marker and the rest read on |
| `Stdin.StdinBuffer.Flush` | packages/pi-tui/src/stdin-buffer.ts:354-367 | Everything buffered is handed out as one sequence |
| `Stdin.StdinBuffer.TimerFires` | packages/pi-tui/src/stdin-buffer.ts:343-351 | Everything buffered is emitted |
| `AgentRuns.EveryRun` | packages/pi-agent-core/src/agent-loop.ts:66-274 | Every run: events in grammar order; each response is the provider's or made of its error, and each unstopped one answered at once: one result per call, saying what the tool returned but for what the hook replaced, why the call was refused, or that it was skipped; the loop's context is the old messages and the run's; every queued message delivered once and in order, pending or still queued; at most one between model calls one-at-a-time; a finished run ends with one `agent_end` holding exactly the ended messages |
| `AgentRuns.LoopKeeps` | packages/pi-agent-core/src/agent-loop.ts:161-274 | Every number of rounds from rest leads to rest or to the end of the run |
| `AgentRuns.TurnKeeps` | packages/pi-agent-core/src/agent-loop.ts:164-257 | A turn from rest ends at rest or ends the run |
| `AgentRuns.RespondReads` | packages/pi-agent-core/src/agent-loop.ts:280-365 | One model call adds exactly one assistant message to context and events, streamed or made from the error |
| `AgentRuns.ToolsRun` | packages/pi-agent-core/src/agent-loop.ts:370-382 | All calls asked for are started, ended and answered, in either mode |
| `AgentOutcomes.ToolsTell` | packages/pi-agent-core/src/agent-loop.ts:370-702 | In either mode each result says what became of its call, in terms of what the environment decided at its tick |
| `AgentOutcomes.SequentialTells` | packages/pi-agent-core/src/agent-loop.ts:384-436 | One at a time, a result is what the tool returned, field by field as the hook left it, the refusal, or the skip |
| `AgentOutcomes.ParallelTells` | packages/pi-agent-core/src/agent-loop.ts:438-510 | The same in parallel: those refused first, then the returns in order, or skips once steering arrived |
| `AgentOutcomes.RespondTells` | packages/pi-agent-core/src/agent-loop.ts:280-365 | A response is the provider's last word, or an error message of the kind and text of its failure |
| `AgentOutcomes.SequentialReports` | packages/pi-agent-core/src/agent-loop.ts:384-436 | One at a time, progress is reported in turn, once for each update of a call that runs |
| `AgentOutcomes.ParallelReports` | packages/pi-agent-core/src/agent-loop.ts:438-510 | In parallel, the prepared calls report together once all are prepared, or none does |
| `AgentOutcomes.CallsAre` | packages/pi-agent-core/src/agent-loop.ts:227-229 | The calls of a response are its tool call blocks, each once, in order |
| `AgentRuns.RunsEndRightly` | packages/pi-agent-core/src/agent-loop.ts:220-274 | A run ends only directly after an empty follow-up poll or a turn that failed or was aborted, and nothing else comes after either |
| `AgentRuns.FirstPollSkips` | packages/pi-agent-core/src/agent.ts:456-475 | The first poll of a resumed run takes nothing, of another what the mode allows |
| `AgentTools.SequentialProgress` | packages/pi-agent-core/src/agent-loop.ts:384-436 | One at a time: each call starts and ends once, results in source order, the rest skipped once steering arrives |
| `AgentTools.ParallelProgress` | packages/pi-agent-core/src/agent-loop.ts:438-510 | All at once: each call starts and ends once, results a stable partition, those refused first |
| `AgentTools.SkipProgress` | packages/pi-agent-core/src/agent-loop.ts:682-702 | Skipped calls are started unless they were, ended and answered |
| `AgentTools.FinishProgress` | packages/pi-agent-core/src/agent-loop.ts:653-680 | An outcome ends its call and adds exactly its result message, which says the same as the end |
| `AgentTools.SourceOrderExactlyWhenRefusedFirst` | packages/pi-agent-core/src/agent-loop.ts:438-510 | The results the loop returns in parallel mode are in source order if and only if no call was prepared before one refused on the spot |
| `AgentExamples.RefusedOvertakes` | packages/pi-agent-core/src/types.ts:20-28 | A run in parallel mode whose results are not in the documented source order: the first call prepared, the second not found and answered first |
| `AgentRuns.FollowUpsComeLast` | packages/pi-agent-core/src/agent-loop.ts:260-266 | Follow-ups are asked for only right after a turn without calls whose steering poll came back empty |
| `AgentRuns.OneMessageBetweenCalls` | packages/pi-agent-core/src/agent.ts:311-339 | One-at-a-time, at most one message from outside comes in between two consecutive model calls |
| `AgentRuns.MostBetweenCalls` | packages/pi-agent-core/src/agent-loop.ts:164-185 | The number of messages between two model calls never exceeds the monitor's greatest |
| `AgentRuns.ResumedRunDelivers` | packages/pi-agent-core/src/agent.ts:402-428 | A resumed run delivers what it took as prompts, like everything queued, once and in order |
| `AgentFold.MessagesFold` | packages/pi-agent-core/src/agent.ts:488-531 | The Agent's messages are those before the run and those that ended, at any point of the stream |
| `AgentFold.PendingFold` | packages/pi-agent-core/src/agent.ts:505-517 | The pending set never holds a call that is not running |
| `AgentPending.PendingExactlyWhenAlone` | packages/pi-agent-core/src/agent.ts:505-517 | On any log in order, the set is exactly the running calls throughout if and only if no call ends while another of its id is running |
| `AgentPending.DistinctIdsAreExact` | packages/pi-agent-core/src/agent.ts:505-517 | When no response repeats a call id the set is exact throughout |
| `AgentPending.PendingExactlyWhenApart` | packages/pi-agent-core/src/agent-loop.ts:384-510 | Throughout a run the set is exact if and only if, in parallel mode, no call is prepared before another preflighted call of its response with the same id |
| `AgentPending.SequentialPendingIsExact` | packages/pi-agent-core/src/agent-loop.ts:396-413 | In sequential mode the set is exact throughout every run, whatever the ids |
| `AgentPending.ParallelAlone` | packages/pi-agent-core/src/agent-loop.ts:438-510 | A parallel execution ends every call alone exactly when the preflighted calls are apart |
| `AgentFold.NothingPendingAtTurnEnd` | packages/pi-agent-core/src/agent.ts:519-524 | The pending set is empty at every `turn_end` |
| `AgentExamples.RepeatedIdsAreMissed` | packages/pi-agent-core/src/agent.ts:505-517 | A run in parallel mode, two prepared calls of one id, in which the set misses a running call |
| `AgentFold.DrainedRunAgrees` | packages/pi-agent-core/src/agent.ts:488-552 | After a drained run the Agent's messages are the old ones and `agent_end.messages`, equal to the loop's context, and nothing is pending or streaming |
| `AgentFold.StreamedOpen` | packages/pi-ai/src/utils/event-stream.ts:20-50 | Everything pushed is delivered: nothing is pushed after the event that closes the stream |
| `AgentFold.NothingLeftOver` | packages/pi-agent-core/src/agent.ts:537-551 | A partial message is held exactly while one is open, so a finished run leaves none over |
| `AgentFold.ErrorIsTheLast` | packages/pi-agent-core/src/agent.ts:521-525 | The error is that of the last turn that had one, else that of before the run |
| `AgentFold.StreamsThePartial` | packages/pi-agent-core/src/agent.ts:490-531 | At any point the message shown as streaming is the one open, and a run is on until its end |
| `AgentObjects.Agent.Steer` | packages/pi-agent-core/src/agent.ts:282-284 | A message joins the end of the queue |
| `AgentObjects.Agent.FollowUp` | packages/pi-agent-core/src/agent.ts:290-292 | A message joins the end of the queue |
| `AgentObjects.Agent.DequeueSteeringMessages` | packages/pi-agent-core/src/agent.ts:311-324 | The batch and the rest are the old queue; one or all, by mode |
| `AgentObjects.Agent.DequeueFollowUpMessages` | packages/pi-agent-core/src/agent.ts:326-339 | The batch and the rest are the old queue; one or all, by mode |
| `AgentObjects.Agent.HandleEvent` | packages/pi-agent-core/src/agent.ts:488-531 | One event changes the whole state as the fold says |
| `AgentObjects.Agent.Drain` | packages/pi-agent-core/src/agent.ts:488-535 | The loop folds the stream up to its close |
| `AgentObjects.Agent.RunAndDrain` | packages/pi-agent-core/src/agent.ts:435-585 | State and queues after a run are those of the run's model, folded |
| `AgentObjects.Agent.Prompt` | packages/pi-agent-core/src/agent.ts:366-397 | Refused while a run is on, else one drained run of the prompts |
| `AgentObjects.Agent.Continue` | packages/pi-agent-core/src/agent.ts:402-428 | Each refusal, exactly when it happens and changing nothing; else a drained run started by the queue it takes from |
| `AgentObjects.AgentLoop.RunLoop` | packages/pi-agent-core/src/agent-loop.ts:151-274 | The nested loops do what the specified rounds do |
| `AgentObjects.AgentLoop.TakeTurn` | packages/pi-agent-core/src/agent-loop.ts:169-257 | One turn: injection, response, tools, end, steering |
| `AgentObjects.AgentLoop.InjectPending` | packages/pi-agent-core/src/agent-loop.ts:177-185 | Pending messages enter events, context and new messages in order |
| `AgentObjects.AgentLoop.StreamAssistantResponse` | packages/pi-agent-core/src/agent-loop.ts:280-365 | One model call, streamed into context and events |
| `AgentObjects.AgentLoop.FollowChunks` | packages/pi-agent-core/src/agent-loop.ts:318-362 | The partial message is replaced in place, and by the final one at the end |
| `AgentObjects.AgentLoop.ExecuteToolCallsSequential` | packages/pi-agent-core/src/agent-loop.ts:384-436 | The loop with its early exit runs or skips each call in turn |
| `AgentObjects.AgentLoop.ExecuteOne` | packages/pi-agent-core/src/agent-loop.ts:396-413 | A call is started, prepared, and refused or run to its result |
| `AgentObjects.AgentLoop.ExecuteToolCallsParallel` | packages/pi-agent-core/src/agent-loop.ts:438-510 | Preflight, skipping and concurrent completion in any order |
| `AgentObjects.AgentLoop.ExecutePrepared` | packages/pi-agent-core/src/agent-loop.ts:581-644 | A prepared call runs, updates and ends, failing or not |
| `AgentObjects.AgentLoop.EmitToolCallOutcome` | packages/pi-agent-core/src/agent-loop.ts:653-680 | End of the call and its result message |
| `AgentObjects.AgentLoop.SkipToolCall` | packages/pi-agent-core/src/agent-loop.ts:682-702 | A call answered without being run |
| `AgentObjects.AgentLoop.SkipToolCalls` | packages/pi-agent-core/src/agent-loop.ts:422-432 | All the calls left, answered without being run |
| `AgentObjects.AgentLoop.GetSteeringMessages` | packages/pi-agent-core/src/agent.ts:469-475 | The first poll of a resumed run is skipped once; other polls take a batch |
| `AgentObjects.AgentLoop.GetFollowUpMessages` | packages/pi-agent-core/src/agent.ts:476 | A poll takes a batch of follow-ups |
| `Proxy.ReadsItsDataLines` | packages/pi-agent-core/src/proxy.ts:152-182 | In any chunking of a text read without error, the events pushed are those of its complete data lines, and every text or thinking block is what they appended since its last start |
| `Proxy.DeliveredIsCut` | packages/pi-ai/src/utils/event-stream.ts:20-35 | Of the events pushed exactly those up to the first that closes the stream are delivered |
| `Proxy.ChunkingDoesNotMatter` | packages/pi-agent-core/src/proxy.ts:156-165 | Any chunking of a text leaves the reader as one chunk would, errors included |
| `Proxy.LinesStream` | packages/pi-agent-core/src/proxy.ts:164-166 | More text only adds to the last, open line |
| `Proxy.LinesAreTheText` | packages/pi-agent-core/src/proxy.ts:164-166 | Lines and rest are the text, cut at every line feed and nowhere else |
| `Proxy.BlocksAreTheirDeltas` | packages/pi-agent-core/src/proxy.ts:211-340 | Without errors each text or thinking block is the concatenation of its deltas since its last start |
| `Proxy.ArgumentsAreTheirDeltas` | packages/pi-agent-core/src/proxy.ts:283-321 | A tool call's arguments are the parse of all its deltas since its start |
| `Proxy.BlocksAreKept` | packages/pi-agent-core/src/proxy.ts:219-321 | Each block is what it was last started as, with the id and name of a call and the signature of its end |
| `Proxy.ThrowsExactlyWhen` | packages/pi-agent-core/src/proxy.ts:211-340 | An event is an error if and only if its block was last started as another kind, or never; of the others all are passed on but those of unknown kind and the end of what is no tool call |
| `Proxy.LastWordStands` | packages/pi-agent-core/src/proxy.ts:323-332 | Stop reason, usage and error message are those of the last closing event |
| `Proxy.StopsAtTheFirstError` | packages/pi-agent-core/src/proxy.ts:186-197 | Reading stops at the first line that cannot be parsed or handled, tells of the error last and keeps the rest of the message |
| `Proxy.DataIsTrimmed` | packages/pi-agent-core/src/proxy.ts:168-171 | A data line says what follows its name, trimmed, and no other line says anything |
| `Proxy.LinesAreTheirEvents` | packages/pi-agent-core/src/proxy.ts:168-180 | Reading lines is handling their events in order |
| `Proxy.Reader.Read` | packages/pi-agent-core/src/proxy.ts:156-182 | The loop over lines, stopping at the first error, reads a chunk as specified |
| `Proxy.Reader.ReadOne` | packages/pi-agent-core/src/proxy.ts:168-179 | One line changes message and stream as specified |
| `Fuzzy.GreedyIsEarliest` | packages/pi-tui/src/fuzzy.ts:16-64 | The greedy scan finds every character no later than any other embedding does |
| `Fuzzy.GreedyExactlyWhenSubsequence` | packages/pi-tui/src/fuzzy.ts:16-64 | The scan succeeds if and only if the query is a subsequence of the text |
| `Fuzzy.GapsTelescope` | packages/pi-tui/src/fuzzy.ts:43-49 | The gap penalties add up to `2*(last-first-(m-1))` |
| `Fuzzy.ScoreAtLeast` | packages/pi-tui/src/fuzzy.ts:35-58 | No score is below `-5*m(m+1)/2 - 10m + 0.1*m(m-1)/2` |
| `Fuzzy.MatchScores` | packages/pi-tui/src/fuzzy.ts:16-64 | A match scores at least that |
| `Fuzzy.LeastIsScored` | packages/pi-tui/src/fuzzy.ts:16-64 | The bound is met: a query of separators scores exactly that on itself |
| `FuzzyTokens.StretchScores` | packages/pi-tui/src/fuzzy.ts:32-58 | What a stretch of adjacent matches adds: two for each character skipped, less five, ten and so on for each match after the first, less ten for each start of a word, and a tenth of each place |
| `FuzzyTokens.WordsStart` | packages/pi-tui/src/fuzzy.ts:32 | A word starts at the start, after white space and after five signs |
| `FuzzyTokens.SwappedIs` | packages/pi-tui/src/fuzzy.ts:71-77 | Letters then digits are swapped, and digits then letters |
| `FuzzyTokens.OnlyMixedAreSwapped` | packages/pi-tui/src/fuzzy.ts:71-77 | No other query is |
| `FuzzyTokens.SwappedCostsFive` | packages/pi-tui/src/fuzzy.ts:66-88 | The plain query is preferred; a swapped match costs five more |
| `Fuzzy.MatchesExactlyWhen` | packages/pi-tui/src/fuzzy.ts:12-89 | A query matches if and only if it, or its letters and digits swapped, is a subsequence |
| `Fuzzy.Scan` | packages/pi-tui/src/fuzzy.ts:16-64 | The loop with its running counters finds the greedy places and their score |
| `Fuzzy.MatchAll` | packages/pi-tui/src/fuzzy.ts:113-124 | All tokens match, or the first that does not ends the loop; the scores add up |
| `Fuzzy.FuzzyFilter` | packages/pi-tui/src/fuzzy.ts:95-133 | The loops keep and sort what the specification says (FuzzyTokens.FilterKeepsExactly) |
| `FuzzyTokens.TokensAreRuns` | packages/pi-tui/src/fuzzy.ts:96-107 | The tokens are the maximal runs of the query without white space, each once, in order |
| `FuzzyTokens.FilterKeepsExactly` | packages/pi-tui/src/fuzzy.ts:95-133 | An item is kept if and only if every such run matches its text, best total first; without a run all items stay as they were |
| `Fuzzy.FilterIsExactAndStable` | packages/pi-tui/src/fuzzy.ts:95-133 | Exactly the items every token matches remain, by total score, ties in their order |
| `Kitty.DecodesExactlyWhenPlain` | packages/pi-tui/src/terminal-image.ts:106-147 | Decoding what was sent gives back options and data, if and only if the data has no escape character |
| `Kitty.ChunkShape` | packages/pi-tui/src/terminal-image.ts:130-144 | Payloads are full but the last, never too long, and make up the data; only the first carries the parameters and of several exactly the last has `m=0` |
| `Kitty.EncodeKitty` | packages/pi-tui/src/terminal-image.ts:106-147 | The loop sends exactly those chunks |
| `Kitty.ParamsRead` | packages/pi-tui/src/terminal-image.ts:116-120 | The parameters can be read back into the options they came from |

## Left out

- Session.DifferentialRefinesRepaint: with clearing off a frame may not be shorter than the one before; for shorter ones the statement is false (SessionExamples.WithoutClearingItFails), also once clearing is switched on (SessionExamples.SwitchingOnCanFail), and Fidelity.FaithfulExactlyWhenSafe gives the exact condition of each step. A resize that returns to the size of the last frame between two renders is excluded, as nothing then tells the renderer to repaint.
- Fidelity.FaithfulExactlyWhenSafe: assumes that texts which differ also look different; otherwise a wrong patch may happen to show the right cells. The safe direction needs no such assumption.
- Native text functions (`visibleWidth`, `truncateToWidth`, `extractSegments`, `sliceWithWidth`) are parameters of the renderer, of which it is assumed that truncated lines fit; in the compositor every cell is one column and styling has no width.
- Image rows, debug logging, `stop()`, input routing and cell-size queries of the TUI class.
- The terminal's bytes are operations: the buffer a render writes is a sequence of them, a carriage return with a line feed being one.
- Overlay options are whole numbers or percentages; fractional cells are not modelled. Components are numbers, and what they render is a function of the width.
- Real numbers stand for floating point in percentages and scores.
- Stdin.StdinBuffer.Process: does not model the conversion of a high byte from a Buffer; `clear()` and `destroy()` are left out, and listeners do not call back into the buffer.
- A character is one UTF-16 code unit.
- AgentRuns.EveryRun: assumes hooks that do not throw, provider streams that start at most once and end in done or error without throwing after their start, and prompts that come from outside; the outer error handler of `_runLoop` is then not reached. `rounds` bounds how long a run is watched, not how long it lasts.
- AgentTools.SourceOrderExactlyWhenRefusedFirst: the comment at packages/pi-agent-core/src/types.ts:20-28 promises source order for parallel results; the code puts refused calls first (AgentExamples.RefusedOvertakes), and the model follows the code.
- AgentFold.PendingFold: says only that nothing else is held; AgentPending.PendingExactlyWhenApart says exactly when every running call is held. Distinct ids are enough, but not needed.
- AgentTools.ParallelProgress: tools are taken to report progress only before they end; an update after the end of its own call would be out of order.
- AgentObjects.Agent.RunAndDrain: leaves out the error handler, with the message it makes of an error, which needs a throw that the hypotheses exclude, and the branch for a partial message left over, which a finished run never takes (AgentFold.NothingLeftOver).
- The moment of an abort, clearing and resetting queues, listeners that prompt again during `agent_end`, argument validation and the tools themselves.
- Proxy.Reader.Read: fetching, decoding bytes, aborting, JSON parsing and white space are parameters or absent.
- Fuzzy.Scan: lower-casing and the test for white space are parameters.
- Kitty.EncodeKitty: sizes and ids are natural numbers written in decimal; fractions and numbers JavaScript prints with an exponent are not modelled.
- Key tables, command line, migrations, resource loading, model tables and registries: plumbing or data.
