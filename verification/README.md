# TidyVNC viewer: a verified model

This project models the state machines and algorithms of the viewer that are hardest to get
right, and proves what they are for. It is pure Dafny; `dafny verify dfyconfig.toml` checks it.

- **Audio.** `AudioRing` is the algebra of one power-of-two byte ring whose space is split
  into free, pending and device-owned bytes. `AudioOutputWin32` is the Windows output as atomic
  steps: the main thread's fills, submissions and system calls, the device, and any number of
  callbacks in their decrement, load, link and compare-and-swap steps. `AudioOutputWin32Safety`
  is its inductive invariant, `AudioOutputWin32Theorems` its promises in every interleaving, and
  `AudioOutputWin32Sequence` what holds in addition when the system calls back one buffer at a
  time, `AudioOutputWin32Calls` what one call of `submit` gets done, and `AudioOutputWin32Witness`
  a run in which callbacks overtake each other.
  `AudioOutputPulse` is the PulseAudio output as an object; its ring refines a byte queue.
- **Touch.** `GestureMachine` is the recogniser as functions on its state, `GestureHandlers` the
  object whose methods do what those functions say. `GestureRuns`, `GestureLog` and
  `GestureReports` prove what holds after any sequence of touches, timers and clock ticks,
  `GesturePlaces` where gestures are reported and `GestureTaps` which must be;
  `GestureWitness` is a run whose report is malformed. `TouchMouse` turns gestures into fake
  buttons, keys and wheel clicks, `TouchHandlers` is the object with the scrolling loops,
  `TouchClicks` says what each event does, and `TouchComposition` puts recogniser and mouse
  together.
- **Desktop.** `DesktopDamage` is one framebuffer with decoder threads, several views, a tile
  cache and the flush timeout as a state machine over single accesses, where a draw harvests again
  before each piece of the window; `DesktopSessions` is the session object, each of whose methods
  is a run of that machine. `ClipRegions` converts FLTK's logical clip to backing pixels, and
  `TileLoops` holds the nested drawing loops.
- **Input.** `KeyboardWin32` is the keyboard as functions on single window messages,
  `KeyboardHandlers` the object, `KeyboardShifts` what the output holds down, `KeyboardPackets`
  text typed as UTF-16 units. `Keysyms` is the pair of tables between X keysyms and Unicode.
  `PointerThrottle` is the rate limit on pointer events.
- **Closures and indices.** `DependencyGraph` is the worklist that collects the binaries of the
  macOS bundle, over `Paths`. `Monitors` is the numbering of monitors.

`Bits`, `Optional`, `Sets` and `Rects` hold what several modules share. In a state machine,
fields described as history are there only to state properties; no step reads them.

Where the code does less than a first reading suggests, the model follows the code:

- On Windows the three parts of the ring are each one run exactly while buffers have been taken
  back in the order they were written. Overlapping callbacks can break that, as
  `AudioOutputWin32Witness.OvertakingSplitsFree` shows (no byte is harmed); callbacks made one at a
  time cannot, although each batch comes off the list newest first.
- The gesture log is whole Begin, Update, End blocks exactly when no two-touch timer fires
  between the first and the last release of a gesture. `GestureWitness.LateTimerBreaksBlocks`
  is a run in which one does.
- `backingClip` stores its rectangles in 16-bit fields, and the X client library keeps region
  edges in 16 bits. `ClipRegions.BackingClip` is right exactly when every clipped pixel fits;
  `ClipRegions.FarPixelLost` is one that does not.
- A supplementary private-use character typed through `VK_PACKET` has no keysym, is translated
  again from its last unit alone, and arrives as that unit marked 0x01000000;
  `KeyboardPackets.SymbolsIffSymbolised` is the exact condition, and
  `KeyboardPackets.PrivateUseMarked` types one.
- `KeyboardWin32::reset` drops a withheld Ctrl press (`KeyboardWin32.AltGrIsMerged`) and keeps a
  remembered high surrogate. `KeyboardPackets.ResetPartsIff` says exactly when that shows, and
  `KeyboardPackets.SurrogateSurvivesReset` is a run in which it does.
- The position a framebuffer resize clamps is not sent on its own.
  `PointerThrottle.FreshIffNotStale` is the exact condition over whole runs,
  `PointerThrottle.ShrinkLeavesStale` a run that meets it, and the next movement makes up for it.
- Two calls of `fetchMonitors` may order monitors that share a corner differently.
  `Monitors.ComesBackIff` says that this is all that can make a stored choice come back wrong,
  and that without it none does; `Monitors.SharedCorner` is a choice that comes back wrong.

## Model

| member | source | states |
|---|---|---|
| AudioRing.WrapIsMask | vncviewer/AudioOutputWin32.cxx:163 | for a power-of-two size, masking a head is the same as wrapping it round the ring |
| AudioRing.PutClear | vncviewer/AudioOutputWin32.cxx:176-197 | the slots a fill writes are none the device may still read |
| AudioRing.PutKeeps | vncviewer/AudioOutputWin32.cxx:170-198 | a fill keeps the accounts, the heads and every byte still to be read |
| AudioRing.ReadIsAccepted | vncviewer/AudioOutputWin32.cxx:282-298 | what the device reads for a submission is the bytes taken in for it |
| AudioRing.ReclaimKeeps | vncviewer/AudioOutputWin32.cxx:261-263 | taking back any finished buffer, in any order, keeps the ring's invariant |
| AudioOutputWin32Safety.InvKeeps | vncviewer/AudioOutputWin32.cxx:143-329 | every atomic step of every thread keeps the invariant of ring, lists, counter and program counter |
| AudioOutputWin32Safety.RunKeeps | vncviewer/AudioOutputWin32.cxx:143-358 | the invariant holds after every interleaving, from any power-of-two buffer |
| AudioOutputWin32Theorems.BytesConserved | vncviewer/AudioOutputWin32.cxx:143-322 | in every state, played, device-owned and pending bytes are together exactly the bytes taken in, in order; between a write and the move of the written head, less the pending bytes that the write handed over |
| AudioOutputWin32Theorems.OwnedUntouched | vncviewer/AudioOutputWin32.cxx:143-198 | no step of any thread changes a byte of a buffer the device is not done with |
| AudioOutputWin32Theorems.SpaceConserved | vncviewer/AudioOutputWin32.cxx:311-321 | in every state, free, pending and handed-out bytes add up to the buffer size, plus those of a write that the written head has not moved past yet |
| AudioOutputWin32Theorems.SpaceComesBack | vncviewer/AudioOutputWin32.cxx:259-263 | once every buffer has come back and been taken, nothing of the ring is missing |
| AudioOutputWin32Theorems.NodesAccounted | vncviewer/AudioOutputWin32.cxx:239-329 | each allocated node is in exactly one place and no freed node in any; both lists link what they should; the counter is headers counted less those called back or refused |
| AudioOutputWin32Theorems.StarvedIffDry | vncviewer/AudioOutputWin32.cxx:232-237 | a callback marks its buffer as starving, with the time, exactly when the device has none, no other callback is before its decrement and none is being written |
| AudioOutputWin32Theorems.DelayBounded | vncviewer/AudioOutputWin32.cxx:265-275 | the learnt delay never shrinks nor passes the limit |
| AudioOutputWin32Theorems.SilenceFits | vncviewer/AudioOutputWin32.cxx:121-136 | so in every run the silence before a stream fits the buffer, if its size is a power of two that reaches what `open` asks for |
| AudioOutputWin32Theorems.TakesWhatFits | vncviewer/AudioOutputWin32.cxx:143-198 | whatever callbacks and device do meanwhile, `play` or `start` takes in exactly the first min(whole length, free) bytes |
| AudioOutputWin32Theorems.DelayCoversGap | vncviewer/AudioOutputWin32.cxx:265-275 | taking back a starved buffer of the stream makes the delay cover the gap, rounded up to a millisecond and no further, within the limit; every other step of the main thread leaves it alone |
| AudioOutputWin32Theorems.TakenAfresh | vncviewer/AudioOutputWin32.cxx:295-298 | a node is handed out unmarked, with the stream of its time |
| AudioOutputWin32Theorems.SilenceLasts | vncviewer/AudioOutputWin32.cxx:331-345 | the silence before a stream lasts the minimum and the learnt delay, to the byte |
| AudioOutputWin32Calls.PendingIffRefused | vncviewer/AudioOutputWin32.cxx:252-329 | whatever the other threads do meanwhile, a call of `submit` that returns leaves bytes pending exactly when the system refused it a node, a header or a write |
| AudioOutputWin32Calls.AllHandedOver | vncviewer/AudioOutputWin32.cxx:278-322 | without a refusal, everything ever taken in has then been played or is with the device |
| AudioOutputWin32Calls.StreamStarts | vncviewer/AudioOutputWin32.cxx:331-345 | `start` begins a new stream and nothing else does |
| AudioOutputWin32Theorems.ContiguousIffInOrder | vncviewer/AudioOutputWin32.cxx:261-263 | in every state, the free bytes run on to the first buffer not taken back exactly when buffers were taken back in write order |
| AudioOutputWin32Witness.OvertakingSplitsFree | vncviewer/AudioOutputWin32.cxx:232-263 | overlapping callbacks can do otherwise: a concrete run that ends idle with the free bytes in two pieces |
| AudioOutputWin32Sequence.TakenBackInOrder | vncviewer/AudioOutputWin32.cxx:232-262 | if the system calls back one buffer at a time, buffers are taken back in write order between batches |
| AudioOutputWin32Sequence.ContiguousInSequence | vncviewer/AudioOutputWin32.cxx:143-322 | then free, pending and device-owned bytes are each one run around the ring |
| AudioOutputPulse.RoundUp | vncviewer/AudioOutputPulse.cxx:214-219 | a power of two, at least the target and less than twice it |
| AudioOutputPulse.AudioOutputPulse.Open | vncviewer/AudioOutputPulse.cxx:201-230 | the ring starts as an empty queue of a power-of-two number of bytes |
| AudioOutputPulse.AudioOutputPulse.AddSamples | vncviewer/AudioOutputPulse.cxx:314-342 | the queue grows by exactly the first min(whole length, free) bytes |
| AudioOutputPulse.AudioOutputPulse.AddSilence | vncviewer/AudioOutputPulse.cxx:287-312 | the same for silence |
| AudioOutputPulse.AudioOutputPulse.Submit | vncviewer/AudioOutputPulse.cxx:347-409 | the writes are whole samples, taken off the front of the queue; the loop stops only when the queue is empty or the server refuses |
| AudioOutputPulse.AudioOutputPulse.Start | vncviewer/AudioOutputPulse.cxx:511-529 | a new stream begins with the silence its delay asks for, and whole samples go out until the queue is empty or the server refuses |
| AudioOutputPulse.AudioOutputPulse.Play | vncviewer/AudioOutputPulse.cxx:538-551 | queued bytes in, whole samples out in arrival order until the queue is empty or the server refuses, and the delay learnt from an underflow |
| AudioOutputPulse.AudioOutputPulse.Underflow | vncviewer/AudioOutputPulse.cxx:485-498 | only the starvation fields change |
| AudioOutputPulse.DelayCoversGap | vncviewer/AudioOutputPulse.cxx:359-372 | the delay learnt from an underflow covers the time the server was dry, rounded up to a millisecond and no further, within the limit |
| AudioOutputPulse.OtherStreamTeachesNothing | vncviewer/AudioOutputPulse.cxx:361-372 | an underflow of another stream leaves the delay alone |
| AudioOutputPulse.BackedFill | vncviewer/AudioOutputPulse.cxx:319-341 | filling the ring keeps every queued byte readable at its place |
| GestureMachine.SumAny | vncviewer/GestureHandler.cxx:439-465 | a total over the tracked touches does not depend on the order of the loop |
| GestureHandlers.GestureHandler.HandleTouchBegin | vncviewer/GestureHandler.cxx:70-123 | the method does exactly the begin step of the state machine |
| GestureHandlers.GestureHandler.HandleTouchUpdate | vncviewer/GestureHandler.cxx:125-209 | the method does exactly the move step |
| GestureHandlers.GestureHandler.HandleTouchEnd | vncviewer/GestureHandler.cxx:211-300 | the method does exactly the release step |
| GestureHandlers.GestureHandler.HandleTwoTouchTimeout | vncviewer/GestureHandler.cxx:342-366 | the method does exactly the two-touch timer's step |
| GestureHandlers.GestureHandler.HandleLongpressTimeout | vncviewer/GestureHandler.cxx:334-340 | the method does exactly the long-press timer's step |
| GestureHandlers.GestureHandler.GetPosition | vncviewer/GestureHandler.cxx:439-465 | the loops compute the averages of first and last positions |
| GestureHandlers.GestureHandler.GetAverageMovement | vncviewer/GestureHandler.cxx:467-487 | the loop computes the difference of the averages |
| GestureHandlers.GestureHandler.PushEvent | vncviewer/GestureHandler.cxx:368-413 | the event pushed has the position and magnitudes of its gesture |
| GestureRuns.ShapeEnd | vncviewer/GestureHandler.cxx:211-300 | a release keeps the shape of the state and takes just that finger away |
| GestureRuns.ShapeBegin | vncviewer/GestureHandler.cxx:70-123 | a new finger keeps the shape of the state and is tracked or ignored, not both |
| GestureLog.RunKeeps | vncviewer/GestureHandler.cxx:70-366 | the invariant of the recogniser holds after every run |
| GestureLog.FingersAccounted | vncviewer/GestureHandler.cxx:70-324 | fingers down are the disjoint union of active tracked and ignored touches, and no assertion fails, in every run |
| GestureLog.BackToInitial | vncviewer/GestureHandler.cxx:211-300 | when the last finger lifts, the handler is as constructed with both timers stopped |
| GestureLog.BlocksIffNoLateTimer | vncviewer/GestureHandler.cxx:149-300 | with all fingers up, the pushed events are whole blocks of one gesture each exactly when no two-touch timer fired between first and last release |
| GestureLog.BlocksWithoutLateMoves | vncviewer/GestureHandler.cxx:149-209 | in particular when no touch moves past the threshold after the first release |
| GestureWitness.LateTimerBreaksBlocks | vncviewer/GestureHandler.cxx:172-207 | such a late timer does happen: a concrete run whose events are not whole blocks |
| GestureReports.GesturesReported | vncviewer/GestureHandler.cxx:234-300 | taps are reported with 1, 2 or 3 tracked fingers as named, drags and long presses with one; scrolls and pinches stay where they began |
| GesturePlaces.ReportsLocated | vncviewer/GestureHandler.cxx:368-413 | in every run, told from the touches alone: a Begin is reported at the mean of where its fingers were put down, later events where they were last seen, two-finger gestures where they began, with how far they have scrolled or are apart |
| GesturePlaces.OneFingerReports | vncviewer/GestureHandler.cxx:376-395 | a gesture of one finger begins where it was put down and is updated and ends where it was last seen |
| GesturePlaces.TimerDecides | vncviewer/GestureHandler.cxx:342-366 | in every run, the two-touch timer reports a pinch when the outer fingers have spread or closed by more than the fingers have moved together along either axis, else a scroll |
| GesturePlaces.AngleDecides | vncviewer/GestureHandler.cxx:166-200 | when both fingers have moved far the angle decides at once, else the timer is started |
| GestureTaps.QuickTapReported | vncviewer/GestureHandler.cxx:211-300 | one, two or three fingers put down and lifted in any order within a quarter of a second are reported as that tap and nothing else |
| GestureTaps.HoldReported | vncviewer/GestureHandler.cxx:334-340 | one finger held is reported as a long press when the timer fires |
| GestureTaps.DragReported | vncviewer/GestureHandler.cxx:141-208 | one finger moved past the threshold is reported as a drag at once |
| GestureTaps.NearMoveKeeps | vncviewer/GestureHandler.cxx:141-147 | a finger that stays near where it was put down is only followed |
| GestureTaps.LateFingerEnds | vncviewer/GestureHandler.cxx:80-92 | a finger that comes more than a quarter of a second late is ignored, and no tap, drag or scroll is possible any more |
| GestureTaps.SlowUpDrops | vncviewer/GestureHandler.cxx:258-284 | a finger lifted too late after another, or after it was put down, makes no tap |
| TouchMouse.ScrollYKeeps | vncviewer/BaseTouchHandler.cxx:102-111 | whole clicks only, each worth one step; at most one step is left and no button stays down |
| TouchMouse.ScrollXKeeps | vncviewer/BaseTouchHandler.cxx:112-121 | the same sideways |
| TouchMouse.ZoomKeeps | vncviewer/BaseTouchHandler.cxx:132-141 | the same for pinching |
| TouchMouse.HandleKeeps | vncviewer/BaseTouchHandler.cxx:51-167 | one gesture event: what it holds or lets go, and that mask and click accounts stay right |
| TouchClicks.PlainActs | vncviewer/BaseTouchHandler.cxx:51-167 | exactly what each event but a scroll adds: taps of one, two and three fingers click 1, 3 and 2, a drag holds 1, a long press 3 |
| TouchClicks.WheelActs | vncviewer/BaseTouchHandler.cxx:97-122 | a scroll clicks 4 or 5, then 6 or 7, in whole steps of 50 towards the magnitude and not past it |
| TouchClicks.PinchActs | vncviewer/BaseTouchHandler.cxx:123-145 | a pinch clicks 4 or 5 with Control held, in whole steps of 30 |
| TouchClicks.ButtonsPressed | vncviewer/BaseTouchHandler.cxx:51-167 | in every run, the left, middle and right buttons are pressed exactly for the gestures that begin, in their order |
| TouchHandlers.TouchHandler.HandleGestureEvent | vncviewer/BaseTouchHandler.cxx:51-167 | the method with its while loops does exactly that step |
| TouchHandlers.TouchHandler.FakeButtonEvent | vncviewer/XInputTouchHandler.cxx:362-385 | the event carries the old mask, then the button's bit changes |
| TouchHandlers.TouchHandler.FakeControlEvent | vncviewer/XInputTouchHandler.cxx:387-451 | the same for Control |
| TouchComposition.NothingHeld | vncviewer/BaseTouchHandler.cxx:51-167 | in every run, with no finger down every fake button and Control press has been released and the mask is empty |
| TouchComposition.MaskHonest | vncviewer/XInputTouchHandler.cxx:362-451 | the mask always says exactly what the pushed events hold, on the object and on each event |
| TouchComposition.ScrollConserved | vncviewer/BaseTouchHandler.cxx:75-146 | in every run, net clicks times the step equal the stored magnitude, and an update leaves at most one step over |
| DesktopDamage.BoundingCovers | vncviewer/PlatformPixelBuffer.cxx:102-109 | the bounding rectangle covers all damage |
| DesktopDamage.InvKeeps | vncviewer/DesktopSession.cxx:16-56 | each access of each thread keeps the damage invariant, harvests between the pieces of a draw included |
| DesktopDamage.NoDamageLost | vncviewer/DesktopSession.cxx:26-56 | in every run, with any number of harvests within a draw, an out-of-date pixel of a view is uncommitted, in the buffer's damage, being handed out, deferred, or asked to be redrawn |
| DesktopDamage.DeferredIsFlushed | vncviewer/DesktopSession.cxx:32-36 | in every state of every run, draws under way included, deferred damage has a flush timeout pending, or the UI thread is just telling the views, adding the timeout or flushing |
| DesktopDamage.QuietMeansCurrent | vncviewer/DesktopSession.cxx:26-48 | when nothing is pending, every view shows the framebuffer |
| DesktopDamage.DrawnMeansShown | vncviewer/DesktopWindow.cxx:588-605 | when the last piece is painted, before the damage is cleared, what the view shows wrongly is still to be harvested or deferred, so clearing loses nothing |
| DesktopDamage.LeadsIsRun | vncviewer/DesktopSession.cxx:26-48 | what a method of the session object leads to, from a state of a run, is a state of a run, so the results above hold of it |
| DesktopSessions.DesktopSession.Attach | vncviewer/DesktopSession.cxx:16-24 | the state machine's step; the new view is fully redrawn, and the caches are as large as they may be within 32 MiB each and 128 MiB together |
| DesktopSessions.DesktopSession.Detach | vncviewer/DesktopSession.cxx:25 | the state machine's step; only that view goes, and the caches still fit |
| DesktopSessions.DesktopSession.Synchronize | vncviewer/DesktopSession.cxx:26-37 | a run of the state machine from the harvest to the return to its caller; the damage is taken once, every view is told a rectangle that covers it, and a flush is pending if there was any |
| DesktopSessions.DesktopSession.FlushDamage | vncviewer/DesktopSession.cxx:43-48 | a run of the state machine; every view asks for all of its deferred damage to be redrawn |
| DesktopSessions.DesktopSession.Update | vncviewer/DesktopSession.cxx:38-42 | a run of the state machine; all damage ends up requested in every view |
| DesktopSessions.DesktopSession.Resize | vncviewer/DesktopSession.cxx:49-56 | the state machine's step; nothing when the size is the same, else every view is redrawn in full |
| DesktopSessions.DesktopSession.CommitBufferRW | vncviewer/PlatformPixelBuffer.cxx:94-100 | the state machine's step; the damage grows by exactly the rectangle |
| ClipRegions.StoredIff | vncviewer/Surface_X11.cxx:254-259 | a region gets a rectangle unchanged exactly when its four edges fit 16 bits |
| ClipRegions.SingleIsOverlap | vncviewer/Surface_X11.cxx:254-258 | in reals: the enclosing rectangle of a logical pixel is exactly the backing pixels that the scaled pixel overlaps |
| ClipRegions.WholeRect | vncviewer/Surface_X11.cxx:253-259 | converting a rectangle at once gives exactly what its pixels overlap |
| ClipRegions.WholeStoredIff | vncviewer/Surface_X11.cxx:253-259 | the rectangle added for a part inside the clip is exactly what its pixels overlap if and only if, scaled, they lie within what 16 bits can hold |
| ClipRegions.SpanCovered | vncviewer/Surface_X11.cxx:254-258 | every backing position of a scaled span is overlapped by some logical pixel: no gaps |
| ClipRegions.BackingClip | vncviewer/Surface_X11.cxx:247-267 | whatever a sound oracle answers, the result is exactly the backing pixels that the clipped logical pixels overlap, if and only if each of those fits 16 bits |
| ClipRegions.FarPixelLost | vncviewer/Surface_X11.cxx:254-259 | it can fail: one clipped pixel 16384 to the right at scale 2, which the logical region can have, for any backing region |
| ClipRegions.LogicalIsUnder | vncviewer/Surface_X11.cxx:276-278 | in reals: the clip is taken over exactly the logical pixels that the destination overlaps |
| ClipRegions.DrawBackingClip | vncviewer/Surface_X11.cxx:269-284 | the native clip is exactly what the clipped logical pixels under the destination overlap if and only if they fit; then it passes every backing pixel whose own logical pixel is clipped in |
| TileLoops.RenderTiles | vncviewer/Viewport.cxx:534-551 | the tiles drawn partition the clip, each from its own place and inside the image |
| TileLoops.WindowPieces | vncviewer/DesktopWindow.cxx:588-604 | the pieces partition the damaged area, each at most 1024 by 1024 |
| TileLoops.DrawWindow | vncviewer/DesktopWindow.cxx:588-604 | over all pieces every backing pixel of the clip is drawn exactly once, and no other |
| KeyboardWin32.ArmedIffTimeout | vncviewer/KeyboardWin32.cxx:349-355 | detection is armed exactly when one timeout is pending, in every run |
| KeyboardWin32.AltGrIsMerged | vncviewer/KeyboardWin32.cxx:187-437 | the output of every run is that of a keyboard without detection, less exactly the Ctrl presses that an AltGr within 50 ms or a reset follows, or nothing yet |
| KeyboardWin32.StepIsPlain | vncviewer/KeyboardWin32.cxx:193-239 | a withheld Ctrl is delivered just before the next message's own output or at the timeout, or dropped |
| KeyboardWin32.ArmedIffWithheld | vncviewer/KeyboardWin32.cxx:345-355 | detection is armed exactly while nothing has followed an arming Ctrl press |
| KeyboardShifts.NoShiftStuck | vncviewer/KeyboardWin32.cxx:375-431 | in every run, when a Shift has just been released the output holds neither Shift |
| KeyboardShifts.RunNotices | vncviewer/KeyboardWin32.cxx:375-379 | in every run, a Shift the output holds has its flag set |
| KeyboardShifts.HeldExactly | vncviewer/KeyboardWin32.cxx:193-437 | in every run, what the output holds is exactly the keys pressed and not since released, less those released at once, with Ctrl from when it is delivered |
| KeyboardShifts.KeyReleased | vncviewer/KeyboardWin32.cxx:403-420 | in every run, once a key has been released the code its press would send is not held |
| KeyboardShifts.OrdinaryPress | vncviewer/KeyboardWin32.cxx:262-358 | an ordinary key press delivers its scan code, with the high bit for an extended key, and its symbol |
| KeyboardShifts.MappedPress | vncviewer/KeyboardWin32.cxx:249-260 | a key without a scan code is pressed as that of its virtual key |
| KeyboardShifts.IgnoredKeys | vncviewer/KeyboardWin32.cxx:241-265 | fake keys and scan codes past seven bits are ignored |
| KeyboardShifts.SpecialSymbols | vncviewer/KeyboardWin32.cxx:325-342 | the Shifts are told apart by scan code, and a key without a symbol is tried again |
| KeyboardShifts.ModeKeysReleased | vncviewer/KeyboardWin32.cxx:365-373 | the Japanese mode keys are released as soon as they are pressed |
| KeyboardShifts.SpecialCodes | vncviewer/KeyboardWin32.cxx:616-653 | Break is Pause and SysRq is PrintScreen; Pause and NumLock have different codes |
| KeyboardShifts.KeyCodesDistinct | vncviewer/KeyboardWin32.cxx:632-653 | different keys have different codes of the protocol |
| KeyboardShifts.CtrlThenAlt | vncviewer/KeyboardWin32.cxx:228-239 | on a layout with AltGr, left Ctrl and right Alt are AltGr alone within 50 ms, else Ctrl and AltGr |
| KeyboardShifts.CtrlAtOnce | vncviewer/KeyboardWin32.cxx:344-358 | without AltGr nothing is withheld |
| KeyboardShifts.OnlyAltCompletes | vncviewer/KeyboardWin32.cxx:221-237 | only the right Alt within 50 ms completes AltGr, or the touch keyboard's Alt, which has no scan code |
| KeyboardHandlers.KeyboardHandler.HandleEvent | vncviewer/KeyboardWin32.cxx:187-437 | the method does exactly the step of the state machine and consumes exactly key messages |
| KeyboardHandlers.KeyboardHandler.AssembleSymbol | vncviewer/KeyboardWin32.cxx:283-323 | surrogate units become the symbol of their code point, or wait, or are dropped |
| KeyboardHandlers.KeyboardHandler.ReleaseKey | vncviewer/KeyboardWin32.cxx:403-431 | a Shift release also releases every Shift that was down |
| KeyboardHandlers.KeyboardHandler.HandleAltGrTimeout | vncviewer/KeyboardWin32.cxx:821-829 | the withheld press is delivered at the timeout |
| KeyboardHandlers.KeyboardHandler.ResetKeyboard | vncviewer/KeyboardWin32.cxx:547-554 | detection, timeout and Shifts are cleared and nothing is sent |
| KeyboardPackets.DecodeEncoded | vncviewer/KeyboardWin32.cxx:312-315 | decoding section 2.2 of RFC 2781 undoes encoding section 2.1 for all text |
| KeyboardPackets.TypedIsDecoded | vncviewer/KeyboardWin32.cxx:283-323 | for any units the symbols pressed are those of the decoded characters, unpaired surrogates dropped |
| KeyboardPackets.SymbolsIffSymbolised | vncviewer/KeyboardWin32.cxx:315-330 | they are the keysyms of the decoded text exactly when it has no supplementary private-use character |
| KeyboardPackets.PrivateUseMarked | vncviewer/KeyboardWin32.cxx:325-330 | it can have one: typing U+F0000 presses 0x0100dc00 where the character has no symbol |
| KeyboardPackets.AcrossReset | vncviewer/KeyboardWin32.cxx:547-554 | for all units typed before and after a reset, the symbols pressed are those of decoding both together: the reset keeps the remembered unit |
| KeyboardPackets.ResetPartsIff | vncviewer/KeyboardWin32.cxx:547-554 | a reset makes both parts arrive as if each were typed alone exactly when no surrogate pair is split by it |
| KeyboardPackets.SurrogateSurvivesReset | vncviewer/KeyboardWin32.cxx:547-554 | one can be split: the units of U+1F600 around a reset press that character |
| KeyboardPackets.TextArrives | vncviewer/KeyboardWin32.cxx:283-323 | text split into units, typed and pressed reads back as the same code points |
| Keysyms.FindUcs | vncviewer/keysym2ucs.c:81-102 | binary search in a sorted table finds what the table says |
| Keysyms.FindSym | vncviewer/keysym2ucs.c:104-118 | linear search finds the first entry |
| Keysyms.Keysym2UcsImpl | vncviewer/keysym2ucs.c:120-147 | the look-ups in order of precedence |
| Keysyms.Ucs2KeysymImpl | vncviewer/keysym2ucs.c:149-186 | the same the other way |
| Keysyms.RoundTrip | vncviewer/keysym2ucs.c:120-186 | whatever symbol a character gets names that character |
| Keysyms.CanonicalIdempotent | vncviewer/keysym2ucs.c:120-186 | making a keysym canonical twice is making it canonical once |
| Keysyms.NoSymbolIff | vncviewer/keysym2ucs.c:149-186 | exactly which characters have no symbol |
| Keysyms.SymbolPrecedence | vncviewer/keysym2ucs.c:149-186 | Latin-1 is itself, then the first entry of the table, then of the dead keys, then the direct range |
| Keysyms.CharacterPrecedence | vncviewer/keysym2ucs.c:120-147 | every keysym of a table names its character, Latin-1 and the direct range themselves |
| PointerThrottle.MasksKept | vncviewer/Viewport.cxx:729-751 | without repeats, the written masks are the requested masks in order, in every run |
| PointerThrottle.WritesCounted | vncviewer/Viewport.cxx:737-748 | with an interval, there is one write for each change of buttons and each firing of the timer, no more |
| PointerThrottle.PositionsInside | vncviewer/Viewport.cxx:556-566 | every write, delayed past a resize or not, is inside the framebuffer of its time exactly when that is not empty |
| PointerThrottle.ClampIsNearest | vncviewer/Viewport.cxx:732-733 | a position inside stays and one outside goes to the nearest inside |
| PointerThrottle.DelaysOnlyRepeats | vncviewer/Viewport.cxx:734-748 | only a movement that repeats the buttons is delayed, and only with an interval; any other is written at once |
| PointerThrottle.LatestArrives | vncviewer/Viewport.cxx:863-876 | outside resizes, with no write pending the server knows the latest position and buttons |
| PointerThrottle.FreshIffNotStale | vncviewer/Viewport.cxx:556-561 | after every run, a position the server does not know has no timeout to tell it exactly when a resize has moved it with no timeout pending and no movement has followed |
| PointerThrottle.ShrinkLeavesStale | vncviewer/Viewport.cxx:559-560 | it happens: one movement at no interval and one shrinking resize |
| PointerThrottle.MoveMakesFresh | vncviewer/Viewport.cxx:737-750 | the next movement makes up for it |
| PointerThrottle.FromTheStart | vncviewer/Viewport.cxx:729-876 | all of this from the constructor on |
| PointerThrottle.PointerSender.SendPointerEvent | vncviewer/Viewport.cxx:729-751 | the method does exactly the movement step |
| PointerThrottle.PointerSender.HandlePointerTimeout | vncviewer/Viewport.cxx:863-876 | the method does exactly the delayed write |
| PointerThrottle.PointerSender.SourceReplaced | vncviewer/Viewport.cxx:556-561 | the method does exactly the resize step |
| DependencyGraph.ResolveLoad | apps/macos/package.py:117-133 | a load is the system's, or exactly one file among its candidates, else an error |
| DependencyGraph.FindEdges | apps/macos/package.py:166-171 | every load and nothing else gets its dependency in this context, or the error names a load that in this very context stands for no file or several |
| DependencyGraph.CheckSource | apps/macos/package.py:154-165 | a binary passes exactly when acceptable, supported and its target is free or its own; else the error says which it fails |
| DependencyGraph.MakeGraph | apps/macos/package.py:145-178 | terminates on any disk; gives a complete graph, or an error about what the work meets next, wrong in the context, names and nodes of that round; and succeeds whenever the disk is faultless |
| DependencyGraph.FaultlessHasNoError | apps/macos/package.py:145-178 | an error means that some chain of loads from the start really leads to a binary that is unfit or unresolved there, or to two that disagree |
| DependencyGraph.CompleteIsClosed | apps/macos/package.py:166-178 | the nodes are the least set holding the starting binaries and all they load, and targets are injective |
| DependencyGraph.CompleteLoads | apps/macos/package.py:169-177 | each load of each node is the system's or a node, which agrees with the context it is loaded from |
| DependencyGraph.OneGraph | apps/macos/package.py:145-178 | the contexts in which binaries were first met determine the whole graph |
| DependencyGraph.CompleteIsFit | apps/macos/package.py:156-162 | every node has the executable's architecture, is not too new and is placed at its own path in the bundle or, a plain library, among the frameworks under its own name |
| DependencyGraph.ExpandBases | apps/macos/package.py:110-114 | each prefix stands for the directory of the loader, that of the executable, or the root |
| DependencyGraph.RpathsExactly | apps/macos/package.py:167-168 | the run paths in force are those the binary gives, from its place, and those inherited |
| DependencyGraph.RpathCandidates | apps/macos/package.py:121-125 | a load from the run paths is looked for under each of them |
| DependencyGraph.SystemPathIs | apps/macos/package.py:49-52 | the system's libraries are told by where the path leads once every step up is taken |
| DependencyGraph.RewrittenResolves | apps/macos/package.py:379-382 | a rewritten load, parsed and expanded from its place, is the dependency's target |
| DependencyGraph.EveryRewrittenResolves | apps/macos/package.py:375-388 | so in a finished graph for every file edge |
| Paths.ParseShow | apps/macos/package.py:381 | a path shown as text parses as itself |
| Paths.RelativeLeads | apps/macos/package.py:381 | from any base, the relative path leads from start to target |
| Monitors.SurvivorsAreFirst | vncviewer/MonitorIndicesParameter.cxx:101-134 | a screen is kept exactly when it mirrors no earlier one |
| Monitors.EveryScreenShown | vncviewer/MonitorIndicesParameter.cxx:114-130 | every screen has a survivor of the same geometry and no later index |
| Monitors.FetchMonitors | vncviewer/MonitorIndicesParameter.cxx:96-139 | the result is a sorted permutation of the survivors |
| Monitors.SortedIsLeftToRight | vncviewer/MonitorIndicesParameter.cxx:141-159 | sorted is left to right, and top to bottom where left edges agree |
| Monitors.GetMonitors | vncviewer/MonitorIndicesParameter.cxx:46-63 | the screens that the configured positions name |
| Monitors.SetMonitors | vncviewer/MonitorIndicesParameter.cxx:78-94 | the positions of the chosen screens, ascending |
| Monitors.SetThenGet | vncviewer/MonitorIndicesParameter.cxx:46-94 | what is stored comes back: exactly the chosen screens that are first of their mirrors |
| Monitors.ComesBackIff | vncviewer/MonitorIndicesParameter.cxx:46-159 | every stored choice survives every pair of fetches exactly when no two of the screens shown share a corner |
| Monitors.RoundTripIff | vncviewer/MonitorIndicesParameter.cxx:136-138 | for two given fetches, storing under one order and reading under the other gives every choice back exactly when the orders are the same |
| Monitors.SharedCorner | vncviewer/MonitorIndicesParameter.cxx:141-159 | they can differ: for two monitors at one corner screen 0 is stored and screen 1 comes back |
| Monitors.OneOrder | vncviewer/MonitorIndicesParameter.cxx:141-159 | with no two monitors at one corner the order is unique |

## Left out

- AudioOutputWin32.Apply: the main thread and the callbacks are steps of one state machine on values, not methods of an object, because no method of one thread runs without steps of the others between its own; the destructor, `stop` and the opening of the device are not modelled, and a memory block that the system gives out is only assumed not to be in use.
- AudioOutputPulse.AudioOutputPulse.Submit: what the server answers is a parameter, one answer for each iteration; connecting, error reporting and the mainloop's lock are not modelled, methods being whole critical sections.
- AudioOutputPulse.AudioOutputPulse.Open: the allocation and the stream are assumed to succeed.
- GestureMachine.TouchUpdate: the angle comparison of a two-finger gesture is an arbitrary answer, distances are an arbitrary function, doubles are reals, and magnitudes the code leaves unset are zero.
- GestureHandlers.GestureHandler.HandleTouchBegin: a new touch has an id that is not down, as the window system promises.
- TouchMouse.Handle: double-tap position snapping is left out; it changes coordinates only. Positions of fake events are left out too, and the `abs` before zooming is taken as the absolute value of the whole double.
- TouchMouse.FakeControl: which key code Control has is left to the X server.
- DesktopDamage.FlushSource: the logical damage requested is taken to cover the deferred rectangle, and a draw to cover at least what was requested; DesktopTransform and the filters of DesktopTileCache are not part of this model, so a view shows one value for each source pixel.
- DesktopSessions.DesktopSession.Resize: the new framebuffer's allocation and the connection's calls are left out.
- ClipRegions.BackingClip: scale factors are reals, and that the X client library keeps region edges as 16-bit numbers is its own convention, not part of this repository; the oracle is any that never says in or out wrongly.
- ClipRegions.Sound: the X client library narrows the rectangle it is asked about to 16 bits too, so for a tile beyond that range its answer need not be sound, and nothing is said of it.
- TileLoops.RenderTiles: what is painted inside a tile, overlays and the identity-scale shortcut, which draws the clip in one call.
- KeyboardWin32.PlainDown: the tables of virtual keys and the layout's own translation are inputs of each message; log messages are left out.
- KeyboardShifts.HeldRun: whoever resets the keyboard is taken to have every key released, as the viewport does just before (vncviewer/Viewport.cxx:879-888).
- KeyboardPackets.TypedIsDecoded: the system is assumed to translate a unit the same way both times it is asked.
- Keysyms.WellFormed: the generated tables are any tables that are strictly sorted, 16 bits wide and disjoint from Latin-1 and each other.
- PointerThrottle.Apply: a write that throws ends the connection and is not modelled; middle-button emulation and the choice of view come before it.
- DependencyGraph.MakeGraph: a binary met again with equal edges is not entered again, as in the code, so agreement of run paths is proved for the context in which each dependant was first met; reading Mach-O files, version comparison and the search of the bundle are inputs, and a path that has two leading slashes names the same file as with one.
- DependencyGraph.EveryRewrittenResolves: resolution is by names, without symbolic links inside the staged bundle; running `install_name_tool`, signing and notarisation are left out.
- Monitors.FetchMonitors: `qsort` is any sort by the comparison; one is given.
- Monitors.SetMonitors: the range check and storage of the integer-list parameter are not part of this model.
- Dialogs, menus, captions, cursors, clipboard, LED state, connection set-up and build scripts: input and output, or easy members.
