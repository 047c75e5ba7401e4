# Verified models of anyconsole

A Dafny model of the parts of anyconsole whose correctness rests on interleaving, on state
edited in place, or on surviving a failure at any moment, and proofs of what they promise.
`dafny verify dfyconfig.toml` checks everything.

| files | what they model |
|---|---|
| `gate.dfy` | the gate between nested guest calls and RPCS3's live saver: any number of threads and one saver on three shared words and two futexes, one atomic access at a time |
| `slices.dfy` | dealing memory extents out to the cores, and copying them |
| `atlas.dfy`, `glyphs.dfy` | the shelf packer of the glyph atlas and the growing hash table of a face |
| `lines.dfy` | shaping memo and greedy line breaker |
| `motion.dfy` | values that jump, ease or spring, over the reals |
| `images.dfy`, `joblists.dfy`, `imagecache.dfy` | the reference-counted image cache, the two linked job lists and the decoder thread |
| `pads.dfy`, `padd.dfy`, `padevents.dfy`, `padruns.dfy` | folding input devices onto virtual pads: modes, routes, menu, dial, seats; what each command brings about; runs of the daemon after which a seat does not show what its devices ask for |
| `sweep.dfy` | the poll table that is edited while it is swept |
| `restarts.dfy`, `overlay.dfy` | restarting the game in front |
| `screens.dfy`, `compositor.dfy`, `restartscreen.dfy` | the held picture, and both processes together |
| `trailer.dfy` | the saves behind a redream state |
| `framing.dfy` | lines out of a byte stream |
| `updates.dfy`, `tears.dfy`, `otad.dfy` | A/B updates under loss of power, what may tear the slot that is armed, and the boot loader's choice |
| `options.dfy` | the optional value that the others share |

Where the code works step by step on its own variables there are two levels: functions on
values, about which the properties over whole runs are proved, and a class (`Daemon`, `Cache`,
`Lists`, `Overlay`, `Compositor`, `Script` and the others) with the fields of the source, whose
methods follow the source and are proved to take the state exactly where those functions say.

## Claims that fail

These were found false of the code; the model keeps the code as it is, and the lemmas named
here give an input, or the exact condition.

- A broken line may exceed the room (`Lines.CarriedTailOverflows`); exactly when, says
  `Lines.EveryLineFits`, and never if every stretch between break points fits
  (`Lines.FittingStretchesFit`).
- An eased value is not always at rest once it has arrived: it keeps the velocity of a spring it
  replaced in flight (`Motion.CaughtInFlight`). It is at rest exactly if that velocity is zero
  (`Motion.Value.EaseOn`), and a spring on its way is in motion after every frame
  (`Motion.FliesUntilItArrives`).
- An image is not always the one asked for: the key joins path and blur with a newline. Which
  pictures share a key, says `Images.KeysMeet`; each two of them can be shown in place of one
  another (`Images.AnotherIsShown`), and if none that shares it was drawn before, every node is
  drawn with its own (`Images.DrawsItsSource`).
- What a virtual pad shows is not always what its devices ask for. `Pads.NextAgrees` says for
  every event exactly when it stays so. It fails when the menu closes over a held button
  (`PadRuns.ClosingMenuMayDisagree`), when a seat is plugged or a dial set under one
  (`PadRuns.PluggingMayDisagree`, `PadRuns.SettingDialMayDisagree`), and when one digital pad
  turns the dial under another (`PadRuns.TurningMayDisagree`).
- A remote pad may send any number, and it is emitted (`PadRuns.RemotePadMayExceed`). All
  stays in range exactly while the input taken is in range (`Pads.RunRanges`).
- The hold file does not always follow the phase: a request heard while the game is being
  prepared, before it has a process, is forgotten by its start, which leaves the hold file
  behind (`Restarts.HoldLeftBehind`). `Restarts.HoldNeedsProcess` says exactly which requests
  do that; one heard during a restart whose process is just gone does not.
- A restart request can be given up, when the dashboard is open at the time it comes up again
  (`Restarts.RequestGivenUp`); exactly when, says `Restarts.SettleGivesUp`.
- A negative size word in a redream state is not refused (`Trailer.NegativeSizeMovesForward`);
  what reads back without one is exactly what was written (`Trailer.ReadsExactlyTheWritten`). A
  failing restore leaves some saves restored and some not (`Trailer.RestoreSaves`).
- Two boots in a row may both try a slot other than the fallback, and so may any number of them
  (`Updates.TrialsInARow`), but only if each but the last reached mark-good
  (`Updates.TrialsProveThemselves`); exactly when a boot is a trial, says `Updates.BootIsTrial`.
- The slot that is armed does not always stay whole: every poll or update that begins a sync
  may tear it, and no other does (`Tears.TearsExactly`, `Tears.OnlyWipingTears`); the machine
  may then be started on it (`Tears.BootsTornSlot`). The fallback stays good
  (`Updates.FallbackIsGood`).
- The polls of a watch run in subshells and start from what the watch knew when it began, not
  from the state file. So a later poll may sync once more over what an earlier one has staged
  (`Updates.ArmedSlotMayTear`), and a release with a delay is not synced before the next start
  of the watch (`Updates.DelayNeedsRestart`).

## Model

| member | source | states |
|---|---|---|
| Gate.StepKeepsInv | app/recipes/rpcs3/live-save-loader.c:144-162 | every single step of any thread or of the saver keeps the meaning of the three shared words |
| Gate.CallsAreCounted | app/recipes/rpcs3/live-save-loader.c:147-149 | in every reachable state `nested_calls` is exactly the number of announced calls, transient announcements included |
| Gate.GateExcludes | app/recipes/rpcs3/live-save.cpp:590-596 | for any number of threads and nesting depths, from the saver reading no nested calls until it allows them again no thread is inside the body of a nested call |
| Gate.NoLostWakeUp | app/recipes/rpcs3/live-save.cpp:631-640 | a sleeping saver has an announced call or a waker ahead of it, no caller stays asleep once `stopping` is 0 and its wake-up was sent, and the saver never drains while it is stopping |
| Gate.FreezesExactly | app/recipes/rpcs3/live-save.cpp:590-596 | the saver that has read the calls stops the threads if and only if no thread has announced a nested call |
| Gate.FreezeIsReached | app/recipes/rpcs3/live-save.cpp:590-597 | from every state of a run with an idle saver and no call announced a run goes on to the threads being stopped |
| Gate.RefusalParks | app/recipes/rpcs3/live-save.cpp:590-640 | a refused saver clears `stopping`, wakes every sleeper, sets `draining` and sleeps until the calls change |
| Gate.ThawLetsGo | app/recipes/rpcs3/live-save.cpp:441-445 | thawing, and allowing the calls again, ends with `stopping` cleared and no caller asleep |
| Gate.DrainIsOver | app/recipes/rpcs3/live-save.cpp:631-640 | a drain ends at a reading in which no call is announced and at no other |
| Gate.DeadlineEndsDrain | app/recipes/rpcs3/live-save.cpp:631-640 | at the deadline a waiting saver looks once more and then gives the drain up |
| Gate.CallGetsIn | app/recipes/rpcs3/live-save-loader.c:144-159 | a first call is never held up, and while nobody stops the calls a nested one is counted and runs |
| Gate.CallWaits | app/recipes/rpcs3/live-save-loader.c:144-155 | while the calls are stopped a nested one takes its announcement back and sleeps, and woken tries again from the start |
| Gate.CallReturns | app/recipes/rpcs3/live-save-loader.c:157-162 | a returning call is taken back, and the last of all wakes a saver that waits for it |
| Gate.ParkedSaverHasHelp | app/recipes/rpcs3/live-save-loader.c:157-162 | while the saver sleeps in the drain, some thread can take a step without starting a new call |
| Gate.FinishingLowersRank | app/recipes/rpcs3/live-save-loader.c:157-162 | each such step lowers a natural rank, so finishing threads cannot go on for ever |
| Gate.DrainEnds | app/recipes/rpcs3/live-save.cpp:631-640 | callers that start nothing new leave a parked saver awake after a bounded number of steps |
| Slices.CopyOnEveryCore | app/recipes/rpcs3/live-save.cpp:867-893 | the slices hold every byte of every extent exactly once and in order, none is larger than the share, and a core is begun only when the one before has its full share |
| Slices.DealExtent | app/recipes/rpcs3/live-save.cpp:877-890 | cutting one extent over the cores keeps the deal and ends |
| Slices.CoreInRange | app/recipes/rpcs3/live-save.cpp:882-882 | while bytes are left, `core` is an index of `slices` |
| Slices.DealPiece | app/recipes/rpcs3/live-save.cpp:882-889 | one pushed piece keeps the deal, whether or not it fills the core |
| Slices.CopyExtents | app/recipes/rpcs3/live-save.cpp:856-865 | whatever the kernel answers to each request, a core copies exactly the bytes of its slice, or stops on an answer below one with the first of them copied |
| Slices.AnyInterleaving | app/recipes/rpcs3/live-save.cpp:891-892 | the copies do not depend on how the cores interleave |
| Slices.CoresCopyTheFiles | app/recipes/rpcs3/live-save.cpp:856-893 | whatever order the cores copy their bytes in, every byte of every extent ends up in its copy with the value of its source, and nothing else changes |
| Atlas.PlacingPacks | guest/scene.c:692-718 | placing a bitmap keeps all rectangles apart, fails only with all pages used, and returns the size asked for, inside its page exactly if the bitmap fits one |
| Atlas.NeverTouching | guest/scene.c:692-718 | over any run of bitmaps, failures included, two rectangles of a page are at least the padding apart and, if no bitmap exceeds a page, all are in bounds |
| Atlas.UsesTheRoom | guest/scene.c:692-701 | a bitmap goes to the last page exactly if its shelf or a new one below has room for it, to a new page exactly if not, and nowhere only with all pages used |
| Atlas.NothingWasted | guest/scene.c:713-716 | over any run of bitmaps that fit a page nothing but the padding lies between them, their shelves and the cursors |
| Atlas.AllPlaced | guest/scene.c:692-718 | every bitmap of a run is placed, in order and in its size, until all pages are used |
| Atlas.GlyphAtlas.Place | guest/scene.c:692-718 | the code does what the specification function says, returns no rectangle that touches an earlier one, and refuses only when the last of all pages has no room |
| Glyphs.ProbeStops | guest/scene.c:688-689 | a probe that has not stopped has a free slot ahead, so every probe ends |
| Glyphs.PresentIsReached | guest/scene.c:688-689 | an inserted id is found before any free slot |
| Glyphs.FreeSlotExists | guest/scene.c:674-674 | with at most half the slots in use a free one is left |
| Glyphs.MoveGlyph | guest/scene.c:680-685 | rehashing one entry keeps everything moved so far |
| Glyphs.MovedAll | guest/scene.c:680-685 | after the rehash the new array holds every entry once and nothing else |
| Glyphs.GlyphTable.Grow | guest/scene.c:674-687 | doubling keeps the map of ids to entries and halves the load |
| Glyphs.GlyphTable.FindGlyph | guest/scene.c:673-690 | returns the slot of the id if it is in the map, and a free slot in which it may be put otherwise; the table grows exactly when it is half full |
| Glyphs.GlyphTable.GetGlyph | guest/scene.c:720-738 | the table is the map with this id added; entries are never lost, a drawn glyph lies where the atlas placed it, and one with a bitmap is left out only when the last of all pages has no room |
| Lines.Break | guest/scene.c:790-817 | the loop with carried widths yields the lines of the reference definition |
| Lines.BrokenCovers | guest/scene.c:790-817 | lines are non-empty, follow one another, cover all glyphs, fit the array and have their true widths |
| Lines.LinesEndForAReason | guest/scene.c:806-813 | every line but the last ends at the last break point before the glyph that overflows it, or at that glyph |
| Lines.MidWordOnlyWithoutBreaks | guest/scene.c:807-807 | a line ends inside a word only if it has no break point after its start |
| Lines.BrokenFitsButOne | guest/scene.c:806-813 | all but the last glyph of every wrapped line fit the room |
| Lines.EveryLineFits | guest/scene.c:806-813 | all lines fit if and only if nothing carried past a break overflows |
| Lines.FittingStretchesFit | guest/scene.c:806-813 | if every stretch between break points fits the room, so does every line, and no line ends inside a word |
| Lines.CarriedTailOverflows | guest/scene.c:809-809 | a text with a line wider than the room: the tail carried past a break is not checked again |
| Lines.WidthScales | guest/scene.c:802-802 | every width is the ratio times the sum of the advances |
| Lines.BrokenScales | guest/scene.c:790-817 | a text drawn in another size breaks in the same places when the room is scaled with it |
| Lines.TextNode.Shape | guest/scene.c:755-786 | the glyphs are those of the text and face now set; lines of other glyphs are forgotten |
| Lines.TextNode.BreakLines | guest/scene.c:793-798 | the remembered lines always equal a fresh computation |
| Motion.SubstepKeepsCone | guest/scene.c:602-605 | a substep with root(stiffness) * time q, q*q + q <= 1, keeps 0 <= -velocity/root <= distance, does not move away, and up to 1/2 shrinks the distance by the factor 1 - q*q |
| Motion.ConeNeedsSmallSteps | guest/scene.c:600-605 | that bound on the step is exact |
| Motion.NeverOvershoots | guest/scene.c:599-611 | over any frames a spring started at rest never overshoots and never moves away |
| Motion.SettlesInTime | guest/scene.c:606-609 | with frame times bounded below a spring started at rest is exactly at its target after a number of frames known beforehand |
| Motion.TwoSubstepsShrink | guest/scene.c:602-605 | from every place and speed two substeps with q up to 1/2 shrink the larger of lag and offset beyond it by the factor 1 - q*q |
| Motion.SettlesFromAnywhere | guest/scene.c:488-498 | with frame times bounded below a spring at any place and speed, one sent to a new target in flight included, is exactly there after a number of frames known beforehand |
| Motion.EnoughFromAnywhere | guest/scene.c:606-609 | such a number exists for every place and speed |
| Motion.FliesUntilItArrives | guest/scene.c:599-611 | a spring that set off from rest is in motion after every frame until it is at its target |
| Motion.EnoughFrames | guest/scene.c:606-609 | such a number exists for every spring, start and tolerance |
| Motion.LateFramesAreCalm | guest/scene.c:600-600 | clamped frame times keep every spring of stiffness up to 400 within the bound, however late frames come |
| Motion.SubstepsTakeTheFrame | guest/scene.c:600-600 | the substeps of a frame take its time exactly if it is no longer than the longest |
| Motion.SnapsInside | guest/scene.c:606-609 | a frame ends at the target exactly from nearer than the tolerance and slower than ten times it |
| Motion.EasedGrows | guest/scene.c:570-579 | every easing curve starts at 0, ends at 1 and never goes back |
| Motion.EasingShapes | guest/scene.c:570-579 | easing in lies below easing out, which is its mirror image; easing both ways is one after the other |
| Motion.EaseArrives | guest/scene.c:595-598 | an eased value moves only from its origin towards its target and is exactly there from its time on |
| Motion.Value.Target | guest/scene.c:488-498 | a new goal starts from where the value is; the same goal changes nothing; a value at rest restarts its clock |
| Motion.Value.Step | guest/scene.c:581-611 | a step initialises, leaves a settled value alone, jumps, eases as specified without touching the velocity, or springs one frame; from its time on an ease is at its goal, and settled exactly if the velocity was zero |
| Motion.Value.EaseOn | guest/scene.c:595-598 | over any frames of an ease: from its time on the value is at its goal, and settled exactly if it was not in flight before |
| Motion.CaughtInFlight | guest/scene.c:551-557 | a spring replaced by an ease in flight comes to its goal and is not settled there |
| Motion.Value.Swings | guest/scene.c:600-609 | the substep loop and the snap are one frame of the specified spring |
| Images.NextKeeps | guest/scene.c:1095-1216 | every critical section of main thread and decoder keeps the counts, the one job per pending entry, the keys and the textures right |
| Images.NodesKeepTheirEntries | guest/scene.c:925-930 | in every run an entry has at least as many users as nodes point at it, and each node finds the key it looked up: nothing in use is recycled |
| Images.OthersKeep | guest/scene.c:1171-1192 | a step changes the entry of no node but the one it is about |
| Images.PendingMeansOneJob | guest/scene.c:1130-1142 | an entry is pending exactly while one job for it is requested, decoding or decoded, and that job is for its own key |
| Images.ExactlyOnce | guest/scene.c:1095-1128 | every job asked for is at exactly one place and is delivered once, whatever the batching |
| Images.BatchSplits | guest/scene.c:1095-1108 | taking the jobs of a file splits the list and loses none |
| Images.DrawsItsKey | guest/scene.c:1171-1216 | a node is drawn with an entry of the key of its path and blur, whose texture was loaded under that key or is a surface handed over under it |
| Images.DrawnIsFresh | guest/scene.c:1195-1204 | after a drawing the entry of a node is loaded only if its time is that of the file, and otherwise a job is on its way |
| Images.DrawnUpToDate | guest/scene.c:1195-1216 | a changed file is no longer loaded, and a job with its new time is asked for exactly if none is on its way; a named surface is shown with the first load that is left |
| Images.DeliveredIsShown | guest/scene.c:1144-1156 | a delivered picture is the texture of its entry, and a drawing with the same file time asks for nothing more |
| Images.HandedIsShown | guest/scene.c:942-950 | a surface handed over is what the next drawing of its name with a load left shows |
| Images.PointFails | guest/scene.c:925-940 | a node is left without an entry only if no entry has its key and none is free but for it |
| Images.NameComesFirst | guest/scene.c:1178-1188 | a source that is a name handed over is looked up as it is, anything else resolved and blurred |
| Images.DeliversAll | guest/scene.c:1144-1161 | a frame delivers the first decoded jobs, as many as it has loads for |
| Images.KeyTells | guest/scene.c:1183-1187 | two paths without a newline that give the same key with their blurs are the same path with the same blur |
| Images.NewlinesCollide | guest/scene.c:1183-1187 | two different files, one with a newline in its path, that share a key |
| Images.KeysMeet | guest/scene.c:1183-1187 | two keys are the same exactly if path and blur are, or one path is the other path, a newline and its blur |
| Images.AnotherIsShown | guest/scene.c:1183-1191 | for every two pictures with the same key there is a run in which a node that wants the first is drawn with the second |
| Images.DrawsItsSource | guest/scene.c:1171-1216 | in every run a node is drawn with exactly its own file and blur, or a surface handed over under that name, unless another picture with its key was drawn before |
| Images.CleanApart | guest/scene.c:1183-1187 | if no path drawn holds a newline, no other picture with the key was drawn |
| Images.JobsMoveOn | guest/scene.c:1110-1161 | each decoder or delivery step finds nothing to do or leaves less to do |
| Images.SomethingMoves | guest/scene.c:1110-1161 | while a job is under way one of those steps has something to do |
| Images.Oldest | guest/scene.c:925-930 | returns an idle entry that no other idle entry was drawn before, if there is one |
| Images.Find | guest/scene.c:919-923 | returns an entry of the key, or no entry has it |
| JobLists.Lists.TakePath | guest/scene.c:1095-1108 | unlinking in place leaves the other jobs in order and returns the matching ones reversed; no node is lost or shared |
| JobLists.Lists.Unlink | guest/scene.c:1102-1104 | one node moves from the middle of one chain to the front of the other |
| JobLists.Lists.Request | guest/scene.c:1131-1139 | a new node in front of the requested list |
| JobLists.Lists.GiveBack | guest/scene.c:1122-1123 | the whole batch goes in front of the decoded list |
| JobLists.Lists.Deliver | guest/scene.c:1146-1149 | takes the first decoded job, if there is one |
| ImageCache.Cache.LeastRecentlyDrawn | guest/scene.c:925-930 | the loop finds the specified entry |
| ImageCache.Cache.TakeEntry | guest/scene.c:932-940 | finds the entry of the key or recycles an idle one |
| ImageCache.Cache.NodeImage | guest/scene.c:1171-1216 | a draw takes the whole cache, job lists included, where the specification says and keeps its invariant |
| ImageCache.Cache.SceneImage | guest/scene.c:942-950 | naming a surface does what the specification says and keeps the invariant |
| ImageCache.Cache.TakeBatch | guest/scene.c:1113-1116 | the first critical section of the decoder |
| ImageCache.Cache.FinishBatch | guest/scene.c:1121-1124 | the second critical section of the decoder |
| ImageCache.Cache.UploadDecoded | guest/scene.c:1144-1161 | the loop takes the cache where that many deliveries one after the other take it, and stops early only when nothing is decoded |
| ImageCache.Cache.DeliverOne | guest/scene.c:1146-1156 | one delivery: texture, time, loaded and pending of the job's entry |
| ImageCache.Cache.CreateNode | guest/scene.c:833-843 | a new node points at no entry |
| ImageCache.Cache.FreeNode | guest/scene.c:845-848 | a freed node gives back its use of the entry |
| Pads.RestConverts | guest/padd.c:434-445 | every route turns a source at rest into a target at rest, rounding included |
| Pads.QuietAsksNothing | guest/padd.c:455-468 | a device at rest asks for nothing, for every mode, dial and route table |
| Pads.FoldIsStrongest | guest/padd.c:511-517 | the folded value is rest or the wish of a device on the seat, and no wish is farther from rest |
| Pads.StickFollowsStick | guest/padd.c:434-445 | a stick routed to a stick moves it the same way, and with a negative sign the other way |
| Pads.FullTilt | guest/padd.c:434-445 | a full tilt becomes a full tilt, and one to the side that is not routed none |
| Pads.PressTilts | guest/padd.c:434-445 | a button, trigger or direction that is all the way down tilts a stick all the way, the way it points |
| Pads.StickPullsTrigger | guest/padd.c:434-445 | a stick pulls a trigger the further it is from the middle, on the routed side only |
| Pads.PressedByRoute | guest/padd.c:434-445 | a button is pressed by a routed stick exactly past its reach on the routed side, by a trigger past its half, by a button that is pressed |
| Pads.MappedIsStrongest | guest/padd.c:447-453 | a mapped control has the value of itself or of one of its routes, and none of these is farther from rest |
| Pads.StickWorksAsDirections | guest/padd.c:455-468 | the first stick of a digital device works as its directions, each past the reach on its own side |
| Pads.DialShows | guest/padd.c:464-464 | under a dial the axis shown is that of the stick turned last |
| Pads.SyncedSeat | guest/padd.c:666-674 | right after a device that passes its controls on moved one, its plugged seat shows the fold of its devices |
| Pads.DriveKeepsUnstuck | guest/padd.c:666-674 | moving one control keeps every seat unstuck |
| Pads.ReleaseKeeps | guest/padd.c:776-781 | a released device is at rest and may then change seat, mode or be gone |
| Pads.ReleaseAllSilences | guest/padd.c:783-786 | with everything released no virtual control is away from rest |
| Pads.NextKeepsUnstuck | guest/padd.c:1501-1590 | input, assignment, mode, menu, map, dial, plugging and disconnection all keep every seat unstuck |
| Pads.NothingStuck | guest/padd.c:1501-1590 | over every sequence of events a plugged seat with a control away from rest has the menu closed and a moved control of an analog or digital device behind it |
| Pads.LettingGoRests | guest/padd.c:511-528 | with all devices of a seat let go, or the menu open, its virtual pad is at rest |
| Pads.NextAgrees | guest/padd.c:1501-1590 | for every event, plugged seats that show what their devices ask for still do so after it if and only if that can be told from the state before it |
| Pads.RunAgrees | guest/padd.c:1501-1590 | over a run of such events the plugged seats always show what their devices ask for |
| Pads.DriveAgrees | guest/padd.c:659-674 | a moved control keeps that agreement exactly unless it turns the dial and another plugged seat then folds its first stick differently |
| Pads.DialUnseen | guest/padd.c:464-464 | turning the dial changes nothing for a seat whose digital devices ask for the same with both sticks |
| Pads.SettingDialAgrees | guest/padd.c:1628-1630 | setting the dial keeps that agreement exactly if the folded first stick of every plugged seat stays |
| Pads.PluggingAgrees | guest/padd.c:1585-1590 | plugging keeps that agreement exactly if no device already asks for something on a newly plugged seat |
| Pads.ClosingAgrees | guest/padd.c:1580-1583 | closing the menu leaves that agreement exactly when no device already asks for something on a plugged seat |
| PadRuns.ClosingMenuMayDisagree | guest/padd.c:1580-1583 | a run from the start in which a button taken under the open menu is not shown when the menu closes |
| PadRuns.PluggingMayDisagree | guest/padd.c:1585-1590 | a run in which a seat is plugged while its pad already holds a button |
| PadRuns.SettingDialMayDisagree | guest/padd.c:1628-1630 | a run in which a dial is set while a digital pad holds its first stick |
| PadRuns.TurningMayDisagree | guest/padd.c:659-664 | a run in which one digital pad turns the dial under another seat |
| PadRuns.RemotePadMayExceed | guest/padd.c:1651-1652 | a run in which a number sent by a remote pad is emitted out of range |
| Pads.RoutesFit | guest/padd.c:1523-1529 | the map of a game never overruns the table of routes |
| Pads.MapsMatch | guest/padd.c:1552-1578 | a side of a control is hidden exactly when a route starts from it |
| Pads.EmitsInRange | guest/padd.c:540-552 | over every run whose input is in range, no mode, route or dial drives a control out of the range it was declared with |
| Pads.NextRanges | guest/padd.c:1501-1590 | for every event, all controls and everything emitted stay in range if and only if the input it takes is in range |
| Pads.RunRanges | guest/padd.c:1651-1652 | a run stays in range throughout if and only if every input it takes is in range |
| Pads.DigitalIsDigital | guest/padd.c:455-468 | over every such run a digital pad without a dial is off or fully on, its sticks in the middle |
| Pads.SwallowedLeavesNoTrace | guest/padd.c:716-732 | a press taken for the guide combination and let go leaves the state as it was |
| Pads.RestReportsNothing | guest/padd.c:470-475 | a pad at rest reports centred sticks and everything else off; hats stay within their range and opposite directions cancel out |
| PadEvents.AssignSeats | guest/padd.c:1501-1512 | a device sits on its new seat with all controls let go, one that is there already keeps what it holds, and no other device changes |
| PadEvents.ModeChanges | guest/padd.c:1514-1521 | a device changes to a mode of its kind with all controls let go and refuses every other |
| PadEvents.ConnectSeatsNobody | guest/padd.c:788-799 | a new device takes the first free slot, at rest, on no seat and under an id of its own |
| PadEvents.IdsAreOwn | guest/padd.c:788-804 | over every run no two devices have the same id, and the next id never goes back |
| PadEvents.GuideIsThere | guest/padd.c:708-714 | a device has a guide button at hand if it, or one on its seat, has one |
| PadEvents.CombinationTaken | guest/padd.c:716-732 | back and start together are taken as the guide button exactly where there is none; anything else is driven |
| PadEvents.UnpluggedKept | guest/padd.c:536-538 | a control moves nothing on a seat that is not plugged or not its own |
| Pads.WritingReports | guest/padd.c:522-527 | writing the one control that changed keeps the virtual device reporting the whole row |
| Padd.Daemon.Mapped | guest/padd.c:447-453 | the loop over the routes computes the specified value |
| Padd.Daemon.Effective | guest/padd.c:455-468 | the branches compute the specified wish |
| Padd.Daemon.SyncControl | guest/padd.c:511-528 | the loop over the devices stores the fold, changes nothing else, and keeps the virtual device reporting what is emitted |
| Padd.Daemon.Hat | guest/padd.c:470-475 | the loop sums the directions emitted on one axis |
| Padd.Daemon.WriteEvent | guest/padd.c:522-527 | after the events of one control the device reports the new row |
| Padd.Daemon.SyncPad | guest/padd.c:536-538 | all controls of a plugged seat, and of no other |
| Padd.Daemon.FollowDial | guest/padd.c:659-664 | only a stick moved far enough switches a dial |
| Padd.Daemon.DriveControl | guest/padd.c:666-674 | moves the control, then the dial, then syncs the seat |
| Padd.Daemon.PadHasGuide | guest/padd.c:708-714 | whether this device or one on its seat has a guide button |
| Padd.Daemon.PadInput | guest/padd.c:716-732 | guide, swallowed, combined and plain input |
| Padd.Daemon.Release | guest/padd.c:776-781 | drives every control to rest in order |
| Padd.Daemon.ReleaseAll | guest/padd.c:783-786 | releases every device in use |
| Padd.Daemon.Assign | guest/padd.c:1501-1512 | releases before it moves the device |
| Padd.Daemon.SetMode | guest/padd.c:1514-1521 | refuses modes the kind does not have, releases before it changes the mode |
| Padd.Daemon.SetMenu | guest/padd.c:1580-1583 | releases everything before the menu opens |
| Padd.Daemon.AddRoute | guest/padd.c:1523-1529 | adds the route and hides its source, or refuses the entry |
| Padd.Daemon.LoadMaps | guest/padd.c:1552-1578 | releases everything, forgets the old map, adds the new one in order |
| Padd.Daemon.Plug | guest/padd.c:540-559 | a seat is plugged with all controls at rest |
| Padd.Daemon.SetPads | guest/padd.c:1585-1590 | the first seat always stays plugged |
| Padd.Daemon.NewDevice | guest/padd.c:788-799 | takes the first free slot, at rest and on no seat |
| Padd.Daemon.FreeDevice | guest/padd.c:801-804 | releases before the slot is free |
| Sweep.DropKeeps | guest/padd.c:374-379 | dropping keeps both arrays aligned, tokens distinct and fixed sources in place; only the last source moves and is not ready where it lands |
| Sweep.UnwatchDropsOne | guest/padd.c:374-384 | dropping a source by its token takes that one, unless it is fixed, and keeps every other |
| Sweep.RunsAreTheReady | guest/padd.c:2059-2061 | the list of runs holds every ready source with its own tag, none twice and no other |
| Sweep.AddedTakesNoTurn | guest/padd.c:2056-2061 | sources added after the poll take no turn in its sweep and cost none |
| Sweep.PollTable.Round | guest/padd.c:2056-2087 | one round, bus first and then the sweep, runs exactly the sources that were ready at the poll, each once with its own tag, whatever the bus adds and handlers drop and add |
| Sweep.PollTable.Watch | guest/padd.c:367-372 | appends a source that is not ready, or refuses when full |
| Sweep.PollTable.Drop | guest/padd.c:374-379 | the array code is the specified drop |
| Sweep.PollTable.Unwatch | guest/padd.c:1873-1876 | removes the source wherever it is and no other, and leaves everything below it alone |
| Sweep.PollTable.Run | guest/padd.c:2059-2087 | one descending sweep runs exactly the sources ready at its start, each once with its own tag, whatever handlers drop and add, and leaves the table as their edits make it |
| Restarts.StepKeeps | guest/overlay.c:1809-2147 | every event, in whatever state the game is, keeps slots and requests right and the hold file while the phase needs it |
| Restarts.HoldFollowsPhase | guest/overlay.c:1343-1352 | in every run whose requests in front of a playing game find it running, the hold file exists exactly in SAVING, CLOSING, BOOTING and PROBING |
| Restarts.ClosesOnSavedState | guest/overlay.c:3071-3082 | in every run a restart closes the game only when a state with a slot above the newest at the request was written, and keeps that slot |
| Restarts.RelaunchGetsThatSlot | guest/overlay.c:2118-2137 | in every run nothing in between changes the slot, and the relaunch is given exactly it |
| Restarts.NoRequestLost | guest/overlay.c:2033-2041 | in every run a game that just plays was started after the latest request, unless a settling gave that request up |
| Restarts.InFrontNothingIsLost | guest/overlay.c:2033-2041 | while the game stays in front and the user closes nothing, a game that just plays was started after the latest request |
| Restarts.RestartCompletes | guest/overlay.c:1809-2147 | a request in front of a running game, a newer state, the end of the process, the window, a newer state and the picture gone: the game plays again, started after the request with the saved slot |
| Restarts.StateMovesOn | guest/overlay.c:3071-3082 | a written state closes the game exactly in SAVING and releases the picture exactly in PROBING, if its slot is newer |
| Restarts.RequestWaits | guest/overlay.c:2033-2041 | a request in front of a restart past its closing waits, one before it is covered by it |
| Restarts.EndRelaunches | guest/overlay.c:2118-2147 | the game closed for a restart is started again with its slot when its process ends; a start that fails gives it up |
| Restarts.EndGivesUp | guest/overlay.c:1809-1832 | any other end of the process gives the restart and its picture up and leaves the front |
| Restarts.ClosingLasts | guest/overlay.c:2118-2129 | a closing lasts exactly until the game is started again |
| Restarts.SettlingMovesOn | guest/overlay.c:2949-2969 | a settling moves on with the window and with the picture gone, and opens the dashboard when nothing is left in front |
| Restarts.SettleGivesUp | guest/overlay.c:2958-2969 | when a waiting request comes up, be it with the settling that ends the restart before it or later, it is given up exactly if the dashboard is open, the game keeps no rewinds, or it is being closed |
| Restarts.SettleWaits | guest/overlay.c:2958-2969 | every other settling leaves what is waiting as it is |
| Restarts.RequestGivenUp | guest/overlay.c:2958-2969 | a run from the start in which a request made while a restart ends is given up: the game just plays, started before the request |
| Restarts.HoldNeedsProcess | guest/overlay.c:2118-2129 | in a run whose requests found the game running so far, some continuation breaks the hold if and only if the next event is a request that finds a playing game without a process |
| Restarts.HoldLeftBehind | guest/overlay.c:2118-2129 | a run from the start (opened, ended, prepared again, asked, started) that leaves the hold file behind |
| Overlay.Overlay.RestartActive | guest/overlay.c:2033-2041 | holds the picture and saves, remembers a late request, or refuses; on a running game hold file and phase stay in step |
| Overlay.Overlay.AdvanceRestart | guest/overlay.c:3071-3082 | a newer state closes the game, or releases the picture |
| Overlay.Overlay.Ended | guest/overlay.c:1809-1832 | an end during CLOSING is left to the relaunch; any other end drops the restart and the hold |
| Overlay.Overlay.Play | guest/overlay.c:2118-2147 | resumes a closed restart, or starts afresh; a start that fails ends the game |
| Overlay.Overlay.Reap | guest/overlay.c:3057-3059 | an ended process may be followed by the relaunch |
| Overlay.Overlay.Settle | guest/overlay.c:2949-2969 | advances BOOTING and RELEASING and takes up a waiting request |
| Screens.ReleasingMeansHeld | guest/compositor.c:1118-1133 | `releasing` is set only while a hold is, on the game being shown |
| Screens.HoldEnds | guest/compositor.c:1110-1133 | a hold ends if and only if the file goes while another or no window is shown, a different window is shown, or the held game draws or goes after the file did |
| Screens.StillStays | guest/compositor.c:417-427 | a hold that does not end keeps its still |
| Screens.SameStillThroughout | guest/compositor.c:1090-1098 | from the still of a hold being there until the hold ends every frame is painted with that same still |
| Screens.HoldTakesStill | guest/compositor.c:1127-1128 | accepting a hold takes the still at once, or keeps the one there is |
| Screens.StillTaken | guest/compositor.c:1072-1088 | a still is taken exactly by a first hold with a display there, or by a frame that is covered |
| Screens.StillDropped | guest/compositor.c:417-427 | a still is dropped exactly when the picture changes without a hold, or with the end of one |
| Screens.NoStaleStill | guest/compositor.c:1090-1098 | over runs no frame shows a still that was taken before the picture last changed without a hold |
| Screens.PaintsLive | guest/compositor.c:1090-1108 | the live window is painted exactly if neither the overlay nor a hold covers it |
| Compositor.Compositor.ForgetStill | guest/compositor.c:417-427 | does nothing during a hold |
| Compositor.Compositor.Freeze | guest/compositor.c:1072-1088 | takes a still only if there is none |
| Compositor.Compositor.Paint | guest/compositor.c:1090-1108 | the picture of a frame: the still of a hold, the live window without one |
| Compositor.Compositor.ReadHold | guest/compositor.c:1118-1133 | accepts, moves, marks or releases a hold |
| Compositor.Compositor.Show | guest/compositor.c:1211-1235 | another window ends the hold, the held game's own does not |
| Compositor.Compositor.OnWindowCommit | guest/compositor.c:1333-1338 | a new buffer of the window shown releases the hold that waits for it, and without a hold leaves no still |
| Compositor.Compositor.OnWindowUnmap | guest/compositor.c:1359-1367 | an unmapped window is shown no more |
| RestartScreen.RestartShowsOneStill | guest/compositor.c:1118-1133 | overlay and compositor together: while a restart wants its picture and the compositor has read so, every frame shows one and the same still, although the game is closed, unmapped, started and mapped again |
| RestartScreen.PictureComesBack | guest/compositor.c:1118-1133 | once the file is gone and read, the first new buffer of the game brings its live picture back |
| Trailer.RoundTrip | app/recipes/redream/commands.c:108-137 | reading back what was written gives every save exactly and stops exactly at the end of the base state |
| Trailer.OnlyWhatWasWritten | app/recipes/redream/commands.c:123-137 | whatever reads back without a negative size is a state with just these saves behind it |
| Trailer.ReadsExactlyTheWritten | app/recipes/redream/commands.c:108-137 | reading back succeeds without a negative size exactly on the states that saving writes |
| Trailer.NegativeSizeMovesForward | app/recipes/redream/commands.c:127-130 | a negative size word gives an empty save and moves the cursor forwards |
| Trailer.SendAll | app/recipes/redream/commands.c:50-54 | however much each transfer moves, copies exactly the stretch, and fails exactly where the file has none |
| Trailer.SaveWithSaves | app/recipes/redream/commands.c:113-118 | the loop writes the specified trailer |
| Trailer.RestoreSaves | app/recipes/redream/commands.c:123-137 | succeeds exactly if all saves can be read back and then holds them; a failure leaves the saves before it untouched and those after it restored |
| Framing.PiecesDoNotMatter | guest/overlay.c:2192-2205 | the lines and the rest do not depend on how the stream is cut into reads, whatever it holds |
| Framing.LinesOfTheStream | guest/overlay.c:2192-2205 | they are the lines of the stream and its unfinished tail if and only if none of them fills the buffer |
| Framing.SplitAtNewlines | guest/overlay.c:2192-2205 | the lines of a stream are what stands between its newlines, and nothing is lost |
| Framing.LineReader.ReadLines | guest/overlay.c:2192-2205 | the in-place buffer code feeds exactly the bytes read |
| Framing.LineReader.HandOver | guest/padd.c:1677-1681 | hands over every complete line and finds the start of the rest |
| Framing.LineReader.MoveToFront | guest/overlay.c:2202-2202 | the rest moves to the front unharmed |
| Updates.StepKeeps | guest/otad:22-67 | every single step of boot, mark, poll and update keeps the fallback good, with power failing anywhere |
| Updates.FallbackIsGood | guest/otad:27-67 | in every state of every run `prev` names a slot that marked itself good, or was installed, and that no sync has written since |
| Updates.GoodMeans | guest/otad:31-37 | a slot stops being good exactly when a sync starts to write it, becomes good only by its own mark, and keeps its content while it is good unless a sync fills it |
| Updates.BootsGrow | guest/grub.cfg:10-16 | the record of boots only grows, and only the latest boot can still reach its mark |
| Updates.AlwaysFallsBack | guest/grub.cfg:10-16 | a boot that does not reach mark-good is followed by a boot of the fallback it had |
| Updates.TrialsProveThemselves | guest/grub.cfg:10-16 | two boots in a row away from the fallback: the first one reached mark-good |
| Updates.BootIsTrial | guest/grub.cfg:10-16 | in every run a boot is a trial if and only if the latest arming since the boot before armed the other slot; that boot had reached mark-good by then |
| Updates.ArmedMeans | guest/otad:27-27 | which arming is the latest: the one of the latest step that armed, none since a boot |
| Updates.SecondTrial | guest/otad:69-73 | after a trial boot that reached its mark an update makes the next boot a trial again |
| Updates.AnotherTrial | guest/otad:69-73 | from every reachable watching machine a run leads to one that boots the other slot on trial, marks it good and watches |
| Updates.TrialsInARow | guest/otad:64-73 | for every number there is a run from installation that ends in that many trials in a row |
| Updates.UpdateArmsWhole | guest/otad:69-73 | an update arms the other slot holding the whole release |
| Updates.PollDoes | guest/otad:48-60 | what a poll syncs, arms and writes to the state file, and whether it restarts the machine, as a function of what its script knew |
| Updates.MarkDoes | guest/otad:64-67 | a mark arms the running slot as its own fallback, and notes an installation only of the release that was on its way |
| Updates.UpdateDoes | guest/otad:69-73 | an update of the running version does nothing, any other arms the other slot exactly if its sync is complete |
| Updates.TornFileSaysNothing | guest/otad:22-25 | a state file that was being written when power failed says nothing |
| Updates.BootsItsContent | guest/grub.cfg:10-16 | a boot takes the armed slot while a try is left and the fallback otherwise, and runs the version that it holds |
| Updates.ArmedSlotMayTear | guest/otad:48-67 | a later poll of the same watch may tear the slot that is armed |
| Tears.UpdateWipes | guest/otad:69-73 | an update begins to write the other slot exactly if the release is another one and the slot can be mounted |
| Tears.PollWipes | guest/otad:48-60 | a poll does exactly if its script finds a sync due and the slot can be mounted |
| Tears.CutShort | guest/otad:31-40 | cut short after some number of its steps, a script tears the armed slot exactly if a wipe is among them |
| Tears.TearsExactly | guest/otad:31-73 | for every poll and update begun while the other slot is armed and whole, some loss of power finds it torn and still armed if and only if the script begins a sync; then a run leads there, the fallback still good |
| Tears.OnlyWipingTears | guest/otad:22-67 | no other step of boot, mark, poll or update tears it |
| Tears.BootsTornSlot | guest/otad:69-73 | a run from installation after which the machine is started on a half written slot |
| Updates.DelayNeedsRestart | guest/otad:48-67 | with a delay, the watch that first sees a release never syncs it |
| Otad.Script.ArmBoot | guest/otad:27-27 | one step on the boot environment |
| Otad.Script.Remember | guest/otad:22-25 | the file is emptied, written and read again |
| Otad.Script.SyncRelease | guest/otad:31-40 | the steps of a sync, cut short where it fails |
| Otad.Script.StageRelease | guest/otad:42-46 | arms the other slot with this one as fallback |
| Otad.Script.MarkGood | guest/otad:64-67 | arms the running slot as its own fallback first |
| Otad.Script.Update | guest/otad:69-73 | stages only what was synced |
| Otad.Script.Poll | guest/otad:48-60 | goes through exactly the steps that are cut off by power failures |

## Left out

- Gate: the hooks around a held call, the other reasons for which the saver refuses, and wrap-around of the 32-bit counter.
- Slices: wrap-around of `off_t`, and the extents themselves, which come from the kernel; `start <= end` is asked of them.
- Line breaker: floating point; positions are reals, and advances and room are asked not to be negative where lines are said to fit.
- Motion: floating point, and properties set through strings; a clock that does not go back is asked for where easing is said to move one way.
- Images: what a texture looks like, the truncation of keys, and the file's time between two looks; whether a file can be read is decided at delivery instead of at decoding.
- ImageCache.Cache.UploadDecoded: runs without the decoder between its deliveries; the interleaved ones are those of Images.Next.
- Pads: emulated keys and pointers, the touchpad click, blowing, motion and rumble; of the virtual device, its state is kept and not the order of its events.
- Sweep: what handlers do besides adding and dropping sources; that a handler of a non-fixed source drops only its own is asked of it, and the bus, which runs between poll and sweep, only adds.
- Restarts: one game that restarts; freezing and thawing of processes, rewinds kept or removed, and the `changed` flag that lets a settling be skipped.
- Restarts.HoldFollowsPhase: over runs in which a request in front of a playing game finds it running, because the claim fails otherwise (Restarts.HoldNeedsProcess).
- Screens: blurred stills, scan-out, retro shading, and the display choice; a display switched along with a window is a parameter.
- RestartScreen: windows of other games shown during the restart end the hold, as Screens.HoldEnds says; runs with them are not followed further.
- Trailer: failing writes, which end the process, wrap-around of `off_t`, and the state of the emulator in front of the saves.
- Framing: zero bytes inside a line, which would cut it short for the handler.
- Updates: the network, rsync's own steps within a sync, the boot menu, versions as text, and two readings of the clock within one poll.
- Updates: a boot may still need the kernel of a slot that is half written; such a boot simply never reaches its mark here.
- Two simultaneous restarts, Bluetooth, audio, skins, translations, stores and the recipes of other emulators are not modelled.
