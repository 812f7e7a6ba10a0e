# VoodooPS2 in Dafny

VoodooPS2 is a set of macOS drivers for PS/2 keyboards, mice and trackpads. This project models the parts of it where
state, interleaving or arithmetic is hard to follow by reading, and proves what they keep:

- **Synaptics trackpads** (`SimpleAverage`, `SynapticsPad`, `SynapticsMap`, `SynapticsSteps`, `SynapticsRun`,
  `SynapticsTheorems`, `SynapticsReads`, `SynapticsContacts`, `SynapticsRecovery`, `SynapticsBounds`,
  `SynapticsIdentity`, `SynapticsMotion`, `SynapticsFields`, `SynapticsTouchPad`). The hardware reports two contacts at
  most; the driver invents the others and keeps a map from physical to virtual fingers. `SynapticsTouchPad` is the
  driver's object, its two arrays updated in place; `SynapticsPad` says what each step does as a function; the others
  prove what the functions keep, packet by packet and over every run.
- **Ring buffer and framing** (`RingBuffer`, `PacketChannel`, `PacketFramer`, `PacketMarks`, `PacketPipeline`). The
  buffer that carries packets from interrupt time to the work loop without a lock: the class, the interleaving of its
  single accesses, the framer that assembles packets in place at its head, and the two together access by access.
- **The i8042 controller** (`PortReads`, `Requests`, `RequestRouting`, `Controller`, `RequestQueue`, `Power`,
  `Interrupts`). Reading one port while all of them talk, the interpreter of command lists and what of it reaches each
  device, the queue of asynchronous requests, sleep and wake, and the interrupt handlers.
- **Configuration packages** (`Rmcf`). The translator of nested ACPI packages into properties.
- **ALPS trackpads** (`AlpsBitmap`, `AlpsTouch`, `AlpsPackets`, `AlpsReports`, `AlpsPad`, `AlpsNibbles`). Line bitmaps
  and the box of all contacts, reports spread over several packets, and the code for register access.
- **Middle button** (`MiddleButton`). The mouse driver's state machine that makes a third button of two.

`Options`, `Sets`, `Numbers` and `ByteMasks` hold what the others share. Where the driver updates fields and arrays, a
class does the same and each of its methods is proved equal to a function; the lemmas are about the functions, and say
what they do without naming them: by masks of the bytes, by what reaches a device, by how far a finger moved.

## How the surroundings are modelled

- The controller's device is a finite list of poll answers, followed by "not ready" for ever. Everything the controller
  writes or hands to a driver is logged together with the number of polls made before it. Two programs with equal logs
  for every list of answers therefore cannot be told apart by any device, one that reacts to what is written included.
  Polls of the input buffer before a write are not answers; a device that never accepts a byte is not modelled.
- A Synaptics packet comes with the pressure threshold, whether the quiet time after a key press applies, and the
  logical limits at that moment, which may be any numbers up to 16383.
- What a driver answers for a byte, whether a request of the ALPS command mode succeeds, and what clients do to the
  command byte during a power change are inputs. Clients are assumed not to switch clocks off or interrupts on by
  themselves; the keyboard driver, the one that does change the byte, sets only the translation bit.
- Time is a number that comes with each event. `PacketChannel` and `PacketPipeline` assume that both sides see memory
  accesses in order, and that a handler is done with a byte before the next one arrives. The schedules of `PacketFramer`
  itself take a byte or a delivery as one step.

## What came out different from what the source says

- The finger map is not right after every packet. Five fingers out of two or three that were never lifted, and five out
  of four after a lift, leave a contact without a virtual finger; and a change of count during the quiet time leaves
  `lastFingerCount` behind. `PacketKeepsMapIff` says that nothing else breaks the map, and that the two together cancel
  out after a lift.
- `advanceHead` reads the tail twice, in an order C++ does not fix. If the current count is read first, a packet is
  dropped whenever the consumer takes more than one packet between the two readings, even into an empty buffer
  (`AcceptsByOrder`, `DropsIntoEmpty`); nothing is ever accepted into a full buffer in either order.
- A button that is held alone, from a press or left over of a middle click, is reported by the timer and taken back by
  the next packet, unless that has the third button: the timer works with the buttons reported last, in which the held
  one was masked out. If a further button was down with it, or a late or different packet comes before the timer, it
  stays reported (`HeldButtonTakenBackIff`).
- Rushmore pads send maps one line wider than the pad's lines, and `CornersOnPadIff` says which of them put a corner off
  the pad.
- After a lift in the quiet time the driver can look at an index before its arrays, in two places; `InBoundsIff` says
  exactly when, `JumpOutOfBounds` and `SwapOutOfBounds` how it gets there. Without quiet time it never does.
- A wrong map is set right by the next lift, if enough virtual fingers are touched; but a finger that comes and goes in
  the quiet time is reported after it (`LoweringRestoresIff`, `QuietFingerReported`).
- A value with a literal string ">>y" or ">>n", or with an empty dictionary, cannot be written as a configuration
  package.
- An ordinal that is no power state, received while asleep, makes the controller forget that it has to wake up. Exactly
  the sequences with such an ordinal (`WakesProperly` fails) at some point leave interrupts ignored outside Sleep.
- `clip_no_update_limits` compares a signed value with unsigned limits, so a negative value becomes the maximum; and
  `buf[4] & 2 >> 1` means `buf[4] & 1`. Both are modelled as written.

## Model

| member | source | states |
|---|---|---|
| SimpleAverages.WindowIsRecentHistory | VoodooPS2Trackpad/VoodooPS2TrackpadCommon.h:37-53 | feeding any list of samples to an empty window leaves exactly the last n of them, oldest first |
| SimpleAverages.EndsOfHistory | VoodooPS2Trackpad/VoodooPS2TrackpadCommon.h:60-85 | the newest sample is the last input, and the oldest one the n-th from the end, or the first of fewer |
| SimpleAverages.SumOfPush | VoodooPS2Trackpad/VoodooPS2TrackpadCommon.h:37-50 | the running sum: one more sample adds it and takes off the one that drops out |
| SimpleAverages.AverageBounds | VoodooPS2Trackpad/VoodooPS2TrackpadCommon.h:86-91 | the truncated average of a non-empty window lies between any bounds of its samples, its minimum and maximum included |
| SimpleAverages.AverageIsTruncated | VoodooPS2Trackpad/VoodooPS2TrackpadCommon.h:86-91 | the average of a non-empty window is the sum of its samples divided by their number, rounded toward zero |
| SimpleAverages.SimpleAverage.constructor | VoodooPS2Trackpad/VoodooPS2TrackpadCommon.h:30-36 | a new average has an empty window |
| SimpleAverages.SimpleAverage.Store | VoodooPS2Trackpad/VoodooPS2TrackpadCommon.h:37-51 | the sample goes to the place of the oldest one and the index wraps; as a window this is one more sample at the end |
| SimpleAverages.SimpleAverage.Filter | VoodooPS2Trackpad/VoodooPS2TrackpadCommon.h:37-54 | the circular buffer with its running sum refines the list of recent samples, and the result is the average of that list |
| SimpleAverages.SimpleAverage.Reset | VoodooPS2Trackpad/VoodooPS2TrackpadCommon.h:55-60 | the window is empty again |
| SimpleAverages.SimpleAverage.GetOldest | VoodooPS2Trackpad/VoodooPS2TrackpadCommon.h:63-74 | the oldest sample of the window, also while the buffer is not full |
| SimpleAverages.SimpleAverage.GetNewest | VoodooPS2Trackpad/VoodooPS2TrackpadCommon.h:75-85 | the newest sample of the window, around the end of the buffer |
| SimpleAverages.SimpleAverage.GetAverage | VoodooPS2Trackpad/VoodooPS2TrackpadCommon.h:86-91 | the truncated average of the window, 0 if it is empty |
| SynapticsMap.DistFitsInt | VoodooPS2Trackpad/VoodooPS2SynapticsTouchPad.cpp:713-718 | with coordinates in the driver's range the squared distance is below INT_MAX, so a touched virtual finger is always a candidate |
| SynapticsMap.RemapBounded | VoodooPS2Trackpad/VoodooPS2SynapticsTouchPad.cpp:1116-1343 | every branch keeps contacts and windows in the range for which distances do not overflow |
| SynapticsMap.MatchKeptFinds | VoodooPS2Trackpad/VoodooPS2SynapticsTouchPad.cpp:1188-1219 | each touched virtual finger in turn finds an unmapped contact: the search never comes back empty, and the two contacts that jumped furthest are different mapped ones |
| SynapticsMap.MatchKeptOnto | VoodooPS2Trackpad/VoodooPS2SynapticsTouchPad.cpp:1188-1219 | after a lift every contact that was down is found again, one-to-one onto the touched virtual fingers |
| SynapticsMap.MatchLiftedFinds | VoodooPS2Trackpad/VoodooPS2SynapticsTouchPad.cpp:1318-1340 | each remaining contact finds a touched virtual finger that no other one uses: the search never comes back empty |
| SynapticsMap.FreeAndMarkOnto | VoodooPS2Trackpad/VoodooPS2SynapticsTouchPad.cpp:987-1014 | freeing all virtual fingers and marking those that are mapped leaves exactly the image of the map touched |
| SynapticsIdentity.LiftFollows | VoodooPS2Trackpad/VoodooPS2SynapticsTouchPad.cpp:1318-1343 | when each contact left after a lift is strictly closest to a virtual finger of its own, it is mapped to that finger, in whatever order the contacts come |
| SynapticsIdentity.AddAfterLiftFollows | VoodooPS2Trackpad/VoodooPS2SynapticsTouchPad.cpp:1188-1308 | when each touched virtual finger has a strictly closest contact of its own that did not jump, adding contacts after a lift takes no finger from those that were down, through all branches |
| SynapticsIdentity.LiftedIdsFollow | VoodooPS2Trackpad/VoodooPS2SynapticsTouchPad.cpp:749-810 | over a whole packet that lowers the count, each contact left that is strictly closest to a virtual finger of its own has that number afterwards |
| SynapticsIdentity.AddedIdsFollow | VoodooPS2Trackpad/VoodooPS2SynapticsTouchPad.cpp:749-810 | over a whole packet that adds contacts after a lift, fingers that did not jump and are still closest keep their numbers |
| SynapticsIdentity.FreshIdsFollow | VoodooPS2Trackpad/VoodooPS2SynapticsTouchPad.cpp:1142-1186 | over a packet that adds contacts without a lift, the second contact hands its number on to the first new place and all others keep theirs |
| SynapticsIdentity.SameCountKeepsIds | VoodooPS2Trackpad/VoodooPS2SynapticsTouchPad.cpp:749-810 | over a packet with the same count every contact keeps its number |
| SynapticsSteps.CountedIsOnto | VoodooPS2Trackpad/VoodooPS2SynapticsTouchPad.cpp:999-1007 | a map is one-to-one onto the touched virtual fingers iff it is one-to-one into them and their numbers agree |
| SynapticsSteps.AddFirstIdentity | VoodooPS2Trackpad/VoodooPS2SynapticsTouchPad.cpp:1128-1141 | from no finger the contacts get their own numbers and just those virtual fingers are touched |
| SynapticsSteps.AssignNext | VoodooPS2Trackpad/VoodooPS2SynapticsTouchPad.cpp:720-736 | mapping the next contact to the first free virtual finger keeps the map one-to-one onto the touched virtual fingers, takes none away and touches no later contact; a free one always exists |
| SynapticsSteps.SwapMaps | VoodooPS2Trackpad/VoodooPS2SynapticsTouchPad.cpp:1031-1038 | a swap hands the old virtual finger to the new contact, gives the old contact a free one, and changes nothing else |
| SynapticsSteps.SwapNext | VoodooPS2Trackpad/VoodooPS2SynapticsTouchPad.cpp:1031-1038 | so handing a virtual finger over to the next contact keeps the map one-to-one onto the touched virtual fingers |
| SynapticsSteps.AddFreshCounted | VoodooPS2Trackpad/VoodooPS2SynapticsTouchPad.cpp:1142-1186 | fingers added while none was lifted keep the map right, except for five out of two or three |
| SynapticsSteps.AddFreshMisplaces | VoodooPS2Trackpad/VoodooPS2SynapticsTouchPad.cpp:1146-1185 | five fingers out of two or three: the fifth contact is left without a virtual finger although all of them are touched |
| SynapticsSteps.AddThirdCounted | VoodooPS2Trackpad/VoodooPS2SynapticsTouchPad.cpp:1226-1245 | a third finger added after a lift keeps the map right, whether an old contact jumped or not |
| SynapticsSteps.AddFourthCounted | VoodooPS2Trackpad/VoodooPS2SynapticsTouchPad.cpp:1246-1307 | the third and fourth, or just the fourth, finger added after a lift keep the map right |
| SynapticsSteps.FourthAgain | VoodooPS2Trackpad/VoodooPS2SynapticsTouchPad.cpp:1281-1301 | with four fingers down a fifth one makes the fourth contact be assigned again, which uses up all virtual fingers |
| SynapticsRun.LiftCounted | VoodooPS2Trackpad/VoodooPS2SynapticsTouchPad.cpp:1311-1342 | after fingers were lifted the remaining contacts are mapped one-to-one onto exactly the touched virtual fingers |
| SynapticsRun.LiftOnlyReleases | VoodooPS2Trackpad/VoodooPS2SynapticsTouchPad.cpp:1311-1342 | a lift brings no new virtual finger into play |
| SynapticsRun.AddedAfterLiftCounted | VoodooPS2Trackpad/VoodooPS2SynapticsTouchPad.cpp:1187-1308 | fingers added after a lift keep the map right, except for the fifth out of four |
| SynapticsRun.AddAfterLiftCounted | VoodooPS2Trackpad/VoodooPS2SynapticsTouchPad.cpp:1187-1310 | after marking, the map is right for the new count, or for four contacts if a fifth out of four was added |
| SynapticsRun.RemapCounted | VoodooPS2Trackpad/VoodooPS2SynapticsTouchPad.cpp:1116-1343 | the whole case distinction of the renumbering keeps the map right for the new count outside the misplacing additions |
| SynapticsRun.RemapMisplaces | VoodooPS2Trackpad/VoodooPS2SynapticsTouchPad.cpp:1116-1343 | a misplacing addition leaves contact 4 without a virtual finger; without a lift before, all virtual fingers are then touched |
| SynapticsRun.FilterFeeds | VoodooPS2Trackpad/VoodooPS2SynapticsTouchPad.cpp:1345-1358 | contacts mapped to different virtual fingers have each just fed their own windows with their position |
| SynapticsRun.FilterKeeps | VoodooPS2Trackpad/VoodooPS2SynapticsTouchPad.cpp:1345-1358 | feeding changes neither the map nor the touches, and never empties a window |
| SynapticsTheorems.DragKeepsMap | VoodooPS2Trackpad/VoodooPS2SynapticsTouchPad.cpp:1049-1081 | moving the imaginary fingers changes no mapping and nothing at all below three fingers |
| SynapticsTheorems.FilterSamples | VoodooPS2Trackpad/VoodooPS2SynapticsTouchPad.cpp:1345-1358 | after a completed renumbering every touched virtual finger has a sample to be read |
| SynapticsTheorems.RenumberKeeps | VoodooPS2Trackpad/VoodooPS2SynapticsTouchPad.cpp:1042-1387 | a completed renumbering that misplaces nothing leaves the map right for the new count, with non-empty windows |
| SynapticsTheorems.RenumberMisplaces | VoodooPS2Trackpad/VoodooPS2SynapticsTouchPad.cpp:1042-1387 | a misplacing renumbering is reported, leaves contact 4 unmapped, and either the other four contacts right (after a lift) or all virtual fingers touched |
| SynapticsTheorems.PacketKeepsMapIff | VoodooPS2Trackpad/VoodooPS2SynapticsTouchPad.cpp:749-810 | a normal packet leaves the map one-to-one onto the touched virtual fingers on [0, lastFingerCount) if and only if it is neither a misplacing addition nor a change of count that the quiet time keeps from being recorded; and then the unused contacts are unmapped and every window touched has a sample |
| SynapticsContacts.ReportIsFaithful | VoodooPS2Trackpad/VoodooPS2SynapticsTouchPad.cpp:1389-1529 | a report carries exactly as many contacts as the hardware counts, with distinct ids, one for each touched virtual finger, whose newest sample is the position of its hardware contact and whose width is half its pressure |
| SynapticsContacts.RemapKeepsIds | VoodooPS2Trackpad/VoodooPS2SynapticsTouchPad.cpp:1116-1343 | added fingers take no number away from a finger that was there, and a lift adds none |
| SynapticsContacts.PacketKeepsIds | VoodooPS2Trackpad/VoodooPS2SynapticsTouchPad.cpp:749-810 | over a packet that misplaces nothing the set of touched numbers only grows, only shrinks or stays, like the finger count |
| SynapticsContacts.RunKeepsMap | VoodooPS2Trackpad/VoodooPS2SynapticsTouchPad.cpp:903-962 | over every run without a breaking packet the map is right after each packet |
| SynapticsContacts.BreakingRunShows | VoodooPS2Trackpad/VoodooPS2SynapticsTouchPad.cpp:903-962 | in every other run there is a packet after which the map on [0, lastFingerCount) is not one-to-one onto the touched virtual fingers |
| SynapticsContacts.StartsAtRest | VoodooPS2Trackpad/VoodooPS2SynapticsTouchPad.cpp:73-75 | the tracker starts with a right map, so the promise covers every run from power-on |
| SynapticsReads.JumpsMapped | VoodooPS2Trackpad/VoodooPS2SynapticsTouchPad.cpp:1192-1219 | whatever the map is, the contacts remembered as having jumped are mapped ones, so swapping them looks at no index before the array |
| SynapticsReads.AtRestInBounds | VoodooPS2Trackpad/VoodooPS2SynapticsTouchPad.cpp:1100-1186 | a tracker at rest is in bounds: the two contacts of which the driver takes it for granted that they are mapped are |
| SynapticsBounds.InBoundsIff | VoodooPS2Trackpad/VoodooPS2SynapticsTouchPad.cpp:1049-1307 | of all virtual fingers that the renumbering looks up by the number in a contact, branch by branch, none has a negative number if and only if the tracker is in bounds |
| SynapticsBounds.InBoundsWithoutQuiet | VoodooPS2Trackpad/VoodooPS2SynapticsTouchPad.cpp:1042-1387 | over every run without quiet time the driver looks at no index before its arrays, also after additions that misplaced a contact |
| SynapticsBounds.QuietLiftForgets | VoodooPS2Trackpad/VoodooPS2SynapticsTouchPad.cpp:1389-1399 | a packet without fingers in the quiet time unmaps all contacts and leaves the last count standing |
| SynapticsBounds.JumpOutOfBounds | VoodooPS2Trackpad/VoodooPS2SynapticsTouchPad.cpp:1100-1115 | a run from power-on after which the next packet makes the driver take the distance from virtual finger -1 |
| SynapticsBounds.SwapOutOfBounds | VoodooPS2Trackpad/VoodooPS2SynapticsTouchPad.cpp:1142-1186 | a run from power-on after which the next packet makes the driver swap the virtual finger -1 |
| SynapticsReads.JumpsCanBeRead | VoodooPS2Trackpad/VoodooPS2SynapticsTouchPad.cpp:1226-1307 | the averages read by the swaps after a lift are of windows with samples, the second one also after the first swap |
| SynapticsReads.ReadsAreSampled | VoodooPS2Trackpad/VoodooPS2SynapticsTouchPad.cpp:1049-1358 | from a tracker at rest, every newest sample and every average that any branch of the renumbering reads is of a window holding one |
| SynapticsMotion.ThirdMovesWithBoth | VoodooPS2Trackpad/VoodooPS2SynapticsTouchPad.cpp:1064-1077 | with three fingers counted before and after, the imaginary third one moves on each axis by the mean of what the two real ones moved since their newest samples, rounded toward zero and kept inside the limits; its pressure and width are their means, and the real ones stay where the hardware put them |
| SynapticsMotion.OthersMoveWithUpper | VoodooPS2Trackpad/VoodooPS2SynapticsTouchPad.cpp:1050-1063 | with four or five, every imaginary finger moves exactly as the real one with the larger y, kept inside the limits, and takes its pressure and width |
| SynapticsMotion.ThreeFingersMove | VoodooPS2Trackpad/VoodooPS2SynapticsTouchPad.cpp:1049-1081 | the same for a whole packet of three fingers |
| SynapticsMotion.ClipLimits | VoodooPS2Trackpad/VoodooPS2SynapticsTouchPad.cpp:1059-1076 | inside the limits a coordinate is kept; beyond the upper one, or negative, it becomes the upper one, and below the lower one the lower one |
| SynapticsMotion.JumpLetsGo | VoodooPS2Trackpad/VoodooPS2SynapticsTouchPad.cpp:1100-1115 | a single finger counted twice is let go, and nothing of it kept, if and only if it moved further than 1000 units in one packet |
| SynapticsMotion.FirstPlaces | VoodooPS2Trackpad/VoodooPS2SynapticsTouchPad.cpp:1128-1141 | from no finger, contacts beyond the second appear on the upper real one and the real ones stay |
| SynapticsMotion.AddFreshPlaces | VoodooPS2Trackpad/VoodooPS2SynapticsTouchPad.cpp:1142-1186 | where each contact is after an addition without a lift: a third or fourth finger on its own takes over the averaged place of contact 1, any other new one appears on the upper real contact |
| SynapticsMotion.FurthestIsRemembered | VoodooPS2Trackpad/VoodooPS2SynapticsTouchPad.cpp:1192-1219 | after the search for the fingers that were down, the first remembered contact is one that came furthest, and the second one came furthest before it |
| SynapticsMotion.AddThirdPlaces | VoodooPS2Trackpad/VoodooPS2SynapticsTouchPad.cpp:1227-1248 | a third finger after a lift takes over the averaged place of the contact that jumped, or appears on the upper real one |
| SynapticsMotion.AddBothPlaces | VoodooPS2Trackpad/VoodooPS2SynapticsTouchPad.cpp:1249-1301 | the same for a third and a fourth finger, each by its own jump |
| SynapticsMotion.AddFourthPlaces | VoodooPS2Trackpad/VoodooPS2SynapticsTouchPad.cpp:1282-1301 | and for a fourth finger alone |
| SynapticsMotion.AddAfterLiftPlaces | VoodooPS2Trackpad/VoodooPS2SynapticsTouchPad.cpp:1187-1311 | over the whole addition after a lift the contacts appear there, and the real ones stay |
| SynapticsMotion.RemapFresh | VoodooPS2Trackpad/VoodooPS2SynapticsTouchPad.cpp:1117-1343 | no branch of the renumbering lets a new finger take over the samples of an earlier one, and those that mark the virtual fingers leave no samples at all |
| SynapticsMotion.NewFingersStartAfresh | VoodooPS2Trackpad/VoodooPS2SynapticsTouchPad.cpp:1117-1358 | over a renumbering that misplaces nothing, a contact whose virtual finger was not touched before has one sample, its own position; so has every contact after fingers were lifted or added after a lift |
| SynapticsFields.WidthField | VoodooPS2Trackpad/VoodooPS2SynapticsTouchPad.cpp:908-910 | the width field by its three masks |
| SynapticsFields.NormalKinds | VoodooPS2Trackpad/VoodooPS2SynapticsTouchPad.cpp:936-948 | which packets are extended, passed through and normal ones, by the width field |
| SynapticsFields.RealFingerFields | VoodooPS2Trackpad/VoodooPS2SynapticsTouchPad.cpp:749-780 | the contact of a normal packet by the masks of its bytes: thirteen-bit signed coordinates, pressure and width |
| SynapticsFields.SecondFingerFields | VoodooPS2Trackpad/VoodooPS2SynapticsTouchPad.cpp:815-833 | the same for the second contact of an extended packet |
| SynapticsFields.CountField | VoodooPS2Trackpad/VoodooPS2SynapticsTouchPad.cpp:785-804 | the number of fingers by the pressure threshold, the width field and the announced count |
| SynapticsFields.NormalFields | VoodooPS2Trackpad/VoodooPS2SynapticsTouchPad.cpp:749-804 | what a normal packet leaves of the state before any renumbering |
| SynapticsFields.ExtendedFields | VoodooPS2Trackpad/VoodooPS2SynapticsTouchPad.cpp:812-845 | what an extended packet changes: the second contact, the announced count, or nothing |
| SynapticsContacts.EmptyReportOnce | VoodooPS2Trackpad/VoodooPS2SynapticsTouchPad.cpp:1522-1528 | the report without contacts is sent once: never after another one, never before any contact was reported |
| SynapticsContacts.FourFingersNeverBreak | VoodooPS2Trackpad/VoodooPS2SynapticsTouchPad.cpp:786-804 | with four fingers at most and no quiet time no packet ever breaks the map |
| SynapticsContacts.FiveOutOfThreeBreaks | VoodooPS2Trackpad/VoodooPS2SynapticsTouchPad.cpp:1146-1185 | a concrete run from power-on after which the map is wrong: three fingers, five announced, and two fingers added to three that were never lifted |
| SynapticsRecovery.LiftRestoresIff | VoodooPS2Trackpad/VoodooPS2SynapticsTouchPad.cpp:1311-1342 | whatever the map was, after a lift it is right if and only if as many virtual fingers were touched as contacts are left |
| SynapticsRecovery.LoweringRestoresIff | VoodooPS2Trackpad/VoodooPS2SynapticsTouchPad.cpp:749-810 | so a packet outside the quiet time that lowers the count sets the tracker right, from any state, if and only if this holds |
| SynapticsRecovery.NoFingerRestoresIff | VoodooPS2Trackpad/VoodooPS2SynapticsTouchPad.cpp:1389-1404 | after every run: a packet without fingers outside the quiet time leaves the tracker at rest if and only if contacts were counted before it or it was at rest already |
| SynapticsRecovery.LoweringHeals | VoodooPS2Trackpad/VoodooPS2SynapticsTouchPad.cpp:1311-1342 | over every run without quiet time each packet that lowers the count leaves the tracker at rest, also after a misplacing addition |
| SynapticsRecovery.QuietFingerReported | VoodooPS2Trackpad/VoodooPS2SynapticsTouchPad.cpp:1389-1404 | a finger put down and lifted in the quiet time is reported after it although no finger is down |
| SynapticsTouchPad.TouchPad.constructor | VoodooPS2Trackpad/VoodooPS2SynapticsTouchPad.cpp:73-75 | all fingers start unmapped and untouched |
| SynapticsTouchPad.TouchPad.Distance | VoodooPS2Trackpad/VoodooPS2SynapticsTouchPad.cpp:714-718 | the squared distance between a contact and the newest sample of a virtual finger, which counts as 0 if there is none |
| SynapticsTouchPad.TouchPad.AssignVirtual | VoodooPS2Trackpad/VoodooPS2SynapticsTouchPad.cpp:720-736 | the search loop maps the contact to the first free virtual finger |
| SynapticsTouchPad.TouchPad.Swap | VoodooPS2Trackpad/VoodooPS2SynapticsTouchPad.cpp:1031-1038 | the swap in place, for any mapped contact |
| SynapticsTouchPad.TouchPad.FreeAndMarkVirtuals | VoodooPS2Trackpad/VoodooPS2SynapticsTouchPad.cpp:987-1014 | the two loops reset all virtual fingers and mark the mapped ones |
| SynapticsTouchPad.TouchPad.UpdateImaginary | VoodooPS2Trackpad/VoodooPS2SynapticsTouchPad.cpp:1049-1081 | the imaginary fingers follow the real ones, if these are mapped |
| SynapticsTouchPad.TouchPad.UnpressJump | VoodooPS2Trackpad/VoodooPS2SynapticsTouchPad.cpp:1100-1115 | a single mapped finger that moved too far in one packet is let go |
| SynapticsTouchPad.TouchPad.AddFromNone | VoodooPS2Trackpad/VoodooPS2SynapticsTouchPad.cpp:1128-1141 | the identity map, imaginary fingers on the upper real one |
| SynapticsTouchPad.TouchPad.AddWithoutLift | VoodooPS2Trackpad/VoodooPS2SynapticsTouchPad.cpp:1142-1186 | the fingers added while none was lifted |
| SynapticsTouchPad.TouchPad.FindLifted | VoodooPS2Trackpad/VoodooPS2SynapticsTouchPad.cpp:1318-1340 | the nested search after a lift computes the greedy matching of contacts to touched virtual fingers |
| SynapticsTouchPad.TouchPad.FindKept | VoodooPS2Trackpad/VoodooPS2SynapticsTouchPad.cpp:1188-1219 | the nested search before an addition computes the greedy matching and the two contacts that jumped furthest |
| SynapticsTouchPad.TouchPad.Lift | VoodooPS2Trackpad/VoodooPS2SynapticsTouchPad.cpp:1311-1342 | the whole branch for lifted fingers |
| SynapticsTouchPad.TouchPad.AddWithLift | VoodooPS2Trackpad/VoodooPS2SynapticsTouchPad.cpp:1187-1310 | the whole branch for fingers added after a lift, for every map |
| SynapticsTouchPad.TouchPad.Feed | VoodooPS2Trackpad/VoodooPS2SynapticsTouchPad.cpp:1345-1358 | the loop that feeds the windows |
| SynapticsTouchPad.TouchPad.RenumberFingers | VoodooPS2Trackpad/VoodooPS2SynapticsTouchPad.cpp:1042-1387 | renumberFingers in place is the renumbering as a value, and false is returned exactly when the packet is to be skipped; for every tracker that makes it look at no index before its arrays |
| SynapticsTouchPad.TouchPad.SendTouch | VoodooPS2Trackpad/VoodooPS2SynapticsTouchPad.cpp:1389-1529 | what is reported, and when the count is recorded |
| SynapticsTouchPad.TouchPad.ParseNormal | VoodooPS2Trackpad/VoodooPS2SynapticsTouchPad.cpp:749-810 | the contact and the count of a normal packet, its renumbering and its report |
| SynapticsTouchPad.TouchPad.ParseAgm | VoodooPS2Trackpad/VoodooPS2SynapticsTouchPad.cpp:812-845 | the second contact and the announced count of an extended packet |
| SynapticsTouchPad.TouchPad.ParseHwState | VoodooPS2Trackpad/VoodooPS2SynapticsTouchPad.cpp:903-962 | one packet as a whole, also after one that broke the map; a tracker at rest is at rest again iff the packet is not a breaking one |
| RingBuffers.AroundSplits | VoodooPS2Controller/ApplePS2Device.h:201-216 | a stretch around the end of the buffer can be taken in two goes |
| RingBuffers.MovedCount | VoodooPS2Controller/ApplePS2Device.h:237-246 | what the count becomes when the head moves on: past the capacity it starts over, which is what advanceHead tests |
| RingBuffers.RingBuffer.Push | VoodooPS2Controller/ApplePS2Device.h:217-228 | appends to the contents, or drops the element if the buffer is full |
| RingBuffers.RingBuffer.Fetch | VoodooPS2Controller/ApplePS2Device.h:229-236 | takes the first element of the contents |
| RingBuffers.RingBuffer.Put | VoodooPS2Controller/ApplePS2Device.h:237-238 | writing through the pointer to the head shows in none of the contents |
| RingBuffers.RingBuffer.AdvanceHead | VoodooPS2Controller/ApplePS2Device.h:239-247 | the next elements become contents exactly if they fit |
| RingBuffers.RingBuffer.AdvanceTail | VoodooPS2Controller/ApplePS2Device.h:248-254 | drops that many elements from the front |
| RingBuffers.RingBuffer.Count | VoodooPS2Controller/ApplePS2Device.h:216-216 | the number of elements queued |
| RingBuffers.RingBuffer.Reset | VoodooPS2Controller/ApplePS2Device.h:211-215 | the contents are empty |
| PacketChannel.SlotApart | VoodooPS2Controller/ApplePS2Device.h:184-192 | aligned positions are a whole number of slots apart |
| PacketChannel.SlotsFew | VoodooPS2Controller/ApplePS2Device.h:201-209 | the queued slots, times the slot length, are the count; so at most all slots but one are queued |
| PacketChannel.SlotsKeep | VoodooPS2Controller/ApplePS2Device.h:237-237 | assembling a packet in place at the head changes none of the queued slots |
| PacketChannel.SlotsAppend | VoodooPS2Controller/ApplePS2Device.h:239-247 | an accepted packet becomes the last queued slot |
| PacketChannel.AcceptsIffRoom | VoodooPS2Controller/ApplePS2Device.h:239-247 | with one reading of the tail, also while it stands at the capacity in the middle of advanceTail, a packet is accepted iff count + move < N |
| PacketChannel.AcceptsOnlyIntoRoom | VoodooPS2Controller/ApplePS2Device.h:239-247 | however the consumer moves between the two readings of the tail, nothing is accepted into a full buffer |
| PacketChannel.AcceptsExactly | VoodooPS2Controller/ApplePS2Device.h:239-247 | what advanceHead decides for any two readings of the tail that the invariant allows, as a condition on the two counts |
| PacketChannel.AcceptsByOrder | VoodooPS2Controller/ApplePS2Device.h:239-247 | over every schedule: if the tail for the new head was read first, a packet is accepted iff there was room then or the buffer is seen empty later; if it was read second, iff there is room and the consumer took at most one packet between the two readings |
| PacketChannel.DecidedByOrder | VoodooPS2Controller/ApplePS2Device.h:239-247 | the same at any instant that the invariant allows |
| PacketChannel.DropsIntoEmpty | VoodooPS2Controller/ApplePS2Device.h:239-247 | in every buffer of three slots or more there is a schedule on which the producer drops a packet although the buffer is empty |
| PacketChannel.StepKeeps | VoodooPS2Controller/ApplePS2Device.h:201-254 | every single access of producer or consumer keeps positions aligned and the queue equal to what was accepted but not delivered |
| PacketChannel.RunKeeps | VoodooPS2Controller/ApplePS2Device.h:201-254 | the same over every interleaving, with advanceTail split into its two assignments |
| PacketChannel.Fifo | VoodooPS2Controller/ApplePS2Device.h:176-192 | on every schedule what is delivered is what was accepted first, unchanged and in order, and no more than N / L - 1 packets wait |
| PacketChannel.DrainsAlone | VoodooPS2Controller/ApplePS2Device.h:216-254 | the consumer left to itself empties the buffer: everything accepted is delivered |
| PacketChannel.ReaderUndisturbed | VoodooPS2Controller/ApplePS2Device.h:237-238 | whatever the producer writes meanwhile, the reader sees the accepted packet, and the two work in different slots |
| PacketFramer.FramesAreConsecutive | VoodooPS2Trackpad/VoodooPS2SynapticsTouchPad.cpp:623-690 | every packet framed from a byte stream is six consecutive bytes of it with the right marks, and no byte belongs to two packets |
| PacketFramer.DeliversTheFraming | VoodooPS2Trackpad/VoodooPS2SynapticsTouchPad.cpp:623-711 | with a byte and a delivery each as one step: while fewer than 31 slots are queued, delivered and queued slots are exactly what the framing function of the stream yields |
| PacketFramer.DeliversFramedSlots | VoodooPS2Trackpad/VoodooPS2SynapticsTouchPad.cpp:623-711 | with a byte and a delivery each as one step: on every schedule the slots taken are framed ones in order, so a full ring loses whole slots only, never synchronization |
| PacketMarks.PacketIsFramed | VoodooPS2Trackpad/VoodooPS2SynapticsTouchPad.cpp:645-690 | after any stream with nothing left over, six bytes with b0 & 0xC8 == 0x80 and b3 & 0xC8 == 0xC0 and no 0xAA, 0x00 are the next slot, and nothing is left over |
| PacketMarks.PacketsAreFramed | VoodooPS2Trackpad/VoodooPS2SynapticsTouchPad.cpp:623-690 | every list of such packets whose bytes hold no 0xAA, 0x00 is framed packet by packet, packet k ending at 6(k + 1) |
| PacketMarks.ResetIsNoted | VoodooPS2Trackpad/VoodooPS2SynapticsTouchPad.cpp:633-645 | 0xAA and 0x00 end in a reset note after every stream, with nothing left over |
| PacketMarks.ZerosAreNoted | VoodooPS2Trackpad/VoodooPS2SynapticsTouchPad.cpp:633-645 | and so does each 0x00 that follows |
| PacketMarks.StrayIsNoted | VoodooPS2Trackpad/VoodooPS2SynapticsTouchPad.cpp:647-657 | a byte that starts no packet is noted by itself |
| PacketMarks.BrokenIsNoted | VoodooPS2Trackpad/VoodooPS2SynapticsTouchPad.cpp:658-667 | a fourth byte without its mark gives up the three before it |
| PacketMarks.RingHolds31 | VoodooPS2Trackpad/VoodooPS2SynapticsTouchPad.cpp:683-690 | while nothing is delivered the ring keeps the first 31 slots that the stream frames and drops the others |
| PacketMarks.PacketsReachParser | VoodooPS2Trackpad/VoodooPS2SynapticsTouchPad.cpp:623-711 | up to 31 packets with their marks, received while nothing is delivered, are what is then parsed, each once and in order; or none if the driver ignores its input |
| PacketMarks.NotesAreKeptBack | VoodooPS2Trackpad/VoodooPS2SynapticsTouchPad.cpp:692-711 | notes are never handed on to be parsed |
| PacketFramer.GroupAppends | VoodooPS2Trackpad/VoodooPS2SynapticsTouchPad.cpp:683-687 | six more bytes in the ring are one more slot |
| PacketPipeline.ReceiveFrames | VoodooPS2Trackpad/VoodooPS2SynapticsTouchPad.cpp:623-690 | what the handler has still to store for a byte will make the six places at the head exactly what the framing function completes, or what it leaves over |
| PacketPipeline.RunKeeps | VoodooPS2Trackpad/VoodooPS2SynapticsTouchPad.cpp:623-711 | over every interleaving of the handler's single stores, reads and decisions with the consumer's single accesses |
| PacketPipeline.AcceptsTheFraming | VoodooPS2Trackpad/VoodooPS2SynapticsTouchPad.cpp:623-711 | over every such interleaving the slots decided on are those the stream frames, in order; the packets in the ring or taken from it are those accepted; and each is accepted iff advanceHead decides so for the counts it saw and the order of its reads |
| PacketPipeline.NothingLost | VoodooPS2Trackpad/VoodooPS2SynapticsTouchPad.cpp:623-711 | so as long as room is seen below the capacity, and no more than one packet is taken between the reads if the current count is read first, what is accepted is the framing of the stream and what is delivered its beginning |
| PacketPipeline.ByteIsHandled | VoodooPS2Trackpad/VoodooPS2SynapticsTouchPad.cpp:623-690 | over every such interleaving, a byte that arrives at a handler with nothing to do is dealt with after five accesses at most, and then every slot the stream frames was decided on |
| PacketFramer.SynapticsFramer.constructor | VoodooPS2Trackpad/VoodooPS2SynapticsTouchPad.cpp:1635-1645 | the framer starts with nothing queued |
| PacketFramer.SynapticsFramer.Accept | VoodooPS2Trackpad/VoodooPS2SynapticsTouchPad.cpp:683-687 | the six bytes at the head become a slot, or are dropped if the ring is full |
| PacketFramer.SynapticsFramer.InterruptOccurred | VoodooPS2Trackpad/VoodooPS2SynapticsTouchPad.cpp:623-690 | the in-place framer does one step of the framing function, and reports ready iff a slot was completed |
| PacketFramer.SynapticsFramer.PacketReady | VoodooPS2Trackpad/VoodooPS2SynapticsTouchPad.cpp:692-711 | the ring is emptied and the packets among its slots are handed on in order |
| PortReads.PortFromStatus | VoodooPS2Controller/VoodooPS2Controller.cpp:1260-1270 | the port a status byte names: the keyboard iff the aux bit is clear, one mouse port without a multiplexer, and with one the port that its two bits name |
| PortReads.ReadExpectingChooses | VoodooPS2Controller/VoodooPS2Controller.cpp:1368-1532 | the byte returned: the expected one if it is the first or the second of the port to come in time, else the first one, else 0 |
| PortReads.ReadExpectingSharesOut | VoodooPS2Controller/VoodooPS2Controller.cpp:1368-1532 | at most two bytes of the requested port are taken, each is returned or handed to its driver, and an unexpected one is put aside just once |
| PortReads.ReadExpectingPassesOn | VoodooPS2Controller/VoodooPS2Controller.cpp:1368-1532 | every byte taken from another port is handed to that port's driver, in order |
| PortReads.ReadExpectingUsesPrefix | VoodooPS2Controller/VoodooPS2Controller.cpp:1368-1532 | the reading uses up the answers in order and leaves the rest |
| PortReads.ReadExpectingHandsOut | VoodooPS2Controller/VoodooPS2Controller.cpp:1368-1532 | the reading does nothing but hand out bytes |
| PortReads.ReadExpectingDelivers | VoodooPS2Controller/VoodooPS2Controller.cpp:1368-1532 | the whole promise of the out-of-order correction, against every device |
| PortReads.ReadAnyReturnsFirst | VoodooPS2Controller/VoodooPS2Controller.cpp:1272-1364 | the first byte of the port that comes in time is returned, and it is the only one taken |
| PortReads.ReadAnyPassesOn | VoodooPS2Controller/VoodooPS2Controller.cpp:1272-1364 | every byte taken from another port is handed to that port's driver, in order |
| PortReads.ReadAnyAtStartup | VoodooPS2Controller/VoodooPS2Controller.cpp:1349-1350 | during start-up the first byte of any port is returned and nothing is handed out |
| PortReads.ReadAnyPolls | VoodooPS2Controller/VoodooPS2Controller.cpp:1272-1364 | every reading polls once for each answer used, gives up after exactly the timeout of polls that found nothing, and hands each byte of another port out right after the poll that saw it |
| PortReads.ReadExpectingPolls | VoodooPS2Controller/VoodooPS2Controller.cpp:1368-1532 | the same for the reading that expects a byte; a byte of its own port is handed out at the very end |
| PortReads.ReadAnyWaits | VoodooPS2Controller/VoodooPS2Controller.cpp:1309-1313 | waiting for the output buffer consumes time but changes nothing of the answer |
| Requests.RunAll | VoodooPS2Controller/VoodooPS2Controller.cpp:1121-1202 | a request has as many commands afterwards as before, and a failure names one of them |
| Requests.RunKeepsKinds | VoodooPS2Controller/VoodooPS2Controller.cpp:1121-1202 | every command keeps its place, its kind, and its input where that is not replaced by a result |
| Requests.CountNamesTheFailure | VoodooPS2Controller/VoodooPS2Controller.cpp:1201-1213 | for a non-empty request the count left is unchanged iff every command succeeded, and otherwise is the index of the first that did not |
| Requests.LaterCommandsDoNothing | VoodooPS2Controller/VoodooPS2Controller.cpp:1201-1201 | commands behind the failing one are neither run nor changed, and all before it succeeded |
| Requests.SuccessMeansMatched | VoodooPS2Controller/VoodooPS2Controller.cpp:1129-1137 | if a request succeeds, every comparison found its byte |
| Requests.ExpandingIsFaithful | VoodooPS2Controller/VoodooPS2Controller.cpp:1151-1175 | replacing the composite command by its two parts leaves everything that is written, polled and handed out the same, against every device |
| Requests.ExpandingFailsAlike | VoodooPS2Controller/VoodooPS2Controller.cpp:1151-1175 | it preserves success, and the failing commands correspond |
| Requests.ExpandingReadsAlike | VoodooPS2Controller/VoodooPS2Controller.cpp:1151-1175 | it preserves every result that was read |
| Requests.RequestPassesOn | VoodooPS2Controller/VoodooPS2Controller.cpp:1121-1202 | over a request without flush commands, and for the keyboard without changes of the command byte (both read such bytes for themselves), the drivers of other ports get all of the bytes taken from those ports, in order |
| RequestRouting.TransmitReaches | VoodooPS2Controller/VoodooPS2Controller.cpp:1140-1149 | on an 8042 where 0xD4 sends the next data byte to port 1 and 0x90 + k to port 1 + k, a byte for a port reaches the device there and no other |
| RequestRouting.CommandReaches | VoodooPS2Controller/VoodooPS2Controller.cpp:1121-1202 | every command: its byte reaches the device of the request, a changed command byte the controller, and nothing else reaches anyone |
| RequestRouting.RequestReaches | VoodooPS2Controller/VoodooPS2Controller.cpp:1121-1202 | over every request, against every device, the bytes that reach the device of the request are exactly those of the write and send commands carried out, in order, and the controller gets the changed command bytes |
| RequestRouting.OthersGetNothing | VoodooPS2Controller/VoodooPS2Controller.cpp:1121-1202 | and no byte reaches another device |
| RequestRouting.CommandBringsBack | VoodooPS2Controller/VoodooPS2Controller.cpp:1121-1202 | what each command brings back, by the bytes that arrive within 20000 or 10000 polls: the first one, the expected one if it is among the first two, success or failure, the number thrown away; and a change of the command byte asks with 0x20, reads, and writes after 0x60 what was read with the bits changed |
| Controller.ApplePS2Controller.WaitForOutput | VoodooPS2Controller/VoodooPS2Controller.cpp:1309-1313 | the polling loop with its countdown |
| Controller.ApplePS2Controller.ReadDataPort | VoodooPS2Controller/VoodooPS2Controller.cpp:1274-1362 | the loop computes the byte, the hand-outs and the polls of the reading as a value |
| Controller.ApplePS2Controller.ExpectTurn | VoodooPS2Controller/VoodooPS2Controller.cpp:1402-1531 | one turn of the loop that expects a byte |
| Controller.ApplePS2Controller.ReadDataPortExpecting | VoodooPS2Controller/VoodooPS2Controller.cpp:1368-1532 | the loop with the byte put aside computes the same as the reading as a value |
| Controller.ApplePS2Controller.TransmitTo | VoodooPS2Controller/VoodooPS2Controller.cpp:1139-1149 | a byte for a mouse port is announced to the controller first, by its number if there is a multiplexer |
| Controller.ApplePS2Controller.Flush | VoodooPS2Controller/VoodooPS2Controller.cpp:1177-1186 | all waiting bytes are thrown away and counted in 32 bits |
| Controller.ApplePS2Controller.ChangeCommandByte | VoodooPS2Controller/VoodooPS2Controller.cpp:1192-1198 | the command byte is read, changed and written back |
| Controller.ApplePS2Controller.ExecuteCommand | VoodooPS2Controller/VoodooPS2Controller.cpp:1123-1199 | one command of any kind |
| Controller.ApplePS2Controller.RunCommands | VoodooPS2Controller/VoodooPS2Controller.cpp:1121-1202 | the loop over the commands stops at the first failure |
| Controller.ApplePS2Controller.ProcessRequest | VoodooPS2Controller/VoodooPS2Controller.cpp:1092-1227 | results, count, input and output of a whole request; none at all while offline; the interrupt counter is restored on every path |
| Controller.ApplePS2Controller.HandleInterrupt | VoodooPS2Controller/VoodooPS2Controller.cpp:161-218 | all waiting bytes are handed out in order, and exactly the ports in use whose driver completed a packet get their event raised, in order |
| Controller.HandOutsFollowPolls | VoodooPS2Controller/VoodooPS2Controller.cpp:161-218 | each byte of an interrupt is handed out right after the poll that saw it, to the port that its status names |
| Controller.Request.constructor | VoodooPS2Controller/ApplePS2Device.h:400-420 | a request and its command list |
| RequestQueue.RunKeeps | VoodooPS2Controller/VoodooPS2Controller.cpp:965-996 | over every interleaving of submissions and processing: submitted = processed ++ local batch ++ queue in order, each request completed once as it asks, a blocking request right after all that was queued before, and no request waiting without a wake-up under way |
| RequestQueue.StepKeeps | VoodooPS2Controller/VoodooPS2Controller.cpp:1231-1256 | every step keeps this |
| RequestQueue.EveryRequestIsKept | VoodooPS2Controller/VoodooPS2Controller.cpp:965-996 | over every interleaving the requests put into the queue are those processed, those taken and those still in it, in order; and the blocking requests that got the gate are those processed and the one for which it is held |
| RequestQueue.EachMeetsItsFate | VoodooPS2Controller/VoodooPS2Controller.cpp:1215-1228 | a processed request on the stack of its caller is left alone, a target with an action is called, and any other request is freed |
| RequestQueue.WakesAreAsked | VoodooPS2Controller/VoodooPS2Controller.cpp:1231-1256 | the work loop never wakes up more often than requests were put into the queue |
| RequestQueue.DrainingEnds | VoodooPS2Controller/VoodooPS2Controller.cpp:1250-1255 | left to itself the holder of the gate processes exactly what it took, then the request of the caller that blocked for it, and lets go |
| Power.AtRest | VoodooPS2Controller/VoodooPS2Controller.cpp:1822-1960 | over every sequence of ordinals in which none beyond the power states is asked for while asleep: interrupts are ignored exactly once and the hardware is offline exactly in Sleep |
| Power.NotAtRest | VoodooPS2Controller/VoodooPS2Controller.cpp:1946-1951 | in every other sequence that fails after some request, so the condition is exact |
| Power.ClientsAlternate | VoodooPS2Controller/VoodooPS2Controller.cpp:1964-1979 | every client is told to disable and enable its device in turns, once for each change between sleep and work |
| Power.CalledOnline | VoodooPS2Controller/VoodooPS2Controller.cpp:1838-1932 | no client is called while the hardware is offline |
| Power.CommandByteAtRest | VoodooPS2Controller/VoodooPS2Controller.cpp:1896-1943 | on an 8042 that keeps its command byte, clocks and interrupts are on after every wake and off in Sleep |
| Power.SuspendQuiets | VoodooPS2Controller/VoodooPS2Controller.cpp:1828-1860 | the two command byte changes of going to sleep |
| Power.ResumeWorks | VoodooPS2Controller/VoodooPS2Controller.cpp:1896-1943 | the two command byte changes of waking up |
| Power.WakesInOrder | VoodooPS2Controller/VoodooPS2Controller.cpp:1920-1934 | on waking the keyboard is told first, then the mouse ports in order; with mouseWakeFirst it is told last |
| Power.SleepsInOrder | VoodooPS2Controller/VoodooPS2Controller.cpp:1838-1843 | on going to sleep the keyboard is told last |
| Power.SuspendKeepsOthers | VoodooPS2Controller/VoodooPS2Controller.cpp:1828-1860 | going to sleep changes none of the bits of the command byte but 0, 1, 4 and 5, as far as clients leave them alone |
| Power.ResumeKeepsOthers | VoodooPS2Controller/VoodooPS2Controller.cpp:1896-1943 | waking up changes no others either in the byte that resetting left, but for bit 2, which it sets; with a keyboard alone bit 5 stays as well |
| Power.PowerController.SetCommandByte | VoodooPS2Controller/VoodooPS2Controller.cpp:944-961 | the byte is changed, written only if different, the old byte is returned and the interrupt counter is restored |
| Power.PowerController.DispatchDriverPowerControl | VoodooPS2Controller/VoodooPS2Controller.cpp:1964-1979 | the keyboard's client, or all mouse clients in order |
| Power.PowerController.NotifyAwake | VoodooPS2Controller/VoodooPS2Controller.cpp:1920-1934 | keyboard first, unless the mouse is to wake first |
| Power.PowerController.GoToSleep | VoodooPS2Controller/VoodooPS2Controller.cpp:1828-1860 | the steps of going to sleep in their order |
| Power.PowerController.WakeUp | VoodooPS2Controller/VoodooPS2Controller.cpp:1862-1944 | the steps of waking up in their order |
| Power.PowerController.SetPowerStateGated | VoodooPS2Controller/VoodooPS2Controller.cpp:1822-1960 | the whole transition |
| Interrupts.CompletesInRange | VoodooPS2Controller/VoodooPS2Controller.cpp:1060-1075 | every port that a status byte can name and whose driver listens is one whose event gets raised |
| Interrupts.StepKeeps | VoodooPS2Controller/VoodooPS2Controller.cpp:161-218 | every step of handlers, polled reads and packet actions leaves each completed packet attended; an action that has seen its ring empty does not attend it any more, even before it has returned |
| Interrupts.RunKeeps | VoodooPS2Controller/VoodooPS2Controller.cpp:1060-1088 | the same over every interleaving |
| Interrupts.NothingStranded | VoodooPS2Controller/VoodooPS2Controller.cpp:1077-1088 | whenever no handler and no polled read is mid-step, a port with a completed packet has its event raised or a packet action that will look at the ring again |
| Interrupts.PacketsAreCounted | VoodooPS2Controller/VoodooPS2Controller.cpp:1060-1088 | over every interleaving every completed packet is taken once or still in its ring |
| Interrupts.RunInUse | VoodooPS2Controller/VoodooPS2Controller.cpp:1060-1088 | nothing is ever done about a port that is not in use |
| Interrupts.ActionsHaveCauses | VoodooPS2Controller/VoodooPS2Controller.cpp:1077-1088 | a port has never had more packet actions than packets, and every raised event, and every handler or polled read about to raise one, has a packet of its own |
| Interrupts.WakesAll | VoodooPS2Controller/VoodooPS2Controller.cpp:1077-1088 | a handler left to itself raises the events of all ports in use whose driver completed a packet, and of no others, and ends |
| Interrupts.ActionEmpties | VoodooPS2Mouse/VoodooPS2Mouse.cpp:585-609 | a packet action left to itself empties the ring of its port and no other, and returns |
| Rmcf.TranslatesReadable | VoodooPS2Controller/VoodooPS2Controller.cpp:2271-2337 | an array is translated iff it starts with an empty array, or has an even number of entries with strings for keys |
| Rmcf.PairsNeedKeys | VoodooPS2Controller/VoodooPS2Controller.cpp:2315-2331 | a dictionary is built iff every key is a string |
| Rmcf.SetObjectSets | VoodooPS2Controller/VoodooPS2Controller.cpp:2315-2332 | setting an entry changes the value of its key and no other; a new key comes last |
| Rmcf.DictionaryMeans | VoodooPS2Controller/VoodooPS2Controller.cpp:2315-2337 | every key of a translated list has the last value that the list gives for it |
| Rmcf.EntryAfter | VoodooPS2Controller/VoodooPS2Controller.cpp:2243-2306 | what a translation leaves in place: an array that starts with an empty one becomes its translation, arrays that can be no list of pairs and single values stay as they are |
| Rmcf.PairsAfter | VoodooPS2Controller/VoodooPS2Controller.cpp:2315-2331 | a list of keys and values keeps its keys, and the values before the first key that is no string are edited in place |
| Rmcf.TextMeans | VoodooPS2Controller/VoodooPS2Controller.cpp:2251-2268 | the four texts that are translated, and to what |
| Rmcf.PairsComeBack | VoodooPS2Controller/VoodooPS2Controller.cpp:2315-2332 | printed pairs come back in order behind those read before |
| Rmcf.RoundTrip | VoodooPS2Controller/VoodooPS2Controller.cpp:2243-2337 | printing a value as a package and translating it gives the value back if and only if it holds no literal ">>y" or ">>n" and no empty dictionary |
| Rmcf.PrintIsInjective | VoodooPS2Controller/VoodooPS2Controller.cpp:2243-2337 | different printable values have different packages |
| AlpsBitmap.PointsAreRuns | VoodooPS2Trackpad/VoodooPS2ALPSGlidePoint.cpp:703-727 | the decoder of a map finds the number of maximal runs of ones, the first run, and the last one of several |
| AlpsTouch.CornersOnPad | VoodooPS2Trackpad/VoodooPS2ALPSGlidePoint.cpp:762-816 | for maps no wider than the pad's lines all four corners lie on the pad, with single runs divided and axes flipped |
| AlpsTouch.OnAxisIff | VoodooPS2Trackpad/VoodooPS2ALPSGlidePoint.cpp:742-777 | for a map at most one line wider than the pad both line groups, halves of a single run included, have their middles on the pad iff the additional line is untouched or the run that reaches it has three lines at least |
| AlpsTouch.CornersOnPadIff | VoodooPS2Trackpad/VoodooPS2ALPSGlidePoint.cpp:779-816 | so the four corners of two such maps lie on the pad iff this holds on both axes, flipped or not |
| AlpsTouch.WiderMapLeavesPad | VoodooPS2Trackpad/VoodooPS2ALPSGlidePoint.cpp:779-799 | the additional line alone is such a map: on every pad it puts a corner off the pad |
| AlpsTouch.ClosestIsNearest | VoodooPS2Trackpad/VoodooPS2ALPSGlidePoint.cpp:822-833 | the search finds a corner to which none is closer |
| AlpsTouch.SecondTouch | VoodooPS2Trackpad/VoodooPS2ALPSGlidePoint.cpp:739-860 | the second touch is a corner of the box, on the pad: the one opposite to the closest when it is selected, which it then stays; and the fingers are the larger number of runs |
| AlpsReports.AxisGroups | VoodooPS2Trackpad/VoodooPS2ALPSGlidePoint.cpp:739-777 | the line groups of an axis are the first and the last run of its map; a single run of n lines is divided into its first lines, all but (n - 1) / 2, and those from there on |
| AlpsReports.CornersAreMiddles | VoodooPS2Trackpad/VoodooPS2ALPSGlidePoint.cpp:779-816 | the four corners, clockwise from the first groups of both axes, are the middles of their groups scaled to the pad and rounded down; version 5 counts x from the other side, versions 3 and 4 y |
| AlpsPackets.ReassemblyIsLocal | VoodooPS2Trackpad/VoodooPS2ALPSGlidePoint.cpp:1032-1122 | over any stream a continuation contributes iff the packet right before it was a first packet, which is joined once; a first packet followed by anything else is never reported |
| AlpsPackets.PlayedIsShown | VoodooPS2Trackpad/VoodooPS2ALPSGlidePoint.cpp:1032-1122 | over any stream the reports of a pad are those of whole packets and of adjacent first and second packets, in order |
| AlpsReports.KindFields | VoodooPS2Trackpad/VoodooPS2ALPSGlidePoint.cpp:952-1030 | which packets are first, second and whole ones, by the masks of the three decoders |
| AlpsReports.KindFieldsV8 | VoodooPS2Trackpad/VoodooPS2ALPSGlidePoint.cpp:1653-1695 | the same for version 8 |
| AlpsReports.PositionFields | VoodooPS2Trackpad/VoodooPS2ALPSGlidePoint.cpp:952-1030 | position and pressure of a packet by its masks |
| AlpsReports.MapFields | VoodooPS2Trackpad/VoodooPS2ALPSGlidePoint.cpp:952-1030 | both maps and the finger count of a packet by its masks |
| AlpsReports.WholeIsReported | VoodooPS2Trackpad/VoodooPS2ALPSGlidePoint.cpp:1032-1122 | a whole packet is reported at once: one finger iff its pressure field is positive, at its x field, and y plus the y field is the height of the pad |
| AlpsReports.OthersAreNot | VoodooPS2Trackpad/VoodooPS2ALPSGlidePoint.cpp:1032-1122 | a first packet waits, and a second one without it is ignored |
| AlpsReports.JoinedIsReported | VoodooPS2Trackpad/VoodooPS2ALPSGlidePoint.cpp:1032-1122 | joined packets report the first one so; with both maps non-empty and two fingers or more in the second packet, that many, with the second touch at the selected corner, its y counted from the bottom; the corner stays selected until fewer are reported |
| AlpsPackets.ReportedOnPad | VoodooPS2Trackpad/VoodooPS2ALPSGlidePoint.cpp:1032-1122 | two or more fingers are only reported from joined packets, the second touch lies on the pad, and its corner is forgotten with fewer fingers |
| AlpsPackets.MapsFit | VoodooPS2Trackpad/VoodooPS2ALPSGlidePoint.cpp:952-973 | the maps of Pinnacle and Dolphin packets are no wider than the pad's lines |
| AlpsPackets.BitmapOfThree | VoodooPS2Trackpad/VoodooPS2ALPSGlidePoint.cpp:1206-1253 | in version 4 the slot index stays in 0..2, and a bitmap is complete exactly after every third packet since the last synchronization, made of the last three packets |
| AlpsPackets.CompleteInRow | VoodooPS2Trackpad/VoodooPS2ALPSGlidePoint.cpp:1220-1246 | of the three packets of a bitmap only the first may synchronize |
| AlpsPackets.Reported4OnPad | VoodooPS2Trackpad/VoodooPS2ALPSGlidePoint.cpp:1245-1269 | in version 4 a second touch is reported from complete bitmaps only and lies on the pad |
| AlpsReports.PositionFields4 | VoodooPS2Trackpad/VoodooPS2ALPSGlidePoint.cpp:1206-1269 | position, pressure and synchronization of a version 4 packet by its masks |
| AlpsReports.MapXFields4 | VoodooPS2Trackpad/VoodooPS2ALPSGlidePoint.cpp:1206-1253 | the x map of the six bitmap bytes by its masks |
| AlpsReports.MapYFields4 | VoodooPS2Trackpad/VoodooPS2ALPSGlidePoint.cpp:1206-1253 | the y map of the six bitmap bytes by its masks |
| AlpsReports.Reported4 | VoodooPS2Trackpad/VoodooPS2ALPSGlidePoint.cpp:1245-1269 | in version 4 every packet reports its own position; with a complete bitmap of two runs or more on an axis also the number of runs and the selected corner |
| AlpsPad.ApplePS2ALPSGlidePoint.GetBitmapPoints | VoodooPS2Trackpad/VoodooPS2ALPSGlidePoint.cpp:703-727 | the loop that shifts the map computes the runs |
| AlpsPad.ApplePS2ALPSGlidePoint.FindCorners | VoodooPS2Trackpad/VoodooPS2ALPSGlidePoint.cpp:779-816 | the four corners, flipped in place |
| AlpsPad.ApplePS2ALPSGlidePoint.Closest | VoodooPS2Trackpad/VoodooPS2ALPSGlidePoint.cpp:822-833 | the search loop over the corners |
| AlpsPad.ApplePS2ALPSGlidePoint.ProcessMaps | VoodooPS2Trackpad/VoodooPS2ALPSGlidePoint.cpp:739-860 | fingers, selected corner and second touch of two maps |
| AlpsPad.ApplePS2ALPSGlidePoint.ProcessTouchpadPacket | VoodooPS2Trackpad/VoodooPS2ALPSGlidePoint.cpp:1032-1122 | the saved packet, the selected corner and the report after one packet of version 3 or 5 |
| AlpsPad.ApplePS2ALPSGlidePoint.ProcessPacketSs4 | VoodooPS2Trackpad/VoodooPS2ALPSGlidePoint.cpp:1653-1695 | the saved packet and what is reported after one packet of version 8 |
| AlpsPad.ApplePS2ALPSGlidePoint.ProcessPacketV4 | VoodooPS2Trackpad/VoodooPS2ALPSGlidePoint.cpp:1206-1269 | the slots, the selected corner and the report after one packet of version 4 |
| AlpsNibbles.ListenHears | VoodooPS2Trackpad/VoodooPS2ALPSGlidePoint.cpp:61-97 | with either table the byte stream for any sequence of addresses and nibbles is uniquely decodable: a pad that listens byte by byte hears it exactly |
| AlpsNibbles.WireIsInjective | VoodooPS2Trackpad/VoodooPS2ALPSGlidePoint.cpp:61-97 | different sequences have different byte streams |
| AlpsNibbles.RequestsSendWire | VoodooPS2Trackpad/VoodooPS2ALPSGlidePoint.cpp:1743-1784 | the requests that are put together send exactly this code |
| AlpsNibbles.PadRecovers | VoodooPS2Trackpad/VoodooPS2ALPSGlidePoint.cpp:1786-1809 | from the bytes of any list of set_addr and write_reg the pad recovers every 16-bit address and every value written to it |
| AlpsNibbles.SuccessSendsAll | VoodooPS2Trackpad/VoodooPS2ALPSGlidePoint.cpp:1774-1784 | a request of this kind that succeeds has put its bytes on the wire, against every device |
| AlpsNibbles.WireIsHeard | VoodooPS2Trackpad/VoodooPS2ALPSGlidePoint.cpp:1743-1872 | against every device that lets the requests succeed, listening to the data bytes put on the wire for any list of set_addr and write_reg gives every address and every value |
| AlpsNibbles.PadIsReached | VoodooPS2Trackpad/VoodooPS2ALPSGlidePoint.cpp:1743-1872 | the same seen from the devices: the bytes that reach the port of the pad through the controller are enough, whichever port that is |
| AlpsNibbles.IdentityIsRead | VoodooPS2Trackpad/VoodooPS2ALPSGlidePoint.cpp:1743-1784 | the one command of the code that asks for more than an acknowledgement, 0xF2, is followed by reading a byte, and no other is |
| AlpsNibbles.CommandMode.SendNibble | VoodooPS2Trackpad/VoodooPS2ALPSGlidePoint.cpp:1743-1784 | the request for a nibble from the table's entry |
| AlpsNibbles.CommandMode.SetAddress | VoodooPS2Trackpad/VoodooPS2ALPSGlidePoint.cpp:1786-1809 | the address command and the four nibbles from the highest down, up to the first request that does not succeed |
| AlpsNibbles.CommandMode.WriteReg | VoodooPS2Trackpad/VoodooPS2ALPSGlidePoint.cpp:1863-1872 | the two nibbles of a value |
| MiddleButton.RunKeeps | VoodooPS2Mouse/VoodooPS2Mouse.cpp:633-735 | over every run the timer is set and buttons are pending exactly while the machine waits, and meanwhile neither of the two buttons is reported |
| MiddleButton.NoPressLost | VoodooPS2Mouse/VoodooPS2Mouse.cpp:656-674 | over every run: whenever the machine gives up waiting for the second button, a pending button appears in an event of that step, and with three-button input all of it does |
| MiddleButton.MiddleClick | VoodooPS2Mouse/VoodooPS2Mouse.cpp:633-735 | after every run that leaves the machine without buttons: two buttons pressed together and released one at a time within the limit, each packet repeated any number of times, are a middle button while both are down and nothing else |
| MiddleButton.ReleaseRests | VoodooPS2Mouse/VoodooPS2Mouse.cpp:633-736 | after every run a packet without buttons leaves the machine without buttons, with nothing pending and no timer |
| MiddleButton.ClickAfterRelease | VoodooPS2Mouse/VoodooPS2Mouse.cpp:633-736 | so a middle click works after every run that ends with such a packet |
| MiddleButton.SettledPasses | VoodooPS2Mouse/VoodooPS2Mouse.cpp:711-714 | once settled the machine reports every packet as it is until all buttons are released |
| MiddleButton.ThirdButtonSettles | VoodooPS2Mouse/VoodooPS2Mouse.cpp:640-642 | the third button settles a machine without buttons at once |
| MiddleButton.PacketAfterFirst | VoodooPS2Mouse/VoodooPS2Mouse.cpp:656-674 | after every run without buttons: what any packet after a first button reports, by whether it comes within the limit, has both buttons, the same one, or others |
| MiddleButton.TimerAfterFirst | VoodooPS2Mouse/VoodooPS2Mouse.cpp:613-674 | the timer after a first button reports it |
| MiddleButton.BothStay | VoodooPS2Mouse/VoodooPS2Mouse.cpp:677-722 | while both are down every packet is a middle button, whatever else is down |
| MiddleButton.PacketAfterOneLeft | VoodooPS2Mouse/VoodooPS2Mouse.cpp:676-709 | once one of the two is up, any packet is one report of its buttons, or of none while nothing changes within the limit |
| MiddleButton.TimerAfterOneLeft | VoodooPS2Mouse/VoodooPS2Mouse.cpp:613-709 | and the timer reports the button that is left |
| MiddleButton.ElapsedWraps | VoodooPS2Mouse/VoodooPS2Mouse.cpp:626-631 | times are unsigned differences of 64 bits |
| MiddleButton.HeldButtonTakenBackIff | VoodooPS2Mouse/VoodooPS2Mouse.cpp:613-736 | after every run, for every list of inputs during which one of the two buttons is down and the other is not: the button is reported and later taken back iff nothing else was down when it was pressed or left over of a middle click, the first input that ends the waiting is the timer, and a packet without the third button follows |
| MiddleButton.FurtherButtonsKeep | VoodooPS2Mouse/VoodooPS2Mouse.cpp:656-709 | with a further button down meanwhile nothing is ever taken back |
| MiddleButton.SettledReports | VoodooPS2Mouse/VoodooPS2Mouse.cpp:656-674 | once a late or different packet has settled the machine, every event carries the held button |
| MiddleButton.HeldButtonIsTakenBack | VoodooPS2Mouse/VoodooPS2Mouse.cpp:613-619 | the shortest such run from rest: a single button is reported by the timer and taken back by the next packet although it is still held |
| MiddleButton.LeftOverIsTakenBack | VoodooPS2Mouse/VoodooPS2Mouse.cpp:676-709 | the same for the button left over of a middle click |
| MiddleButton.Mouse.AwaitSecond | VoodooPS2Mouse/VoodooPS2Mouse.cpp:656-674 | the state that waits for a second button |
| MiddleButton.Mouse.AwaitNone | VoodooPS2Mouse/VoodooPS2Mouse.cpp:691-709 | the state that waits for the last button to go up |
| MiddleButton.Mouse.MiddleButton | VoodooPS2Mouse/VoodooPS2Mouse.cpp:621-736 | one turn of the machine, and the buttons unchanged if it is switched off |
| MiddleButton.Mouse.OnPacket | VoodooPS2Mouse/VoodooPS2Mouse.cpp:795-798 | a packet's buttons as they are reported and remembered, and unchanged if the simulation is off |
| MiddleButton.Mouse.OnButtonTimer | VoodooPS2Mouse/VoodooPS2Mouse.cpp:613-619 | the timer works with the buttons reported last, and does nothing if the simulation is off |
| MiddleButton.Mouse.constructor | VoodooPS2Mouse/VoodooPS2Mouse.cpp:84-88 | the machine at rest |

## Left out

- The Synaptics finger types, the thumb, the clickpad button, force touch and the adaptation of the logical limits: they do not feed back into the map.
- SynapticsTouchPad.TouchPad.ParseHwState: demands that the driver looks at no index before its arrays (`SynapticsBounds.InBoundsIff` says exactly when it would); what it would find or overwrite there is other memory and not modelled.
- SynapticsTouchPad.TouchPad.RenumberFingers: the same.
- SynapticsTouchPad.TouchPad.Swap: the same, for an unmapped contact.
- SynapticsTouchPad.TouchPad.UnpressJump: the same.
- SynapticsTouchPad.TouchPad.AddWithoutLift: the same.
- SynapticsRecovery.LoweringRestoresIff: is about packets that lower the count; when an addition to a wrong map happens to set it right is not said.
- SynapticsTouchPad.TouchPad.SendTouch: a contact is its number, its average position and half its pressure; clipping and shifting to the logical limits and the other transducer fields are left out.
- Requests.RequestPassesOn: during start-up nothing is handed to drivers at all (`ReadAnyAtStartup`); a flush throws bytes of every port away, and a change of the command byte reads the keyboard's port for itself, so neither can promise this.
- SynapticsTouchPad.TouchPad.Distance: is computed in unbounded integers; `SynapticsMap.DistFitsInt` shows that it fits the driver's int for coordinates up to 16383.
- Controller.ApplePS2Controller.ReadDataPort: `_ignoreOutOfOrder`, which the driver never sets, and the queue of the debugger build are not modelled.
- Controller.ApplePS2Controller.ProcessRequest: does not model storage: which completion is called and what is freed is the result `fate`.
- Power.PowerController.WakeUp: resetting the controller and its devices and switching the multiplexer on are one arbitrary value of the command byte.
- Interrupts.NothingStranded: takes it that a driver which installed an interrupt action has a packet action too, as all of them do.
- Rmcf.RoundTrip: packages are values, so an array that occurs twice in a package is two arrays; what the translation edits in place is the second part of its result. Strings hold no NUL.
- AlpsTouch.CornersOnPad: is about maps no wider than the pad's lines; Rushmore packets carry one line more on each axis, for which `CornersOnPadIff` has the exact condition.
- AlpsTouch.CornersOnPadIff: demands a pad with at least two units of distance between its lines, as all of them have.
- AlpsPad.ApplePS2ALPSGlidePoint.ProcessPacketSs4: what is reported is the packets a report is made from; the coordinates of version 8 are plain field extraction.
- AlpsPackets.MapsFit: the 35 bits of a Dolphin profile are put together by adding disjoint fields, and masks are remainders.
- MiddleButton.Mouse.OnPacket: of a packet only the buttons are modelled.
- The framers of the mouse, ALPS, Sentelic and Elan drivers: the mouse's is the one proved here with padding and a reset counter, and the ALPS one clears its byte count outside interrupt time, so it has no framing function of the stream.
- The ALPS nibble table of version 6: it has no mark for sending the data bytes, so several nibbles share one byte stream.
- Keyboard maps, LEDs, mode bytes, capability queries, trackstick packets and the FocalTech drivers: field extraction and tables.
- IOKit: matching, start and stop, reference counting, registry properties, notifications and messages.
