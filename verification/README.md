# A verified model of SpiralSynthModular

SpiralSynthModular is a modular synthesiser: devices on a canvas, wires between
their ports, and an audio thread that runs the devices in graph order. This
project models the parts of it whose correctness does not show in any single
function, and proves them.

* **Canvas wiring** (`Wiring`, `JackPorts`, `Session`, `OutputCounts`, `UserView`,
  `Effects`, `Canvas`). The wire vector,
  the counts and lights of the port buttons and the plugin inputs bound to plugin
  outputs are three views of one graph. `Wiring` gives every operation of the
  canvas as a function on a patch, `Session` runs them as events, and `Canvas` has
  the classes whose methods update the fields in place and are proved equal to
  those functions. `OutputCounts` says when the count of an output is exact,
  `UserView` that every session shows what the same session shows on paper, where
  there are only devices, wires and a wire in hand, and `Effects` what each gesture
  does to wires, ports, counts and buffers.
* **Patch files** (`PatchWires`, `PatchReader`, `StandIns`, `Decimals`, `CopyText`,
  `CopyPaste`, `Pasting`). Two independent readers of one token format with two record
  lengths, stand-in devices that grow the ports a file asks for, and a copy writer
  that goes back and overwrites its own count.
* **Freeze protocol** (`EngineGate`). The two threads, the channel flag, the
  acknowledged flag, the channel mutex and the cycle lock, one step at a time.
* **Sequencer track** (`Scores`, `Playback`, `TrackFile`, `Sequencer`). Patterns shared by
  sequences, an id for everything, and a file that keeps none of the ids.
* **LADSPA** (`LadspaIndex`, `LadspaHolders`, `LadspaInfo`, `GroupGaps`,
  `RdfGroups`, `LadspaPorts`, `LadspaPlugin`). The scan, the reference counts, the
  walk over the RDF classes, and the port settings of a device.
* **Signal processing** (`Biquad`, `Bilinear`, `IirFilter`, `Echo`, `Delay`). Ring
  buffers and a cascade of sections over flat arrays, proved equal to equations
  over the whole stream.
* **ESD client** (`EsdStream`, `EsdClient`) and **preferences** (`Prefs`,
  `PrefsRoundTrip`, `SpiralInfo`).

Where the program works by changing things, the model is a class with the same
fields and its methods are tied to specification functions; the theorems are then
about those functions, over every run. `dafny verify dfyconfig.toml` checks it all.

## Where the code and the intention part

Each of these is a theorem with the exact condition, or a concrete run.

* Cancelling a wire drawn from a wired output takes one off a count nobody raised,
  so the output can go dark under a live wire; over a whole session the output
  counts stay exact if and only if that never happens (`CancelKeepsOutputsExact`,
  `EverySessionExact`, `SpoiltByTheseSessions`).
* Laying a list of wires keeps the patch sound exactly when their inputs are free
  and apart: the reader does not look (`LoadAllGood`).
* A stand-in that grows rebuilds its ports without keeping connections, so a merge
  that asks a wired stand-in for one port more cuts its old wires
  (`ReadersRestoreEveryWire`); and the two readers rename a wire differently when
  just one of its ends is among the new ids (`BothReadersAgree`).
* Clearing the canvas is sound exactly when no wire is being drawn
  (`ClearCanvasGood`).
* The count written back over the copy file's placeholder is sound exactly below a
  hundred wires (`BackPatchSound`).
* `UpdateHostInfo` thaws the engine exactly when no reset was pending; otherwise
  the engine can stay silent for good, and does in a run that is given
  (`HostUpdateThawsUnlessResetPending`, `StuckStays`, `StuckIsReachable`).
* `FreezeAll` called while its caller holds the cycle lock can never return
  (`FreezeReturnsExact`).
* A saved track comes back field by field exactly when every sequence name is one
  line and only the last is empty (`ReloadExact`). It sounds the same exactly when
  no name before the last stops the reader, by beginning with a newline, being
  empty or having more than blanks after its first newline, or when all that is
  lost, and the first pattern that plays in its stead, has no note of positive
  length (`SaveThenLoadInaudible`, `NamelessIsLost`).
* A default for an integer port can be below the port's own minimum
  (`IntegerDefaultExact`), the zero hint does not give zero on a logarithmic port
  between two bounds of one sign (`ZeroHintExact`), and a reset can leave the four
  setting vectors of different lengths (`ResetExact`, `FailedResetExact`).
* A preferences file whose version is not 2 is written in one format and read in
  another: the buffer size is read as zero, or the load never returns
  (`OldVersionLosesBuffer`).

The header of LADSPA says that an integer default must be rounded and advises
bounds a little wider than the range; the code rounds down, and the model follows
the code.

## Model

| member | source | states |
|---|---|---|
| Wiring.DropAllFilters | GUI/Widgets/Fl_Canvas.C:775-806 | the erase-and-restart loop ends, and the wires it leaves are the old list filtered in order; the gesture, the ids and the set of devices are untouched |
| Wiring.DisconnectCore | GUI/Widgets/Fl_Canvas.C:843-857 | dropping any wire keeps the invariant: live ends in range, one wire per input, bindings as wired, input counts exact, output counts bounded, lights right |
| Wiring.ConnectCore | GUI/Widgets/Fl_Canvas.C:751-767 | connecting to a free input keeps the invariant |
| Wiring.ConnectGood | SpiralSynthModular.C:2199-2239 | and keeps faces and plugins agreeing on their ports, provided the half-drawn wire does not wait at that input |
| Wiring.ClearPendingCore | GUI/Widgets/Fl_Canvas.C:553-566 | cancelling a gesture keeps the invariant although it decrements an output that was never incremented |
| Wiring.PortOnGood | GUI/Widgets/Fl_Canvas.C:715-772 | a port turned on, in any state of the gesture, keeps everything |
| Wiring.PortOffGood | GUI/Widgets/Fl_Canvas.C:773-812 | a port turned off, input or output, keeps everything, drops exactly the wires at that port and leaves nothing in hand |
| Wiring.PressGood | GUI/Widgets/Fl_DeviceGUI.C:34-55 | a press of either button, behind the guards of the button and the device, keeps everything |
| Wiring.PruneEffect | GUI/Widgets/Fl_Canvas.C:822-861 | pruning leaves exactly the old wires filtered in order, none of them beyond the given ports of the device, no gesture on it, and all else sound |
| Wiring.RemoveGood | GUI/Widgets/Fl_Canvas.C:876-881 | deleting a device leaves a sound patch: no wire, binding or gesture still leans on it |
| Wiring.RecountIsLocal | GUI/Widgets/Fl_Canvas.C:865-874 | recounting a rebuilt device touches its own buttons only |
| Wiring.RecountRight | GUI/Widgets/Fl_Canvas.C:865-874 | from blank buttons it gives every port its exact number of wires and the right light |
| Wiring.SetupPortsCore | GUI/Widgets/Fl_DeviceGUI.C:212-322 | a re-layout, connections kept or not, filters the wire list in order, leaves the invariant, the device's output counts exact and every other device's ports as they were |
| JackPorts.SetNumberPortsGood | Plugins/Devices/JackPlugin/JackPlugin.C:334-352 | changing the number of JACK ports, to any numbers, keeps everything and gives the plugin the numbers asked for, or the nearest of 2 and 64 |
| JackPorts.SetNumberPortsKeepsSurvivors | Plugins/Devices/JackPlugin/JackPlugin.C:341-348 | the wire list is the old one without the wires past the numbers asked for, in order, and the input of each surviving wire reads the very buffer it read before |
| JackPorts.SetNumberPortsReleasesCleanly | Plugins/Devices/JackPlugin/JackPlugin.C:342-346 | no input of any plugin stays bound to an output that was released |
| JackPorts.InputReadsItsWire | SpiralSynthModular.C:2199-2262 | in a sound patch an input reads something exactly when a wire ends at it, and then the buffer of the output that wire names |
| JackPorts.GrowGood | GUI/Widgets/Fl_DeviceGUI.C:212-322 | a plugin that grew before telling the canvas ends in a sound patch, and if connections are kept every wire stays in its place |
| JackPorts.AddChannelGood | Plugins/Devices/MixerPlugin/MixerPlugin.C:153-163 | a mixer with a channel to add, its plugin ahead of the canvas, keeps the patch sound and every wire in its place |
| JackPorts.RemoveChannelGood | Plugins/Devices/MixerPlugin/MixerPlugin.C:165-174 | one with a channel to give up, the canvas ahead of its plugin, keeps the patch sound and drops the wires of that channel and no other |
| Session.RelayoutGood | SpiralSynthModular.C:2268-2279 | a plugin that rebuilt its ports before telling the canvas, connections not kept, still ends in a sound patch |
| Session.StepGood | GUI/Widgets/Fl_Canvas.C:570-640 | each event that reaches the wiring keeps everything, among them a mixer that gains or loses a channel and a JACK device that changes its ports |
| Session.RunGood | GUI/Widgets/Fl_Canvas.C:715-881 | so does every run of events |
| Session.EverySession | GUI/Widgets/Fl_Canvas.C:715-881 | from an empty canvas, after any run of clicks, cancelled gestures, right clicks, deletions, new devices and re-layouts: live ends, no two wires at an input, every input bound to exactly what its wire names and otherwise to nothing, counts and lights right |
| Session.ConnectThenCut | GUI/Widgets/Fl_Canvas.C:751-806 | drawing a wire and right-clicking its input gives back the very patch |
| Session.EitherEndFirst | GUI/Widgets/Fl_Canvas.C:719-768 | a wire drawn from its output or from its input ends in the same patch, one connection more |
| Session.CancelKeepsOutputsExact | GUI/Widgets/Fl_Canvas.C:553-566 | exact output counts survive a cancelled gesture if and only if it did not start at an output or that output has no wire |
| OutputCounts.PressExact | GUI/Widgets/Fl_Canvas.C:715-772 | from exact output counts a press leaves them exact if and only if it is not a left press on an output of a live device while a gesture from a wired output is pending |
| OutputCounts.StepExact | GUI/Widgets/Fl_Canvas.C:553-566 | of every event: the counts stay exact if and only if it does not cancel a gesture that started at a wired output |
| OutputCounts.EverySessionExact | GUI/Widgets/Fl_Canvas.C:553-881 | in every state of a session from the empty canvas all output counts are exact if and only if no event of it does |
| UserView.StepIsSeen | GUI/Widgets/Fl_Canvas.C:570-881 | each event does to devices, numbers of ports, wires and the wire in hand just what is said of it in a line, with no counts, lights, bindings or restart loops |
| UserView.EverySessionIsSeen | GUI/Widgets/Fl_Canvas.C:570-881 | every session from the empty canvas shows, in every part the user sees, what the same session shows on paper |
| Effects.RightPress | GUI/Widgets/Fl_Canvas.C:773-812 | the right button on a port of a live device, input or output alike: exactly the wires at it go, the others keep number and order, nothing is in hand, and an input reads what it read unless a wire that went had fed it |
| Effects.RightPressCounts | GUI/Widgets/Fl_DeviceGUI.C:336-344 | and each button shows as many less as its port lost wires, never below zero |
| Effects.LeftPressLays | GUI/Widgets/Fl_Canvas.C:751-768 | the left button with a wire in hand that wants this end: the wire is laid last and its input reads its output, all else as it was |
| Effects.LeftPressShows | GUI/Widgets/Fl_DeviceGUI.C:324-334 | and both its buttons show one more, no other |
| Effects.LeftPressDrops | GUI/Widgets/Fl_Canvas.C:553-566 | with an end of this kind in hand already the gesture is cancelled, its button shows one less, and no wire or binding changes |
| Effects.SetNumberPortsExact | Plugins/Devices/JackPlugin/JackPlugin.C:334-352 | a JACK device and its plugin get exactly the number of inputs and outputs asked for from 2 to 64, 2 below that and 64 above; a wire goes if and only if it is at this device at a port not below that number; no other device changes its ports |
| Effects.DeviceGone | GUI/Widgets/Fl_Canvas.C:876-881 | a device killed, swept from the canvas and reaped leaves no trace: its face, its plugin, exactly the wires at it, and the gesture if it was on it |
| Effects.EveryEventKeepsReadings | SpiralSynthModular.C:2199-2262 | whatever event happens, the input of a wire that outlasts it reads the very buffer it read before |
| Session.ClearCanvasGood | GUI/Widgets/Fl_Canvas.C:885-898 | clearing the canvas leaves a sound patch if and only if no wire is half drawn |
| Session.SpoiltByTheseSessions | GUI/Widgets/Fl_Canvas.C:553-566 | one session leaves an output dark with its wire in place; another, cleared mid-gesture, leaves a wire in hand whose device is gone |
| Canvas.DeviceGUI.AddConnection | GUI/Widgets/Fl_DeviceGUI.C:324-334 | counts and lights the port, or refuses one past the buttons |
| Canvas.DeviceGUI.RemoveConnection | GUI/Widgets/Fl_DeviceGUI.C:336-344 | takes one off, never below zero, and darkens at zero |
| Canvas.Host.RemoveWire | GUI/Widgets/Fl_Canvas.C:788-800 | in place, one wire is dropped from all three views and no other field changes |
| Canvas.Host.DropWires | GUI/Widgets/Fl_Canvas.C:778-806 | the loop over the vector is the specified drop of every doomed wire |
| Canvas.Host.ClearIncompleteWire | GUI/Widgets/Fl_Canvas.C:553-566 | the two buttons and the half-drawn wire change as specified |
| Canvas.Host.Complete | GUI/Widgets/Fl_Canvas.C:753-765 | push, bind and light are together the specified connection |
| Canvas.Host.TurnOn | GUI/Widgets/Fl_Canvas.C:715-772 | the first half of PortClicked is the specified one |
| Canvas.Host.TurnOff | GUI/Widgets/Fl_Canvas.C:773-812 | the second half of PortClicked is the specified one |
| Canvas.Host.PressButton | GUI/Widgets/Fl_DeviceGUI.C:346-374 | a button press is the specified press |
| Canvas.Host.PruneConnections | GUI/Widgets/Fl_Canvas.C:822-861 | in place, as specified |
| Canvas.Host.RestorePortConnections | GUI/Widgets/Fl_Canvas.C:865-874 | in place, the specified recount |
| Canvas.Host.RebuildPorts | GUI/Widgets/Fl_DeviceGUI.C:212-322 | in place, the specified re-layout |
| Canvas.Host.RemoveDevice | GUI/Widgets/Fl_Canvas.C:876-881 | in place, the specified removal |
| Canvas.Host.AddDevice | SpiralSynthModular.C:1072-1091 | a new device takes the next id, and nothing else changes |
| Canvas.Host.SetNumberPorts | Plugins/Devices/JackPlugin/JackPlugin.C:334-352 | telling the canvas first, then removing and adding ports one by one, is the specified resize |
| Canvas.Plugin.Resize | Plugins/Devices/JackPlugin/JackPlugin.C:345-348 | the four loops of one-port changes give the specified ports |
| Canvas.SessionsAreDrawn | GUI/Widgets/Fl_Canvas.C:715-881 | after any run of events the widgets hold what the methods of the host ask for, so each may be called |
| Decimals.NumberOfText | GUI/Widgets/Fl_Canvas.C:386-393 | every number written in decimal reads back as itself |
| PatchWires.RecordsRead | GUI/Widgets/Fl_Canvas.C:1224-1235 | a written list reads back wire by wire by either reader, in both record lengths |
| PatchWires.BothReadersAgree | SpiralSynthModular.C:964-1013 | on every file in any of the three formats and any id map, what the second reader lays and the ports the first asks for, and they are the same ends if and only if each wire is renamed at both ends or neither |
| PatchWires.EnsurePortsGrows | UnavailablePlugin.C:26-65 | a stand-in, wired or not, grows to the ports asked for, at most 4096, and never shrinks below that; no wire changes if it had enough, and otherwise its own wires go and no others |
| PatchWires.EnsurePortsGood | UnavailablePlugin.C:26-65 | and any sound patch stays sound |
| StandIns.EnsurePortsExact | UnavailablePlugin.C:26-65 | of every device: a stand-in has the larger of what it had and what was asked, of which 4096 is the most, and any other what it had |
| PatchWires.NoteAllEnlarges | SpiralSynthModular.C:936-962 | the first pass over any list drops exactly the wires at stand-ins it makes grow, and if the ends of the list are ready every wire of it then has both its ports |
| StandIns.NoteAllExact | SpiralSynthModular.C:936-1013 | after the first pass every device has what it had, or if it is a stand-in just enough for the highest port the list names at it, up to 4096 |
| PatchWires.LoadAllRestores | GUI/Widgets/Fl_Canvas.C:1117-1134 | the second pass then skips none and keeps the order |
| Pasting.LoadAllExact | GUI/Widgets/Fl_Canvas.C:1117-1134 | the second pass lays exactly the wires both of whose ports are on the canvas, in order, after those that were there |
| PatchWires.ReadersRestoreEveryWire | SpiralSynthModular.C:964-1013 | for any list whose ends are devices of the canvas, with ports in range at real ends and below 4096 at stand-ins, each wire renamed at both ends or neither, the two readers in turn leave the old wires but those at stand-ins that grew, and then every wire of the list, in order |
| PatchWires.NoteAllGood | SpiralSynthModular.C:964-1013 | the first pass keeps any sound patch sound, whatever the list and the stand-ins |
| PatchWires.LoadAllGood | GUI/Widgets/Fl_Canvas.C:1073-1184 | with the ports present and the gesture elsewhere the second pass keeps the patch sound if and only if the inputs of the list are free and apart |
| PatchReader.LayWire | GUI/Widgets/Fl_Canvas.C:1117-1134 | one record in place: skipped if an end or a port is missing, else the specified connection, lit before it is pushed |
| PatchReader.StreamWiresIn | GUI/Widgets/Fl_Canvas.C:1073-1184 | the loop over the stream is the specified second pass |
| PatchReader.EnsurePorts | UnavailablePlugin.C:26-65 | the growing loops are the specified growth |
| PatchReader.NoteUnavailablePort | SpiralSynthModular.C:936-962 | one port asked for, in place |
| PatchReader.GrowUnavailablePorts | SpiralSynthModular.C:964-1013 | the loop over the stream is the specified first pass, and whatever the stream holds it stands where it stood |
| CopyText.BackPatchSound | GUI/Widgets/Fl_Canvas.C:373-404 | character by character, the count written over the placeholder leaves every record as it was if and only if there are fewer than a hundred |
| CopyText.CopyReadsBack | GUI/Widgets/Fl_Canvas.C:369-405 | below that the text reads as the count and the records in order |
| CopyPaste.StreamSelectionWiresOut | GUI/Widgets/Fl_Canvas.C:369-405 | the writer appends exactly the text of the wires with both ends selected |
| Pasting.InsideExact | GUI/Widgets/Fl_Canvas.C:369-405 | exactly the wires with both ends selected are copied, in order |
| CopyPaste.PasteDevicesKeeps | SpiralSynthModular.C:1487-1597 | pasting devices keeps the patch sound, gives each a fresh id, apart from one another and from every id in use, and covers the selection, whatever stand-ins the canvas already has |
| Pasting.PasteDevicesExact | SpiralSynthModular.C:1487-1597 | each selected device gets a copy with its ports and kind, or a stand-in or comment with none, nothing else is made, and no device that was there changes |
| CopyPaste.CopyThenPaste | SpiralSynthModular.C:1973-1979 | copying fewer than a hundred internal wires and pasting them into any sound patch, with any stand-ins on it, appends exactly the image of the induced subgraph under an injective renaming onto unused ids, leaves the old wires in place, and the next id above all in use |
| Pasting.PasteWires | SpiralSynthModular.C:1973-1979 | copy and paste wire by wire: for each wire of the source with both ends selected, in order, the same wire between the copies of its ends, after the wires that were there; every copy has a fresh id of its own |
| Pasting.PasteRooms | SpiralSynthModular.C:1973-1979 | and every copy of a device that is not missing ends with the ports of its original, and every device that was there with the ports it had |
| EngineGate.StepInv | SpiralSynthModular.C:287-355 | each step of either thread keeps the protocol's invariant; the flags are followed event by event in `EveryFlagIsBooked` |
| EngineGate.ControlKeepsFlag | libs/libspiralcore/src/ChannelHandler.cpp:371-391 | when Wait returns, the engine has copied the flag at least once since it was set |
| EngineGate.EveryInterleaving | SpiralSynthModular.h:133-156 | in every interleaving, for every control program, the engine is in no device between FreezeAll's return and ThawAll, nor while control holds the cycle lock |
| EngineGate.EveryFlagIsBooked | SpiralSynthModular.C:287-417 | in every run the reset flag is up if and only if it was raised, by a walk with a host change waiting or by ResetAudio, since a period was last rendered; the host flag, the channel flag, the frozen flag and the gate are likewise what their last event made them; and a period runs devices if and only if it did not begin frozen and the flag it copies is down |
| EngineGate.FreezeWaitsForTwo | libs/libspiralcore/src/ChannelHandler.cpp:371-391 | in every run FreezeAll returns only after the engine has updated its channels twice since the flag was stored |
| EngineGate.HostUpdateThawsUnlessResetPending | SpiralSynthModular.h:158-168 | when UpdateHostInfo has run out, the channel says frozen if and only if ResetAudio found a reset pending |
| EngineGate.StuckStays | SpiralSynthModular.C:1161-1181 | frozen with a reset pending, no further reset, host update or gate section helps, in any interleaving |
| EngineGate.StuckIsReachable | SpiralSynthModular.C:331-337 | a run from the start that ends there |
| EngineGate.ResetIsServed | SpiralSynthModular.C:331-417 | with the channel thawed and control idle a reset that waits is over, and the host flag down, within thirteen steps of an engine that renders |
| EngineGate.HostUpdateThaws | SpiralSynthModular.h:158-168 | with no reset pending and no rate change on the way, UpdateHostInfo thaws what it froze, in every interleaving |
| EngineGate.RenderedResetThaws | SpiralSynthModular.h:158-168 | so from any idle thawed state, a reset pending or not, after two rendered periods every host update thaws |
| EngineGate.ThawIsSeen | SpiralSynthModular.C:287-306 | with the flag down and control idle the engine is back among its devices within eleven of its own steps |
| EngineGate.FlipOnce | libs/libspiralcore/src/ChannelHandler.cpp:55-148 | left alone, the engine flips the indicator once more and lets go of both locks |
| EngineGate.FreezeCanReturn | SpiralSynthModular.h:133-137 | from every reachable point inside FreezeAll, before its first store or anywhere in Wait, with control not holding the cycle lock, a run is found on which it returns, the rest of its work unchanged |
| EngineGate.FreezeReturnsExact | SpiralSynthModular.h:133-137 | a run on which FreezeAll returns exists if and only if control does not hold the cycle lock when it calls it |
| Scores.NumberedInOrder | Plugins/Broken/SequencerPlugin/SequencerPlugin.C:121-150 | renumbering keeps what a map holds and the order of visiting it |
| Scores.ApplySound | Plugins/Broken/SequencerPlugin/SequencerPlugin.C:200-305 | each edit keeps the pattern ids gapless from zero and every sequence's pattern in existence |
| Scores.EveryRunSound | Plugins/Broken/SequencerPlugin/SequencerPlugin.C:200-305 | so does every run of edits |
| Scores.CopyPatternPlays | Plugins/Broken/SequencerPlugin/SequencerPlugin.C:71-82 | a copied pattern holds the same notes in the same order under a new id, and no other pattern changes |
| Scores.InstanceInaudible | Plugins/Broken/SequencerPlugin/SequencerPlugin.C:254-260 | giving a sequence its own pattern is heard at no time on no channel |
| Scores.CloneSharesCopyDoesNot | Plugins/Broken/SequencerPlugin/SequencerPlugin.C:222-251 | after a clone every note added to either is in both; after a copy in neither of the other |
| Playback.ReadTrackExact | Plugins/Broken/SequencerPlugin/SequencerPlugin.C:307-329 | a reading collects every note that sounds, each once, by sequence and then by note id, and no other: a note sounds if its sequence is on the channel and the time is strictly inside the span that starts at the start of the sequence plus its own time |
| Playback.NoteEditsHeard | Plugins/Broken/SequencerPlugin/SequencerPlugin.C:288-305 | adding, removing or changing a note is heard at that note in every sequence that plays the pattern and nowhere else; a note whose id is taken is not added |
| Playback.RemovedUnheard | Plugins/Broken/SequencerPlugin/SequencerPlugin.C:262-274 | a removed sequence is heard no more and the others as before |
| Playback.AddedIsEmpty | Plugins/Broken/SequencerPlugin/SequencerPlugin.C:200-220 | a new sequence has the default settings, a pattern of its own and no notes, and nothing else is heard differently |
| Playback.OthersUntouched | Plugins/Broken/SequencerPlugin/SequencerPlugin.C:200-305 | an edit that is not about notes leaves every sequence but its target with its settings and its notes |
| TrackFile.PatternsRead | Plugins/Broken/SequencerPlugin/SequencerPlugin.C:121-150 | saved patterns read back in order with their notes in order |
| TrackFile.SequencesRead | Plugins/Broken/SequencerPlugin/SequencerPlugin.C:164-187 | whatever the names: each is read up to its first newline, and from the first name that stops the reader on every sequence is uninitialised but for start and pattern |
| TrackFile.ReloadExact | Plugins/Broken/SequencerPlugin/SequencerPlugin.C:369-417 | a saved track comes back renumbered, whatever uninitialised fields hold, if and only if that is so |
| TrackFile.RenumberingInaudible | Plugins/Broken/SequencerPlugin/SequencerPlugin.C:307-329 | new ids for every pattern, note and sequence change nothing that is heard, at any time on any channel, nor its order |
| TrackFile.InaudibleExact | Plugins/Broken/SequencerPlugin/SequencerPlugin.C:369-417 | of any sound track: loading what was saved is heard nowhere, at any time on any channel whatever uninitialised fields hold, if and only if nothing is lost to a name that stops the reader, or what is lost and the first pattern have no note of positive length |
| TrackFile.SaveThenLoadInaudible | Plugins/Broken/SequencerPlugin/SequencerPlugin.C:369-417 | so after any run of edits on a new track, saving it and loading it into a fresh one leaves what is heard as it was if and only if that condition holds |
| TrackFile.RenumberedSound | Plugins/Broken/SequencerPlugin/SequencerPlugin.C:392-394 | what a load leaves is sound, so it can be edited and saved again |
| TrackFile.NamelessIsLost | Plugins/Broken/SequencerPlugin/SequencerPlugin.C:170-175 | a track with a nameless first sequence loses a sounding note on reload |
| Sequencer.Track.CopySequence | Plugins/Broken/SequencerPlugin/SequencerPlugin.C:237-251 | in place, the specified copy |
| Sequencer.Track.CloneSequence | Plugins/Broken/SequencerPlugin/SequencerPlugin.C:223-234 | in place, the specified clone |
| Sequencer.Track.InstanceSequence | Plugins/Broken/SequencerPlugin/SequencerPlugin.C:254-260 | in place, the specified instance |
| Sequencer.Track.AddSequence | Plugins/Broken/SequencerPlugin/SequencerPlugin.C:200-220 | a new sequence over a new empty pattern, or nothing if the id is taken |
| Sequencer.Track.RemoveSequence | Plugins/Broken/SequencerPlugin/SequencerPlugin.C:262-274 | the sequence goes, its pattern stays |
| Sequencer.Track.ChangeNote | Plugins/Broken/SequencerPlugin/SequencerPlugin.C:298-305 | one note of the sequence's pattern changes |
| Sequencer.Track.ReadTrack | Plugins/Broken/SequencerPlugin/SequencerPlugin.C:307-329 | the nested loops collect exactly the sounding notes, in order |
| Sequencer.Track.StreamOut | Plugins/Broken/SequencerPlugin/SequencerPlugin.C:397-417 | the writer appends the specified tokens |
| Sequencer.Track.StreamIn | Plugins/Broken/SequencerPlugin/SequencerPlugin.C:369-395 | the reader leaves the specified track, into whatever track was there |
| LadspaIndex.TakeOffersFind | Plugins/Devices/LADSPAPlugin/LADSPAInfo.C:537-608 | within a file a new id is found at its first sound descriptor, and not at all without one |
| LadspaIndex.ScanFinds | Plugins/Devices/LADSPAPlugin/LADSPAInfo.C:511-612 | a scan keeps every id known before at its place and finds each new one at the first file that offers it |
| LadspaIndex.ScanIsFirstInstance | Plugins/Devices/LADSPAPlugin/LADSPAInfo.C:511-612 | after any scan the lookup and the plugin list are inverse, all indexes in range, nothing open, and an id is known if and only if some file soundly offers it, at the first such place |
| LadspaIndex.ScanNames | Plugins/Devices/LADSPAPlugin/LADSPAInfo.C:511-612 | after any scan every library has a file name that leads to the last library so named, and the largest input count never falls |
| LadspaIndex.ScanFileAdds | Plugins/Devices/LADSPAPlugin/LADSPAInfo.C:537-608 | a file adds one plugin for each sound offer whose id is new, in order, and one library they all share, or none; the largest input count becomes the largest of these and what it was |
| LadspaHolders.TakenKeeps | Plugins/Devices/LADSPAPlugin/LADSPAInfo.C:203-226 | taking a live descriptor keeps counts, handles and caches right |
| LadspaHolders.ClearKeeps | Plugins/Devices/LADSPAPlugin/LADSPAInfo.C:228-249 | giving one up does, though it empties a cache other devices may share and may close the library |
| LadspaHolders.ClearExact | Plugins/Devices/LADSPAPlugin/LADSPAInfo.C:228-249 | giving up takes one hold off the library of what was held, closes it exactly if that was the last, and empties the cached descriptor |
| LadspaHolders.SelectKeeps | Plugins/Devices/LADSPAPlugin/LADSPAPlugin.C:750-773 | selecting does, in success, in failure to open, and in failure to instantiate; and it succeeds if and only if the plugin can be had |
| LadspaHolders.UpdateExact | Plugins/Devices/LADSPAPlugin/LADSPAPlugin.C:731-773 | after what was held is given up, the device holds a live descriptor of the id if and only if the id is not zero and indexed, the host known, an instance can be made, and the descriptor cached or its library open or opening, with the symbol and the descriptor; the count of that library is then one more and otherwise the same, and which libraries are open is said for each outcome |
| LadspaHolders.LoadByLabelExact | Plugins/Devices/LADSPAPlugin/LADSPAPlugin.C:638-740 | the same of a patch that names a file and a label, after the lookup |
| LadspaHolders.LookKeeps | Plugins/Devices/LADSPAPlugin/LADSPAInfo.C:251-287 | looking up an id by file and label does, though it may close what it opened |
| LadspaHolders.LookExact | Plugins/Devices/LADSPAPlugin/LADSPAInfo.C:251-287 | a lookup counts nothing and leaves open a library it opened if and only if the label was not found |
| LadspaHolders.StepKeeps | Plugins/Devices/LADSPAPlugin/LADSPAPlugin.C:731-927 | each event of any device does |
| LadspaHolders.EveryRun | Plugins/Devices/LADSPAPlugin/LADSPAPlugin.C:731-927 | from any scan, after any run of any number of devices: a count is the number of holders, a counted library is open, no held or cached descriptor points into a closed opening, and a cache is filled only while that plugin has a holder |
| LadspaHolders.FirstHolder | Plugins/Devices/LADSPAPlugin/LADSPAPlugin.C:750-773 | the first device to choose a plugin of a fresh scan, with a library that opens and has it, holds it, with a count of one and the library open |
| LadspaInfo.Info.ExaminePluginLibrary | Plugins/Devices/LADSPAPlugin/LADSPAInfo.C:511-612 | the loop over a file is the specified scan of it: libraries, plugins, both lookups and the largest input count |
| LadspaInfo.Info.GetDescriptorFunctionForLibrary | Plugins/Devices/LADSPAPlugin/LADSPAInfo.C:724-764 | opens at most once, and closes again where the symbol is missing |
| LadspaInfo.Info.GetDescriptorByID | Plugins/Devices/LADSPAPlugin/LADSPAInfo.C:203-226 | in place, the specified taking |
| LadspaInfo.Info.DiscardDescriptorByID | Plugins/Devices/LADSPAPlugin/LADSPAInfo.C:228-249 | in place, the specified giving up |
| LadspaInfo.Info.GetIDFromFilenameAndLabel | Plugins/Devices/LADSPAPlugin/LADSPAInfo.C:251-287 | zero and no change for an unknown file name; else the id of the first descriptor of that label in the library of that name, or zero, and the handles as specified |
| LadspaInfo.Info.GetIDFromLabel | Plugins/Devices/LADSPAPlugin/LADSPAInfo.C:263-286 | the search within a library: the first descriptor of that label, or zero, closing only what it opened and only when it finds one |
| RdfGroups.LinkTransposed | Plugins/Devices/LADSPAPlugin/LADSPAInfo.C:669-672 | a link keeps Parents the transpose of Children, with multiplicity |
| RdfGroups.Groups.Descend | Plugins/Devices/LADSPAPlugin/LADSPAInfo.C:626-693 | the recursion ends on every finite subclass graph, with cycles and diamonds, and what it lists, links and leaves is as specified |
| RdfGroups.Groups.Explore | Plugins/Devices/LADSPAPlugin/LADSPAInfo.C:626-693 | from a root it lists each URI reachable exactly once, with its own instances, its children the listed subclasses in order |
| RdfGroups.WalkIsExact | Plugins/Devices/LADSPAPlugin/LADSPAInfo.C:626-693 | a URI is listed if and only if the root reaches it |
| RdfGroups.Groups.FillGaps | Plugins/Devices/LADSPAPlugin/LADSPAInfo.C:138-161 | the loops over the sorted list are the specified fill |
| RdfGroups.FillIsExact | Plugins/Devices/LADSPAPlugin/LADSPAInfo.C:138-161 | every plugin is in some group; group 0 gained each unmentioned one exactly once, ascending, and no other group changed |
| GroupGaps.Gaps | Plugins/Devices/LADSPAPlugin/LADSPAInfo.C:144-161 | the two loops find exactly the indexes no group mentions |
| GroupGaps.UnmentionedIs | Plugins/Devices/LADSPAPlugin/LADSPAInfo.C:144-161 | an index is in the fill once if in range and unmentioned, and otherwise not |
| GroupGaps.UnmentionedAscends | Plugins/Devices/LADSPAPlugin/LADSPAInfo.C:144-161 | the fill ascends |
| LadspaPorts.DefaultBetweenBounds | Plugins/Devices/LADSPAPlugin/LADSPAPlugin.C:963-1037 | with both bounds and a placed hint the default lies between the bounds: linear, logarithmic, both bounds negative, of mixed sign or zero, and in multiples of the sample rate |
| LadspaPorts.ConstantDefaults | Plugins/Devices/LADSPAPlugin/LADSPAPlugin.C:981-989 | no hint is zero and three hints are 1, 100 and 440, whatever the bounds |
| LadspaPorts.DefaultByHint | Plugins/Devices/LADSPAPlugin/LADSPAPlugin.C:989-1037 | bit by bit, for a port with both bounds: minimum, maximum, and a quarter, half or three quarters of the way, arithmetically or in the logarithm, in multiples of the sample rate, rounded down on an integer port |
| LadspaPorts.PortIdsExact | Plugins/Devices/LADSPAPlugin/LADSPAPlugin.C:785-806 | the port list is every input and then every output of the descriptor, each ascending |
| LadspaPorts.IntegerDefaultExact | Plugins/Devices/LADSPAPlugin/LADSPAPlugin.C:1034-1036 | an integer default keeps the upper bound; it keeps the lower, for a minimum hint if and only if that bound is whole, for a maximum hint if and only if a whole number lies between the bounds, for a low, middle or high hint if and only if one lies between the lower bound and the mean asked for |
| LadspaPorts.IntegerMinimumExact | third-party/ladspa/ladspa.h:239-245 | a minimum hint on an integer port is met if and only if the bound is whole; the standard's own example of bounds breaks it |
| LadspaPorts.ZeroHintExact | Plugins/Devices/LADSPAPlugin/LADSPAPlugin.C:996-1030 | the zero hint gives zero if and only if the port is not logarithmic between two bounds of one sign |
| LadspaPorts.FreshAgrees | Plugins/Devices/LADSPAPlugin/LADSPAPlugin.C:935-1058 | after a fresh update all four vectors have one entry for each input port, in order, each what that port's range says |
| LadspaPorts.FreshDefaultsInRange | Plugins/Devices/LADSPAPlugin/LADSPAPlugin.C:935-1058 | so the stored default lies between the bounds stored beside it |
| LadspaPorts.ResetExact | Plugins/Devices/LADSPAPlugin/LADSPAPlugin.C:940-948 | a reset keeps the defaults, and the vectors agree if and only if the descriptor has at least as many ports as there were inputs |
| LadspaPorts.FailedResetExact | Plugins/Devices/LADSPAPlugin/LADSPAPlugin.C:918-926 | a reset that fails empties three vectors and not the fourth |
| LadspaPlugin.Plugin.ClearPlugin | Plugins/Devices/LADSPAPlugin/LADSPAPlugin.C:876-927 | the descriptor is given up under the device's own id before that is cleared, and the settings as specified |
| LadspaPlugin.Plugin.TakePorts | Plugins/Devices/LADSPAPlugin/LADSPAPlugin.C:774-806 | the counting and listing loops: inputs first, then outputs |
| LadspaPlugin.Plugin.ResetPortSettings | Plugins/Devices/LADSPAPlugin/LADSPAPlugin.C:935-1058 | the loop over the inputs gives the specified vectors |
| LadspaPlugin.Plugin.SelectPlugin | Plugins/Devices/LADSPAPlugin/LADSPAPlugin.C:750-874 | succeeds if and only if the plugin can be had; the index, the held descriptor, the id and the port settings after success and after each failure |
| LadspaPlugin.Plugin.UpdatePlugin | Plugins/Devices/LADSPAPlugin/LADSPAPlugin.C:731-748 | index and settings together are those of choosing a plugin, or cleared |
| LadspaPlugin.Plugin.Reset | Plugins/Devices/LADSPAPlugin/LADSPAPlugin.C:204-211 | choosing the same plugin again, with the reset flag up and then down |
| Biquad.DifferenceEquation | Plugins/Devices/FilterPlugin/iir_filter.C:56-71 | from zero history, for every stream and at every time, a section obeys its difference equation in input and output alone |
| Biquad.FilterIsComposition | Plugins/Devices/FilterPlugin/iir_filter.C:54-73 | a filter of any length is the composition of its sections after the gain, outputs and histories both |
| Biquad.CutAnywhere | Plugins/Devices/FilterPlugin/iir_filter.C:31-74 | however a stream is cut into buffers, the output is the same |
| Biquad.FilterLinear | Plugins/Devices/FilterPlugin/iir_filter.C:31-74 | from silence it is linear |
| Bilinear.BilinearExact | Plugins/Devices/FilterPlugin/iir_filter.C:89-113 | for all rates and z with no zero denominators, the ratio of the analogue polynomials at s = 2 fs (z-1)/(z+1) is the gain factor times the section's transfer function |
| Bilinear.PrewarpIs | Plugins/Devices/FilterPlugin/iir_filter.C:76-87 | the prewarped polynomial at s is the original at s over the warped frequency |
| Bilinear.SectionIsPrototype | Plugins/Devices/FilterPlugin/iir_filter.C:115-127 | both together: the section at z is the prototype at (z-1)/(t(z+1)), t the tangent |
| IirFilter.FlatIsCascade | Plugins/Devices/FilterPlugin/iir_filter.C:47-71 | the walk over the flat coefficient and history arrays is the cascade of the sections they hold |
| IirFilter.Filter.Run | Plugins/Devices/FilterPlugin/iir_filter.C:31-74 | one sample in place, history allocated as silence at the first call |
| IirFilter.RunBuffer | Plugins/Devices/FilterPlugin/iir_filter.C:31-74 | a buffer of calls is the specified filter, from the histories held |
| Echo.HeadInRange | Plugins/Devices/EchoPlugin/EchoPlugin.C:128-132 | under arbitrary changing control voltages the head used is inside the buffers |
| Echo.EchoEquation | Plugins/Devices/EchoPlugin/EchoPlugin.C:124-147 | settings held, no bounce: left[n] = in[n] + f left[n-P] and right is silent, for all n, where P is the whole samples in the delay, at least 1 and at most the ring |
| Echo.BounceEquation | Plugins/Devices/EchoPlugin/EchoPlugin.C:124-147 | with bounce and the same P: left[n] = in[n] + f left[n-2P] and right[n] = left[n-P], for all n |
| Echo.OutputAt | Plugins/Devices/EchoPlugin/EchoPlugin.C:124-147 | a run of the loop gives at each place what is heard at that time |
| Echo.EchoPlugin.Place | Plugins/Devices/EchoPlugin/EchoPlugin.C:128-137 | the head wrapped, and the buffers exchanged exactly at the start of a bouncing round |
| Echo.EchoPlugin.Execute | Plugins/Devices/EchoPlugin/EchoPlugin.C:124-147 | the loop over the arrays is the specified run |
| Delay.HeadsStep | Plugins/Devices/DelayPlugin/DelayPlugin.C:134-145 | without control voltages both heads go to the next cell of the turn |
| Delay.ReadCell | Plugins/Devices/DelayPlugin/DelayPlugin.C:131-131 | at a whole position the buffer reads its cell |
| Delay.ReadBetween | Plugins/Devices/DelayPlugin/DelayPlugin.C:131-131 | between two cells the ring is read on the line from one to the next |
| Delay.HeadMoves | Plugins/Devices/DelayPlugin/DelayPlugin.C:134-145 | a control voltage moves the read head by that part of the delay, round the ring |
| Delay.DelayEquation | Plugins/Devices/DelayPlugin/DelayPlugin.C:113-147 | from a reset without control voltages out[n] = in[n-P] + mix in[n], for all n, where P is the whole samples in the delay, at least 1 and at most one less than the ring |
| Delay.OutputAt | Plugins/Devices/DelayPlugin/DelayPlugin.C:113-147 | a run of the loop gives at each place what is heard at that time |
| Delay.DelayPlugin.ClampHeads | Plugins/Devices/DelayPlugin/DelayPlugin.C:126-129 | under any control voltages both heads are inside the buffer when used |
| Delay.DelayPlugin.Execute | Plugins/Devices/DelayPlugin/DelayPlugin.C:113-147 | the loop over the array is the specified run |
| EsdStream.PeriodReadsBack | Plugins/Audio/ESD/ESDClient.C:155-159 | the bytes of a staged period read back as the clamped 16-bit samples they were made from |
| EsdStream.EncodeExact | Plugins/Audio/ESD/ESDClient.C:155-159 | a sample becomes 32767 times its value with the fraction dropped, clamped at one either way, and silence if it is no number |
| EsdStream.WriteConserves | Plugins/Audio/ESD/ESDClient.C:151-163 | a write, accepted or refused and sent in part or not, conserves the bytes |
| EsdStream.WriteExact | Plugins/Audio/ESD/ESDClient.C:151-163 | a write is taken if and only if it is a full period and nothing waits to be sent, and says yes if and only if the first send does not break either |
| EsdStream.EveryScheduleConserves | Plugins/Audio/ESD/ESDClient.C:87-163 | for every schedule of partial sends, partial reads and refusals, bytes sent and pending are exactly the accepted periods in order, and bytes handed out and staged exactly those received |
| EsdStream.ReadIsNextPeriod | Plugins/Audio/ESD/ESDClient.C:141-149 | a Read gives the next full period of what was received, no byte lost or twice |
| EsdStream.ReadExact | Plugins/Audio/ESD/ESDClient.C:141-149 | a read gives the period if and only if it is asked for a full one and the input is full |
| EsdStream.WaitExact | Plugins/Audio/ESD/ESDClient.C:104-139 | the answer is 1 if and only if the client is attached, the poll is good, neither stream breaks, the time has come, and after this call nothing waits to be sent and the input is full; -1 if and only if it is not attached or the poll or a stream fails; a grant moves the next time to a period later or to now, the later of the two |
| EsdStream.CyclePromises | Plugins/Audio/ESD/ESDClient.C:104-139 | a cycle is granted exactly then, and after it neither the next Read nor the next Write is refused |
| EsdStream.ServedClientGoesRound | Plugins/Audio/ESD/ESDClient.C:104-163 | a client with either stream or both whose server keeps up is granted the next cycle after it has read and written this one |
| EsdStream.GrantPaced | Plugins/Audio/ESD/ESDClient.C:125-137 | a granted cycle keeps the pacing: the k-th later one is not before t + (k-1) periods |
| EsdStream.EveryCycleSpaced | Plugins/Audio/ESD/ESDClient.C:125-137 | on every schedule from attach on, the k-th cycle granted after one at time t is not before t + (k-1) periods |
| EsdStream.EveryFrameCounted | Plugins/Audio/ESD/ESDClient.C:125-137 | and the frame is the number of granted cycles times the buffer size, however few |
| EsdStream.WindowHoldsFew | Plugins/Audio/ESD/ESDClient.C:125-138 | so a window of length w holds at most w over the period plus two granted cycles, even after a stall |
| EsdClient.ESDClient.DrainOutput | Plugins/Audio/ESD/ESDClient.C:87-102 | in place, one send of what is pending |
| EsdClient.ESDClient.WaitForCycle | Plugins/Audio/ESD/ESDClient.C:104-139 | in place, every early return as specified and the result exactly that of the row on WaitExact |
| EsdClient.ESDClient.Read | Plugins/Audio/ESD/ESDClient.C:141-149 | in place, a period or a refusal |
| EsdClient.ESDClient.StageOutput | Plugins/Audio/ESD/ESDClient.C:155-159 | the conversion loop, in place |
| EsdClient.ESDClient.Write | Plugins/Audio/ESD/ESDClient.C:151-163 | in place, a staged and drained period or a refusal |
| Prefs.ReadPlugins | SpiralInfo.C:429-436 | the loop over the list ends, on any stream that has not failed short of its end, and changes no other setting |
| Prefs.Loop | SpiralInfo.C:395-483 | the parse loop ends, on any text whatever, with the stream at its end or failed |
| PrefsRoundTrip.EntryReads | SpiralInfo.C:252-316 | a printed line read in its section sets exactly its own setting and stands at the next line |
| PrefsRoundTrip.SectionReads | SpiralInfo.C:138-250 | a printed section sets exactly its settings |
| PrefsRoundTrip.PluginsRead | SpiralInfo.C:424-441 | the printed list is read up to its end line, and kept if in use |
| PrefsRoundTrip.LoopAtEnd | SpiralInfo.C:395-400 | at the end of the file the loop ends and alters no value |
| PrefsRoundTrip.SaveThenLoad | SpiralInfo.C:318-567 | saving and loading over any other settings restores every one, with the plugin list if it is in use |
| PrefsRoundTrip.KeptExact | SpiralInfo.C:281-300 | a line comes back as it was if and only if it has no leading blank and no carriage return at its end, a trimmed one if and only if it has no blank at either end; empty values and inner spaces do |
| PrefsRoundTrip.EverySettingExact | SpiralInfo.C:252-316 | of every setting of every section in a file that was saved and loaded: it is as it was if and only if it is a number or has no blank where its kind is trimmed |
| PrefsRoundTrip.OldVersionLosesBuffer | SpiralInfo.C:487-530 | saved with any other version, the load returns if and only if no plugin list was in use before, and then the buffer size is zero |
| SpiralInfo.Info.TakeEntry | SpiralInfo.C:451-481 | the chain of comparisons and the assignment are the specified entry |
| SpiralInfo.Info.TakeSections | SpiralInfo.C:395-483 | the parse loop over the moving cursor is the specified one |
| SpiralInfo.Info.TakeOld | SpiralInfo.C:487-530 | the fixed order of old files, as specified |
| SpiralInfo.Info.StreamInPrefs | SpiralInfo.C:318-535 | a whole load, in place |
| SpiralInfo.Info.PutSection | SpiralInfo.C:232-250 | a section appended is the specified one |
| SpiralInfo.Info.StreamOutPrefs | SpiralInfo.C:537-567 | the text appended is the specified file |

## Left out

- Drawing, menus, scrolling, dialogs, the toolbox and widget coordinates: no state of the wiring depends on them.
- The graph sorter and the calls that feed it beside each connection.
- Canvas children are a map by id; ids are unique in the program, and the z-order only matters to drawing.
- Sample buffers of plugins are handles handed out once; their contents, the padding of `GetInput` and the stamping of outputs are not modelled.
- Comments carry no text, devices no plugin parameters; a paste builds devices, comments and stand-ins, ids and wires.
- Canvas.Host: the paste of devices is a function on values (`CopyPaste.PasteDevices`), not a method, so aliasing inside that loop is not captured; each new device goes through the state change of `Canvas.Host.AddDevice`.
- PatchWires.ReadersRestoreEveryWire: a merged or pasted wire with just one end among the new ids is renamed by the second reader and not by the first, so the ports the first made need not be those the second wants; what each then does is in `PatchWires.BothReadersAgree`, what comes of it together is not said.
- CopyPaste.PasteDevicesKeeps: the text of the devices in the copy file is not read; the devices are rebuilt from the copied patch.
- CopyPaste.CopyThenPaste: likewise for the devices; the wires do go through the characters of the file and back.
- Wires in files are tokens; a file that ends inside a record leaves variables uninitialised in the program and is not modelled beyond the failed read, and a stream that cannot tell its position (lines 971-972 of SpiralSynthModular.C) makes the first reader do nothing.
- EngineGate.EveryInterleaving: devices added and the map iterated outside frozen or gated sections race in the program; nothing is claimed there. The pause flag gates nothing but rendering and is left out.
- EngineGate.FreezeCanReturn: two flips between two looks of Wait can be missed for ever by an unlucky schedule, so a schedule on which FreezeAll returns is given from each state, not a bound for all schedules.
- MixerPlugin::SetChannels is called only while a patch loads, and is not an event of a session.
- TrackFile.SequencesRead: a name whose text after its first newline begins with a number, which the program would go on to read as the next field, stops the reader of the model; likewise in `TrackFile.InaudibleExact` and `TrackFile.SaveThenLoadInaudible`.
- Track files with fields that are not numbers and names of 4096 characters or more are read by the program in ways the token model does not follow; sequence times are reals.
- LadspaPlugin.Plugin.SelectPlugin: the buffers of the ports, the list of plugin inputs and the call that tells the host are not in the contract; the host side is `Session.RelayoutGood`.
- LadspaInfo.Info.GetIDFromFilenameAndLabel: what a library holds is an answer given for each library, so a library that answers differently each time is not modelled.
- The menu tree, `UnloadAllLibraries`, rescans while devices run, and the teardown with the last device are not part of the LADSPA model; library code is a set of answers: does it open, has it the symbol, what does it hold.
- A null item in an RDF subclass list is not modelled; the relation is finite.
- LadspaPorts.DefaultBetweenBounds: numbers are reals and `exp` and `log` are known only as inverse and increasing, so rounding at a bound is not covered.
- The GUI exports and port names of a LADSPA device, its buffers and its saved form are left out.
- Biquad.DifferenceEquation, Bilinear.BilinearExact, Echo.EchoEquation and Delay.DelayEquation are over reals; IEEE rounding, and the mixing of float and double in the filter, are not modelled.
- Echo.EchoPlugin.Execute, Delay.DelayPlugin.Execute: inputs are given sample by sample, and buffers that cannot be allocated are not modelled.
- The ESD server, the options of `Attach` that fail, and closing sockets are left out; a send and a read answer anything they may, and the clock is not assumed to go forward. A sample that is not a number is a case of its own.
- Preferences: header lines and words over 255 characters, numbers glued to other text, integer widths, and the audio client chosen when a file names none are left out. A plugin called `end` cannot be saved in the program, so the round trip excludes it.
- JACK, ALSA, PipeWire and the other native clients, the event map, joystick and mouse, envelopes and the trivial devices: foreign calls or easy members.
