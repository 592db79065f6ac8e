# Musical physics sandbox — a Dafny model of its orchestration

The sandbox is a browser toy. Balls fall onto static lines, and each line sounds a pitch set by its length. Users drop balls, place spawners and draw lines with the pointer. The code also has handlers that lay out a scale of keys, play and record melodies, and copy or paste songs as JSON. The panel as given wires up only some of them (see "## Left out").

This project models the code that sits between the user and the physics engine:

- the note table, the scales, the demo songs and the length/frequency formula of `src/config.ts`;
- the module-level state of `src/main.ts`, and what each handler does to it.

The modules:

- **Config**: the note table as a datatype and its ordering; the formula `20000/(f − 200)` and its inverse; the scales and the demo songs.
- **World**: bodies (balls, lines, walls), spawners, the delete radius, and the list helpers the handlers use (`findIndex`, `splice`, `filter`).
- **Layout**: the grid arithmetic of `setupScale`: columns per row, rows, padding, spacing, re-centring of a partial last row, and the key line and musical spawner of each note.
- **Melody**:
  - the custom scale of a melody (distinct notes sorted by frequency);
  - song timers;
  - the nearest-note quantiser `findClosestNote`, as a loop proved against a function.
- **SongJson**: the JSON that `copyRecordedSong` writes and the checks `handlePasteAndPlay` makes before it plays.
- **Transitions**: the whole state as a value, and one function per handler giving the state after it. It also holds the invariant every handler keeps: identities are fresh and ordered, and a gesture is in progress exactly when both of its points are known.
- **Properties**: what the handlers promise, proved over those functions.
- **Handlers**: `class Sandbox`, with the state as fields and the handlers as methods that update it in place. Each method is proved to take the state exactly where the Transitions function of the same name takes it, so every lemma of Properties applies to it.

The physics engine is abstracted in three ways:

- The world is a list of labelled bodies.
- `Query.point` is a containment predicate passed in.
- The drag's magnitude (a square root) is passed to `mouseup` together with the fact that its square is the squared drag.

Timers are explicit lists of pending entries. The current time is a parameter. Tones handed to the synthesiser are logged in the state.

Three behaviours of the code that the model follows as written:

- A drag shorter than `MIN_LINE_LENGTH` adds nothing. It does not add a ball (src/main.ts:375-420).
- A scale of a single note is not centred. Its key sits half a padding from the left edge (src/main.ts:154-163); `Layout.SingleNoteAtLeftMargin` proves this.
- In the collision handler, a line with no `customLength` ends the whole handler (`return`, not `continue`). Later pairs of the same event are not looked at (src/main.ts:444-445); `Properties.ZeroLengthLineEndsHandler` proves this.

## Model

| member | source | states |
|---|---|---|
| Config.Frequency | src/config.ts:2-27 | every note of the table has a frequency above 200 Hz, so every note has a line of positive length |
| Config.TableAscends | src/config.ts:2-27 | the frequencies strictly increase in declaration order from C4 to B5, and A4 is 440 Hz |
| Config.FrequencyInjective | src/config.ts:2-27 | two notes with the same frequency are the same note |
| Config.NoteNamed | src/config.ts:2-27 | a name that resolves to a note is that note's key in the table |
| Config.NameRoundTrip | src/config.ts:2-27 | every note's key resolves back to that note |
| Config.FrequencyToLineLength | src/config.ts:158 | the line length is positive exactly for frequencies above 200 |
| Config.PitchOfLength | src/main.ts:446 | the pitch of a line is above 200 exactly when its length is positive |
| Config.PitchOfLineLength | src/config.ts:158 | the pitch of the line made for frequency f is f again |
| Config.LineLengthOfPitch | src/main.ts:446 | the line made for the pitch of a line of length l has length l again |
| Config.HigherFrequencyShorterLine | src/config.ts:158 | above 200 Hz a higher frequency gets a strictly shorter, still positive line |
| Config.TableLengthsDecrease | src/config.ts:2-27 | a later note of the table has a strictly shorter key line |
| Config.ScalesAscend | src/config.ts:30-82 | every scale starts at C4 and strictly ascends in frequency, so no scale repeats a note |
| Config.ChromaticScalesFollowTable | src/config.ts:30-62 | the chromatic scale is the first 13 table notes, and the big chromatic scale is the whole table, in table order |
| Config.DemoSongsInOrder | src/config.ts:96-140 | every demo song is non-empty, starts at a time of at least 0, and its times never decrease |
| Layout.CeilDiv | src/main.ts:117 | the ceiling of a/b: q·b covers a, and q−1 rows would not |
| Layout.NotesPerRow | src/main.ts:104-116 | at most 6 keys per row, never more than there are notes, and none only when there are no notes |
| Layout.Rows | src/main.ts:117 | the rows hold every note, and one row fewer would not |
| Layout.RowsByCount | src/main.ts:104-117 | up to 6 notes take one row, 7 to 12 take two rows, and more take rows of 6 |
| Layout.HorizontalPadding | src/main.ts:120-127 | the padding is clamped to [100, 300] and fits in a canvas at least 100 wide |
| Layout.HorizontalSpacing | src/main.ts:128-131 | a row of k > 1 keys spans exactly the width less the padding; one key per row gives spacing 0 |
| Layout.VerticalSpacing | src/main.ts:133-136 | the row spacing is clamped to [180, 250] |
| Layout.Row | src/main.ts:145 | every note's row is one of the grid's rows |
| Layout.Column | src/main.ts:146 | every note's column is within the row, and row·perRow + column gives the note back |
| Layout.NotesInRow | src/main.ts:149-152 | every row holds 1 to perRow keys, and every row but the last is full |
| Layout.ColumnInRow | src/main.ts:145-152 | a note's column is within the keys of its own row |
| Layout.XWithinMargins | src/main.ts:154-163 | on a canvas at least 100 wide every key lies within half a padding of both edges |
| Layout.SlotsDistinct | src/main.ts:144-165 | on a canvas wider than 100 no two keys share a position (at width exactly 100 the spacing is 0 and keys of one row collide) |
| Layout.RowsCentred | src/main.ts:155-160 | the keys at mirrored columns of a row of several keys add up to the width, so the row is centred |
| Layout.SingleNoteAtLeftMargin | src/main.ts:154-163 | a one-note scale puts its key half a padding from the left edge, left of the middle |
| Layout.RecentredOnlyInPartialLastRow | src/main.ts:149-163 | only a key in the last row, when that row is partial and there are several rows, leaves the grid's column positions |
| Layout.RowsCentredVertically | src/main.ts:139-140 | the first and the last row are equally far from the top and the bottom of the canvas |
| Layout.KeysMatchSpawners | src/main.ts:165-185 | the i-th spawner sits 150 straight above the i-th key line, with the same note, consecutive ids, and a line whose pitch is the note's frequency |
| Melody.Distinct | src/main.ts:189 | the distinct notes of a melody: the same notes, none twice |
| Melody.SortByFrequency | src/main.ts:189-191 | the notes sorted by frequency, as a permutation of the input |
| Melody.CustomScaleAscends | src/main.ts:188-191 | a melody's scale strictly ascends, repeats nothing, and holds exactly the notes of the melody |
| Melody.AscendingIsUnique | src/main.ts:188-191 | two ascending lists of the same notes are equal, so the scale does not depend on how it was sorted |
| Melody.CustomScaleIsTableFilter | src/main.ts:188-191 | a melody's scale is the note table filtered to the melody's notes |
| Melody.FilterAscends | src/main.ts:188-191 | filtering an ascending list of notes keeps it ascending |
| Melody.TimerDelay | src/main.ts:199-204 | a timer's delay is a whole, non-negative number of milliseconds: the event's time with its fraction dropped, or 0 for a negative time |
| Melody.SameMillisecondFiresInOrder | src/main.ts:199-204 | two events within one millisecond (500.7 and 500.2) get the same delay, so the first registered fires first |
| Melody.TimersFor | src/main.ts:198-206 | one pending timer per melody event, in order, with the event's note and delay |
| Melody.EarliestDue | src/main.ts:199-204 | the next timer to fire has the smallest delay, the first of those in order |
| Melody.ClosestAmongIsNearest | src/main.ts:248-261 | over any list of frequencies, the chosen position is no farther from the pitch than any other, and every earlier position is strictly farther |
| Melody.ClosestNoteIsNearest | src/main.ts:248-261 | no table note is nearer to the pitch, and every earlier table note is strictly farther |
| Melody.ClosestIsUnique | src/main.ts:248-261 | the nearest-note promise fixes a single table position |
| Melody.FindClosestNote | src/main.ts:248-261 | the scan with strict `<` returns the specified nearest note, the first in table order on a tie |
| Melody.ExactPitchQuantises | src/main.ts:248-261 | a pitch equal to a note's frequency quantises to that note |
| Melody.StruckTemplateLineRecordsItsNote | src/main.ts:446-449 | striking a line cut for note n records n |
| Melody.NearConcertPitchIsA4 | src/main.ts:248-261 | every pitch from 438 to 442 Hz quantises to A4 |
| Melody.RoundMs | src/main.ts:450 | the recorded time is within half a millisecond of the elapsed time |
| World.FindIndex | src/main.ts:321-331 | the first index satisfying the test, or −1 exactly when none does |
| World.RemoveAt | src/main.ts:325 | splice(i, 1): one element fewer, the rest in order |
| World.WithoutBallsAndLines | src/main.ts:92-95 | exactly the bodies that are neither balls nor lines are kept |
| World.WithoutBody | src/main.ts:454 | exactly the bodies with other identities are kept |
| World.WithoutPresentBody | src/main.ts:454 | removing a body that is present takes exactly one body away |
| World.WithoutAbsentBody | src/main.ts:454 | removing a body that is gone changes nothing |
| SongJson.SongToJson | src/main.ts:229 | the exported array has one object per event, in order |
| SongJson.ExportSong | src/main.ts:222-229 | nothing is exported exactly when the recording is empty |
| SongJson.DecodeEvent | src/main.ts:273-285 | an item decodes only to an event whose JSON carries that item's `note` and `time` |
| SongJson.DecodeEvents | src/main.ts:273-287 | a pasted array that decodes gives one event per item, in order |
| SongJson.ImportSong | src/main.ts:263-287 | a paste that plays a song plays a non-empty one |
| SongJson.ImportRequiresWellFormedArray | src/main.ts:263-287 | a paste is refused for empty text and for a value that is not a non-empty array whose every item has `note` and `time` |
| SongJson.ImportRejectsItemWithoutFields | src/main.ts:276-283 | one item lacking `note` or `time` refuses the whole paste |
| SongJson.EventRoundTrip | src/main.ts:273-285 | the JSON of one event, as written at src/main.ts:229, decodes back to that event |
| SongJson.ExportImportRoundTrip | src/main.ts:222-287 | pasting an exported non-empty recording yields exactly that recording |
| Transitions.Initial | src/main.ts:525-528 | start-up gives three walls, no gesture, no recording, the invariant, and the 500 ms spawn interval armed |
| Transitions.SpawnerFor | src/main.ts:200 | the first current musical spawner with the note, or −1 when none has it |
| Transitions.SpawnedBalls | src/main.ts:63-66 | one tick gives one ball per free spawner, in order, at its position, with consecutive ids |
| Transitions.NearSpawner | src/main.ts:321-323 | the first free spawner within distance 12 of the click, or −1 when none is near |
| Transitions.NearMusicalSpawner | src/main.ts:329-331 | the first musical spawner within distance 12 of the click, or −1 when none is near |
| Transitions.BodyAt | src/main.ts:337-349 | the first ball (or line) containing the click, or −1 when none does |
| Transitions.DrawnLine | src/main.ts:379-413 | the drawn line carries the next identity and the selected template |
| Properties.SetupScaleKeepsValid | src/main.ts:98-186 | setupScale keeps identities fresh and ordered |
| Properties.PlaySongKeepsValid | src/main.ts:187-207 | playSong keeps the invariant |
| Properties.AddBallKeepsValid | src/main.ts:70-81 | adding a ball keeps the invariant |
| Properties.FireSongTimerKeepsValid | src/main.ts:199-204 | a fired song timer keeps the invariant |
| Properties.SpawnTickKeepsValid | src/main.ts:63-67 | a spawn tick keeps the invariant |
| Properties.MouseDownKeepsValid | src/main.ts:316-368 | every mousedown keeps the invariant |
| Properties.MouseUpKeepsValid | src/main.ts:375-420 | mouseup keeps the invariant |
| Properties.CollisionStartKeepsValid | src/main.ts:428-457 | the collision handler keeps the invariant and removes no body at once |
| Properties.FireDisposalKeepsValid | src/main.ts:454 | the delayed removal of a ball keeps the invariant |
| Properties.StopSongKeepsValid | src/main.ts:83-86 | stopSong keeps the invariant |
| Properties.ClearAllKeepsValid | src/main.ts:88-96 | clearAll keeps the invariant |
| Properties.PasteAndPlayKeepsValid | src/main.ts:263-291 | a paste, accepted or refused, keeps the invariant |
| Properties.SetupSpawningIntervalKeepsValid | src/main.ts:61-68 | re-arming the spawn interval keeps the invariant |
| Properties.ChangeSpawnIntervalKeepsValid | src/ui.ts:41-48 | a new spawn period keeps the invariant |
| Properties.SelectLineTemplateKeepsValid | src/ui.ts:50-58 | choosing a line template keeps the invariant |
| Properties.ToggleRecordingKeepsValid | src/main.ts:209-220 | toggleRecording keeps the invariant |
| Properties.MouseMoveKeepsValid | src/main.ts:370-373 | mousemove keeps the invariant |
| Properties.MouseLeaveKeepsValid | src/main.ts:422-426 | mouseleave keeps the invariant |
| Properties.ResizeKeepsValid | src/physics.ts:50-54 | the resize handler keeps the invariant |
| Properties.ResizeMovesLaterLayouts | src/physics.ts:50-54 | after a resize, the next setupScale lays its keys and spawners out for the new canvas size, and the bodies are otherwise as before |
| Properties.SetupScaleLaysOutKeys | src/main.ts:88-185 | after setupScale there are no free spawners, balls, lines or song timers, the walls remain, and each note has exactly one key line and one spawner 150 above it with its note and the next spawner id; no other field changes |
| Properties.SetupScaleFrame | src/main.ts:88-186 | setupScale changes only the bodies, the spawners, their counters and the song timers |
| Properties.PlaySongSchedulesMelody | src/main.ts:187-207 | the keys are exactly the melody's distinct notes in ascending frequency, and exactly one timer is pending per event, the old ones gone; the recorder, the gesture, the spawn interval and the canvas stay as they were |
| Properties.StopSongIdempotent | src/main.ts:83-86 | stopSong leaves no pending timer, and stopping twice is stopping once |
| Properties.PlayedTimersFindSpawners | src/main.ts:187-204 | right after playSong every pending timer's note has a spawner |
| Properties.FireSongTimerDropsBall | src/main.ts:199-204 | exactly the earliest-due timer leaves the pending list; it drops one ball at the first current spawner with its note, and changes no body when there is none; the spawners, the gesture, the recorder and every other field stay as they were |
| Properties.SpawnTickDropsOnePerSpawner | src/main.ts:61-68 | a tick adds one ball under each free spawner; every field other than the bodies and the body counter stays as it was |
| Properties.ChangeSpawnIntervalArmsOne | src/main.ts:61-68 | a new period leaves exactly one interval armed, with that period |
| Properties.RightClickPriority | src/main.ts:318-352 | a right-click removes at most one entity, and exactly one when anything is hit: first a free spawner, else a musical spawner, else a ball, else a line; nothing else changes |
| Properties.RightClickPrefersFreeSpawners | src/main.ts:321-327 | a click near a free spawner removes that kind only |
| Properties.LeftClickActions | src/main.ts:353-368 | Ctrl/Cmd adds one free spawner, Shift starts a gesture at the pointer, a plain click drops one ball, and other buttons do nothing |
| Properties.MouseMoveOnlyWhileDrawing | src/main.ts:370-373 | mousemove changes nothing unless a gesture is in progress, and then only its end point |
| Properties.GestureAlwaysEnds | src/main.ts:375-426 | after mouseup or mouseleave there is no gesture and neither point is known; mouseleave draws nothing |
| Properties.SelectedTemplateShapesNextLine | src/main.ts:387-396 | after a template is chosen from the list, a long enough drag draws a line of that template: a note's length for a note, the drag's length for Custom Length; the choice changes nothing else |
| Properties.MouseUpAddsLineOnlyForLongDrag | src/main.ts:375-420 | one line is added exactly when drawing with a drag of at least 10; its length is the template note's line length, or the drag for a custom line |
| Properties.DrawnLineFollowsDrag | src/main.ts:380-383 | the line's direction times the drag length is the drag |
| Properties.DrawnDirectionIsUnit | src/main.ts:380-391 | with the drag's magnitude as its length, the line's direction is a unit vector, the (cos, sin) pair of the drag's angle |
| Properties.UnitAfterDividing | src/main.ts:390-391 | a vector divided by its own positive magnitude has squared norm 1 |
| Properties.CustomLineSpansDrag | src/main.ts:384-385 | a custom line's two ends are the press and release points |
| Properties.TemplateLineStartsAtPress | src/main.ts:387-396 | a template line has its note's length and starts at the press point |
| Properties.ToggleRecordingResets | src/main.ts:209-220 | switching on empties the melody and restarts the clock; switching off keeps the melody |
| Properties.StrikeRecordsOnlyWhileRecording | src/main.ts:443-455 | a ball striking a line sounds its pitch, records exactly the nearest note at the rounded time only while recording, and schedules the ball's removal exactly for a template line |
| Properties.TemplateStrikeRecordsItsNote | src/main.ts:443-452 | striking a key cut for note n while recording records n |
| Properties.CollisionsExtendRecording | src/main.ts:428-457 | collisions only extend the recording, by at most one event per pair, never while not recording, and leave the bodies alone |
| Properties.ZeroLengthLineEndsHandler | src/main.ts:444-445 | a line with no length ends the handler; the pairs after it have no effect |
| Properties.FireDisposalRemovesThatBall | src/main.ts:453-454 | the delayed removal takes exactly that ball if it is still there, and changes nothing otherwise |
| Properties.RefusedPasteChangesNothing | src/main.ts:267-283 | a paste the source refuses (no text, text that does not parse, or not a non-empty array of items with `note` and `time`) leaves the whole state unchanged |
| Properties.PasteOfExportPlaysRecording | src/main.ts:222-290 | pasting the export of a non-empty recording plays that recording |
| Properties.PasteKeepsRecording | src/main.ts:263-291 | a paste, played or refused, leaves the recording, its flag and its start time alone, so a later export gives what an earlier one gave |
| Handlers.LayOutKeys | src/main.ts:144-185 | the per-note loop builds exactly the key lines and spawners of the layout |
| Handlers.DeleteAt | src/main.ts:318-352 | the right-click search, in the source's priority order, removes exactly what Transitions.RightClick removes and keeps everything else |
| Handlers.RecordNote | src/main.ts:448-452 | appends the nearest table note at the elapsed time rounded to the millisecond, which lies within half a millisecond of the elapsed time |
| Handlers.Sandbox.constructor | src/main.ts:30-45 | the fields start as the initial state |
| Handlers.Sandbox.AddBall | src/main.ts:70-81 | addBall appends one ball with the next identity |
| Handlers.Sandbox.StopSong | src/main.ts:83-86 | the fields end as Transitions.StopSong gives from the fields before (stopSong in place) |
| Handlers.Sandbox.ClearAll | src/main.ts:88-96 | the fields end as Transitions.ClearAll gives from the fields before (clearAll in place) |
| Handlers.Sandbox.SetupScale | src/main.ts:98-186 | the fields end as Transitions.SetupScale gives from the fields before (setupScale in place) |
| Handlers.Sandbox.PlaySong | src/main.ts:187-207 | the fields end as Transitions.PlaySong gives from the fields before (playSong in place) |
| Handlers.Sandbox.ScheduleTimers | src/main.ts:197-206 | the scheduling loop leaves one pending timer per event |
| Handlers.Sandbox.FireSongTimer | src/main.ts:199-204 | the fields end as Transitions.FireSongTimer gives from the fields before (the timeout callback in place) |
| Handlers.Sandbox.SetupSpawningInterval | src/main.ts:61-68 | the fields end as Transitions.SetupSpawningInterval gives from the fields before (setupSpawningInterval in place) |
| Handlers.Sandbox.ChangeSpawnInterval | src/ui.ts:41-48 | the spawn-rate binding stores the period and re-arms the interval |
| Handlers.Sandbox.SelectLineTemplate | src/ui.ts:50-58 | the fields end as Transitions.SelectLineTemplate gives from the fields before: the line-template binding stores one of the offered choices, Custom Length or a chromatic note |
| Handlers.Sandbox.SpawnTick | src/main.ts:63-66 | the fields end as Transitions.SpawnTick gives from the fields before (the interval callback's loop in place) |
| Handlers.Sandbox.Resize | src/physics.ts:50-54 | the fields end as Transitions.Resize gives from the fields before (the resize handler in place) |
| Handlers.Sandbox.ToggleRecording | src/main.ts:209-220 | the fields end as Transitions.ToggleRecording gives from the fields before (toggleRecording in place) |
| Handlers.Sandbox.CopyRecordedSong | src/main.ts:222-229 | nothing for an empty recording; otherwise a value that a paste reads back as exactly the recording |
| Handlers.Sandbox.PasteAndPlay | src/main.ts:263-291 | the fields end as Transitions.PasteAndPlay gives from the fields before (handlePasteAndPlay in place) |
| Handlers.Sandbox.RightClick | src/main.ts:318-352 | the fields end as Transitions.RightClick gives from the fields before (the right-click branch in place) |
| Handlers.Sandbox.MouseDown | src/main.ts:316-368 | the fields end as Transitions.MouseDown gives from the fields before (the mousedown handler in place) |
| Handlers.Sandbox.MouseMove | src/main.ts:370-373 | the fields end as Transitions.MouseMove gives from the fields before (the mousemove handler in place) |
| Handlers.Sandbox.MouseUp | src/main.ts:375-420 | the fields end as Transitions.MouseUp gives from the fields before (the mouseup handler in place) |
| Handlers.Sandbox.MouseLeave | src/main.ts:422-426 | the fields end as Transitions.MouseLeave gives from the fields before (the mouseleave handler in place) |
| Handlers.Sandbox.Strike | src/main.ts:443-455 | the fields end as Transitions.Strike gives from the fields before (one ball–line pair in place) |
| Handlers.Sandbox.CollisionStart | src/main.ts:428-457 | the fields end as Transitions.CollisionStart gives from the fields before (the collisionStart loop in place, including its early return) |
| Handlers.Sandbox.FireDisposal | src/main.ts:453-454 | the fields end as Transitions.FireDisposal gives from the fields before (the 100 ms removal timeout in place) |

## Left out

- The matter-js simulation (src/physics.ts, `Bodies.*`, `Composite.*`, `Query.point`, collision detection, restitution and friction): foreign library. The world is a list of bodies, containment is a parameter, and collision pairs are an input.
- The `beforeUpdate` fall-off removal and `updateAllBodies` / `updateCollisionFilter` (src/main.ts:48-59, 513-523): they only set physics properties or remove bodies by position.
- Tone.js synthesis (src/audio.ts): audio I/O. A struck line's pitch is appended to a log of tones instead.
- Rendering and the preview line: UI only. The Tweakpane panel is described in one place below. The window resize handler (src/physics.ts:50-54) is modelled only for the canvas size it sets, which every later setupScale reads; the walls are not moved, as in the source.
- The clipboard, `alert`, `console`, and the text layer of `JSON.stringify` / `JSON.parse`: browser I/O. The clipboard is no text, unparsable text, or a parsed JSON value.
- Wall-clock timing: `setTimeout` and `setInterval` are lists of pending entries, and `performance.now()` is a parameter. A delay keeps whole milliseconds and a negative one fires like 0; timer clamping, delays beyond 2^31 − 1 ms and ids are not modelled.
- `Math.atan2`, `cos` and `sin`: the direction is the drag divided by its length, which is the (cos, sin) pair of the drag's angle.
- Floating point: coordinates, frequencies and times are exact reals. `Math.round` is rounding half up on reals.
- The Tweakpane panel (src/ui.ts:20-69): the physics bindings set matter-js properties only and are left out with the simulation. The spawn-rate binding is modelled by `ChangeSpawnInterval`, and the line-template list by `SelectLineTemplate`, which offers Custom Length or a note of the chromatic scale. The panel binds buttons to `setupChromaticScale` and `playDemoSong`, which the `setupUI` call (src/main.ts:295-307) does not pass. It binds no control to `toggleRecording`, `copyRecordedSong` or `onPasteAndPlay`. The model treats all of these handlers as events that can happen, although the panel as given does not reach them.
- SongJson.DecodeEvent: refuses a pasted item whose `note` is not a key of the frequency table, or whose `time` is not a number, so such a paste leaves the state unchanged. The source does not refuse these items: it checks only that each has `note` and `time` (src/main.ts:276-283) and calls `playSong` (src/main.ts:286), which clears the world, lays out a new scale, stops the song and sets new timers. For an unknown note the key and spawner still take their places from the note's index (src/main.ts:145-163, 179-182); only the line's length is `NaN` (src/main.ts:166). `setTimeout` converts a non-number time: numeric text such as "500" waits that many milliseconds, `true` waits 1 and `[500]` waits 500; a value that does not convert to a finite number waits 0. That path is not modelled.
- The identity numbering of matter-js bodies: the model numbers bodies from its own counter, starting after the three walls.
- src/songs.ts: a duplicate song table that nothing imports.
