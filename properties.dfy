/**
 * What the handlers of the sandbox promise, stated over the transition
 * functions: the invariant they keep, the layout a scale gets, what a song
 * schedules, the priority of a right-click, the drawing gesture, and the
 * recorder.
 */
module Properties {
  import opened Wrappers
  import opened Config
  import opened World
  import opened Layout
  import opened Melody
  import opened SongJson
  import opened Transitions

  // ---- The invariant ----

  /** Bodies appended with consecutive fresh identities keep identities ordered and below the counter. */
  lemma AppendFresh(bodies: seq<Body>, added: seq<Body>, next: nat)
    requires IdsIncrease(bodies) && IdsBelow(bodies, next)
    requires forall i :: 0 <= i < |added| ==> added[i].id == next + i
    ensures IdsIncrease(bodies + added) && IdsBelow(bodies + added, next + |added|)
  {
    var r := bodies + added;
    forall i, j | 0 <= i < j < |r| ensures r[i].id < r[j].id {
      if j >= |bodies| {
        if i < |bodies| { assert r[i] in bodies; }
      }
    }
    forall b | b in r ensures b.id < next + |added| {
      var k :| 0 <= k < |r| && r[k] == b;
      if k < |bodies| { assert r[k] in bodies; }
    }
  }

  lemma RemoveAtKeepsOrder(bodies: seq<Body>, k: nat, next: nat)
    requires k < |bodies| && IdsIncrease(bodies) && IdsBelow(bodies, next)
    ensures IdsIncrease(RemoveAt(bodies, k)) && IdsBelow(RemoveAt(bodies, k), next)
  {
    var r := RemoveAt(bodies, k);
    forall b | b in r ensures b.id < next {
      var i :| 0 <= i < |r| && r[i] == b;
      if i < k { assert r[i] == bodies[i]; } else { assert r[i] == bodies[i + 1]; }
      assert b in bodies;
    }
  }

  lemma RemoveAtKeepsSpawnersOrdered(musical: seq<MusicalSpawner>, free: seq<Spawner>, next: nat, k: nat, fromFree: bool)
    requires SpawnersOrdered(musical, free, next)
    requires if fromFree then k < |free| else k < |musical|
    ensures fromFree ==> SpawnersOrdered(musical, RemoveAt(free, k), next)
    ensures !fromFree ==> SpawnersOrdered(RemoveAt(musical, k), free, next)
  {
  }

  /** Every handler keeps the invariant. */
  lemma StopSongKeepsValid(s: AppState)
    requires Valid(s)
    ensures Valid(StopSong(s))
  {
  }

  lemma ClearAllKeepsValid(s: AppState)
    requires Valid(s)
    ensures Valid(ClearAll(s))
  {
    WithoutBallsAndLinesKeepsOrder(s.bodies);
  }

  lemma SetupScaleKeepsValid(s: AppState, notes: seq<Note>)
    requires Valid(s)
    ensures Valid(SetupScale(s, notes))
  {
    WithoutBallsAndLinesKeepsOrder(s.bodies);
    var kept := WithoutBallsAndLines(s.bodies);
    assert IdsBelow(kept, s.nextBodyId);
    AppendFresh(kept, ScaleLines(notes, s.width, s.height, s.nextBodyId), s.nextBodyId);
  }

  lemma PlaySongKeepsValid(s: AppState, melody: seq<PlayableNote>)
    requires Valid(s)
    ensures Valid(PlaySong(s, melody))
  {
    SetupScaleKeepsValid(s, CustomScale(melody));
  }

  lemma PasteAndPlayKeepsValid(s: AppState, clip: Clipboard)
    requires Valid(s)
    ensures Valid(PasteAndPlay(s, clip))
  {
    match ImportSong(clip)
    case Success(melody) => PlaySongKeepsValid(s, melody);
    case Failure(_) =>
  }

  lemma SetupSpawningIntervalKeepsValid(s: AppState)
    requires Valid(s)
    ensures Valid(SetupSpawningInterval(s))
  {
  }

  lemma ChangeSpawnIntervalKeepsValid(s: AppState, period: real)
    requires Valid(s)
    ensures Valid(ChangeSpawnInterval(s, period))
  {
  }

  lemma SelectLineTemplateKeepsValid(s: AppState, t: LineTemplate)
    requires Valid(s) && OfferedTemplate(t)
    ensures Valid(SelectLineTemplate(s, t))
  {
  }

  lemma ResizeKeepsValid(s: AppState, w: real, h: real)
    requires Valid(s)
    ensures Valid(Resize(s, w, h))
  {
  }

  lemma ToggleRecordingKeepsValid(s: AppState, now: real)
    requires Valid(s)
    ensures Valid(ToggleRecording(s, now))
  {
  }

  lemma MouseMoveKeepsValid(s: AppState, p: Vec)
    requires Valid(s)
    ensures Valid(MouseMove(s, p))
  {
  }

  lemma MouseLeaveKeepsValid(s: AppState)
    requires Valid(s)
    ensures Valid(MouseLeave(s))
  {
  }

  lemma AddBallKeepsValid(s: AppState, p: Vec)
    requires Valid(s)
    ensures Valid(AddBall(s, p))
  {
    AppendFresh(s.bodies, [Ball(s.nextBodyId, p)], s.nextBodyId);
  }

  lemma FireSongTimerKeepsValid(s: AppState)
    requires Valid(s) && |s.songTimers| > 0
    ensures Valid(FireSongTimer(s))
  {
    var k := EarliestDue(s.songTimers);
    var i := SpawnerFor(s.musicalSpawners, s.songTimers[k].note);
    if i >= 0 {
      AddBallKeepsValid(s.(songTimers := RemoveAt(s.songTimers, k)), s.musicalSpawners[i].position);
    }
  }

  lemma SpawnTickKeepsValid(s: AppState)
    requires Valid(s)
    ensures Valid(SpawnTick(s))
  {
    AppendFresh(s.bodies, SpawnedBalls(s.spawners, s.nextBodyId), s.nextBodyId);
  }

  lemma MouseDownKeepsValid(s: AppState, e: PointerEvent, contains: (Body, Vec) -> bool)
    requires Valid(s)
    ensures Valid(MouseDown(s, e, contains))
  {
    var p := e.position;
    if e.button == 2 {
      var i := NearSpawner(s.spawners, p);
      var j := NearMusicalSpawner(s.musicalSpawners, p);
      var b := BodyAt(s.bodies, p, false, contains);
      var l := BodyAt(s.bodies, p, true, contains);
      if i > -1 {
        RemoveAtKeepsSpawnersOrdered(s.musicalSpawners, s.spawners, s.spawnerIdCounter, i, true);
      } else if j > -1 {
        RemoveAtKeepsSpawnersOrdered(s.musicalSpawners, s.spawners, s.spawnerIdCounter, j, false);
      } else if b > -1 {
        RemoveAtKeepsOrder(s.bodies, b, s.nextBodyId);
      } else if l > -1 {
        RemoveAtKeepsOrder(s.bodies, l, s.nextBodyId);
      }
    } else if e.button == 0 && !(e.ctrlKey || e.metaKey) && !e.shiftKey {
      AddBallKeepsValid(s, p);
    }
  }

  lemma MouseUpKeepsValid(s: AppState, length: real)
    requires Valid(s) && DragLength(s, length)
    ensures Valid(MouseUp(s, length))
  {
    if s.isDrawing && length >= MIN_LINE_LENGTH {
      var line := DrawnLine(s.nextBodyId, s.startPoint.value, s.currentMousePosition.value, length, s.lineTemplate);
      AppendFresh(s.bodies, [line], s.nextBodyId);
    }
  }

  lemma {:induction false} CollisionStartKeepsValid(s: AppState, pairs: seq<Pair>, now: real)
    requires Valid(s)
    ensures Valid(CollisionStart(s, pairs, now))
    ensures CollisionStart(s, pairs, now).bodies == s.bodies
    decreases |pairs|
  {
    if |pairs| > 0 {
      var line, ball := LineOf(pairs[0]), BallOf(pairs[0]);
      if line.Some? && ball.Some? && line.value.length != 0.0 {
        CollisionStartKeepsValid(Strike(s, line.value, ball.value, now), pairs[1..], now);
      } else {
        CollisionStartKeepsValid(s, pairs[1..], now);
      }
    }
  }

  lemma FireDisposalKeepsValid(s: AppState)
    requires Valid(s) && |s.disposals| > 0
    ensures Valid(FireDisposal(s))
  {
    WithoutBodyKeepsOrder(s.bodies, s.disposals[0]);
  }

  // ---- Scales ----

  /**
   * setupScale clears first: no ball, line or free spawner survives, no song
   * timer is left, and the walls stay. Then each note gets one key line and
   * one musical spawner, the spawner 150 above its line with the line's
   * note, its identity taken from the spawner counter. No other field
   * changes: the recorder, the gesture and the spawn interval stay.
   */
  lemma SetupScaleLaysOutKeys(s: AppState, notes: seq<Note>)
    ensures var r := SetupScale(s, notes);
            var kept := |r.bodies| - |notes|;
            && r.spawners == [] && r.songTimers == []
            && |r.musicalSpawners| == |notes| && r.spawnerIdCounter == s.spawnerIdCounter + |notes|
            && kept >= 0
            && (forall b :: b in r.bodies[..kept] <==> b in s.bodies && !IsBallOrLine(b))
            && (forall i :: 0 <= i < |notes| ==>
                  var line := r.bodies[kept + i];
                  var spawner := r.musicalSpawners[i];
                  && line.Line? && line.template == Template(notes[i])
                  && spawner.note == notes[i] && spawner.id == s.spawnerIdCounter + i
                  && spawner.position == Vec(line.center.x, line.center.y - SPAWNER_OFFSET_Y)
                  && PitchOfLength(line.length) == Frequency(notes[i]))
    ensures SetupScale(s, notes).(bodies := s.bodies, nextBodyId := s.nextBodyId, spawners := s.spawners,
                                  musicalSpawners := s.musicalSpawners, spawnerIdCounter := s.spawnerIdCounter,
                                  songTimers := s.songTimers) == s
  {
    SetupScaleFrame(s, notes);
    var r := SetupScale(s, notes);
    var kept := WithoutBallsAndLines(s.bodies);
    assert r.bodies[..|kept|] == kept;
    forall i | 0 <= i < |notes|
      ensures var line := r.bodies[|kept| + i];
              var spawner := r.musicalSpawners[i];
              && line.Line? && line.template == Template(notes[i])
              && spawner.note == notes[i] && spawner.id == s.spawnerIdCounter + i
              && spawner.position == Vec(line.center.x, line.center.y - SPAWNER_OFFSET_Y)
              && PitchOfLength(line.length) == Frequency(notes[i])
    {
      KeysMatchSpawners(notes, s.width, s.height, s.nextBodyId, s.spawnerIdCounter, i);
    }
  }
  /** setupScale changes only the bodies, the spawners, their counters and the song timers. */
  lemma SetupScaleFrame(s: AppState, notes: seq<Note>)
    ensures SetupScale(s, notes).(bodies := s.bodies, nextBodyId := s.nextBodyId, spawners := s.spawners,
                                  musicalSpawners := s.musicalSpawners, spawnerIdCounter := s.spawnerIdCounter,
                                  songTimers := s.songTimers) == s
  {
  }


  /** The notes of a list of musical spawners, in order. */
  function SpawnerNotes(musical: seq<MusicalSpawner>): (notes: seq<Note>)
    ensures |notes| == |musical|
    ensures forall i :: 0 <= i < |musical| ==> notes[i] == musical[i].note
  {
    seq(|musical|, i requires 0 <= i < |musical| => musical[i].note)
  }

  // ---- Songs ----

  /**
   * playSong lays out each distinct note of the melody once, in ascending
   * pitch and nothing else, and leaves exactly one pending timer per melody
   * event: the old ones are gone. The recorder, the gesture, the spawn
   * interval and every other field stay as they were, so playing a song
   * never touches the recording.
   */
  lemma PlaySongSchedulesMelody(s: AppState, melody: seq<PlayableNote>)
    ensures var r := PlaySong(s, melody);
            && SpawnerNotes(r.musicalSpawners) == CustomScale(melody)
            && Ascending(SpawnerNotes(r.musicalSpawners))
            && (forall n :: n in SpawnerNotes(r.musicalSpawners) <==> exists i :: 0 <= i < |melody| && melody[i].note == n)
            && |r.songTimers| == |melody|
            && (forall i :: 0 <= i < |melody| ==>
                  r.songTimers[i].note == melody[i].note && r.songTimers[i].delay == TimerDelay(melody[i].time))
            && r.(bodies := s.bodies, nextBodyId := s.nextBodyId, spawners := s.spawners,
                  musicalSpawners := s.musicalSpawners, spawnerIdCounter := s.spawnerIdCounter,
                  songTimers := s.songTimers) == s
  {
    var r := PlaySong(s, melody);
    CustomScaleAscends(melody);
    assert SpawnerNotes(r.musicalSpawners) == CustomScale(melody);
  }

  /** After a resize, the next setupScale lays its keys out for the new canvas size. */
  lemma ResizeMovesLaterLayouts(s: AppState, w: real, h: real, notes: seq<Note>)
    ensures var r := SetupScale(Resize(s, w, h), notes);
            && r.width == w && r.height == h
            && r.bodies == WithoutBallsAndLines(s.bodies) + ScaleLines(notes, w, h, s.nextBodyId)
            && r.musicalSpawners == ScaleSpawners(notes, w, h, s.spawnerIdCounter)
  {
  }

  /** stopSong leaves no pending timer, and stopping twice is stopping once. */
  lemma StopSongIdempotent(s: AppState)
    ensures StopSong(s).songTimers == []
    ensures StopSong(StopSong(s)) == StopSong(s)
  {
  }

  /** Every timer a song schedules finds a spawner for its note, as long as the scale is untouched. */
  lemma PlayedTimersFindSpawners(s: AppState, melody: seq<PlayableNote>)
    ensures var r := PlaySong(s, melody);
            forall t :: t in r.songTimers ==> SpawnerFor(r.musicalSpawners, t.note) >= 0
  {
    var r := PlaySong(s, melody);
    PlaySongSchedulesMelody(s, melody);
    forall t | t in r.songTimers ensures SpawnerFor(r.musicalSpawners, t.note) >= 0 {
      var i :| 0 <= i < |r.songTimers| && r.songTimers[i] == t;
      assert t.note in SpawnerNotes(r.musicalSpawners);
      var k :| 0 <= k < |r.musicalSpawners| && SpawnerNotes(r.musicalSpawners)[k] == t.note;
    }
  }

  /**
   * A fired song timer is no longer pending: exactly the earliest-due one
   * leaves the list. It drops one new ball at the first musical spawner that
   * has its note now; when none has it, the world is unchanged. The
   * spawners, the gesture, the recorder and every other field stay as they were.
   */
  lemma FireSongTimerDropsBall(s: AppState)
    requires |s.songTimers| > 0
    ensures var r := FireSongTimer(s);
            var t := s.songTimers[EarliestDue(s.songTimers)];
            && r.songTimers == RemoveAt(s.songTimers, EarliestDue(s.songTimers))
            && |r.songTimers| == |s.songTimers| - 1
            && r.(bodies := s.bodies, nextBodyId := s.nextBodyId, songTimers := s.songTimers) == s
            && ((exists j :: 0 <= j < |s.musicalSpawners| && s.musicalSpawners[j].note == t.note) ==>
                  exists k :: 0 <= k < |s.musicalSpawners| && s.musicalSpawners[k].note == t.note
                    && (forall j :: 0 <= j < k ==> s.musicalSpawners[j].note != t.note)
                    && r.bodies == s.bodies + [Ball(s.nextBodyId, s.musicalSpawners[k].position)])
            && ((forall j :: 0 <= j < |s.musicalSpawners| ==> s.musicalSpawners[j].note != t.note) ==>
                  r.bodies == s.bodies && r.nextBodyId == s.nextBodyId)
  {
  }

  // ---- Spawning ----

  /** A tick of the spawn interval drops one ball under each free spawner and changes nothing else. */
  lemma SpawnTickDropsOnePerSpawner(s: AppState)
    ensures var r := SpawnTick(s);
            && |r.bodies| == |s.bodies| + |s.spawners| && r.bodies[..|s.bodies|] == s.bodies
            && (forall i :: 0 <= i < |s.spawners| ==> r.bodies[|s.bodies| + i] == Ball(s.nextBodyId + i, s.spawners[i].position))
            && r.spawners == s.spawners && r.musicalSpawners == s.musicalSpawners
            && r.(bodies := s.bodies, nextBodyId := s.nextBodyId) == s
  {
  }

  /** Changing the spawn period leaves exactly one interval armed, with the new period. */
  lemma ChangeSpawnIntervalArmsOne(s: AppState, period: real)
    ensures ChangeSpawnInterval(s, period).spawnTimer == Some(period)
    ensures ChangeSpawnInterval(s, period).bodies == s.bodies
  {
  }

  // ---- Right-click ----

  function EntityCount(s: AppState): nat {
    |s.spawners| + |s.musicalSpawners| + |s.bodies|
  }

  /**
   * A right-click removes at most one entity, and exactly one when anything
   * is under the pointer. A free spawner within the radius goes first, the
   * first such in the list; only when there is none a musical spawner; only
   * when neither kind is near a ball under the pointer; and only then a line.
   * Nothing else changes.
   */
  lemma RightClickPriority(s: AppState, p: Vec, contains: (Body, Vec) -> bool)
    ensures var r := RightClick(s, p, contains);
            var i := NearSpawner(s.spawners, p);
            var j := NearMusicalSpawner(s.musicalSpawners, p);
            var b := BodyAt(s.bodies, p, false, contains);
            var l := BodyAt(s.bodies, p, true, contains);
            && EntityCount(r) + 1 >= EntityCount(s) && EntityCount(r) <= EntityCount(s)
            && (EntityCount(r) == EntityCount(s) <==> i == -1 && j == -1 && b == -1 && l == -1)
            && (i >= 0 ==> r == s.(spawners := RemoveAt(s.spawners, i)))
            && (i == -1 && j >= 0 ==> r == s.(musicalSpawners := RemoveAt(s.musicalSpawners, j)))
            && (i == -1 && j == -1 && b >= 0 ==> r == s.(bodies := RemoveAt(s.bodies, b)) && s.bodies[b].Ball?)
            && (i == -1 && j == -1 && b == -1 && l >= 0 ==> r == s.(bodies := RemoveAt(s.bodies, l)) && s.bodies[l].Line?)
            && (i == -1 && j == -1 && b == -1 && l == -1 ==> r == s)
  {
  }

  /** A right-click near a free spawner never touches a musical spawner or a body. */
  lemma RightClickPrefersFreeSpawners(s: AppState, p: Vec, contains: (Body, Vec) -> bool, k: nat)
    requires k < |s.spawners| && Near(s.spawners[k].position, p)
    ensures RightClick(s, p, contains).musicalSpawners == s.musicalSpawners
    ensures RightClick(s, p, contains).bodies == s.bodies
    ensures |RightClick(s, p, contains).spawners| == |s.spawners| - 1
  {
  }

  // ---- Left-click and the drawing gesture ----

  /**
   * Ctrl or Cmd with the left button adds one free spawner at the pointer
   * with the counter's identity; Shift starts a gesture at the pointer; a
   * plain left click drops a ball there; a button that is neither left nor
   * right does nothing.
   */
  lemma LeftClickActions(s: AppState, e: PointerEvent, contains: (Body, Vec) -> bool)
    ensures var r := MouseDown(s, e, contains);
            && (e.button == 0 && (e.ctrlKey || e.metaKey) ==>
                  r.spawners == s.spawners + [Spawner(s.spawnerIdCounter, e.position)] && r.bodies == s.bodies)
            && (e.button == 0 && !(e.ctrlKey || e.metaKey) && e.shiftKey ==>
                  r.isDrawing && r.startPoint == Some(e.position) && r.currentMousePosition == Some(e.position)
                  && r.bodies == s.bodies)
            && (e.button == 0 && !(e.ctrlKey || e.metaKey) && !e.shiftKey ==>
                  r.bodies == s.bodies + [Ball(s.nextBodyId, e.position)] && r.isDrawing == s.isDrawing)
            && (e.button != 0 && e.button != 2 ==> r == s)
  {
  }

  /** mousemove changes the state only while drawing, and then only the gesture's end. */
  lemma MouseMoveOnlyWhileDrawing(s: AppState, p: Vec)
    ensures !s.isDrawing ==> MouseMove(s, p) == s
    ensures s.isDrawing ==> MouseMove(s, p).(currentMousePosition := s.currentMousePosition) == s
    ensures s.isDrawing ==> MouseMove(s, p).currentMousePosition == Some(p)
  {
  }

  /** mouseup and mouseleave always end the gesture: not drawing, neither point known. */
  lemma GestureAlwaysEnds(s: AppState, length: real)
    requires DragLength(s, length)
    ensures !MouseUp(s, length).isDrawing && MouseUp(s, length).startPoint.None? && MouseUp(s, length).currentMousePosition.None?
    ensures !MouseLeave(s).isDrawing && MouseLeave(s).startPoint.None? && MouseLeave(s).currentMousePosition.None?
    ensures MouseLeave(s).bodies == s.bodies
  {
  }

  /**
   * mouseup adds a line exactly when a gesture is in progress and the drag
   * is at least MIN_LINE_LENGTH long; a short drag adds nothing, not even a
   * ball. The line has the template's note length, or the drag's length
   * when the template is Custom Length.
   */
  lemma MouseUpAddsLineOnlyForLongDrag(s: AppState, length: real)
    requires Valid(s) && DragLength(s, length)
    ensures var r := MouseUp(s, length);
            && (s.isDrawing && length >= MIN_LINE_LENGTH <==> |r.bodies| == |s.bodies| + 1)
            && (!(s.isDrawing && length >= MIN_LINE_LENGTH) ==> r.bodies == s.bodies)
            && (s.isDrawing && length >= MIN_LINE_LENGTH ==>
                  var line := r.bodies[|s.bodies|];
                  && r.bodies[..|s.bodies|] == s.bodies && line.Line? && line.template == s.lineTemplate
                  && (s.lineTemplate == CustomLength ==> line.length == length)
                  && (s.lineTemplate.Template? ==> line.length == FrequencyToLineLength(Frequency(s.lineTemplate.note))))
  {
  }

  /**
   * After a template is chosen, a long enough drag draws a line of that
   * template: a chosen note's line has that note's length wherever the drag
   * ended, and Custom Length gives the drag's own length. Nothing else of
   * the state is touched by the choice.
   */
  lemma SelectedTemplateShapesNextLine(s: AppState, t: LineTemplate, length: real)
    requires Valid(s) && OfferedTemplate(t) && DragLength(s, length)
    requires s.isDrawing && length >= MIN_LINE_LENGTH
    ensures SelectLineTemplate(s, t).(lineTemplate := s.lineTemplate) == s
    ensures DragLength(SelectLineTemplate(s, t), length)
    ensures var r := MouseUp(SelectLineTemplate(s, t), length);
            var line := r.bodies[|s.bodies|];
            && |r.bodies| == |s.bodies| + 1 && line.Line? && line.template == t
            && (t.Template? ==> line.length == FrequencyToLineLength(Frequency(t.note)))
            && (t.CustomLength? ==> line.length == length)
  {
    MouseUpAddsLineOnlyForLongDrag(SelectLineTemplate(s, t), length);
  }

  lemma DivideBack(a: real, l: real)
    requires l > 0.0
    ensures (a / l) * l == a
  {
  }

  lemma HalfOfScaled(a: real, l: real)
    requires l > 0.0
    ensures l / 2.0 * (a / l) == a / 2.0
  {
  }

  /**
   * The drawn line points along the drag: its direction times the length
   * it was given is the drag.
   */
  lemma DrawnLineFollowsDrag(id: nat, start: Vec, end: Vec, length: real, template: LineTemplate)
    requires length >= MIN_LINE_LENGTH
    ensures var line := DrawnLine(id, start, end, length, template);
            line.direction.x * length == end.x - start.x && line.direction.y * length == end.y - start.y
  {
    DivideBack(end.x - start.x, length);
    DivideBack(end.y - start.y, length);
  }

  /**
   * With the drag's magnitude as its length, the direction of a drawn line
   * is a unit vector: the (cos, sin) pair of the drag's angle.
   */
  lemma DrawnDirectionIsUnit(id: nat, start: Vec, end: Vec, length: real, template: LineTemplate)
    requires length >= MIN_LINE_LENGTH && IsMagnitude(Sub(end, start), length)
    ensures var d := DrawnLine(id, start, end, length, template).direction;
            d.x * d.x + d.y * d.y == 1.0
  {
    var d := DrawnLine(id, start, end, length, template).direction;
    assert d == Vec((end.x - start.x) / length, (end.y - start.y) / length);
    UnitAfterDividing(end.x - start.x, end.y - start.y, length);
  }

  /** A vector divided by its own positive magnitude has squared norm 1. */
  lemma UnitAfterDividing(dx: real, dy: real, length: real)
    requires length > 0.0 && length * length == dx * dx + dy * dy
    ensures (dx / length) * (dx / length) + (dy / length) * (dy / length) == 1.0
  {
    var x, y := dx / length, dy / length;
    DivideBack(dx, length);
    DivideBack(dy, length);
    SquareOfScaled(x, length, dx);
    SquareOfScaled(y, length, dy);
    PositiveSquare(length);
    calc {
      (x * x) * (length * length) + (y * y) * (length * length);
      dx * dx + dy * dy;
      length * length;
    }
    CancelSquares(x, y, length);
  }

  lemma SquareOfScaled(x: real, l: real, d: real)
    requires x * l == d
    ensures (x * x) * (l * l) == d * d
  {
  }

  lemma PositiveSquare(x: real)
    requires x > 0.0
    ensures x * x > 0.0
  {
  }

  lemma CancelSquares(x: real, y: real, l: real)
    requires l * l > 0.0 && (x * x) * (l * l) + (y * y) * (l * l) == l * l
    ensures x * x + y * y == 1.0
  {
  }

  /** A custom line spans the drag exactly: its ends are the press and release points. */
  lemma CustomLineSpansDrag(id: nat, start: Vec, end: Vec, length: real)
    requires length >= MIN_LINE_LENGTH
    ensures var line := DrawnLine(id, start, end, length, CustomLength);
            && line.length == length
            && line.center.x - length / 2.0 * line.direction.x == start.x
            && line.center.y - length / 2.0 * line.direction.y == start.y
            && line.center.x + length / 2.0 * line.direction.x == end.x
            && line.center.y + length / 2.0 * line.direction.y == end.y
  {
    HalfOfScaled(end.x - start.x, length);
    HalfOfScaled(end.y - start.y, length);
  }

  /** A template line has its note's length, whatever the drag, and starts at the press point. */
  lemma TemplateLineStartsAtPress(id: nat, start: Vec, end: Vec, length: real, n: Note)
    requires length >= MIN_LINE_LENGTH
    ensures var line := DrawnLine(id, start, end, length, Template(n));
            && line.length == FrequencyToLineLength(Frequency(n))
            && line.center.x - line.length / 2.0 * line.direction.x == start.x
            && line.center.y - line.length / 2.0 * line.direction.y == start.y
  {
  }

  // ---- Recording ----

  /** Switching recording on empties the melody; switching it off keeps it for export. */
  lemma ToggleRecordingResets(s: AppState, now: real)
    ensures !s.isRecording ==> ToggleRecording(s, now).isRecording && ToggleRecording(s, now).recordedMelody == []
                               && ToggleRecording(s, now).recordingStartTime == now
    ensures s.isRecording ==> !ToggleRecording(s, now).isRecording
                              && ToggleRecording(s, now).recordedMelody == s.recordedMelody
  {
  }

  /**
   * One ball striking one line sounds the line's pitch and, only while
   * recording, appends exactly one event: the closest note to that pitch at
   * the rounded time since recording began.
   */
  lemma StrikeRecordsOnlyWhileRecording(s: AppState, ball: Body, line: Body, now: real)
    requires ball.Ball? && line.Line? && line.length != 0.0
    ensures var r := CollisionStart(s, [Pair(ball, line)], now);
            var pitch := PitchOfLength(line.length);
            && r.tones == s.tones + [pitch]
            && (s.isRecording ==> r.recordedMelody == s.recordedMelody
                                   + [PlayableNote(ClosestNote(pitch), RoundMs(now - s.recordingStartTime) as real)])
            && (!s.isRecording ==> r.recordedMelody == s.recordedMelody)
            && (line.template.Template? <==> r.disposals == s.disposals + [ball.id])
  {
    var r1 := Strike(s, line, ball, now);
    assert [Pair(ball, line)][1..] == [];
    assert line.template.Template? <==> |r1.disposals| == |s.disposals| + 1;
  }

  /** A ball striking a key or template line of note n while recording records n. */
  lemma TemplateStrikeRecordsItsNote(s: AppState, ball: Body, line: Body, now: real, n: Note)
    requires ball.Ball? && line.Line? && line.length == FrequencyToLineLength(Frequency(n)) && s.isRecording
    ensures line.length != 0.0
    ensures var r := CollisionStart(s, [Pair(ball, line)], now);
            |r.recordedMelody| == |s.recordedMelody| + 1 && r.recordedMelody[|s.recordedMelody|].note == n
  {
    StruckTemplateLineRecordsItsNote(n);
    StrikeRecordsOnlyWhileRecording(s, ball, line, now);
  }

  /**
   * Collisions only ever extend the recording, by at most one event per pair,
   * and never while not recording; they leave the world's bodies alone.
   */
  lemma {:induction false} CollisionsExtendRecording(s: AppState, pairs: seq<Pair>, now: real)
    ensures var r := CollisionStart(s, pairs, now);
            && |s.recordedMelody| <= |r.recordedMelody| <= |s.recordedMelody| + |pairs|
            && r.recordedMelody[..|s.recordedMelody|] == s.recordedMelody
            && (!s.isRecording ==> r.recordedMelody == s.recordedMelody)
            && r.isRecording == s.isRecording && r.bodies == s.bodies
    decreases |pairs|
  {
    if |pairs| > 0 {
      var line, ball := LineOf(pairs[0]), BallOf(pairs[0]);
      if line.Some? && ball.Some? && line.value.length != 0.0 {
        var s1 := Strike(s, line.value, ball.value, now);
        CollisionsExtendRecording(s1, pairs[1..], now);
        var r := CollisionStart(s1, pairs[1..], now);
        assert r.recordedMelody[..|s.recordedMelody|] == r.recordedMelody[..|s1.recordedMelody|][..|s.recordedMelody|];
      } else {
        CollisionsExtendRecording(s, pairs[1..], now);
      }
    }
  }

  /**
   * A ball striking a line of no length ends the handler: the pairs after
   * it are never looked at.
   */
  lemma {:induction false} ZeroLengthLineEndsHandler(s: AppState, before: seq<Pair>, ball: Body, line: Body, after: seq<Pair>, now: real)
    requires ball.Ball? && line.Line? && line.length == 0.0
    ensures CollisionStart(s, before + [Pair(ball, line)] + after, now) == CollisionStart(s, before, now)
    decreases |before|
  {
    var pairs := before + [Pair(ball, line)] + after;
    if |before| == 0 {
      assert pairs[0] == Pair(ball, line);
    } else {
      assert pairs[0] == before[0];
      assert pairs[1..] == before[1..] + [Pair(ball, line)] + after;
      var l, b := LineOf(before[0]), BallOf(before[0]);
      if l.Some? && b.Some? && l.value.length != 0.0 {
        ZeroLengthLineEndsHandler(Strike(s, l.value, b.value, now), before[1..], ball, line, after, now);
      } else if !(l.Some? && b.Some?) {
        ZeroLengthLineEndsHandler(s, before[1..], ball, line, after, now);
      }
    }
  }

  // ---- Disposal ----

  /** The pending removal of a ball takes exactly that ball if it is still there, and nothing otherwise. */
  lemma FireDisposalRemovesThatBall(s: AppState)
    requires Valid(s) && |s.disposals| > 0
    ensures var r := FireDisposal(s);
            var id := s.disposals[0];
            && (forall b :: b in r.bodies <==> b in s.bodies && b.id != id)
            && ((exists b :: b in s.bodies && b.id == id) ==> |r.bodies| == |s.bodies| - 1)
            && ((forall b :: b in s.bodies ==> b.id != id) ==> r.bodies == s.bodies)
  {
    var id := s.disposals[0];
    if exists b :: b in s.bodies && b.id == id {
      WithoutPresentBody(s.bodies, id);
    } else {
      WithoutAbsentBody(s.bodies, id);
    }
  }

  // ---- Paste and export ----

  /** A refused paste changes nothing. */
  lemma RefusedPasteChangesNothing(s: AppState, clip: Clipboard)
    requires ImportSong(clip).Failure?
    ensures PasteAndPlay(s, clip) == s
  {
  }

  /** Pasting the export of a non-empty recording plays that recording. */
  lemma PasteOfExportPlaysRecording(s: AppState)
    requires |s.recordedMelody| > 0
    ensures ExportSong(s.recordedMelody).Some?
    ensures PasteAndPlay(s, Parsed(ExportSong(s.recordedMelody).value)) == PlaySong(s, s.recordedMelody)
  {
    ExportImportRoundTrip(s.recordedMelody);
  }

  /**
   * A paste, played or refused, leaves the recorder alone: exporting after
   * the paste gives what exporting before it gave.
   */
  lemma PasteKeepsRecording(s: AppState, clip: Clipboard)
    ensures var r := PasteAndPlay(s, clip);
            && r.isRecording == s.isRecording && r.recordingStartTime == s.recordingStartTime
            && r.recordedMelody == s.recordedMelody
            && ExportSong(r.recordedMelody) == ExportSong(s.recordedMelody)
  {
  }
}
