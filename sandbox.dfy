/**
 * The handlers of src/main.ts as they run: one object holding the
 * module-level state, whose methods update it in place. Each method is
 * specified by the transition function of the same name, so what the
 * Properties module proves about the transitions holds of the methods.
 */
module Handlers {
  import opened Wrappers
  import opened Config
  import opened World
  import opened Layout
  import opened Melody
  import opened SongJson
  import T = Transitions

  /**
   * The loop of setupScale: for each note in turn, its slot on the grid,
   * its key line and its musical spawner, with consecutive identities.
   */
  method LayOutKeys(notes: seq<Note>, width: real, height: real, lineId: nat, spawnerId: nat)
    returns (lines: seq<Body>, keys: seq<MusicalSpawner>)
    ensures lines == ScaleLines(notes, width, height, lineId)
    ensures keys == ScaleSpawners(notes, width, height, spawnerId)
  {
    lines, keys := [], [];
    for i := 0 to |notes|
      invariant |lines| == i && |keys| == i
      invariant forall j :: 0 <= j < i ==> lines[j] == KeyLine(notes, j, width, height, lineId + j)
      invariant forall j :: 0 <= j < i ==> keys[j] == KeySpawner(notes, j, width, height, spawnerId + j)
    {
      lines := lines + [KeyLine(notes, i, width, height, lineId + i)];
      keys := keys + [KeySpawner(notes, i, width, height, spawnerId + i)];
    }
  }

  /**
   * The search of a right-click at p, in the handler's order with its early
   * returns: the first near free spawner, else the first near musical
   * spawner, else the first ball under p, else the first line under p, is
   * spliced out of its list.
   */
  method DeleteAt(s: T.AppState, p: Vec, contains: (Body, Vec) -> bool)
    returns (spawners: seq<Spawner>, musicalSpawners: seq<MusicalSpawner>, bodies: seq<Body>)
    ensures T.RightClick(s, p, contains) == s.(spawners := spawners, musicalSpawners := musicalSpawners, bodies := bodies)
  {
    spawners, musicalSpawners, bodies := s.spawners, s.musicalSpawners, s.bodies;
    var i := T.NearSpawner(spawners, p);
    if i > -1 {
      spawners := RemoveAt(spawners, i);
      return;
    }
    var j := T.NearMusicalSpawner(musicalSpawners, p);
    if j > -1 {
      musicalSpawners := RemoveAt(musicalSpawners, j);
      return;
    }
    var b := T.BodyAt(bodies, p, false, contains);
    if b > -1 {
      bodies := RemoveAt(bodies, b);
      return;
    }
    var l := T.BodyAt(bodies, p, true, contains);
    if l > -1 {
      bodies := RemoveAt(bodies, l);
    }
  }

  /**
   * The recording step of a strike: the note findClosestNote picks for
   * `pitch`, at the elapsed time rounded to a millisecond, is appended.
   */
  method RecordNote(melody: seq<PlayableNote>, pitch: real, elapsed: real) returns (recorded: seq<PlayableNote>)
    ensures recorded == melody + [PlayableNote(ClosestNote(pitch), RoundMs(elapsed) as real)]
    ensures -0.5 < recorded[|melody|].time - elapsed <= 0.5
  {
    var note := FindClosestNote(pitch);
    var time := RoundMs(elapsed);
    recorded := melody + [PlayableNote(note, time as real)];
  }

  class Sandbox {
    var width: real
    var height: real
    var lineTemplate: LineTemplate
    var spawnInterval: real
    var bodies: seq<Body>
    var nextBodyId: nat
    var spawners: seq<Spawner>
    var musicalSpawners: seq<MusicalSpawner>
    var spawnerIdCounter: nat
    var spawnTimer: Option<real>
    var songTimers: seq<SongTimer>
    var startPoint: Option<Vec>
    var currentMousePosition: Option<Vec>
    var isDrawing: bool
    var isRecording: bool
    var recordingStartTime: real
    var recordedMelody: seq<PlayableNote>
    var tones: seq<real>
    var disposals: seq<nat>

    /** The state as a value. */
    function Snapshot(): T.AppState
      reads this
    {
      T.AppState(width, height, lineTemplate, spawnInterval, bodies, nextBodyId,
                 spawners, musicalSpawners, spawnerIdCounter, spawnTimer, songTimers,
                 startPoint, currentMousePosition, isDrawing,
                 isRecording, recordingStartTime, recordedMelody, tones, disposals)
    }

    /** Start-up: the three walls, the panel's defaults, and the spawn interval armed. */
    constructor (w: real, h: real)
      ensures Snapshot() == T.Initial(w, h)
      ensures T.Valid(Snapshot())
    {
      width, height := w, h;
      lineTemplate, spawnInterval := CustomLength, DEFAULT_SPAWN_INTERVAL;
      bodies, nextBodyId := [Wall(0), Wall(1), Wall(2)], 3;
      spawners, musicalSpawners, spawnerIdCounter := [], [], 0;
      spawnTimer, songTimers := Some(DEFAULT_SPAWN_INTERVAL), [];
      startPoint, currentMousePosition, isDrawing := None, None, false;
      isRecording, recordingStartTime, recordedMelody := false, 0.0, [];
      tones, disposals := [], [];
    }

    method AddBall(p: Vec)
      modifies this
      ensures Snapshot() == T.AddBall(old(Snapshot()), p)
    {
      bodies := bodies + [Ball(nextBodyId, p)];
      nextBodyId := nextBodyId + 1;
    }

    method StopSong()
      modifies this
      ensures Snapshot() == T.StopSong(old(Snapshot()))
    {
      songTimers := [];
    }

    method ClearAll()
      modifies this
      ensures Snapshot() == T.ClearAll(old(Snapshot()))
    {
      StopSong();
      spawners := [];
      musicalSpawners := [];
      bodies := WithoutBallsAndLines(bodies);
    }

    /** setupScale: clear, then add the key line and the musical spawner of each note. */
    method SetupScale(notes: seq<Note>)
      modifies this
      ensures Snapshot() == T.SetupScale(old(Snapshot()), notes)
    {
      ClearAll();
      var lines, keys := LayOutKeys(notes, width, height, nextBodyId, spawnerIdCounter);
      bodies, nextBodyId := bodies + lines, nextBodyId + |notes|;
      musicalSpawners, spawnerIdCounter := keys, spawnerIdCounter + |notes|;
    }

    /** playSong: lay out the melody's own scale, stop the old song, and schedule a timer per event. */
    method PlaySong(melody: seq<PlayableNote>)
      modifies this
      ensures Snapshot() == T.PlaySong(old(Snapshot()), melody)
    {
      SetupScale(CustomScale(melody));
      StopSong();
      ScheduleTimers(melody);
    }

    /** The loop of playSong: one timeout per melody event, in order. */
    method ScheduleTimers(melody: seq<PlayableNote>)
      requires songTimers == []
      modifies this
      ensures Snapshot() == old(Snapshot()).(songTimers := TimersFor(melody))
    {
      var timers := TimersFor(melody);
      for i := 0 to |melody|
        invariant Snapshot() == old(Snapshot()).(songTimers := timers[..i])
      {
        songTimers := songTimers + [SongTimer(TimerDelay(melody[i].time), melody[i].note)];
        assert timers[..i + 1] == timers[..i] + [timers[i]];
      }
      assert timers[..|melody|] == timers;
    }

    /** The next song timeout fires. */
    method FireSongTimer()
      requires |songTimers| > 0
      modifies this
      ensures Snapshot() == T.FireSongTimer(old(Snapshot()))
    {
      var k := EarliestDue(songTimers);
      var note := songTimers[k].note;
      songTimers := RemoveAt(songTimers, k);
      var i := T.SpawnerFor(musicalSpawners, note);
      if i >= 0 {
        AddBall(musicalSpawners[i].position);
      }
    }

    method SetupSpawningInterval()
      modifies this
      ensures Snapshot() == T.SetupSpawningInterval(old(Snapshot()))
    {
      spawnTimer := Some(spawnInterval);
    }

    method ChangeSpawnInterval(period: real)
      modifies this
      ensures Snapshot() == T.ChangeSpawnInterval(old(Snapshot()), period)
    {
      spawnInterval := period;
      SetupSpawningInterval();
    }

    /** The line-template binding: store the choice that mouseup reads. */
    method SelectLineTemplate(t: LineTemplate)
      requires T.OfferedTemplate(t)
      modifies this
      ensures Snapshot() == T.SelectLineTemplate(old(Snapshot()), t)
    {
      lineTemplate := t;
    }

    /** One tick of the spawn interval: a ball at each free spawner, in order. */
    method SpawnTick()
      modifies this
      ensures Snapshot() == T.SpawnTick(old(Snapshot()))
    {
      ghost var c := Snapshot();
      var balls := T.SpawnedBalls(spawners, nextBodyId);
      for i := 0 to |spawners|
        invariant spawners == c.spawners
        invariant Snapshot() == c.(bodies := c.bodies + balls[..i], nextBodyId := c.nextBodyId + i)
      {
        AddBall(spawners[i].position);
        assert balls[..i + 1] == balls[..i] + [balls[i]];
      }
      assert balls[..|spawners|] == balls;
    }

    /** The window's resize handler: the canvas takes the new size. */
    method Resize(w: real, h: real)
      modifies this
      ensures Snapshot() == T.Resize(old(Snapshot()), w, h)
    {
      width, height := w, h;
    }

    method ToggleRecording(now: real)
      modifies this
      ensures Snapshot() == T.ToggleRecording(old(Snapshot()), now)
    {
      isRecording := !isRecording;
      if isRecording {
        recordedMelody := [];
        recordingStartTime := now;
      }
    }

    /**
     * copyRecordedSong: nothing when the recording is empty; otherwise the
     * value written to the clipboard, which a paste reads back as exactly
     * the recording.
     */
    method CopyRecordedSong() returns (r: Option<Json>)
      ensures r.None? <==> |recordedMelody| == 0
      ensures r.Some? ==> ImportSong(Parsed(r.value)) == Success(recordedMelody)
    {
      if |recordedMelody| == 0 {
        return None;
      }
      ExportImportRoundTrip(recordedMelody);
      r := Some(SongToJson(recordedMelody));
    }

    method PasteAndPlay(clip: Clipboard)
      modifies this
      ensures Snapshot() == T.PasteAndPlay(old(Snapshot()), clip)
    {
      match ImportSong(clip)
      case Success(melody) => PlaySong(melody);
      case Failure(_) =>
    }

    /** A right-click at p: the first near free spawner, else musical spawner, else ball, else line goes. */
    method RightClick(p: Vec, contains: (Body, Vec) -> bool)
      modifies this
      ensures Snapshot() == T.RightClick(old(Snapshot()), p, contains)
    {
      var free, musical, world := DeleteAt(Snapshot(), p, contains);
      spawners, musicalSpawners, bodies := free, musical, world;
    }

    /** The mousedown handler. */
    method MouseDown(e: T.PointerEvent, contains: (Body, Vec) -> bool)
      modifies this
      ensures Snapshot() == T.MouseDown(old(Snapshot()), e, contains)
    {
      var p := e.position;
      if e.button == 2 {
        RightClick(p, contains);
      } else if e.button == 0 {
        if e.ctrlKey || e.metaKey {
          spawners := spawners + [Spawner(spawnerIdCounter, p)];
          spawnerIdCounter := spawnerIdCounter + 1;
        } else if e.shiftKey {
          isDrawing := true;
          startPoint := Some(p);
          currentMousePosition := Some(p);
        } else {
          AddBall(p);
        }
      }
    }

    method MouseMove(p: Vec)
      modifies this
      ensures Snapshot() == T.MouseMove(old(Snapshot()), p)
    {
      if isDrawing {
        currentMousePosition := Some(p);
      }
    }

    /** The mouseup handler, told the drag's length. */
    method MouseUp(length: real)
      requires T.DragLength(Snapshot(), length)
      modifies this
      ensures Snapshot() == T.MouseUp(old(Snapshot()), length)
    {
      if isDrawing && startPoint.Some? && currentMousePosition.Some? && length >= MIN_LINE_LENGTH {
        var line := T.DrawnLine(nextBodyId, startPoint.value, currentMousePosition.value, length, lineTemplate);
        bodies := bodies + [line];
        nextBodyId := nextBodyId + 1;
      }
      ResetGesture();
    }

    /** Ends any gesture: not drawing, and neither point known. */
    method ResetGesture()
      modifies this
      ensures Snapshot() == T.ResetGesture(old(Snapshot()))
    {
      isDrawing := false;
      startPoint := None;
      currentMousePosition := None;
    }

    method MouseLeave()
      modifies this
      ensures Snapshot() == T.MouseLeave(old(Snapshot()))
    {
      ResetGesture();
    }

    /** A ball strikes a line of non-zero length: sound it, record it, schedule the ball's removal. */
    method Strike(line: Body, ball: Body, now: real)
      requires line.Line? && line.length != 0.0
      modifies this
      ensures Snapshot() == T.Strike(old(Snapshot()), line, ball, now)
    {
      ghost var after := T.Strike(Snapshot(), line, ball, now);
      var pitch := PitchOfLength(line.length);
      var melody := recordedMelody;
      if isRecording {
        melody := RecordNote(melody, pitch, now - recordingStartTime);
      }
      assert melody == after.recordedMelody;
      var pending := disposals;
      if line.template != CustomLength {
        pending := pending + [ball.id];
      }
      assert pending == after.disposals;
      tones, recordedMelody, disposals := tones + [pitch], melody, pending;
    }

    /** The collisionStart handler at time `now`; a line with no length ends it. */
    method CollisionStart(pairs: seq<T.Pair>, now: real)
      modifies this
      ensures Snapshot() == T.CollisionStart(old(Snapshot()), pairs, now)
    {
      for i := 0 to |pairs|
        invariant T.CollisionStart(Snapshot(), pairs[i..], now) == T.CollisionStart(old(Snapshot()), pairs, now)
      {
        var line, ball := T.LineOf(pairs[i]), T.BallOf(pairs[i]);
        if line.Some? && ball.Some? {
          var lineLength := line.value.length;
          if lineLength == 0.0 {
            return;
          }
          Strike(line.value, ball.value, now);
        }
        assert pairs[i..][1..] == pairs[i + 1..];
      }
    }

    /** The oldest pending 100 ms timeout removes its ball. */
    method FireDisposal()
      requires |disposals| > 0
      modifies this
      ensures Snapshot() == T.FireDisposal(old(Snapshot()))
    {
      bodies := WithoutBody(bodies, disposals[0]);
      disposals := disposals[1..];
    }
  }
}
