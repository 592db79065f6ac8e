/**
 * The sandbox's module-level state and what each handler of src/main.ts
 * does to it, as functions from the state before to the state after. The
 * imperative Sandbox class in the Handlers module is specified by these.
 */
module Transitions {
  import opened Wrappers
  import opened Config
  import opened World
  import opened Layout
  import opened Melody
  import opened SongJson

  /**
   * Everything the handlers read or write: the canvas size and the panel's
   * settings, the world's bodies, the spawners, the pending timers, the
   * drawing gesture, the recorder, and the tones handed to the synthesiser.
   * `spawnTimer` is the period of the armed spawn interval; `disposals` are
   * the balls whose 100 ms removal timeouts are pending, oldest first.
   */
  datatype AppState = AppState(
    width: real, height: real,
    lineTemplate: LineTemplate, spawnInterval: real,
    bodies: seq<Body>, nextBodyId: nat,
    spawners: seq<Spawner>, musicalSpawners: seq<MusicalSpawner>, spawnerIdCounter: nat,
    spawnTimer: Option<real>, songTimers: seq<SongTimer>,
    startPoint: Option<Vec>, currentMousePosition: Option<Vec>, isDrawing: bool,
    isRecording: bool, recordingStartTime: real, recordedMelody: seq<PlayableNote>,
    tones: seq<real>, disposals: seq<nat>)

  /**
   * The invariant every handler keeps: identities are fresh and ordered, and
   * a gesture is in progress exactly when both of its points are known.
   */
  ghost predicate Valid(s: AppState) {
    && IdsIncrease(s.bodies) && IdsBelow(s.bodies, s.nextBodyId)
    && SpawnersOrdered(s.musicalSpawners, s.spawners, s.spawnerIdCounter)
    && (s.isDrawing <==> s.startPoint.Some?)
    && (s.isDrawing <==> s.currentMousePosition.Some?)
  }

  /** The three walls of the canvas, the panel's defaults, and the spawn interval armed at start-up. */
  function Initial(width: real, height: real): (s: AppState)
    ensures Valid(s)
    ensures |s.bodies| == 3 && !s.isDrawing && !s.isRecording && s.spawnTimer == Some(DEFAULT_SPAWN_INTERVAL)
  {
    AppState(width, height, CustomLength, DEFAULT_SPAWN_INTERVAL,
             [Wall(0), Wall(1), Wall(2)], 3,
             [], [], 0,
             Some(DEFAULT_SPAWN_INTERVAL), [],
             None, None, false,
             false, 0.0, [],
             [], [])
  }

  // ---- Bodies, spawners and songs ----

  /** addBall: a new ball, with the next identity, at p. */
  function AddBall(s: AppState, p: Vec): AppState {
    s.(bodies := s.bodies + [Ball(s.nextBodyId, p)], nextBodyId := s.nextBodyId + 1)
  }

  /** stopSong: every pending song timeout is cleared. */
  function StopSong(s: AppState): AppState {
    s.(songTimers := [])
  }

  /** clearAll: stop the song, drop both spawner lists, remove every ball and line. */
  function ClearAll(s: AppState): AppState {
    StopSong(s).(spawners := [], musicalSpawners := [], bodies := WithoutBallsAndLines(s.bodies))
  }

  /** setupScale: clear everything, then one key line and one musical spawner per note. */
  function SetupScale(s: AppState, notes: seq<Note>): AppState {
    var c := ClearAll(s);
    c.(bodies := c.bodies + ScaleLines(notes, s.width, s.height, c.nextBodyId),
       nextBodyId := c.nextBodyId + |notes|,
       musicalSpawners := ScaleSpawners(notes, s.width, s.height, c.spawnerIdCounter),
       spawnerIdCounter := c.spawnerIdCounter + |notes|)
  }

  /** playSong: lay out the melody's custom scale, cancel the old timers, schedule one per event. */
  function PlaySong(s: AppState, melody: seq<PlayableNote>): AppState {
    StopSong(SetupScale(s, CustomScale(melody))).(songTimers := TimersFor(melody))
  }

  /** The first current musical spawner for `note`, as musicalSpawners.find does. */
  function SpawnerFor(musical: seq<MusicalSpawner>, note: Note): (k: int)
    ensures -1 <= k < |musical|
    ensures k >= 0 ==> musical[k].note == note && forall j :: 0 <= j < k ==> musical[j].note != note
    ensures k == -1 ==> forall j :: 0 <= j < |musical| ==> musical[j].note != note
  {
    FindIndex(musical, (m: MusicalSpawner) => m.note == note)
  }

  /**
   * The next song timeout fires: it is no longer pending, and a ball drops
   * from the first musical spawner that has its note now, if there is one.
   */
  function FireSongTimer(s: AppState): AppState
    requires |s.songTimers| > 0
  {
    var k := EarliestDue(s.songTimers);
    var t := s.songTimers[k];
    var rest := s.(songTimers := RemoveAt(s.songTimers, k));
    var i := SpawnerFor(s.musicalSpawners, t.note);
    if i >= 0 then AddBall(rest, s.musicalSpawners[i].position) else rest
  }

  /** setupSpawningInterval: the old interval is cleared and one is armed with the current period. */
  function SetupSpawningInterval(s: AppState): AppState {
    s.(spawnTimer := Some(s.spawnInterval))
  }

  /** The panel's spawn-interval binding: store the period, then re-arm the interval. */
  function ChangeSpawnInterval(s: AppState, period: real): AppState {
    SetupSpawningInterval(s.(spawnInterval := period))
  }

  /** The choices of the panel's "Line Template" list: Custom Length, or a note of the chromatic scale. */
  predicate OfferedTemplate(t: LineTemplate) {
    t.CustomLength? || t.note in ScaleNotes(Chromatic)
  }

  /** The panel's line-template binding: the lines drawn from now on take the chosen template. */
  function SelectLineTemplate(s: AppState, t: LineTemplate): AppState
    requires OfferedTemplate(t)
  {
    s.(lineTemplate := t)
  }

  /** The balls one tick of the spawn interval adds: one per free spawner, in order, at its position. */
  function SpawnedBalls(spawners: seq<Spawner>, firstId: nat): (balls: seq<Body>)
    ensures |balls| == |spawners|
    ensures forall i :: 0 <= i < |spawners| ==> balls[i] == Ball(firstId + i, spawners[i].position)
  {
    seq(|spawners|, i requires 0 <= i < |spawners| => Ball(firstId + i, spawners[i].position))
  }

  /** One tick of the spawn interval. */
  function SpawnTick(s: AppState): AppState {
    s.(bodies := s.bodies + SpawnedBalls(s.spawners, s.nextBodyId), nextBodyId := s.nextBodyId + |s.spawners|)
  }

  /**
   * The window's resize handler: the canvas takes the window's size, which
   * every later setupScale lays its keys out in. The walls stay where they were.
   */
  function Resize(s: AppState, w: real, h: real): AppState {
    s.(width := w, height := h)
  }

  // ---- Recording, export and import ----

  /** toggleRecording at time `now`: switching on empties the melody and restarts the clock. */
  function ToggleRecording(s: AppState, now: real): AppState {
    if !s.isRecording then s.(isRecording := true, recordedMelody := [], recordingStartTime := now)
    else s.(isRecording := false)
  }

  /** handlePasteAndPlay: play the pasted song if it passes the checks, else change nothing. */
  function PasteAndPlay(s: AppState, clip: Clipboard): AppState {
    match ImportSong(clip)
    case Success(melody) => PlaySong(s, melody)
    case Failure(_) => s
  }

  // ---- Pointer input ----

  /** A mousedown: where, which button (0 left, 2 right) and the modifier keys held. */
  datatype PointerEvent = PointerEvent(position: Vec, button: int, ctrlKey: bool, metaKey: bool, shiftKey: bool)

  /** The first free spawner within the delete radius of p, or -1. */
  function NearSpawner(spawners: seq<Spawner>, p: Vec): (k: int)
    ensures -1 <= k < |spawners|
    ensures k >= 0 ==> Near(spawners[k].position, p) && forall j :: 0 <= j < k ==> !Near(spawners[j].position, p)
    ensures k == -1 ==> forall j :: 0 <= j < |spawners| ==> !Near(spawners[j].position, p)
  {
    FindIndex(spawners, (sp: Spawner) => Near(sp.position, p))
  }

  /** The first musical spawner within the delete radius of p, or -1. */
  function NearMusicalSpawner(musical: seq<MusicalSpawner>, p: Vec): (k: int)
    ensures -1 <= k < |musical|
    ensures k >= 0 ==> Near(musical[k].position, p) && forall j :: 0 <= j < k ==> !Near(musical[j].position, p)
    ensures k == -1 ==> forall j :: 0 <= j < |musical| ==> !Near(musical[j].position, p)
  {
    FindIndex(musical, (m: MusicalSpawner) => Near(m.position, p))
  }

  /** Query.point over the balls (or the lines) of the world: the first that contains p, or -1. */
  function BodyAt(bodies: seq<Body>, p: Vec, lines: bool, contains: (Body, Vec) -> bool): (k: int)
    ensures -1 <= k < |bodies|
    ensures k >= 0 ==> (if lines then bodies[k].Line? else bodies[k].Ball?) && contains(bodies[k], p)
    ensures k >= 0 ==> forall j :: 0 <= j < k ==> !((if lines then bodies[j].Line? else bodies[j].Ball?) && contains(bodies[j], p))
    ensures k == -1 ==> forall j :: 0 <= j < |bodies| ==> !((if lines then bodies[j].Line? else bodies[j].Ball?) && contains(bodies[j], p))
  {
    FindIndex(bodies, (b: Body) => (if lines then b.Line? else b.Ball?) && contains(b, p))
  }

  /** A right-click at p deletes one thing: a free spawner, else a musical spawner, else a ball, else a line. */
  function RightClick(s: AppState, p: Vec, contains: (Body, Vec) -> bool): AppState {
    var i := NearSpawner(s.spawners, p);
    if i > -1 then s.(spawners := RemoveAt(s.spawners, i))
    else
      var j := NearMusicalSpawner(s.musicalSpawners, p);
      if j > -1 then s.(musicalSpawners := RemoveAt(s.musicalSpawners, j))
      else
        var b := BodyAt(s.bodies, p, false, contains);
        if b > -1 then s.(bodies := RemoveAt(s.bodies, b))
        else
          var l := BodyAt(s.bodies, p, true, contains);
          if l > -1 then s.(bodies := RemoveAt(s.bodies, l)) else s
  }

  /**
   * The mousedown handler. Ctrl or Cmd with the left button adds a free
   * spawner, Shift starts a line, a plain left click drops a ball; other
   * buttons do nothing.
   */
  function MouseDown(s: AppState, e: PointerEvent, contains: (Body, Vec) -> bool): AppState {
    if e.button == 2 then RightClick(s, e.position, contains)
    else if e.button == 0 then
      if e.ctrlKey || e.metaKey then
        s.(spawners := s.spawners + [Spawner(s.spawnerIdCounter, e.position)], spawnerIdCounter := s.spawnerIdCounter + 1)
      else if e.shiftKey then
        s.(isDrawing := true, startPoint := Some(e.position), currentMousePosition := Some(e.position))
      else AddBall(s, e.position)
    else s
  }

  /** The mousemove handler: the gesture's end follows the pointer while drawing. */
  function MouseMove(s: AppState, p: Vec): AppState {
    if s.isDrawing then s.(currentMousePosition := Some(p)) else s
  }

  /** The length a mouseup is told the drag has: |currentMousePosition - startPoint|. */
  ghost predicate DragLength(s: AppState, length: real) {
    s.isDrawing && s.startPoint.Some? && s.currentMousePosition.Some? ==>
      IsMagnitude(Sub(s.currentMousePosition.value, s.startPoint.value), length)
  }

  /**
   * The line a drag from `start` to `end` of length `length` (at least the
   * minimum) draws. Its direction is the drag's, (cos, sin) of its angle. A
   * custom line spans the drag; a template line has its note's length and
   * starts at `start`.
   */
  function DrawnLine(id: nat, start: Vec, end: Vec, length: real, template: LineTemplate): (line: Body)
    requires length >= MIN_LINE_LENGTH
    ensures line.Line? && line.id == id && line.template == template
  {
    var direction := Vec((end.x - start.x) / length, (end.y - start.y) / length);
    match template
    case CustomLength =>
      Line(id, Vec((start.x + end.x) / 2.0, (start.y + end.y) / 2.0), length, direction, CustomLength)
    case Template(n) =>
      var noteLength := FrequencyToLineLength(Frequency(n));
      Line(id, Vec(start.x + noteLength / 2.0 * direction.x, start.y + noteLength / 2.0 * direction.y),
           noteLength, direction, template)
  }

  /** Ends any gesture: not drawing, and neither point known. */
  function ResetGesture(s: AppState): AppState {
    s.(isDrawing := false, startPoint := None, currentMousePosition := None)
  }

  /** The mouseup handler: a drag of at least MIN_LINE_LENGTH adds a line; the gesture always ends. */
  function MouseUp(s: AppState, length: real): AppState
    requires DragLength(s, length)
  {
    if s.isDrawing && s.startPoint.Some? && s.currentMousePosition.Some? && length >= MIN_LINE_LENGTH then
      var line := DrawnLine(s.nextBodyId, s.startPoint.value, s.currentMousePosition.value, length, s.lineTemplate);
      ResetGesture(s.(bodies := s.bodies + [line], nextBodyId := s.nextBodyId + 1))
    else ResetGesture(s)
  }

  /** The mouseleave handler: the gesture ends and nothing is drawn. */
  function MouseLeave(s: AppState): AppState {
    ResetGesture(s)
  }

  // ---- Collisions ----

  /** A pair of bodies that started touching. */
  datatype Pair = Pair(bodyA: Body, bodyB: Body)

  /** The line of a pair, bodyA first, as the handler picks it. */
  function LineOf(p: Pair): Option<Body> {
    if p.bodyA.Line? then Some(p.bodyA) else if p.bodyB.Line? then Some(p.bodyB) else None
  }

  /** The ball of a pair, bodyA first. */
  function BallOf(p: Pair): Option<Body> {
    if p.bodyA.Ball? then Some(p.bodyA) else if p.bodyB.Ball? then Some(p.bodyB) else None
  }

  /**
   * A ball strikes `line` at time `now`: the line's pitch is sounded, recorded
   * as its closest note while recording, and the ball is set to vanish when
   * the line came from a template.
   */
  function Strike(s: AppState, line: Body, ball: Body, now: real): AppState
    requires line.Line? && line.length != 0.0
  {
    var pitch := PitchOfLength(line.length);
    var recorded :=
      if s.isRecording then s.recordedMelody + [PlayableNote(ClosestNote(pitch), RoundMs(now - s.recordingStartTime) as real)]
      else s.recordedMelody;
    var disposals := if line.template != CustomLength then s.disposals + [ball.id] else s.disposals;
    s.(tones := s.tones + [pitch], recordedMelody := recorded, disposals := disposals)
  }

  /**
   * The collisionStart handler over its pairs in order. A line with no
   * length ends the whole handler, pairs after it included.
   */
  function CollisionStart(s: AppState, pairs: seq<Pair>, now: real): AppState
    decreases |pairs|
  {
    if |pairs| == 0 then s
    else
      var line, ball := LineOf(pairs[0]), BallOf(pairs[0]);
      if line.Some? && ball.Some? then
        if line.value.length == 0.0 then s
        else CollisionStart(Strike(s, line.value, ball.value, now), pairs[1..], now)
      else CollisionStart(s, pairs[1..], now)
  }

  /** The oldest pending 100 ms timeout removes its ball, if the ball is still there. */
  function FireDisposal(s: AppState): AppState
    requires |s.disposals| > 0
  {
    s.(bodies := WithoutBody(s.bodies, s.disposals[0]), disposals := s.disposals[1..])
  }
}
