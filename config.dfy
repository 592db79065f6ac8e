/**
 * The constant data of the sandbox and its one formula: the note table with
 * its frequencies, the preset scales, the demo songs, the app constants and
 * the mapping between a note's frequency and the length of the line that
 * sounds it.
 */
module Config {
  import opened Wrappers

  /** The keys of NOTE_FREQUENCIES: two chromatic octaves from C4 to B5 ("s" spells "#"). */
  datatype Note =
    | C4 | Cs4 | D4 | Ds4 | E4 | F4 | Fs4 | G4 | Gs4 | A4 | As4 | B4
    | C5 | Cs5 | D5 | Ds5 | E5 | F5 | Fs5 | G5 | Gs5 | A5 | As5 | B5

  /** The keys in declaration order, which is the order a `for ... in` loop visits them. */
  const NoteTable: seq<Note> :=
    [C4, Cs4, D4, Ds4, E4, F4, Fs4, G4, Gs4, A4, As4, B4,
     C5, Cs5, D5, Ds5, E5, F5, Fs5, G5, Gs5, A5, As5, B5]

  /** NOTE_FREQUENCIES[n], in Hz; every value lies above the 200 Hz pole of the length formula. */
  function Frequency(n: Note): (f: real)
    ensures f > 200.0
  {
    match n
    case C4 => 261.63 case Cs4 => 277.18 case D4 => 293.66 case Ds4 => 311.13
    case E4 => 329.63 case F4 => 349.23 case Fs4 => 369.99 case G4 => 392.0
    case Gs4 => 415.3 case A4 => 440.0 case As4 => 466.16 case B4 => 493.88
    case C5 => 523.25 case Cs5 => 554.37 case D5 => 587.33 case Ds5 => 622.25
    case E5 => 659.25 case F5 => 698.46 case Fs5 => 739.99 case G5 => 783.99
    case Gs5 => 830.61 case A5 => 880.0 case As5 => 932.33 case B5 => 987.77
  }

  /** The key string of a note, as it appears in a melody's JSON. */
  function Name(n: Note): string {
    match n
    case C4 => "C4" case Cs4 => "C#4" case D4 => "D4" case Ds4 => "D#4"
    case E4 => "E4" case F4 => "F4" case Fs4 => "F#4" case G4 => "G4"
    case Gs4 => "G#4" case A4 => "A4" case As4 => "A#4" case B4 => "B4"
    case C5 => "C5" case Cs5 => "C#5" case D5 => "D5" case Ds5 => "D#5"
    case E5 => "E5" case F5 => "F5" case Fs5 => "F#5" case G5 => "G5"
    case Gs5 => "G#5" case A5 => "A5" case As5 => "A#5" case B5 => "B5"
  }

  /** The note whose key is `s`, if `s` is a key of NOTE_FREQUENCIES. */
  function NoteNamed(s: string): (r: Option<Note>)
    ensures r.Some? ==> Name(r.value) == s
  {
    match s
    case "C4" => Some(C4) case "C#4" => Some(Cs4) case "D4" => Some(D4) case "D#4" => Some(Ds4)
    case "E4" => Some(E4) case "F4" => Some(F4) case "F#4" => Some(Fs4) case "G4" => Some(G4)
    case "G#4" => Some(Gs4) case "A4" => Some(A4) case "A#4" => Some(As4) case "B4" => Some(B4)
    case "C5" => Some(C5) case "C#5" => Some(Cs5) case "D5" => Some(D5) case "D#5" => Some(Ds5)
    case "E5" => Some(E5) case "F5" => Some(F5) case "F#5" => Some(Fs5) case "G5" => Some(G5)
    case "G#5" => Some(Gs5) case "A5" => Some(A5) case "A#5" => Some(As5) case "B5" => Some(B5)
    case _ => None
  }

  /** Every note's key string reads back as that note: the names are distinct keys. */
  lemma NameRoundTrip(n: Note)
    ensures NoteNamed(Name(n)) == Some(n)
  {
  }

  /** The position of a note in the table; the table lists every note. */
  function NoteIndex(n: Note): (k: nat)
    ensures k < |NoteTable| && NoteTable[k] == n
  {
    match n
    case C4 => 0 case Cs4 => 1 case D4 => 2 case Ds4 => 3 case E4 => 4 case F4 => 5
    case Fs4 => 6 case G4 => 7 case Gs4 => 8 case A4 => 9 case As4 => 10 case B4 => 11
    case C5 => 12 case Cs5 => 13 case D5 => 14 case Ds5 => 15 case E5 => 16 case F5 => 17
    case Fs5 => 18 case G5 => 19 case Gs5 => 20 case A5 => 21 case As5 => 22 case B5 => 23
  }

  /** Strictly rising in pitch from left to right. */
  ghost predicate Ascending(s: seq<Note>) {
    forall i, j :: 0 <= i < j < |s| ==> Frequency(s[i]) < Frequency(s[j])
  }

  /** A sequence that rises at every step rises between any two positions. */
  lemma {:induction false} AscendingFromSteps(s: seq<Note>)
    requires forall k :: 0 <= k < |s| - 1 ==> Frequency(s[k]) < Frequency(s[k + 1])
    ensures Ascending(s)
  {
    if |s| > 1 {
      AscendingFromSteps(s[1..]);
      forall i, j | 0 <= i < j < |s| ensures Frequency(s[i]) < Frequency(s[j]) {
        if i > 0 {
          assert s[i] == s[1..][i - 1] && s[j] == s[1..][j - 1];
        } else if j > 1 {
          assert s[j] == s[1..][j - 1] && s[1] == s[1..][0];
        }
      }
    }
  }

  /** The table runs from C4 to B5 in strictly increasing frequency, with A4 at concert pitch. */
  lemma TableAscends()
    ensures Ascending(NoteTable)
    ensures NoteTable[0] == C4 && NoteTable[|NoteTable| - 1] == B5
    ensures Frequency(A4) == 440.0
  {
    AscendingFromSteps(NoteTable);
  }

  /** Two notes with the same frequency are the same note. */
  lemma FrequencyInjective(a: Note, b: Note)
    requires Frequency(a) == Frequency(b)
    ensures a == b
  {
    TableAscends();
    var i, j := NoteIndex(a), NoteIndex(b);
    assert i == j;
  }

  // ---- App constants ----

  const BALL_RADIUS: real := 5.0
  const LINE_WIDTH: real := 5.0
  /** The shortest drag that commits a drawn line. */
  const MIN_LINE_LENGTH: real := 10.0
  /** The default period of the free spawners' timer, in ms (PARAMS.spawnInterval). */
  const DEFAULT_SPAWN_INTERVAL: real := 500.0

  /** PARAMS.lineTemplate: free-length drawing, or lines whose length is fixed by a note. */
  datatype LineTemplate = CustomLength | Template(note: Note)

  // ---- Frequency and line length ----

  /**
   * frequencyToLineLength: the length of a line that sounds `freq`. The
   * length is positive exactly for frequencies above 200 Hz.
   */
  function FrequencyToLineLength(freq: real): (len: real)
    requires freq != 200.0
    ensures freq > 200.0 <==> len > 0.0
  {
    20000.0 / (freq - 200.0)
  }

  /**
   * The pitch a struck line of length `len` sounds, 200 + 20000 / len
   * (the collision handler's formula). Above 200 Hz exactly for positive lengths.
   */
  function PitchOfLength(len: real): (pitch: real)
    requires len != 0.0
    ensures len > 0.0 <==> pitch > 200.0
  {
    200.0 + 20000.0 / len
  }

  /** A line laid out for a frequency sounds that frequency. */
  lemma PitchOfLineLength(freq: real)
    requires freq != 200.0
    ensures FrequencyToLineLength(freq) != 0.0
    ensures PitchOfLength(FrequencyToLineLength(freq)) == freq
  {
    var d := freq - 200.0;
    assert FrequencyToLineLength(freq) * d == 20000.0;
  }

  /** The other direction: the line for the pitch of a length has that length. */
  lemma LineLengthOfPitch(len: real)
    requires len != 0.0
    ensures PitchOfLength(len) != 200.0
    ensures FrequencyToLineLength(PitchOfLength(len)) == len
  {
    assert PitchOfLength(len) - 200.0 == 20000.0 / len;
  }

  /** A higher frequency gets a strictly shorter line. */
  lemma HigherFrequencyShorterLine(lo: real, hi: real)
    requires 200.0 < lo < hi
    ensures FrequencyToLineLength(lo) > FrequencyToLineLength(hi) > 0.0
  {
    var a, b := lo - 200.0, hi - 200.0;
    assert 0.0 < a < b;
    assert 20000.0 / a * a == 20000.0 && 20000.0 / b * b == 20000.0;
    assert 20000.0 / a > 20000.0 / b by {
      assert 20000.0 / a * b > 20000.0 / a * a;
    }
  }

  /** Along the table, each note's line is strictly shorter than every lower note's. */
  lemma TableLengthsDecrease(i: nat, j: nat)
    requires i < j < |NoteTable|
    ensures FrequencyToLineLength(Frequency(NoteTable[i])) > FrequencyToLineLength(Frequency(NoteTable[j])) > 0.0
  {
    TableAscends();
    HigherFrequencyShorterLine(Frequency(NoteTable[i]), Frequency(NoteTable[j]));
  }

  // ---- Scales ----

  /** The keys of SCALES. */
  datatype ScaleType =
    | Chromatic | BigChromatic | Major | Minor | Pentatonic | Blues
    | HarmonicMinor | MelodicMinor | Ionian

  /** SCALES[s]. Typing every entry as a Note makes each one a key of the note table. */
  function ScaleNotes(s: ScaleType): seq<Note> {
    match s
    case Chromatic => [C4, Cs4, D4, Ds4, E4, F4, Fs4, G4, Gs4, A4, As4, B4, C5]
    case BigChromatic =>
      [C4, Cs4, D4, Ds4, E4, F4, Fs4, G4, Gs4, A4, As4, B4,
       C5, Cs5, D5, Ds5, E5, F5, Fs5, G5, Gs5, A5, As5, B5]
    case Major => [C4, D4, E4, F4, G4, A4, B4, C5]
    case Minor => [C4, D4, Ds4, F4, G4, Gs4, As4, C5]
    case Pentatonic => [C4, D4, E4, G4, A4, C5]
    case Blues => [C4, Ds4, F4, Fs4, G4, As4, C5]
    case HarmonicMinor => [C4, D4, Ds4, F4, G4, Gs4, B4, C5]
    case MelodicMinor => [C4, D4, Ds4, F4, G4, A4, B4, C5]
    case Ionian => [C4, D4, E4, F4, G4, A4, B4, C5]
  }

  /**
   * Every preset scale rises strictly in pitch from C4; the chromatic scale is
   * the first octave of the table plus C5 and the big one is the whole table.
   */
  lemma ScalesAscend(s: ScaleType)
    ensures Ascending(ScaleNotes(s)) && ScaleNotes(s)[0] == C4
  {
    ChromaticScalesFollowTable();
    TableAscends();
    match s
    case Chromatic =>
      assert forall i :: 0 <= i < 13 ==> ScaleNotes(s)[i] == NoteTable[i];
    case BigChromatic =>
    case _ =>
      AscendingFromSteps(ScaleNotes(s));
  }

  lemma ChromaticScalesFollowTable()
    ensures ScaleNotes(Chromatic) == NoteTable[..13]
    ensures ScaleNotes(BigChromatic) == NoteTable
  {
  }

  // ---- Melodies ----

  /** One event of a melody: strike `note` `time` ms after the start. */
  datatype PlayableNote = PlayableNote(note: Note, time: real)

  /** The keys of DEMO_SONGS. */
  datatype DemoSong = ParabensPraVoce | BrilhaBrilhaEstrelinha

  /** DEMO_SONGS[song]. */
  function DemoMelody(song: DemoSong): seq<PlayableNote> {
    match song
    case ParabensPraVoce =>
      [PlayableNote(C4, 250.0), PlayableNote(C4, 750.0), PlayableNote(D4, 1000.0),
       PlayableNote(C4, 1500.0), PlayableNote(F4, 2000.0), PlayableNote(E4, 2500.0),
       PlayableNote(C4, 3500.0), PlayableNote(C4, 4000.0), PlayableNote(D4, 4500.0),
       PlayableNote(C4, 5000.0), PlayableNote(G4, 5500.0), PlayableNote(F4, 6000.0),
       PlayableNote(C4, 7000.0), PlayableNote(C4, 7500.0), PlayableNote(C5, 8000.0),
       PlayableNote(A4, 8500.0), PlayableNote(F4, 9000.0), PlayableNote(E4, 9500.0),
       PlayableNote(D4, 10000.0), PlayableNote(As4, 10500.0), PlayableNote(As4, 11000.0),
       PlayableNote(A4, 11500.0), PlayableNote(F4, 12000.0), PlayableNote(G4, 12500.0),
       PlayableNote(F4, 13000.0)]
    case BrilhaBrilhaEstrelinha =>
      [PlayableNote(C4, 0.0), PlayableNote(C4, 500.0), PlayableNote(G4, 1000.0),
       PlayableNote(G4, 1500.0), PlayableNote(A4, 2000.0), PlayableNote(A4, 2500.0),
       PlayableNote(G4, 3000.0), PlayableNote(F4, 4000.0), PlayableNote(F4, 4500.0),
       PlayableNote(E4, 5000.0), PlayableNote(E4, 5500.0), PlayableNote(D4, 6000.0),
       PlayableNote(D4, 6500.0), PlayableNote(C4, 7000.0)]
  }

  /** The time offsets never go backwards. */
  ghost predicate TimesNonDecreasing(m: seq<PlayableNote>) {
    forall i, j :: 0 <= i < j < |m| ==> m[i].time <= m[j].time
  }

  lemma {:induction false} TimesNonDecreasingFromSteps(m: seq<PlayableNote>)
    requires forall k :: 0 <= k < |m| - 1 ==> m[k].time <= m[k + 1].time
    ensures TimesNonDecreasing(m)
  {
    if |m| > 1 {
      TimesNonDecreasingFromSteps(m[1..]);
      forall i, j | 0 <= i < j < |m| ensures m[i].time <= m[j].time {
        if i > 0 {
          assert m[i] == m[1..][i - 1] && m[j] == m[1..][j - 1];
        } else if j > 1 {
          assert m[j] == m[1..][j - 1] && m[1] == m[1..][0];
        }
      }
    }
  }

  /** Each demo song is a non-empty melody whose offsets are non-negative and never decrease. */
  lemma DemoSongsInOrder(song: DemoSong)
    ensures |DemoMelody(song)| > 0 && DemoMelody(song)[0].time >= 0.0
    ensures TimesNonDecreasing(DemoMelody(song))
  {
    TimesNonDecreasingFromSteps(DemoMelody(song));
  }
}
