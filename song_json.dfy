/**
 * The exchange format of recorded songs: the JSON value copyRecordedSong
 * writes to the clipboard and the checks handlePasteAndPlay makes on what it
 * reads back before playing it. The text layer (JSON.stringify and
 * JSON.parse) is not modelled; a clipboard holds either no text, text that
 * does not parse, or the value the text parses to.
 */
module SongJson {
  import opened Wrappers
  import opened Config

  /** A JSON value as JSON.parse produces it. */
  datatype Json =
    | JNull
    | JBool(b: bool)
    | JNumber(n: real)
    | JString(s: string)
    | JArray(items: seq<Json>)
    | JObject(fields: map<string, Json>)

  /** What navigator.clipboard.readText yields, after JSON.parse where there is text. */
  datatype Clipboard = EmptyText | Unparsable | Parsed(value: Json)

  /** Why a paste plays nothing; each ends in an alert. */
  datatype ImportError =
    | NoSong          // no text on the clipboard
    | InvalidJson     // JSON.parse threw
    | InvalidFormat   // not an array, an empty array, or an item without `note` and `time`
    | UnknownNote     // an item's note is not a name of the note table
    | BadTime         // an item's time is not a number

  /** One melody event as JSON.stringify writes it: {"note": name, "time": ms}. */
  function EventJson(e: PlayableNote): Json {
    JObject(map["note" := JString(Name(e.note)), "time" := JNumber(e.time)])
  }

  /** The value copyRecordedSong stringifies: the array of the melody's events. */
  function SongToJson(melody: seq<PlayableNote>): (j: Json)
    ensures j.JArray? && |j.items| == |melody|
    ensures forall i :: 0 <= i < |melody| ==> j.items[i] == EventJson(melody[i])
  {
    JArray(seq(|melody|, i requires 0 <= i < |melody| => EventJson(melody[i])))
  }

  /** copyRecordedSong: nothing to export from an empty recording, else the song's JSON. */
  function ExportSong(recorded: seq<PlayableNote>): (r: Option<Json>)
    ensures r.None? <==> |recorded| == 0
  {
    if |recorded| == 0 then None else Some(SongToJson(recorded))
  }

  /**
   * `"note" in item && "time" in item`. The `in` operator throws on a
   * primitive, which the same catch turns into the same alert, and an array
   * has no such keys; only an object with both keys passes.
   */
  predicate HasNoteAndTime(item: Json) {
    item.JObject? && "note" in item.fields && "time" in item.fields
  }

  /** The event an item that passed the structural check stands for. */
  function DecodeEvent(item: Json): (r: Result<PlayableNote, ImportError>)
    requires HasNoteAndTime(item)
    ensures r.Success? ==> EventJson(r.value) == JObject(map["note" := item.fields["note"], "time" := item.fields["time"]])
  {
    var note, time := item.fields["note"], item.fields["time"];
    if !note.JString? || NoteNamed(note.s).None? then Failure(UnknownNote)
    else if !time.JNumber? then Failure(BadTime)
    else Success(PlayableNote(NoteNamed(note.s).value, time.n))
  }

  /** Decodes the items in order; the first bad one decides the error. */
  function DecodeEvents(items: seq<Json>): (r: Result<seq<PlayableNote>, ImportError>)
    requires forall i :: 0 <= i < |items| ==> HasNoteAndTime(items[i])
    ensures r.Success? ==> |r.value| == |items|
    ensures r.Success? ==> forall i :: 0 <= i < |items| ==> DecodeEvent(items[i]) == Success(r.value[i])
  {
    if |items| == 0 then Success([])
    else
      match DecodeEvent(items[0])
      case Failure(e) => Failure(e)
      case Success(e) =>
        match DecodeEvents(items[1..])
        case Failure(err) => Failure(err)
        case Success(rest) =>
          assert forall i :: 1 <= i < |items| ==> items[i] == items[1..][i - 1];
          Success([e] + rest)
  }

  /**
   * handlePasteAndPlay before it calls playSong: empty text, text that does
   * not parse, a value that is not a non-empty array of objects with `note`
   * and `time`, are refused; otherwise the items are the melody.
   */
  function ImportSong(clip: Clipboard): (r: Result<seq<PlayableNote>, ImportError>)
    ensures r.Success? ==> |r.value| > 0
  {
    match clip
    case EmptyText => Failure(NoSong)
    case Unparsable => Failure(InvalidJson)
    case Parsed(j) =>
      if !j.JArray? || |j.items| == 0 || !(forall i :: 0 <= i < |j.items| ==> HasNoteAndTime(j.items[i])) then
        Failure(InvalidFormat)
      else
        DecodeEvents(j.items)
  }

  /**
   * A paste plays a song only if the clipboard held a non-empty array whose
   * every item has `note` and `time`; anything else is refused before
   * playSong is reached.
   */
  lemma ImportRequiresWellFormedArray(clip: Clipboard)
    ensures ImportSong(clip).Success? ==>
              && clip.Parsed? && clip.value.JArray? && |clip.value.items| > 0
              && (forall i :: 0 <= i < |clip.value.items| ==> HasNoteAndTime(clip.value.items[i]))
              && |ImportSong(clip).value| == |clip.value.items|
    ensures clip == EmptyText ==> ImportSong(clip) == Failure(NoSong)
    ensures clip.Parsed? && !clip.value.JArray? ==> ImportSong(clip) == Failure(InvalidFormat)
    ensures clip == Parsed(JArray([])) ==> ImportSong(clip) == Failure(InvalidFormat)
  {
  }

  /** One item lacking `note` or `time` anywhere in the array refuses the whole paste. */
  lemma ImportRejectsItemWithoutFields(items: seq<Json>, k: nat)
    requires k < |items| && !HasNoteAndTime(items[k])
    ensures ImportSong(Parsed(JArray(items))) == Failure(InvalidFormat)
  {
  }

  /** The JSON of an event decodes to that event. */
  lemma EventRoundTrip(e: PlayableNote)
    ensures HasNoteAndTime(EventJson(e))
    ensures DecodeEvent(EventJson(e)) == Success(e)
  {
    NameRoundTrip(e.note);
  }

  lemma {:induction false} EventsRoundTrip(melody: seq<PlayableNote>)
    ensures forall i :: 0 <= i < |melody| ==> HasNoteAndTime(SongToJson(melody).items[i])
    ensures DecodeEvents(SongToJson(melody).items) == Success(melody)
  {
    var items := SongToJson(melody).items;
    forall i | 0 <= i < |melody| ensures HasNoteAndTime(items[i]) {
      EventRoundTrip(melody[i]);
    }
    if |melody| > 0 {
      EventRoundTrip(melody[0]);
      EventsRoundTrip(melody[1..]);
      assert items[1..] == SongToJson(melody[1..]).items;
      assert melody == [melody[0]] + melody[1..];
    }
  }

  /** Pasting what copyRecordedSong exported plays exactly the recorded melody. */
  lemma ExportImportRoundTrip(recorded: seq<PlayableNote>)
    requires |recorded| > 0
    ensures ExportSong(recorded).Some?
    ensures ImportSong(Parsed(ExportSong(recorded).value)) == Success(recorded)
  {
    EventsRoundTrip(recorded);
  }
}
