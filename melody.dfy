/**
 * The note-level logic behind playback and recording: the custom scale a
 * melody is laid out on, the song timers it schedules, and the quantiser
 * that turns a struck line's pitch back into a note.
 */
module Melody {
  import opened Wrappers
  import opened Config

  // ---- The custom scale of a melody ----

  /** melody.map(({ note }) => note). */
  function MelodyNotes(melody: seq<PlayableNote>): (notes: seq<Note>)
    ensures |notes| == |melody|
    ensures forall i :: 0 <= i < |melody| ==> notes[i] == melody[i].note
  {
    seq(|melody|, i requires 0 <= i < |melody| => melody[i].note)
  }

  predicate NoDuplicates(s: seq<Note>) {
    forall i, j :: 0 <= i < j < |s| ==> s[i] != s[j]
  }

  /**
   * Array.from(new Set(s)): each note once, in the order of its first
   * occurrence, built the way Set.add is applied along the array.
   */
  function Distinct(s: seq<Note>): (r: seq<Note>)
    ensures forall n :: n in r <==> n in s
    ensures NoDuplicates(r)
  {
    if |s| == 0 then []
    else
      var r := Distinct(s[..|s| - 1]);
      assert forall n :: n in s <==> n in s[..|s| - 1] || n == s[|s| - 1];
      if s[|s| - 1] in r then r else r + [s[|s| - 1]]
  }

  predicate SortedByFrequency(s: seq<Note>) {
    forall i :: 0 <= i < |s| - 1 ==> Frequency(s[i]) <= Frequency(s[i + 1])
  }

  /** Places `n` in front of the first note of `s` that is not lower. */
  function InsertByFrequency(n: Note, s: seq<Note>): (r: seq<Note>)
    requires SortedByFrequency(s)
    ensures SortedByFrequency(r)
    ensures multiset(r) == multiset(s) + multiset{n}
    ensures |r| > 0 && (r[0] == n || (|s| > 0 && r[0] == s[0]))
  {
    if |s| == 0 || Frequency(n) <= Frequency(s[0]) then [n] + s
    else
      var rest := InsertByFrequency(n, s[1..]);
      assert s == [s[0]] + s[1..];
      [s[0]] + rest
  }

  /**
   * .sort((a, b) => NOTE_FREQUENCIES[a] - NOTE_FREQUENCIES[b]), by insertion.
   * The engine's own algorithm may differ; AscendingIsUnique shows that on
   * distinct notes every correct sort yields this same sequence.
   */
  function SortByFrequency(s: seq<Note>): (r: seq<Note>)
    ensures SortedByFrequency(r)
    ensures multiset(r) == multiset(s)
  {
    if |s| == 0 then []
    else
      assert s == [s[0]] + s[1..];
      InsertByFrequency(s[0], SortByFrequency(s[1..]))
  }

  /** The scale playSong lays out for a melody. */
  function CustomScale(melody: seq<PlayableNote>): seq<Note> {
    SortByFrequency(Distinct(MelodyNotes(melody)))
  }

  /** Without duplicates, a sequence sorted by frequency rises strictly. */
  lemma SortedDistinctAscends(s: seq<Note>)
    requires SortedByFrequency(s) && NoDuplicates(s)
    ensures Ascending(s)
  {
    forall k | 0 <= k < |s| - 1 ensures Frequency(s[k]) < Frequency(s[k + 1]) {
      if Frequency(s[k]) == Frequency(s[k + 1]) {
        FrequencyInjective(s[k], s[k + 1]);
      }
    }
    AscendingFromSteps(s);
  }

  /** A sequence with the same notes, counted with multiplicity, as one without duplicates has none either. */
  lemma NoDuplicatesFromMultiset(s: seq<Note>, t: seq<Note>)
    requires NoDuplicates(s) && multiset(t) == multiset(s)
    ensures NoDuplicates(t)
  {
    forall i, j | 0 <= i < j < |t| ensures t[i] != t[j] {
      CountTwice(t, i, j);
      assert t[i] in multiset(s);
      var k :| 0 <= k < |s| && s[k] == t[i];
      CountOnce(s, k);
    }
  }

  lemma CountTwice(t: seq<Note>, i: nat, j: nat)
    requires i < j < |t|
    ensures t[i] == t[j] ==> multiset(t)[t[i]] >= 2
  {
    if t[i] == t[j] {
      assert t == t[..i] + [t[i]] + t[i + 1..j] + [t[j]] + t[j + 1..];
    }
  }

  /** In a sequence without duplicates, the note at position k occurs exactly once. */
  lemma {:induction false} CountOnce(s: seq<Note>, k: nat)
    requires NoDuplicates(s) && k < |s|
    ensures multiset(s)[s[k]] == 1
  {
    if k == |s| - 1 {
      assert s == s[..k] + [s[k]];
      assert s[k] !in s[..k];
      assert s[k] !in multiset(s[..k]);
    } else {
      var last := s[|s| - 1];
      assert s == s[..|s| - 1] + [last];
      assert NoDuplicates(s[..|s| - 1]);
      assert s[..|s| - 1][k] == s[k];
      CountOnce(s[..|s| - 1], k);
      assert last != s[k];
    }
  }

  /**
   * The custom scale holds each note of the melody exactly once, and nothing
   * else, in strictly ascending pitch.
   */
  lemma CustomScaleAscends(melody: seq<PlayableNote>)
    ensures Ascending(CustomScale(melody)) && NoDuplicates(CustomScale(melody))
    ensures forall n :: n in CustomScale(melody) <==> exists i :: 0 <= i < |melody| && melody[i].note == n
  {
    var d := Distinct(MelodyNotes(melody));
    var r := CustomScale(melody);
    NoDuplicatesFromMultiset(d, r);
    SortedDistinctAscends(r);
    forall n ensures n in r <==> exists i :: 0 <= i < |melody| && melody[i].note == n {
      assert n in r <==> n in multiset(d);
      if n in MelodyNotes(melody) {
        var i :| 0 <= i < |melody| && MelodyNotes(melody)[i] == n;
        assert melody[i].note == n;
      }
    }
  }

  /** The first note of a strictly ascending sequence is its lowest. */
  lemma FirstIsLowest(s: seq<Note>, i: nat)
    requires Ascending(s) && i < |s|
    ensures Frequency(s[0]) <= Frequency(s[i])
  {
    if i > 0 { assert Frequency(s[0]) < Frequency(s[i]); }
  }

  /** Putting a note below all of an ascending sequence in front keeps it ascending. */
  lemma AscendingCons(n: Note, s: seq<Note>)
    requires Ascending(s) && forall m :: m in s ==> Frequency(n) < Frequency(m)
    ensures Ascending([n] + s)
  {
    var r := [n] + s;
    forall i, j | 0 <= i < j < |r| ensures Frequency(r[i]) < Frequency(r[j]) {
      assert r[j] == s[j - 1];
      if i > 0 { assert r[i] == s[i - 1]; }
    }
  }

  /** Two strictly ascending sequences with the same notes are the same sequence. */
  lemma {:induction false} AscendingIsUnique(s: seq<Note>, t: seq<Note>)
    requires Ascending(s) && Ascending(t)
    requires forall n :: n in s <==> n in t
    ensures s == t
  {
    assert |s| > 0 ==> s[0] in t;
    assert |t| > 0 ==> t[0] in s;
    if |s| > 0 && |t| > 0 {
      var i :| 0 <= i < |t| && t[i] == s[0];
      var j :| 0 <= j < |s| && s[j] == t[0];
      FirstIsLowest(t, i);
      FirstIsLowest(s, j);
      FrequencyInjective(s[0], t[0]);
      forall n ensures n in s[1..] <==> n in t[1..] {
        assert n in s <==> n in s[1..] || n == s[0] by { assert s == [s[0]] + s[1..]; }
        assert n in t <==> n in t[1..] || n == t[0] by { assert t == [t[0]] + t[1..]; }
        if n in s[1..] {
          var k :| 1 <= k < |s| && s[k] == n;
          assert Frequency(s[0]) < Frequency(n);
        }
        if n in t[1..] {
          var k :| 1 <= k < |t| && t[k] == n;
          assert Frequency(t[0]) < Frequency(n);
        }
      }
      AscendingIsUnique(s[1..], t[1..]);
      assert s == [s[0]] + s[1..] && t == [t[0]] + t[1..];
    }
  }

  /**
   * The custom scale is the note table with the notes the melody never uses
   * struck out: a sub-scale of the table, in the table's order.
   */
  lemma CustomScaleIsTableFilter(melody: seq<PlayableNote>)
    ensures CustomScale(melody) == FilterNotes(NoteTable, MelodyNotes(melody))
  {
    var table := FilterNotes(NoteTable, MelodyNotes(melody));
    CustomScaleAscends(melody);
    TableAscends();
    FilterAscends(NoteTable, MelodyNotes(melody));
    forall n ensures n in CustomScale(melody) <==> n in table {
      assert n == NoteTable[NoteIndex(n)];
      if n in MelodyNotes(melody) {
        var i :| 0 <= i < |melody| && MelodyNotes(melody)[i] == n;
      }
    }
    AscendingIsUnique(CustomScale(melody), table);
  }

  /** The notes of t that occur in `keep`, in the order of t. */
  function FilterNotes(t: seq<Note>, keep: seq<Note>): (r: seq<Note>)
    ensures forall n :: n in r <==> n in t && n in keep
  {
    if |t| == 0 then []
    else
      var rest := FilterNotes(t[1..], keep);
      assert t == [t[0]] + t[1..];
      if t[0] in keep then [t[0]] + rest else rest
  }

  /** Striking notes out of an ascending sequence leaves it ascending. */
  lemma {:induction false} FilterAscends(t: seq<Note>, keep: seq<Note>)
    requires Ascending(t)
    ensures Ascending(FilterNotes(t, keep))
  {
    if |t| > 0 {
      assert Ascending(t[1..]) by {
        forall i, j | 0 <= i < j < |t[1..]| ensures Frequency(t[1..][i]) < Frequency(t[1..][j]) {
          assert t[1..][i] == t[i + 1] && t[1..][j] == t[j + 1];
        }
      }
      FilterAscends(t[1..], keep);
      var rest := FilterNotes(t[1..], keep);
      if t[0] in keep {
        forall n | n in rest ensures Frequency(t[0]) < Frequency(n) {
          var p :| 0 <= p < |t[1..]| && t[1..][p] == n;
          assert t[p + 1] == n;
        }
        AscendingCons(t[0], rest);
      }
    }
  }

  /** A note sits at one position of the table only. */
  lemma TableIndexUnique(p: nat, q: nat)
    requires p < |NoteTable| && q < |NoteTable| && NoteTable[p] == NoteTable[q]
    ensures p == q
  {
    TableAscends();
    assert Frequency(NoteTable[p]) == Frequency(NoteTable[q]);
  }

  // ---- Song timers ----

  /** One pending setTimeout of playSong: `delay` ms after the song started, drop a ball for `note`. */
  datatype SongTimer = SongTimer(delay: real, note: Note)

  /**
   * The delay setTimeout waits for an event time: it keeps whole
   * milliseconds only, dropping the fraction, and runs a callback with a
   * negative delay as soon as it can, as if the delay were 0.
   */
  function TimerDelay(time: real): (d: real)
    ensures d >= 0.0 && d == d.Floor as real
    ensures time >= 0.0 ==> d <= time < d + 1.0
    ensures time < 0.0 ==> d == 0.0
  {
    if time < 0.0 then 0.0 else time.Floor as real
  }

  /**
   * Two events within the same millisecond get equal delays, so the one
   * registered first fires first, whatever their fractions.
   */
  lemma SameMillisecondFiresInOrder()
    ensures var ts := TimersFor([PlayableNote(C4, 500.7), PlayableNote(D4, 500.2)]);
            ts[0].delay == ts[1].delay == 500.0 && EarliestDue(ts) == 0
  {
    var ts := TimersFor([PlayableNote(C4, 500.7), PlayableNote(D4, 500.2)]);
    assert (500.7).Floor == 500 && (500.2).Floor == 500;
    assert ts[0].delay == 500.0 && ts[1].delay == 500.0;
  }

  /** The timeouts playSong registers: one per melody event, in melody order. */
  function TimersFor(melody: seq<PlayableNote>): (ts: seq<SongTimer>)
    ensures |ts| == |melody|
    ensures forall i :: 0 <= i < |melody| ==> ts[i] == SongTimer(TimerDelay(melody[i].time), melody[i].note)
  {
    seq(|melody|, i requires 0 <= i < |melody| => SongTimer(TimerDelay(melody[i].time), melody[i].note))
  }

  /**
   * The timer that fires next: the soonest due, and of several due at once
   * the one registered first.
   */
  function EarliestDue(ts: seq<SongTimer>): (k: nat)
    requires |ts| > 0
    ensures k < |ts|
    ensures forall j :: 0 <= j < |ts| ==> ts[k].delay <= ts[j].delay
    ensures forall j :: 0 <= j < k ==> ts[j].delay > ts[k].delay
  {
    if |ts| == 1 then 0
    else
      var k := EarliestDue(ts[..|ts| - 1]);
      assert forall j :: 0 <= j < |ts| - 1 ==> ts[..|ts| - 1][j] == ts[j];
      if ts[|ts| - 1].delay < ts[k].delay then |ts| - 1 else k
  }

  // ---- The quantiser ----

  /** Math.abs(pitch - f). */
  function Diff(pitch: real, f: real): (d: real)
    ensures d >= 0.0 && (d == 0.0 <==> pitch == f)
  {
    if pitch >= f then pitch - f else f - pitch
  }

  /**
   * What findClosestNote promises for the table position k: no table note
   * is nearer to `pitch`, and every earlier one is strictly farther, so the
   * first in table order wins a tie.
   */
  ghost predicate ClosestAt(pitch: real, k: nat) {
    && k < |NoteTable|
    && (forall j :: 0 <= j < |NoteTable| ==> Diff(pitch, Frequency(NoteTable[k])) <= Diff(pitch, Frequency(NoteTable[j])))
    && (forall j :: 0 <= j < k ==> Diff(pitch, Frequency(NoteTable[j])) > Diff(pitch, Frequency(NoteTable[k])))
  }

  /** The frequencies of the table, in its order. */
  function TableFrequencies(): (fs: seq<real>)
    ensures |fs| == |NoteTable|
    ensures forall i :: 0 <= i < |NoteTable| ==> fs[i] == Frequency(NoteTable[i])
  {
    seq(|NoteTable|, i requires 0 <= i < |NoteTable| => Frequency(NoteTable[i]))
  }

  /** The position a scan over the first n of `freqs` settles on, replacing its choice only on a strictly nearer one. */
  function ClosestAmong(pitch: real, freqs: seq<real>, n: nat): (k: nat)
    requires 0 < n <= |freqs|
    ensures k < n
  {
    if n == 1 then 0
    else
      var k := ClosestAmong(pitch, freqs, n - 1);
      if Diff(pitch, freqs[n - 1]) < Diff(pitch, freqs[k]) then n - 1 else k
  }

  /** The scan keeps the nearest of the frequencies seen so far, the earliest of several equally near. */
  lemma {:induction false} ClosestAmongIsNearest(pitch: real, freqs: seq<real>, n: nat)
    requires 0 < n <= |freqs|
    ensures var k := ClosestAmong(pitch, freqs, n);
            && (forall j :: 0 <= j < n ==> Diff(pitch, freqs[k]) <= Diff(pitch, freqs[j]))
            && (forall j :: 0 <= j < k ==> Diff(pitch, freqs[j]) > Diff(pitch, freqs[k]))
  {
    if n > 1 {
      ClosestAmongIsNearest(pitch, freqs, n - 1);
    }
  }

  /** One step of the scan: the i-th frequency replaces the choice so far only if it is strictly nearer. */
  lemma ScanStep(pitch: real, i: nat)
    requires i < |NoteTable|
    ensures i == 0 ==> ClosestAmong(pitch, TableFrequencies(), 1) == 0
    ensures i > 0 ==> var k := ClosestAmong(pitch, TableFrequencies(), i);
                      ClosestAmong(pitch, TableFrequencies(), i + 1)
                      == if Diff(pitch, Frequency(NoteTable[i])) < Diff(pitch, TableFrequencies()[k]) then i else k
  {
  }

  /** findClosestNote(pitch), as a value: the table note the scan settles on. */
  function ClosestNote(pitch: real): Note {
    NoteTable[ClosestAmong(pitch, TableFrequencies(), |NoteTable|)]
  }

  /** What findClosestNote returns is no farther from the pitch than any table note, and the first such. */
  lemma ClosestNoteIsNearest(pitch: real)
    ensures ClosestAt(pitch, NoteIndex(ClosestNote(pitch)))
  {
    var k := ClosestAmong(pitch, TableFrequencies(), |NoteTable|);
    ClosestAmongIsNearest(pitch, TableFrequencies(), |NoteTable|);
    TableIndexUnique(k, NoteIndex(NoteTable[k]));
  }

  /** The promise of findClosestNote pins down one position of the table. */
  lemma ClosestIsUnique(pitch: real, k1: nat, k2: nat)
    requires ClosestAt(pitch, k1) && ClosestAt(pitch, k2)
    ensures k1 == k2
  {
    assert Diff(pitch, Frequency(NoteTable[k1])) <= Diff(pitch, Frequency(NoteTable[k2]));
    assert Diff(pitch, Frequency(NoteTable[k2])) <= Diff(pitch, Frequency(NoteTable[k1]));
  }

  /**
   * findClosestNote: a scan of the table in declaration order that keeps the
   * note with the smallest difference so far, replacing it only on a strictly
   * smaller one. `smallestDiff` starts at Infinity, written None.
   */
  method FindClosestNote(pitch: real) returns (closestNote: Note)
    ensures closestNote == ClosestNote(pitch)
  {
    closestNote := C4;
    var smallestDiff: Option<real> := None;
    ghost var k := 0;
    for i := 0 to |NoteTable|
      invariant k < |NoteTable| && closestNote == NoteTable[k]
      invariant i == 0 ==> smallestDiff == None && k == 0
      invariant i > 0 ==> k == ClosestAmong(pitch, TableFrequencies(), i) && smallestDiff == Some(Diff(pitch, TableFrequencies()[k]))
    {
      var frequency := Frequency(NoteTable[i]);
      var diff := Diff(pitch, frequency);
      ScanStep(pitch, i);
      if smallestDiff.None? || diff < smallestDiff.value {
        smallestDiff := Some(diff);
        closestNote := NoteTable[i];
        k := i;
      }
    }
  }


  /** A pitch that is exactly a table frequency is quantised to that note. */
  lemma ExactPitchQuantises(n: Note)
    ensures ClosestNote(Frequency(n)) == n
  {
    var c := ClosestNote(Frequency(n));
    ClosestNoteIsNearest(Frequency(n));
    assert Diff(Frequency(n), Frequency(c)) <= Diff(Frequency(n), Frequency(NoteTable[NoteIndex(n)]));
    FrequencyInjective(c, n);
  }

  /**
   * A ball striking a line drawn from a note template sounds 200 + 20000 /
   * customLength, which is that note's frequency, and so records that note.
   */
  lemma StruckTemplateLineRecordsItsNote(n: Note)
    ensures FrequencyToLineLength(Frequency(n)) != 0.0
    ensures ClosestNote(PitchOfLength(FrequencyToLineLength(Frequency(n)))) == n
  {
    PitchOfLineLength(Frequency(n));
    ExactPitchQuantises(n);
  }

  /** Later in the table is never lower. */
  lemma TableMonotone(p: nat, q: nat)
    ensures p <= q < |NoteTable| ==> Frequency(NoteTable[p]) <= Frequency(NoteTable[q])
  {
    if p < q < |NoteTable| {
      TableAscends();
      assert Frequency(NoteTable[p]) < Frequency(NoteTable[q]);
    }
  }

  /** Within two hertz of concert A, the quantiser answers A4. */
  lemma NearConcertPitchIsA4(pitch: real)
    requires 438.0 <= pitch <= 442.0
    ensures ClosestNote(pitch) == A4
  {
    var c := ClosestNote(pitch);
    ClosestNoteIsNearest(pitch);
    var k := NoteIndex(c);
    assert Diff(pitch, Frequency(c)) <= Diff(pitch, Frequency(NoteTable[9]));
    TableMonotone(k, 8);
    TableMonotone(10, k);
  }

  /** Math.round: the nearest integer, halves rounded up. */
  function RoundMs(x: real): (r: int)
    ensures (r as real) - 0.5 <= x < (r as real) + 0.5
  {
    (x + 0.5).Floor
  }
}
