/**
 * The MIDI playback controller of the piano hook (hooks/use-piano.ts).
 *
 * The hook's React state and refs become the fields of one PianoController
 * object. Wall-clock time is an explicit `now` in integer milliseconds; a
 * timer armed with `setTimeout` is an entry of `scheduled`, and `Fire(i)` is
 * that timer's callback running; the animation-frame loop is the flag
 * `frameArmed` and `Tick(now)` is one frame callback. The sound engine is
 * seen only through the log `sink` of the press and release calls made on it.
 */
module UsePiano {
  import opened Strings
  import opened Wrappers

  function MaxReal(a: real, b: real): real { if a < b then b else a }

  /** The characters that survive `noteName.replace(/[^A-G#b]/g, "")`. */
  predicate IsNoteNameChar(c: char) { 'A' <= c <= 'G' || c == '#' || c == 'b' }

  /** `Math.max(0, Math.min(8, Math.floor(octave)))`. */
  function ClampOctave(octave: real): (d: nat)
    ensures d <= 8
    ensures 0 <= octave.Floor <= 8 ==> d == octave.Floor
    ensures octave.Floor < 0 ==> d == 0
    ensures octave.Floor > 8 ==> d == 8
  {
    if octave.Floor < 0 then 0 else if octave.Floor > 8 then 8 else octave.Floor
  }

  /**
   * fixNoteFormat: the note letters, '#' and 'b' of the name (or "C" when
   * none are left), then the octave floored and clamped to one digit 0..8.
   */
  function FixNoteFormat(noteName: string, octave: real): (r: string)
    ensures |r| >= 2
    ensures '0' <= r[|r| - 1] <= '8' && DigitValue(r[|r| - 1]) == ClampOctave(octave)
    ensures forall i :: 0 <= i < |r| - 1 ==> IsNoteNameChar(r[i])
    ensures Filter(noteName, IsNoteNameChar) != [] ==> r[..|r| - 1] == Filter(noteName, IsNoteNameChar)
    ensures Filter(noteName, IsNoteNameChar) == [] ==> r[..|r| - 1] == "C"
  {
    var clean := Filter(noteName, IsNoteNameChar);
    var name := if clean == [] then "C" else clean;
    name + [DigitChar(ClampOctave(octave))]
  }

  /** A normalised name is a fixed point: normalising again changes nothing. */
  lemma FixNoteFormatIdempotent(noteName: string, octave: real)
    ensures var r := FixNoteFormat(noteName, octave);
            FixNoteFormat(r[..|r| - 1], DigitValue(r[|r| - 1]) as real) == r
  {
    var r := FixNoteFormat(noteName, octave);
    FilterKeepsAll(r[..|r| - 1], IsNoteNameChar);
    assert r[..|r| - 1] + [r[|r| - 1]] == r;
  }

  /** With note characters present, the fixed name is them followed by the printed clamped octave. */
  lemma FixNoteFormatPrinted(noteName: string, octave: real)
    requires Filter(noteName, IsNoteNameChar) != []
    ensures FixNoteFormat(noteName, octave) == Filter(noteName, IsNoteNameChar) + IntToString(ClampOctave(octave))
  {
    assert IntToString(ClampOctave(octave)) == [DigitChar(ClampOctave(octave))];
  }

  // ---------------------------------------------------------------------------
  // The parsed score and the notes collected from it

  /** One note of a parsed track: seconds, seconds, pitch class, octave, 0..1. */
  datatype Note = Note(time: real, duration: real, name: string, octave: int, velocity: real)

  /** A parsed track; a track without notes has the empty sequence. */
  datatype Track = Track(notes: seq<Note>)

  /** The parsed MIDI file: its tracks and its total duration in seconds. */
  datatype Midi = Midi(tracks: seq<Track>, duration: real)

  /** An entry of the hook's `allNotes` list: the note name is already normalised. */
  datatype PlayNote = PlayNote(time: real, duration: real, note: string, velocity: real)

  function ToPlayNote(n: Note): (p: PlayNote)
    ensures p.time == n.time && p.duration == n.duration && p.velocity == n.velocity
    ensures p.note == FixNoteFormat(n.name, n.octave as real)
  {
    PlayNote(n.time, n.duration, FixNoteFormat(n.name, n.octave as real), n.velocity)
  }

  /** The notes of one track not yet played at `offset`, in track order. */
  function PendingIn(notes: seq<Note>, offset: real): (r: seq<PlayNote>)
    ensures |r| <= |notes|
    ensures forall i :: 0 <= i < |r| ==> r[i].time >= offset
  {
    if notes == [] then []
    else
      var last := notes[|notes| - 1];
      PendingIn(notes[..|notes| - 1], offset) + (if last.time >= offset then [ToPlayNote(last)] else [])
  }

  /** The notes of all tracks not yet played at `offset`, track after track. */
  function Pending(tracks: seq<Track>, offset: real): (r: seq<PlayNote>)
    ensures forall i :: 0 <= i < |r| ==> r[i].time >= offset
  {
    if tracks == [] then []
    else Pending(tracks[..|tracks| - 1], offset) + PendingIn(tracks[|tracks| - 1].notes, offset)
  }

  /** Some note of `notes` starts at or after `offset` and becomes `p`. */
  predicate PendingNoteIn(notes: seq<Note>, offset: real, p: PlayNote) {
    exists j :: 0 <= j < |notes| && notes[j].time >= offset && p == ToPlayNote(notes[j])
  }

  /** Some note of some track starts at or after `offset` and becomes `p`. */
  predicate PendingNoteOf(tracks: seq<Track>, offset: real, p: PlayNote) {
    exists k :: 0 <= k < |tracks| && PendingNoteIn(tracks[k].notes, offset, p)
  }

  /** The images under `f` of the elements of `xs` that `keep` accepts, in order. */
  function MapFilter<A, B>(xs: seq<A>, keep: A -> bool, f: A -> B): (r: seq<B>)
    ensures |r| <= |xs|
  {
    if xs == [] then []
    else
      var last := xs[|xs| - 1];
      MapFilter(xs[..|xs| - 1], keep, f) + (if keep(last) then [f(last)] else [])
  }

  lemma {:induction false} MapFilterMembership<A, B>(xs: seq<A>, keep: A -> bool, f: A -> B, y: B)
    ensures y in MapFilter(xs, keep, f) <==> exists j :: 0 <= j < |xs| && keep(xs[j]) && y == f(xs[j])
  {
    if xs != [] {
      var init := xs[..|xs| - 1];
      MapFilterMembership(init, keep, f, y);
      if y in MapFilter(init, keep, f) {
        var j :| 0 <= j < |init| && keep(init[j]) && y == f(init[j]);
        assert xs[j] == init[j];
      }
      if exists j :: 0 <= j < |xs| && keep(xs[j]) && y == f(xs[j]) {
        var j :| 0 <= j < |xs| && keep(xs[j]) && y == f(xs[j]);
        if j < |init| {
          assert init[j] == xs[j];
        }
      }
    }
  }

  /** PendingIn is the generic filter-then-map with the offset test and ToPlayNote. */
  lemma {:induction false} PendingInIsMapFilter(notes: seq<Note>, offset: real, keep: Note -> bool)
    requires forall n :: keep(n) == (n.time >= offset)
    ensures PendingIn(notes, offset) == MapFilter(notes, keep, ToPlayNote)
  {
    if notes != [] {
      PendingInIsMapFilter(notes[..|notes| - 1], offset, keep);
    }
  }

  lemma PendingInMembership(notes: seq<Note>, offset: real, p: PlayNote)
    ensures p in PendingIn(notes, offset) <==> PendingNoteIn(notes, offset, p)
  {
    var keep := (n: Note) => n.time >= offset;
    PendingInIsMapFilter(notes, offset, keep);
    MapFilterMembership(notes, keep, ToPlayNote, p);
  }

  /** The concatenation of `g` applied to each element of `xs`, in order. */
  function ConcatMap<A, B>(xs: seq<A>, g: A -> seq<B>): seq<B> {
    if xs == [] then [] else ConcatMap(xs[..|xs| - 1], g) + g(xs[|xs| - 1])
  }

  lemma {:induction false} ConcatMapMembership<A, B>(xs: seq<A>, g: A -> seq<B>, y: B)
    ensures y in ConcatMap(xs, g) <==> exists k :: 0 <= k < |xs| && y in g(xs[k])
  {
    if xs != [] {
      var init := xs[..|xs| - 1];
      ConcatMapMembership(init, g, y);
      if y in ConcatMap(init, g) {
        var k :| 0 <= k < |init| && y in g(init[k]);
        assert xs[k] == init[k];
      }
      if exists k :: 0 <= k < |xs| && y in g(xs[k]) {
        var k :| 0 <= k < |xs| && y in g(xs[k]);
        if k < |init| {
          assert init[k] == xs[k];
        }
      }
    }
  }

  /** Pending is ConcatMap of PendingIn over the tracks. */
  lemma {:induction false} PendingIsConcatMap(tracks: seq<Track>, offset: real, g: Track -> seq<PlayNote>)
    requires forall t :: g(t) == PendingIn(t.notes, offset)
    ensures Pending(tracks, offset) == ConcatMap(tracks, g)
  {
    if tracks != [] {
      PendingIsConcatMap(tracks[..|tracks| - 1], offset, g);
    }
  }

  /**
   * The notes collected for playback are exactly the score's notes, from any
   * track, whose start time is at or after the offset.
   */
  lemma PendingMembership(tracks: seq<Track>, offset: real, p: PlayNote)
    ensures p in Pending(tracks, offset) <==> PendingNoteOf(tracks, offset, p)
  {
    var g := (t: Track) => PendingIn(t.notes, offset);
    PendingIsConcatMap(tracks, offset, g);
    ConcatMapMembership(tracks, g, p);
    forall k | 0 <= k < |tracks|
      ensures p in g(tracks[k]) <==> PendingNoteIn(tracks[k].notes, offset, p)
    {
      PendingInMembership(tracks[k].notes, offset, p);
    }
  }

  /** The forEach over tracks and notes that fills `allNotes`. */
  method CollectNotes(tracks: seq<Track>, offset: real) returns (allNotes: seq<PlayNote>)
    ensures allNotes == Pending(tracks, offset)
  {
    allNotes := [];
    var k := 0;
    while k < |tracks|
      invariant 0 <= k <= |tracks|
      invariant allNotes == Pending(tracks[..k], offset)
    {
      allNotes := CollectTrack(allNotes, tracks[k].notes, offset);
      assert tracks[..k + 1][..k] == tracks[..k];
      k := k + 1;
    }
    assert tracks[..k] == tracks;
  }

  /** The inner forEach: push every note of one track that starts at or after the offset. */
  method CollectTrack(allNotes: seq<PlayNote>, notes: seq<Note>, offset: real) returns (result: seq<PlayNote>)
    ensures result == allNotes + PendingIn(notes, offset)
  {
    result := allNotes;
    var j := 0;
    while j < |notes|
      invariant 0 <= j <= |notes|
      invariant result == allNotes + PendingIn(notes[..j], offset)
    {
      assert notes[..j + 1][..j] == notes[..j];
      if notes[j].time >= offset {
        result := result + [ToPlayNote(notes[j])];
      }
      j := j + 1;
    }
    assert notes[..j] == notes;
  }

  ghost predicate SortedByTime(s: seq<PlayNote>) {
    forall p, q :: 0 <= p < q < |s| ==> s[p].time <= s[q].time
  }

  /** Reordering keeps every note at or after the offset. */
  lemma SortedStillPending(notes: seq<PlayNote>, sorted: seq<PlayNote>, offset: real)
    requires multiset(sorted) == multiset(notes)
    requires forall i :: 0 <= i < |notes| ==> notes[i].time >= offset
    ensures forall i :: 0 <= i < |sorted| ==> sorted[i].time >= offset
  {
    forall i | 0 <= i < |sorted| ensures sorted[i].time >= offset {
      assert sorted[i] in multiset(notes);
    }
  }

  /** Exchanges two elements of the array being sorted. */
  method Swap(a: array<PlayNote>, i: int, j: int)
    requires 0 <= i < a.Length && 0 <= j < a.Length
    modifies a
    ensures a[i] == old(a[j]) && a[j] == old(a[i])
    ensures forall m :: 0 <= m < a.Length && m != i && m != j ==> a[m] == old(a[m])
    ensures multiset(a[..]) == old(multiset(a[..]))
  {
    a[i], a[j] := a[j], a[i];
  }

  /** `allNotes.sort((a, b) => a.time - b.time)`, as an insertion sort on an array. */
  method SortByTime(notes: seq<PlayNote>) returns (sorted: seq<PlayNote>)
    ensures multiset(sorted) == multiset(notes)
    ensures SortedByTime(sorted)
  {
    var a := new PlayNote[|notes|](i requires 0 <= i < |notes| => notes[i]);
    assert a[..] == notes;
    var i := 0;
    while i < a.Length
      invariant 0 <= i <= a.Length
      invariant multiset(a[..]) == multiset(notes)
      invariant forall p, q :: 0 <= p < q < i ==> a[p].time <= a[q].time
    {
      InsertInto(a, i);
      i := i + 1;
    }
    sorted := a[..];
  }

  /** One insertion step: move `a[i]` left past the later notes before it. */
  method InsertInto(a: array<PlayNote>, i: int)
    requires 0 <= i < a.Length
    requires forall p, q :: 0 <= p < q < i ==> a[p].time <= a[q].time
    modifies a
    ensures multiset(a[..]) == old(multiset(a[..]))
    ensures forall p, q :: 0 <= p < q <= i ==> a[p].time <= a[q].time
  {
    var j := i;
    while j > 0 && a[j - 1].time > a[j].time
      invariant 0 <= j <= i
      invariant multiset(a[..]) == old(multiset(a[..]))
      invariant forall p, q :: 0 <= p < q <= i && q != j ==> a[p].time <= a[q].time
    {
      Swap(a, j - 1, j);
      j := j - 1;
    }
  }

  // ---------------------------------------------------------------------------
  // The scheduled timers

  /** Notes shorter than this many milliseconds are held this long. */
  const MinNoteMs: real := 100.0

  datatype EventKind = NoteOn | NoteOff

  /**
   * One armed timer: its kind, the note its callback presses or releases, the
   * velocity the note-on callback passes, the score time recorded beside it,
   * and the delay in milliseconds it was armed with.
   */
  datatype ScheduledEvent = ScheduledEvent(kind: EventKind, note: string, velocity: real, time: real, delay: real)

  /**
   * `(time - offset) * 1000`: the note-on delay in milliseconds. The guard
   * `startDelay >= 0` holds exactly for notes at or after the offset.
   */
  function OnDelay(n: PlayNote, offset: real): (d: real)
    ensures d >= 0.0 <==> n.time >= offset
    ensures d == 0.0 <==> n.time == offset
  {
    (n.time - offset) * 1000.0
  }

  /** `Math.max(endDelay, startDelay + 100)`. */
  function OffDelay(n: PlayNote, offset: real): (d: real)
    ensures d >= OnDelay(n, offset) + MinNoteMs
    ensures d >= (n.time + n.duration - offset) * 1000.0
  {
    MaxReal((n.time + n.duration - offset) * 1000.0, OnDelay(n, offset) + MinNoteMs)
  }

  /** The two timers armed for one note whose start delay is not negative. */
  function TimersFor(n: PlayNote, offset: real): (r: seq<ScheduledEvent>)
    ensures |r| == 2 && r[0].kind == NoteOn && r[1].kind == NoteOff
    ensures r[0].note == n.note && r[1].note == n.note && r[0].velocity == n.velocity
    ensures r[0].time == n.time && r[1].time == n.time + n.duration
    ensures r[1].delay >= r[0].delay + MinNoteMs
  {
    [ScheduledEvent(NoteOn, n.note, n.velocity, n.time, OnDelay(n, offset)),
     ScheduledEvent(NoteOff, n.note, n.velocity, n.time + n.duration, OffDelay(n, offset))]
  }

  /** The `scheduledEvents` list after the forEach over the sorted notes. */
  function ScheduleOf(notes: seq<PlayNote>, offset: real): (r: seq<ScheduledEvent>)
    ensures |r| <= 2 * |notes|
  {
    if notes == [] then []
    else
      var last := notes[|notes| - 1];
      ScheduleOf(notes[..|notes| - 1], offset) + (if OnDelay(last, offset) >= 0.0 then TimersFor(last, offset) else [])
  }

  /**
   * When every note starts at or after the offset, each note contributes its
   * note-on at index 2k and its note-off at 2k+1, in the notes' order.
   */
  lemma {:induction false} ScheduleShape(notes: seq<PlayNote>, offset: real)
    requires forall i :: 0 <= i < |notes| ==> notes[i].time >= offset
    ensures |ScheduleOf(notes, offset)| == 2 * |notes|
    ensures forall k :: 0 <= k < |notes| ==>
              ScheduleOf(notes, offset)[2 * k] == ScheduledEvent(NoteOn, notes[k].note, notes[k].velocity, notes[k].time, OnDelay(notes[k], offset)) &&
              ScheduleOf(notes, offset)[2 * k + 1] == ScheduledEvent(NoteOff, notes[k].note, notes[k].velocity, notes[k].time + notes[k].duration, OffDelay(notes[k], offset))
  {
    if notes != [] {
      var init := notes[..|notes| - 1];
      ScheduleShape(init, offset);
      assert forall k :: 0 <= k < |init| ==> init[k] == notes[k];
    }
  }

  /**
   * Every delay is non-negative, every note-off fires at least 100 ms after
   * its note-on, and, on sorted notes, the note-ons are in delay order.
   */
  lemma ScheduleDelays(notes: seq<PlayNote>, offset: real)
    requires forall i :: 0 <= i < |notes| ==> notes[i].time >= offset
    ensures |ScheduleOf(notes, offset)| == 2 * |notes|
    ensures forall i :: 0 <= i < |ScheduleOf(notes, offset)| ==> ScheduleOf(notes, offset)[i].delay >= 0.0
    ensures forall k :: 0 <= k < |notes| ==>
              ScheduleOf(notes, offset)[2 * k + 1].delay >= ScheduleOf(notes, offset)[2 * k].delay + MinNoteMs
    ensures SortedByTime(notes) ==>
              forall k, l :: 0 <= k < l < |notes| ==>
                ScheduleOf(notes, offset)[2 * k].delay <= ScheduleOf(notes, offset)[2 * l].delay
  {
    ScheduleShape(notes, offset);
    var s := ScheduleOf(notes, offset);
    forall i | 0 <= i < |s| ensures s[i].delay >= 0.0 {
      var k := i / 2;
      assert i == 2 * k || i == 2 * k + 1;
    }
  }

  /** One release call for every note-on entry, in list order: what cancelling does. */
  function ReleasesFor(events: seq<ScheduledEvent>): (r: seq<string>)
    ensures |r| <= |events|
  {
    if events == [] then []
    else
      var last := events[|events| - 1];
      ReleasesFor(events[..|events| - 1]) + (if last.kind == NoteOn then [last.note] else [])
  }

  /** One more timer adds its note to the released notes exactly when it is a note-on. */
  lemma ReleasedNotesSnoc(prefix: seq<ScheduledEvent>, e: ScheduledEvent)
    ensures ReleasesFor(prefix + [e]) == ReleasesFor(prefix) + (if e.kind == NoteOn then [e.note] else [])
    ensures (set n | n in ReleasesFor(prefix + [e])) ==
            (set n | n in ReleasesFor(prefix)) + (if e.kind == NoteOn then {e.note} else {})
  {
    assert (prefix + [e])[..|prefix|] == prefix;
  }

  function NotesOf(notes: seq<PlayNote>): (r: seq<string>)
    ensures |r| == |notes| && forall i :: 0 <= i < |notes| ==> r[i] == notes[i].note
  {
    seq(|notes|, i requires 0 <= i < |notes| => notes[i].note)
  }

  lemma NotesOfSnoc(notes: seq<PlayNote>, n: PlayNote)
    ensures NotesOf(notes + [n]) == NotesOf(notes) + [n.note]
  {
  }

  lemma {:induction false} ReleasesForAppend(a: seq<ScheduledEvent>, b: seq<ScheduledEvent>)
    ensures ReleasesFor(a + b) == ReleasesFor(a) + ReleasesFor(b)
  {
    if b != [] {
      var init := b[..|b| - 1];
      assert (a + b)[..|a + b| - 1] == a + init;
      ReleasesForAppend(a, init);
    } else {
      assert a + b == a;
    }
  }

  /** Cancelling a batch releases each of its notes once, in schedule order. */
  lemma {:induction false} ReleasesForSchedule(notes: seq<PlayNote>, offset: real)
    requires forall i :: 0 <= i < |notes| ==> notes[i].time >= offset
    ensures ReleasesFor(ScheduleOf(notes, offset)) == NotesOf(notes)
  {
    if notes != [] {
      var init := notes[..|notes| - 1];
      var last := notes[|notes| - 1];
      ReleasesForSchedule(init, offset);
      ReleasesForAppend(ScheduleOf(init, offset), TimersFor(last, offset));
      ReleasesForTimers(last, offset);
      NotesOfSnoc(init, last);
      assert init + [last] == notes;
    }
  }

  /** A note's two timers hold one note-on, for that note. */
  lemma ReleasesForTimers(n: PlayNote, offset: real)
    ensures ReleasesFor(TimersFor(n, offset)) == [n.note]
  {
    var timers := TimersFor(n, offset);
    assert timers[..1] == [timers[0]] && timers[..1][..0] == [];
  }

  // ---------------------------------------------------------------------------
  // The controller

  /** A call made on the sound engine. */
  datatype SinkCall = Press(note: string, velocity: real) | Release(note: string)

  function ReleaseCalls(notes: seq<string>): (r: seq<SinkCall>)
    ensures |r| == |notes| && forall i :: 0 <= i < |notes| ==> r[i] == Release(notes[i])
  {
    seq(|notes|, i requires 0 <= i < |notes| => Release(notes[i]))
  }

  lemma ReleaseCallsAppend(a: seq<string>, b: seq<string>)
    ensures ReleaseCalls(a + b) == ReleaseCalls(a) + ReleaseCalls(b)
  {
  }

  /** Playback position in seconds, `offset + (now - start) / 1000`. */
  function Position(offset: real, start: int, now: int): (p: real)
    ensures now >= start ==> p >= offset
    ensures now == start ==> p == offset
    ensures (p - offset) * 1000.0 == (now - start) as real
  {
    offset + (now - start) as real / 1000.0
  }

  /** During one uninterrupted playing segment the position never goes back. */
  lemma PositionMonotone(offset: real, start: int, now1: int, now2: int)
    requires now1 <= now2
    ensures Position(offset, start, now1) <= Position(offset, start, now2)
  {
  }

  class PianoController {
    /** A sound engine exists (`soundEngine` is not null). */
    var hasEngine: bool
    var midiFile: Option<Midi>
    var duration: real
    var isPlaying: bool
    var currentTime: real
    var activeNotes: set<string>
    /** Wall-clock milliseconds at which the playing segment began; 0 when none. */
    var playbackStartTime: int
    /** Score position in seconds from which the next segment resumes. */
    var playbackOffset: real
    /** An animation-frame callback is pending. */
    var frameArmed: bool
    var scheduled: seq<ScheduledEvent>
    /** Indices of `scheduled` whose timer has already fired. */
    var fired: set<nat>
    /** Every call made on the sound engine, oldest first. */
    var sink: seq<SinkCall>
    /** The sorted notes of the current scheduling batch and its offset. */
    ghost var batch: seq<PlayNote>
    ghost var batchOffset: real

    ghost predicate Valid()
      reads this
    {
      && (forall i :: 0 <= i < |batch| ==> batch[i].time >= batchOffset)
      && scheduled == ScheduleOf(batch, batchOffset)
      && (forall i :: i in fired ==> i < |scheduled|)
    }

    constructor (hasEngine: bool)
      ensures Valid()
      ensures this.hasEngine == hasEngine && midiFile == None
      ensures duration == 0.0 && !isPlaying && currentTime == 0.0 && activeNotes == {}
      ensures playbackStartTime == 0 && playbackOffset == 0.0 && !frameArmed
      ensures scheduled == [] && fired == {} && sink == []
    {
      this.hasEngine := hasEngine;
      midiFile := None;
      duration := 0.0;
      isPlaying := false;
      currentTime := 0.0;
      activeNotes := {};
      playbackStartTime := 0;
      playbackOffset := 0.0;
      frameArmed := false;
      scheduled := [];
      fired := {};
      sink := [];
      batch := [];
      batchOffset := 0.0;
    }

    /** pressNote: sound the note and mark it active; nothing without an engine. */
    method PressNote(note: string, velocity: real)
      modifies this`sink, this`activeNotes
      ensures !hasEngine ==> sink == old(sink) && activeNotes == old(activeNotes)
      ensures hasEngine ==> sink == old(sink) + [Press(note, velocity)]
      ensures hasEngine ==> activeNotes == old(activeNotes) + {note}
      ensures old(Valid()) ==> Valid()
    {
      if !hasEngine {
        return;
      }
      sink := sink + [Press(note, velocity)];
      activeNotes := activeNotes + {note};
    }

    /** releaseNote: release the note and unmark it; nothing without an engine. */
    method ReleaseNote(note: string)
      modifies this`sink, this`activeNotes
      ensures !hasEngine ==> sink == old(sink) && activeNotes == old(activeNotes)
      ensures hasEngine ==> sink == old(sink) + [Release(note)]
      ensures hasEngine ==> activeNotes == old(activeNotes) - {note}
      ensures old(Valid()) ==> Valid()
    {
      if !hasEngine {
        return;
      }
      sink := sink + [Release(note)];
      activeNotes := activeNotes - {note};
    }

    /**
     * loadMidiFile (after parsing): keep the score and its duration and rewind
     * to 0. Timers already armed are left as they are.
     */
    method Load(midi: Midi)
      modifies this`midiFile, this`duration, this`currentTime, this`playbackOffset
      ensures midiFile == Some(midi) && duration == midi.duration
      ensures currentTime == 0.0 && playbackOffset == 0.0
      ensures old(Valid()) ==> Valid()
    {
      midiFile := Some(midi);
      duration := midi.duration;
      currentTime := 0.0;
      playbackOffset := 0.0;
    }

    /**
     * clearScheduledEvents: cancel every timer, release the note of every
     * note-on entry (fired or not), cancel the animation frame and empty the
     * active set.
     */
    method ClearScheduledEvents()
      requires Valid()
      modifies this`scheduled, this`fired, this`sink, this`activeNotes, this`frameArmed, this`batch
      ensures Valid()
      ensures scheduled == [] && fired == {} && activeNotes == {} && !frameArmed
      ensures sink == old(sink) + (if hasEngine then ReleaseCalls(ReleasesFor(old(scheduled))) else [])
      ensures old(scheduled) == [] ==> sink == old(sink)
    {
      ReleaseScheduled(scheduled);
      scheduled := [];
      fired := {};
      batch := [];
      frameArmed := false;
      activeNotes := {};
    }

    /**
     * The forEach of clearScheduledEvents: every entry's timer is cancelled
     * (the entries vanish with `scheduled`) and every note-on entry's note
     * is released, in list order.
     */
    method ReleaseScheduled(events: seq<ScheduledEvent>)
      modifies this`sink, this`activeNotes
      ensures sink == old(sink) + (if hasEngine then ReleaseCalls(ReleasesFor(events)) else [])
      ensures activeNotes == old(activeNotes) - (if hasEngine then set n | n in ReleasesFor(events) else {})
    {
      var i := 0;
      while i < |events|
        invariant 0 <= i <= |events|
        invariant sink == old(sink) + (if hasEngine then ReleaseCalls(ReleasesFor(events[..i])) else [])
        invariant activeNotes == old(activeNotes) - (if hasEngine then set n | n in ReleasesFor(events[..i]) else {})
      {
        assert events[..i + 1] == events[..i] + [events[i]];
        ReleasedNotesSnoc(events[..i], events[i]);
        if events[i].kind == NoteOn {
          ReleaseCallsAppend(ReleasesFor(events[..i]), [events[i].note]);
          ReleaseNote(events[i].note);
        }
        i := i + 1;
      }
      assert events[..i] == events;
    }

    /**
     * One animation-frame callback of updateCurrentTime: publish
     * `offset + elapsed`; before the end ask for the next frame, at or past
     * it stop, pin the time to the duration, rewind and cancel everything.
     */
    method Tick(now: int)
      requires Valid()
      modifies this`scheduled, this`fired, this`sink, this`activeNotes, this`frameArmed, this`batch
      modifies this`playbackOffset, this`isPlaying, this`currentTime
      ensures Valid()
      ensures !old(frameArmed) ==> unchanged(this)
      ensures old(frameArmed) && !(old(isPlaying) && old(playbackStartTime) > 0) ==>
                !frameArmed && isPlaying == old(isPlaying) && currentTime == old(currentTime) &&
                playbackOffset == old(playbackOffset) && scheduled == old(scheduled) &&
                sink == old(sink) && activeNotes == old(activeNotes) &&
                fired == old(fired) && batch == old(batch)
      ensures old(frameArmed) && old(isPlaying) && old(playbackStartTime) > 0 &&
              Position(old(playbackOffset), old(playbackStartTime), now) < old(duration) ==>
                frameArmed && isPlaying && playbackOffset == old(playbackOffset) &&
                currentTime == Position(old(playbackOffset), old(playbackStartTime), now) &&
                scheduled == old(scheduled) && sink == old(sink) && activeNotes == old(activeNotes) &&
                fired == old(fired) && batch == old(batch)
      ensures old(frameArmed) && old(isPlaying) && old(playbackStartTime) > 0 &&
              Position(old(playbackOffset), old(playbackStartTime), now) >= old(duration) ==>
                !frameArmed && !isPlaying && currentTime == duration && playbackOffset == 0.0 &&
                scheduled == [] && activeNotes == {} &&
                sink == old(sink) + (if hasEngine then ReleaseCalls(ReleasesFor(old(scheduled))) else [])
    {
      if !frameArmed {
        return;
      }
      frameArmed := false;
      if isPlaying && playbackStartTime > 0 {
        var totalTime := Position(playbackOffset, playbackStartTime, now);
        currentTime := totalTime;
        if totalTime < duration {
          frameArmed := true;
        } else {
          FinishPlayback();
        }
      }
    }

    /** The end of the score is reached: stop, pin the time to the duration, rewind, cancel everything. */
    method FinishPlayback()
      requires Valid()
      modifies this`scheduled, this`fired, this`sink, this`activeNotes, this`frameArmed, this`batch
      modifies this`playbackOffset, this`isPlaying, this`currentTime
      ensures Valid()
      ensures !frameArmed && !isPlaying && currentTime == duration && playbackOffset == 0.0
      ensures scheduled == [] && fired == {} && activeNotes == {}
      ensures sink == old(sink) + (if hasEngine then ReleaseCalls(ReleasesFor(old(scheduled))) else [])
    {
      isPlaying := false;
      currentTime := duration;
      playbackOffset := 0.0;
      ClearScheduledEvents();
    }

    /**
     * playMidi: with a score and an engine and not already playing, cancel
     * the previous batch, collect the notes at or after the offset, and if
     * there are any, sort them by time, start the clock and arm a note-on
     * and a note-off timer per note.
     */
    method Play(now: int)
      requires Valid()
      modifies this`scheduled, this`fired, this`sink, this`activeNotes, this`frameArmed
      modifies this`isPlaying, this`playbackStartTime, this`batch, this`batchOffset
      ensures Valid()
      ensures old(midiFile).None? || !hasEngine || old(isPlaying) ==> unchanged(this)
      ensures midiFile.Some? && hasEngine && !old(isPlaying) ==>
                && fired == {} && activeNotes == {}
                && sink == old(sink) + ReleaseCalls(ReleasesFor(old(scheduled)))
      ensures midiFile.Some? && hasEngine && !old(isPlaying) &&
              Pending(midiFile.value.tracks, playbackOffset) == [] ==>
                !isPlaying && !frameArmed && scheduled == [] && playbackStartTime == old(playbackStartTime)
      ensures midiFile.Some? && hasEngine && !old(isPlaying) &&
              Pending(midiFile.value.tracks, playbackOffset) != [] ==>
                && isPlaying && frameArmed && playbackStartTime == now
                && batchOffset == playbackOffset && SortedByTime(batch)
                && multiset(batch) == multiset(Pending(midiFile.value.tracks, playbackOffset))
    {
      if midiFile.None? || !hasEngine || isPlaying {
        return;
      }
      ClearScheduledEvents();
      CollectAndStart(now);
    }

    /**
     * playMidi once the previous batch is cancelled: collect the notes at or
     * after the offset and, if there are any, start playing them.
     */
    method CollectAndStart(now: int)
      requires midiFile.Some? && scheduled == [] && fired == {} && batch == []
      modifies this`isPlaying, this`playbackStartTime, this`frameArmed
      modifies this`scheduled, this`batch, this`batchOffset
      ensures Valid()
      ensures Pending(midiFile.value.tracks, playbackOffset) == [] ==>
                isPlaying == old(isPlaying) && frameArmed == old(frameArmed) && scheduled == [] &&
                playbackStartTime == old(playbackStartTime)
      ensures Pending(midiFile.value.tracks, playbackOffset) != [] ==>
                && isPlaying && frameArmed && playbackStartTime == now
                && batchOffset == playbackOffset && SortedByTime(batch)
                && multiset(batch) == multiset(Pending(midiFile.value.tracks, playbackOffset))
    {
      var allNotes := CollectNotes(midiFile.value.tracks, playbackOffset);
      if |allNotes| == 0 {
        return;
      }
      StartPlayback(now, allNotes);
    }

    /** The part of playMidi after the notes are collected: sort, start the clock, arm the timers. */
    method StartPlayback(now: int, allNotes: seq<PlayNote>)
      requires scheduled == [] && fired == {}
      requires forall i :: 0 <= i < |allNotes| ==> allNotes[i].time >= playbackOffset
      modifies this`isPlaying, this`playbackStartTime, this`frameArmed
      modifies this`scheduled, this`batch, this`batchOffset
      ensures Valid()
      ensures isPlaying && frameArmed && playbackStartTime == now
      ensures batchOffset == playbackOffset && SortedByTime(batch) && multiset(batch) == multiset(allNotes)
      ensures scheduled == ScheduleOf(batch, batchOffset)
    {
      var sorted := SortByTime(allNotes);
      SortedStillPending(allNotes, sorted, playbackOffset);
      playbackStartTime := now;
      isPlaying := true;
      frameArmed := true;
      ArmTimers(sorted);
    }

    /**
     * The forEach of playMidi over the sorted notes: arm a note-on timer at
     * the start delay and a note-off timer at least 100 ms later, for every
     * note whose start delay is not negative.
     */
    method ArmTimers(sorted: seq<PlayNote>)
      requires scheduled == [] && fired == {}
      requires forall i :: 0 <= i < |sorted| ==> sorted[i].time >= playbackOffset
      modifies this`scheduled, this`batch, this`batchOffset
      ensures Valid()
      ensures batch == sorted && batchOffset == playbackOffset
      ensures scheduled == ScheduleOf(sorted, playbackOffset)
    {
      var i := 0;
      while i < |sorted|
        invariant 0 <= i <= |sorted|
        invariant scheduled == ScheduleOf(sorted[..i], playbackOffset)
      {
        assert sorted[..i + 1][..i] == sorted[..i];
        var noteEvent := sorted[i];
        var startDelay := (noteEvent.time - playbackOffset) * 1000.0;
        var endDelay := (noteEvent.time + noteEvent.duration - playbackOffset) * 1000.0;
        if startDelay >= 0.0 {
          scheduled := scheduled + [
            ScheduledEvent(NoteOn, noteEvent.note, noteEvent.velocity, noteEvent.time, startDelay),
            ScheduledEvent(NoteOff, noteEvent.note, noteEvent.velocity, noteEvent.time + noteEvent.duration,
                           MaxReal(endDelay, startDelay + MinNoteMs))];
        }
        i := i + 1;
      }
      assert sorted[..i] == sorted;
      batch := sorted;
      batchOffset := playbackOffset;
    }

    /** pauseMidi: while playing, keep the last published time as the offset and cancel everything. */
    method Pause()
      requires Valid()
      modifies this`scheduled, this`fired, this`sink, this`activeNotes, this`frameArmed, this`batch
      modifies this`playbackOffset, this`isPlaying, this`playbackStartTime
      ensures Valid()
      ensures !old(isPlaying) ==> unchanged(this)
      ensures old(isPlaying) ==>
                && playbackOffset == old(currentTime) && !isPlaying && playbackStartTime == 0
                && scheduled == [] && fired == {} && activeNotes == {} && !frameArmed
                && sink == old(sink) + (if hasEngine then ReleaseCalls(ReleasesFor(old(scheduled))) else [])
    {
      if isPlaying {
        playbackOffset := currentTime;
        ClearScheduledEvents();
        isPlaying := false;
        playbackStartTime := 0;
      }
    }

    /** stopMidi: cancel everything and rewind to 0, whatever the state. */
    method Stop()
      requires Valid()
      modifies this`scheduled, this`fired, this`sink, this`activeNotes, this`frameArmed, this`batch
      modifies this`playbackOffset, this`isPlaying, this`playbackStartTime, this`currentTime
      ensures Valid()
      ensures !isPlaying && currentTime == 0.0 && playbackOffset == 0.0 && playbackStartTime == 0
      ensures scheduled == [] && fired == {} && activeNotes == {} && !frameArmed
      ensures sink == old(sink) + (if hasEngine then ReleaseCalls(ReleasesFor(old(scheduled))) else [])
    {
      ClearScheduledEvents();
      isPlaying := false;
      currentTime := 0.0;
      playbackOffset := 0.0;
      playbackStartTime := 0;
    }

    /**
     * The callback of timer `i` runs: a note-on presses its note with its
     * velocity, a note-off releases it. A timer fires at most once, and a
     * cancelled one (no longer in the list) never fires.
     */
    method Fire(i: nat)
      requires Valid()
      modifies this`fired, this`sink, this`activeNotes
      ensures Valid()
      ensures !(i < |scheduled| && i !in old(fired)) ==>
                fired == old(fired) && sink == old(sink) && activeNotes == old(activeNotes)
      ensures i < |scheduled| && i !in old(fired) && scheduled[i].kind == NoteOn ==>
                fired == old(fired) + {i} &&
                sink == old(sink) + (if hasEngine then [Press(scheduled[i].note, scheduled[i].velocity)] else []) &&
                activeNotes == old(activeNotes) + (if hasEngine then {scheduled[i].note} else {})
      ensures i < |scheduled| && i !in old(fired) && scheduled[i].kind == NoteOff ==>
                fired == old(fired) + {i} &&
                sink == old(sink) + (if hasEngine then [Release(scheduled[i].note)] else []) &&
                activeNotes == old(activeNotes) - (if hasEngine then {scheduled[i].note} else {})
    {
      if i < |scheduled| && i !in fired {
        fired := fired + {i};
        var event := scheduled[i];
        if event.kind == NoteOn {
          PressNote(event.note, event.velocity);
        } else {
          ReleaseNote(event.note);
        }
      }
    }
  }
}
