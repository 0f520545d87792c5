/** The note pattern of src/core/sequencer/Pattern.ts: a named, fixed-length
    list of note objects kept in onset order. */
module Patterns {
  import opened Options
  import opened JsSemantics
  import opened Seqs
  import opened Notes

  /** Onsets never decrease along `s`. */
  ghost predicate TimeOrdered(s: seq<Note>)
    reads s
  {
    forall i, j :: 0 <= i < j < |s| ==> s[i].time <= s[j].time
  }

  /** `Math.round(time / gridSize) * gridSize` with `gridSize = 1 /
      subdivision`: the nearest multiple of the grid, halves rounding up. */
  function Quantized(time: real, subdivision: real): real
    requires subdivision != 0.0
  {
    Round(time / (1.0 / subdivision)) as real * (1.0 / subdivision)
  }

  /** For a positive subdivision the snapped time is the grid point nearest
      the original, so it moves by at most half a grid step, stays put when
      already on the grid, and snapping twice is snapping once. */
  lemma QuantizedNearest(time: real, subdivision: real)
    requires subdivision > 0.0
    ensures var q := Quantized(time, subdivision);
            -1.0 / (2.0 * subdivision) < q - time <= 1.0 / (2.0 * subdivision) &&
            Quantized(q, subdivision) == q
  {
    var g := 1.0 / subdivision;
    var x := time / g;
    var m := Round(x);
    var q := Quantized(time, subdivision);
    assert x == time * subdivision;
    assert q == m as real * g;
    assert q / g == m as real;
    assert Round(m as real) == m;
    QuantizedError(time, subdivision, x, m as real);
  }

  lemma QuantizedError(time: real, n: real, x: real, m: real)
    requires n > 0.0 && x == time * n && x - 0.5 < m <= x + 0.5
    ensures -1.0 / (2.0 * n) < m * (1.0 / n) - time <= 1.0 / (2.0 * n)
  {
    assert m * (1.0 / n) - time == (m - x) / n;
  }

  /** Snapping never reorders: for a positive subdivision it is monotone,
      so a time-ordered pattern stays time-ordered. */
  lemma QuantizedMonotone(a: real, b: real, subdivision: real)
    requires subdivision > 0.0 && a <= b
    ensures Quantized(a, subdivision) <= Quantized(b, subdivision)
  {
    var g := 1.0 / subdivision;
    assert a / g <= b / g by {
      assert a / g == a * subdivision && b / g == b * subdivision;
    }
    var ma, mb := Round(a / g), Round(b / g);
    assert ma <= mb;
    assert (mb - ma) as real * g >= 0.0;
  }

  /** The sixteenth-note grid the pattern tests use. */
  lemma QuantizedSixteenths()
    ensures Quantized(0.3, 16.0) == 0.3125
    ensures Quantized(1.7, 16.0) == 1.6875
    ensures Quantized(2.1, 16.0) == 2.125
  {
    assert 0.3 / (1.0 / 16.0) == 4.8;
    assert 1.7 / (1.0 / 16.0) == 27.2;
    assert 2.1 / (1.0 / 16.0) == 33.6;
  }

  class Pattern {
    const id: string
    var name: string
    /** In beats. */
    var length: real
    var notes: seq<Note>

    /** `new Pattern(length = 16, name?)`: an empty name falls back to
        'Pattern' like an absent one. */
    constructor (id: string, length: real := 16.0, name: Option<string> := None)
      ensures this.id == id && this.length == length && notes == []
      ensures this.name == OrDefault(name, "Pattern")
    {
      this.id := id;
      this.length := length;
      this.name := OrDefault(name, "Pattern");
      notes := [];
    }

    /** `addNote(note)`: append, then stable-sort by onset. The result holds
        exactly one more occurrence of `note` and is time-ordered; when the
        notes were already ordered, `note` lands at `at`, after every note
        with an onset not later than its own and before the rest, which
        keep their order. */
    method AddNote(note: Note) returns (ghost at: nat)
      modifies this`notes
      ensures multiset(notes) == multiset(old(notes)) + multiset{note}
      ensures TimeOrdered(notes)
      ensures TimeOrdered(old(notes)) ==> InsertedInOrder(old(notes), note, notes, at)
    {
      at := OnsetInsertionPoint(notes, note);
      if TimeOrdered(notes) {
        SortByOnsetInserts(notes, note);
      }
      notes := SortByOnset(notes + [note]);
    }

    /** `removeNote(noteId)`: keep, in order, exactly the notes with another
        id. */
    method RemoveNote(noteId: string)
      modifies this`notes
      ensures notes == Filter<Note>(old(notes), (n: Note) => n.id != noteId)
      ensures forall n :: n in notes <==> n in old(notes) && n.id != noteId
      ensures forall n :: n in old(notes) && n.id != noteId ==> multiset(notes)[n] == multiset(old(notes))[n]
    {
      var keep: Note -> bool := (n: Note) => n.id != noteId;
      var kept := Filter<Note>(notes, keep);
      forall n | n in notes && n.id != noteId
        ensures multiset(kept)[n] == multiset(notes)[n]
      {
        FilterCount<Note>(notes, keep, n);
      }
      forall n ensures n in kept <==> n in notes && n.id != noteId {
        FilterMembership<Note>(notes, keep, n);
      }
      notes := kept;
    }

    /** `getNote(noteId)`: the first note with that id, if any. */
    function GetNote(noteId: string): (r: Option<Note>)
      reads this
      ensures r.None? <==> forall i :: 0 <= i < |notes| ==> notes[i].id != noteId
      ensures r.Some? ==> exists i :: 0 <= i < |notes| && notes[i] == r.value && r.value.id == noteId &&
                                      forall j :: 0 <= j < i ==> notes[j].id != noteId
    {
      Find(notes, (n: Note) => n.id == noteId)
    }

    /** `transpose(semitones)`: every note in the list is shifted once per
        occurrence; nothing else about the notes or the list changes. */
    method Transpose(semitones: real)
      modifies set n | n in notes
      ensures notes == old(notes)
      ensures forall n :: n in notes ==> n.pitch == old(n.pitch) + Repeated(multiset(notes)[n], semitones)
      ensures forall n :: n in notes ==> n.time == old(n.time) && n.duration == old(n.duration) && n.velocity == old(n.velocity)
    {
      var i := 0;
      while i < |notes|
        invariant 0 <= i <= |notes|
        invariant forall n :: n in notes ==> n.pitch == old(n.pitch) + Repeated(multiset(notes[..i])[n], semitones)
        invariant forall n :: n in notes ==> n.time == old(n.time) && n.duration == old(n.duration) && n.velocity == old(n.velocity)
      {
        var n := notes[i];
        ghost var before := notes[..i];
        assert notes[..i + 1] == before + [n];
        label Step:
        n.Transpose(semitones);
        forall m | m in notes
          ensures m.pitch == old(m.pitch) + Repeated(multiset(before + [n])[m], semitones)
        {
          CountSnoc(before, n, m);
          assert m.pitch == old@Step(m.pitch) + (if m == n then semitones else 0.0);
        }
        i := i + 1;
      }
      assert notes[..i] == notes;
    }

    /** `quantize(subdivision)`: snap every onset to the grid. A note listed
        twice is snapped twice, which changes nothing more because snapping
        is idempotent. */
    method Quantize(subdivision: real)
      requires subdivision > 0.0
      modifies set n | n in notes
      ensures notes == old(notes)
      ensures forall n :: n in notes ==>
                n.time == Quantized(old(n.time), subdivision) &&
                n.pitch == old(n.pitch) && n.duration == old(n.duration) && n.velocity == old(n.velocity)
      ensures old(TimeOrdered(notes)) ==> TimeOrdered(notes)
    {
      var i := 0;
      while i < |notes|
        invariant 0 <= i <= |notes|
        invariant forall n :: n in notes ==>
                    n.time == (if n in notes[..i] then Quantized(old(n.time), subdivision) else old(n.time)) &&
                    n.pitch == old(n.pitch) && n.duration == old(n.duration) && n.velocity == old(n.velocity)
      {
        var n := notes[i];
        QuantizedNearest(old(n.time), subdivision);
        n.time := Quantized(n.time, subdivision);
        assert notes[..i + 1] == notes[..i] + [n];
        i := i + 1;
      }
      assert notes[..i] == notes;
      if old(TimeOrdered(notes)) {
        forall a, b | 0 <= a < b < |notes|
          ensures notes[a].time <= notes[b].time
        {
          QuantizedMonotone(old(notes[a].time), old(notes[b].time), subdivision);
        }
      }
    }

    /** `getNotesInRange(start, end)`: the notes whose onset lies in the
        half-open window [start, end), in stored order. */
    function NotesInRange(start: real, end: real): (r: seq<Note>)
      reads this, notes
      ensures forall i :: 0 <= i < |r| ==> r[i] in notes && start <= r[i].time < end
      ensures forall i :: 0 <= i < |notes| && start <= notes[i].time < end ==> notes[i] in r
    {
      var times := map n | n in notes :: n.time;
      var inside: Note -> bool := (n: Note) => n in times && start <= times[n] < end;
      var r := Filter<Note>(notes, inside);
      assert forall i :: 0 <= i < |notes| && inside(notes[i]) ==> notes[i] in r by {
        forall i | 0 <= i < |notes| && inside(notes[i]) ensures notes[i] in r {
          FilterMembership<Note>(notes, inside, notes[i]);
        }
      }
      r
    }

    /** `clone()`: a new pattern with the same length and name (an empty
        name becomes 'Pattern' again) whose notes are new, distinct objects
        carrying the same values in the same order. */
    method Clone(newId: string, noteIds: seq<string>) returns (p: Pattern)
      requires |noteIds| == |notes|
      ensures fresh(p) && p.id == newId && p.length == length && p.name == OrDefault(Some(name), "Pattern")
      ensures |p.notes| == |notes|
      ensures forall i :: 0 <= i < |notes| ==>
                fresh(p.notes[i]) && p.notes[i].id == noteIds[i] &&
                p.notes[i].pitch == notes[i].pitch && p.notes[i].time == notes[i].time &&
                p.notes[i].duration == notes[i].duration && p.notes[i].velocity == notes[i].velocity
      ensures forall i, j :: 0 <= i < j < |p.notes| ==> p.notes[i] != p.notes[j]
    {
      var copies: seq<Note> := [];
      var i := 0;
      while i < |notes|
        invariant 0 <= i <= |notes| && |copies| == i
        invariant forall k :: 0 <= k < i ==>
                    fresh(copies[k]) && copies[k].id == noteIds[k] &&
                    copies[k].pitch == notes[k].pitch && copies[k].time == notes[k].time &&
                    copies[k].duration == notes[k].duration && copies[k].velocity == notes[k].velocity
        invariant forall k, l :: 0 <= k < l < i ==> copies[k] != copies[l]
      {
        var c := notes[i].Clone(noteIds[i]);
        copies := copies + [c];
        i := i + 1;
      }
      p := new Pattern(newId, length, Some(name));
      p.notes := copies;
    }

    /** `clear()`. */
    method Clear()
      modifies this`notes
      ensures notes == []
    {
      notes := [];
    }
  }

  /** Transposing a clone leaves the original's notes alone, as the pattern
      tests check. */
  method CloneIsIndependent(original: Pattern, newId: string, noteIds: seq<string>, semitones: real)
      returns (copy: Pattern)
    requires |noteIds| == |original.notes|
    modifies set n | n in original.notes
    ensures fresh(copy) && |copy.notes| == |original.notes|
    ensures forall n :: n in original.notes ==> n.pitch == old(n.pitch)
    ensures forall i :: 0 <= i < |copy.notes| ==> copy.notes[i].pitch == original.notes[i].pitch + semitones
  {
    copy := original.Clone(newId, noteIds);
    label Cloned:
    copy.Transpose(semitones);
    forall i | 0 <= i < |copy.notes|
      ensures copy.notes[i].pitch == original.notes[i].pitch + semitones
    {
      CountDistinct(copy.notes, i);
      assert copy.notes[i] in copy.notes;
      assert copy.notes[i].pitch == old@Cloned(copy.notes[i].pitch) + Repeated(1, semitones);
    }
  }

  /** `step` added `count` times over: the total shift of a note that a
      per-note loop visits `count` times. */
  function Repeated(count: nat, step: real): (total: real)
  {
    if count == 0 then 0.0 else Repeated(count - 1, step) + step
  }

  lemma {:induction false} RepeatedIsProduct(count: nat, step: real)
    ensures Repeated(count, step) == count as real * step
  {
    if count > 0 {
      RepeatedIsProduct(count - 1, step);
    }
  }

  /** Sort key reading onsets from a snapshot taken before sorting. */
  function KeyOf(times: map<Note, real>): Note -> real
  {
    (n: Note) => if n in times then times[n] else 0.0
  }

  /** The current onset of every note of `s`. */
  function OnsetsOf(s: seq<Note>): (times: map<Note, real>)
    reads s
    ensures Snapshot(times, s)
  {
    if s == [] then map[]
    else
      var last := s[|s| - 1];
      var init := OnsetsOf(s[..|s| - 1]);
      assert forall i :: 0 <= i < |s| - 1 ==> s[..|s| - 1][i] == s[i];
      init[last := last.time]
  }

  /** `times` records the current onset of every note of `s`. */
  ghost predicate Snapshot(times: map<Note, real>, s: seq<Note>)
    reads s
  {
    forall i :: 0 <= i < |s| ==> s[i] in times && times[s[i]] == s[i].time
  }

  /** What sorting by the snapshot does to `s + [x]`: a time-ordered
      permutation; when `s` was time-ordered, one stable insertion of `x`
      after every note not later than it and before every later one. */
  lemma SnapshotSort(s: seq<Note>, times: map<Note, real>)
    requires Snapshot(times, s)
    ensures TimeOrdered(SortBy(s, KeyOf(times)))
  {
    var key := KeyOf(times);
    var r := SortBy(s, key);
    SortBySorted(s, key);
    forall i | 0 <= i < |r| ensures key(r[i]) == r[i].time {
      assert r[i] in multiset(s);
      var j :| 0 <= j < |s| && s[j] == r[i];
    }
  }

  /** Array.prototype.sort by onset, which is stable: sorting by a snapshot
      of the onsets taken before the sort. */
  function SortByOnset(s: seq<Note>): (r: seq<Note>)
    reads s
    ensures multiset(r) == multiset(s)
    ensures TimeOrdered(r)
  {
    var times := OnsetsOf(s);
    SnapshotSort(s, times);
    SortBy(s, KeyOf(times))
  }

  /** Where a stable sort of `s + [x]` puts `x`. */
  ghost function OnsetInsertionPoint(s: seq<Note>, x: Note): nat
    reads s, x
  {
    InsertionPoint(s, x, KeyOf(OnsetsOf(s + [x])))
  }

  /** On a time-ordered list, appending and sorting by onset is one stable
      insertion. */
  lemma SortByOnsetInserts(s: seq<Note>, x: Note)
    requires TimeOrdered(s)
    ensures InsertedInOrder(s, x, SortByOnset(s + [x]), OnsetInsertionPoint(s, x))
  {
    var all := s + [x];
    var key := KeyOf(OnsetsOf(all));
    assert forall i :: 0 <= i < |s| ==> key(s[i]) == s[i].time by {
      forall i | 0 <= i < |s| ensures key(s[i]) == s[i].time {
        assert all[i] == s[i];
      }
    }
    assert key(x) == x.time by {
      assert all[|s|] == x;
    }
    SortAfterAppend(s, x, key);
    InsertedInPlace(s, x, SortBy(all, key), InsertionPoint(s, x, key));
  }

  /** `r` is `s` with `x` inserted at `at`, after every note whose onset is
      not later than that of `x` and before every later one. */
  ghost predicate InsertedInOrder(s: seq<Note>, x: Note, r: seq<Note>, at: int)
    reads s, x, r
  {
    0 <= at <= |s| && r == s[..at] + [x] + s[at..] &&
    (forall i :: 0 <= i < at ==> r[i].time <= x.time) &&
    (forall i :: at < i < |r| ==> r[i].time > x.time)
  }

  /** After a stable insertion into a time-ordered list, the inserted note
      follows every note with an onset not later than its own and precedes
      every later one. */
  lemma InsertedInPlace(s: seq<Note>, x: Note, r: seq<Note>, at: nat)
    requires at <= |s| && r == s[..at] + [x] + s[at..]
    requires TimeOrdered(s)
    requires forall i :: 0 <= i < at ==> s[i].time <= x.time
    requires at < |s| ==> s[at].time > x.time
    ensures forall i :: 0 <= i < at ==> r[i].time <= x.time
    ensures forall i :: at < i < |r| ==> r[i].time > x.time
  {
    forall i | 0 <= i < at ensures r[i].time <= x.time {
      assert r[i] == s[i];
    }
    forall i | at < i < |r| ensures r[i].time > x.time {
      assert r[i] == s[i - 1];
    }
  }

  lemma CountSnoc<T>(s: seq<T>, x: T, y: T)
    ensures multiset(s + [x])[y] == multiset(s)[y] + (if x == y then 1 else 0)
  {
  }

  /** An element of a sequence without repeats occurs once. */
  lemma {:induction false} CountDistinct<T>(s: seq<T>, i: nat)
    requires i < |s|
    requires forall a, b :: 0 <= a < b < |s| ==> s[a] != s[b]
    ensures multiset(s)[s[i]] == 1
  {
    if i < |s| - 1 {
      CountDistinct(s[..|s| - 1], i);
      assert s == s[..|s| - 1] + [s[|s| - 1]];
    } else {
      assert s == s[..i] + [s[i]];
      assert s[i] !in s[..i];
    }
  }
}
