/** The mixer track of src/core/sequencer/Track.ts: a list of clips kept in
    position order, clamped volume and pan, mute/solo/arm flags, and the
    gain its output node is set to. The audio nodes themselves are not
    modelled; `outputGain` is the last value scheduled on the output gain. */
module Tracks {
  import opened Options
  import opened JsSemantics
  import opened Common
  import opened Seqs
  import opened Clips

  datatype TrackKind = AudioTrack | InstrumentTrack | MidiTrack | MasterTrack

  /** `TrackConfig`: every field optional. */
  datatype TrackConfig = TrackConfig(name: Option<string>, kind: Option<TrackKind>, color: Option<string>)

  const DefaultVolume: real := 0.8

  /** The gain a track's output gets from its own mute flag. */
  function MuteGain(muted: bool, volume: real): real
  {
    if muted then 0.0 else volume
  }

  /** A clip's sort key. */
  function PositionOf(c: Clip): real
  {
    c.position
  }

  class Track {
    const id: string
    var name: string
    var kind: TrackKind
    var color: string
    var clips: seq<Clip>
    var volume: real
    var pan: real
    var muted: bool
    var solo: bool
    var armed: bool
    var outputGain: real

    /** Volume and pan are private in the source and only ever stored
        clamped. */
    ghost predicate Valid()
      reads this
    {
      0.0 <= volume <= 1.0 && -1.0 <= pan <= 1.0
    }

    /** `new Track(ctx, config = {})`: defaults 'New Track', 'audio' and
        '#4CAF50'; volume 0.8 applied to the output at once. */
    constructor (id: string, config: TrackConfig)
      ensures Valid()
      ensures this.id == id && name == OrDefault(config.name, "New Track")
      ensures kind == (if config.kind.Some? then config.kind.value else AudioTrack)
      ensures color == OrDefault(config.color, "#4CAF50")
      ensures clips == [] && volume == DefaultVolume && pan == 0.0
      ensures !muted && !solo && !armed && outputGain == DefaultVolume
    {
      this.id := id;
      name := OrDefault(config.name, "New Track");
      kind := if config.kind.Some? then config.kind.value else AudioTrack;
      color := OrDefault(config.color, "#4CAF50");
      clips := [];
      volume := DefaultVolume;
      pan := 0.0;
      muted := false;
      solo := false;
      armed := false;
      outputGain := MuteGain(false, Clamp(DefaultVolume, 0.0, 1.0));
    }

    /** `addClip(clip)`: append, then stable-sort by position. The clips
        gain exactly one occurrence of `clip` and are position-ordered; when
        they already were, `clip` goes after every clip that starts no later
        and the rest keep their order. */
    method AddClip(clip: Clip)
      modifies this`clips
      ensures multiset(clips) == multiset(old(clips)) + multiset{clip}
      ensures SortedBy(clips, PositionOf)
      ensures SortedBy(old(clips), PositionOf) ==>
                var at := InsertionPoint(old(clips), clip, PositionOf);
                clips == old(clips)[..at] + [clip] + old(clips)[at..]
    {
      SortBySorted(clips + [clip], PositionOf);
      if SortedBy(clips, PositionOf) {
        SortAfterAppend(clips, clip, PositionOf);
      }
      clips := SortBy(clips + [clip], PositionOf);
    }

    /** `removeClip(clipId)`: keep, in order, exactly the clips with
        another id. */
    method RemoveClip(clipId: string)
      modifies this`clips
      ensures clips == Filter(old(clips), (c: Clip) => c.id != clipId)
      ensures forall c :: c in clips <==> c in old(clips) && c.id != clipId
      ensures forall c: Clip :: c.id != clipId ==> multiset(clips)[c] == multiset(old(clips))[c]
    {
      var keep := (c: Clip) => c.id != clipId;
      forall c ensures c in Filter(clips, keep) <==> c in clips && c.id != clipId {
        FilterMembership(clips, keep, c);
      }
      forall c: Clip | c.id != clipId ensures multiset(Filter(clips, keep))[c] == multiset(clips)[c] {
        FilterCount(clips, keep, c);
      }
      clips := Filter(clips, keep);
    }

    /** `getClip(clipId)`: the first clip with that id, if any. */
    function GetClip(clipId: string): (r: Option<Clip>)
      reads this
      ensures r.None? <==> forall i :: 0 <= i < |clips| ==> clips[i].id != clipId
      ensures r.Some? ==> exists i :: 0 <= i < |clips| && clips[i] == r.value && r.value.id == clipId &&
                                      forall j :: 0 <= j < i ==> clips[j].id != clipId
    {
      Find(clips, (c: Clip) => c.id == clipId)
    }

    /** `getClipsAt(time)`: the clips whose span holds `time`, in stored
        order. */
    function ClipsAt(time: real): (r: seq<Clip>)
      reads this
      ensures forall c :: c in r <==> c in clips && Contains(c, time)
    {
      var at := (c: Clip) => Contains(c, time);
      assert forall c :: c in Filter(clips, at) <==> c in clips && Contains(c, time) by {
        forall c ensures c in Filter(clips, at) <==> c in clips && Contains(c, time) {
          FilterMembership(clips, at, c);
        }
      }
      Filter(clips, at)
    }

    /** `setVolume(volume)`: store it clamped to [0, 1] and apply it to the
        output unless muted. */
    method SetVolume(v: real)
      modifies this`volume, this`outputGain
      ensures volume == Clamp(v, 0.0, 1.0) && 0.0 <= volume <= 1.0
      ensures outputGain == MuteGain(muted, volume)
      ensures Valid() <==> -1.0 <= pan <= 1.0
    {
      volume := Clamp(v, 0.0, 1.0);
      outputGain := MuteGain(muted, volume);
    }

    /** `setPan(pan)`: store it clamped to [-1, 1]. */
    method SetPan(p: real)
      modifies this`pan
      ensures pan == Clamp(p, -1.0, 1.0) && -1.0 <= pan <= 1.0
      ensures Valid() <==> 0.0 <= volume <= 1.0
    {
      pan := Clamp(p, -1.0, 1.0);
    }

    /** `setMute(muted)`: store the flag and re-apply the volume, which an
        already clamped volume survives unchanged. */
    method SetMute(m: bool)
      modifies this`muted, this`volume, this`outputGain
      ensures muted == m
      ensures old(Valid()) ==> Valid() && volume == old(volume)
      ensures outputGain == MuteGain(m, volume)
    {
      muted := m;
      SetVolume(volume);
    }

    /** `setSolo(solo)`: only the flag. */
    method SetSolo(s: bool)
      modifies this`solo
      ensures solo == s
    {
      solo := s;
    }

    /** `setArmed(armed)`: only the flag. */
    method SetArmed(a: bool)
      modifies this`armed
      ensures armed == a
    {
      armed := a;
    }
  }

  /** Muting silences the output whatever the volume; unmuting restores the
      stored volume, so a mute/unmute round trip leaves the track as it
      was. */
  method MuteRoundTrip(t: Track)
    requires t.Valid()
    modifies t`muted, t`volume, t`outputGain
    ensures t.muted == old(t.muted) && t.volume == old(t.volume)
    ensures t.outputGain == MuteGain(t.muted, t.volume)
  {
    var was := t.muted;
    t.SetMute(true);
    assert t.outputGain == 0.0;
    t.SetMute(false);
    assert t.outputGain == t.volume;
    t.SetMute(was);
  }
}
