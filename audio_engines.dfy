/** The sequencer's coordinator (src/core/engine/AudioEngine.ts): a
    transport, a registry of tracks and one of patterns keyed by id, an
    initialisation flag, and the solo/mute rule across tracks. */
module AudioEngines {
  import opened Options
  import opened Common
  import opened Transports
  import opened Tracks
  import opened Patterns

  const MasterGain: real := 0.8

  /** The gain `updateSoloMute` gives one track: when any track is soloed
      only soloed tracks sound, at their volume even if muted; otherwise
      each track follows its own mute flag. */
  function SoloMuteGain(anySolo: bool, solo: bool, muted: bool, volume: real): real
  {
    if anySolo then (if solo then volume else 0.0) else MuteGain(muted, volume)
  }

  /** Whether some registered track is soloed. */
  predicate AnySoloed(tracks: set<Track>)
    reads tracks
  {
    exists t :: t in tracks && t.solo
  }

  class AudioEngine {
    const transport: Transport
    var masterGain: real
    var tracks: map<string, Track>
    var patterns: map<string, Pattern>
    var initialized: bool

    /** Every registry entry sits under its own id, every track keeps its
        volume and pan clamped, and the tempo has the transport's floor. */
    ghost predicate Valid()
      reads this, transport, tracks.Values
    {
      (forall k :: k in tracks ==> tracks[k].id == k) &&
      (forall k :: k in patterns ==> patterns[k].id == k) &&
      (forall t :: t in tracks.Values ==> t.Valid()) &&
      transport.bpm >= MinBpm
    }

    /** `new AudioEngine()`: master gain 0.8, a transport at 120 BPM, empty
        registries. */
    constructor ()
      ensures Valid() && fresh(transport)
      ensures masterGain == MasterGain && tracks == map[] && patterns == map[] && !initialized
      ensures transport.bpm == 120.0 && !transport.playing && transport.position == 0.0
      ensures transport.loopStart == 0.0 && transport.loopEnd == 32.0 && !transport.looping
      ensures transport.schedulerId == None && transport.lastScheduleTime == 0.0
      ensures transport.positionSubscribers == [] && transport.playStateSubscribers == []
    {
      masterGain := MasterGain;
      transport := new Transport(120.0);
      tracks := map[];
      patterns := map[];
      initialized := false;
    }

    /** `initialize()`: the first call marks the engine ready (after the
        audio context resumes); later calls do nothing. */
    method Initialize()
      modifies this`initialized
      ensures initialized
    {
      if initialized {
        return;
      }
      initialized := true;
    }

    /** `addTrack(track)`: register under the track's id, replacing any
        track with the same id. */
    method AddTrack(track: Track)
      requires Valid() && track.Valid()
      modifies this`tracks
      ensures Valid()
      ensures tracks == old(tracks)[track.id := track]
      ensures GetTrack(track.id) == Some(track)
      ensures forall k :: k != track.id ==> GetTrack(k) == old(GetTrack(k))
    {
      tracks := tracks[track.id := track];
    }

    /** `removeTrack(trackId)`: forget the track if registered; an unknown
        id changes nothing. */
    method RemoveTrack(trackId: string)
      requires Valid()
      modifies this`tracks
      ensures Valid()
      ensures tracks == old(tracks) - {trackId}
      ensures GetTrack(trackId) == None
      ensures trackId !in old(tracks) ==> tracks == old(tracks)
    {
      if trackId in tracks {
        tracks := tracks - {trackId};
      }
    }

    /** `getTrack(trackId)`. */
    function GetTrack(trackId: string): (r: Option<Track>)
      reads this
      ensures r.Some? <==> trackId in tracks
      ensures r.Some? ==> r.value == tracks[trackId]
    {
      if trackId in tracks then Some(tracks[trackId]) else None
    }

    /** `addPattern(pattern)`: register under the pattern's id. */
    method AddPattern(pattern: Pattern)
      requires Valid()
      modifies this`patterns
      ensures Valid()
      ensures patterns == old(patterns)[pattern.id := pattern]
      ensures GetPattern(pattern.id) == Some(pattern)
      ensures forall k :: k != pattern.id ==> GetPattern(k) == old(GetPattern(k))
    {
      patterns := patterns[pattern.id := pattern];
    }

    /** `removePattern(patternId)`: a map delete. */
    method RemovePattern(patternId: string)
      requires Valid()
      modifies this`patterns
      ensures Valid()
      ensures patterns == old(patterns) - {patternId}
      ensures GetPattern(patternId) == None
      ensures forall k :: k != patternId ==> GetPattern(k) == old(GetPattern(k))
    {
      patterns := patterns - {patternId};
    }

    /** `getPattern(patternId)`. */
    function GetPattern(patternId: string): (r: Option<Pattern>)
      reads this
      ensures r.Some? <==> patternId in patterns
      ensures r.Some? ==> r.value == patterns[patternId]
    {
      if patternId in patterns then Some(patterns[patternId]) else None
    }

    /** `play()`: initialise if needed, then start the transport. */
    method Play(now: real, timerId: int) returns (notices: seq<Notice>, ghost steps: nat)
      requires Valid()
      modifies this`initialized, transport`playing, transport`position, transport`lastScheduleTime, transport`schedulerId
      ensures Valid() && initialized && transport.playing
      ensures old(transport.playing) ==>
                notices == [] && transport.position == old(transport.position) &&
                transport.schedulerId == old(transport.schedulerId) &&
                transport.lastScheduleTime == old(transport.lastScheduleTime)
      ensures !old(transport.playing) ==>
                transport.schedulerId == Some(timerId) && steps >= 1 &&
                now + ScheduleAhead <= transport.lastScheduleTime < now + ScheduleAhead + 60.0 / transport.bpm &&
                transport.position == AdvanceBy(old(transport.position), steps, transport.looping,
                                                transport.loopStart, transport.loopEnd) &&
                notices == NotifyPosition(transport.positionSubscribers, transport.position)
                           + NotifyPlayState(transport.playStateSubscribers, true)
    {
      Initialize();
      notices, steps := transport.Play(now, timerId);
    }

    /** `pause()`, delegated. */
    method Pause() returns (notices: seq<Notice>)
      requires Valid()
      modifies transport`playing, transport`schedulerId
      ensures Valid() && !transport.playing && transport.position == old(transport.position)
      ensures old(transport.playing) ==>
                transport.schedulerId == None && notices == NotifyPlayState(transport.playStateSubscribers, false)
      ensures !old(transport.playing) ==> notices == [] && transport.schedulerId == old(transport.schedulerId)
    {
      notices := transport.Pause();
    }

    /** `stop()`, delegated. */
    method Stop() returns (notices: seq<Notice>)
      requires Valid()
      modifies transport`playing, transport`schedulerId, transport`position
      ensures Valid() && !transport.playing && transport.position == 0.0
      ensures old(transport.playing) ==> transport.schedulerId == None
      ensures !old(transport.playing) ==> transport.schedulerId == old(transport.schedulerId)
      ensures notices == (if old(transport.playing) then NotifyPlayState(transport.playStateSubscribers, false) else [])
                         + NotifyPosition(transport.positionSubscribers, 0.0)
    {
      notices := transport.Stop();
    }

    /** `setBpm(bpm)`, delegated: clamped to [20, 999]. */
    method SetBpm(bpm: real)
      requires Valid()
      modifies transport`bpm
      ensures Valid() && transport.bpm == Clamp(bpm, MinBpm, MaxBpm)
    {
      transport.SetBpm(bpm);
    }

    /** `setPosition(beats)`, delegated. */
    method SetPosition(beats: real) returns (notices: seq<Notice>)
      requires Valid()
      modifies transport`position
      ensures Valid() && transport.position == beats
      ensures notices == NotifyPosition(transport.positionSubscribers, beats)
    {
      notices := transport.SetPosition(beats);
    }

    /** `updateSoloMute()`: with any track soloed, soloed tracks sound at
        their volume (mute ignored) and the others are silenced; with none,
        each track's own mute rule is re-applied. Flags and volumes are
        left as they were. */
    method UpdateSoloMute()
      requires Valid()
      modifies tracks.Values`muted, tracks.Values`volume, tracks.Values`outputGain
      ensures Valid()
      ensures forall t :: t in tracks.Values ==>
                t.outputGain == SoloMuteGain(old(AnySoloed(tracks.Values)), t.solo, t.muted, t.volume)
      ensures forall t :: t in tracks.Values ==> t.muted == old(t.muted) && t.volume == old(t.volume)
    {
      var all := tracks.Values;
      var anySolo := exists t | t in all :: t.solo;
      var todo := all;
      while todo != {}
        invariant todo <= all
        invariant forall t :: t in all ==> t.Valid() && t.muted == old(t.muted) && t.volume == old(t.volume)
        invariant forall t :: t in all - todo ==>
                    t.outputGain == SoloMuteGain(anySolo, t.solo, t.muted, t.volume)
        decreases todo
      {
        var t :| t in todo;
        if anySolo {
          t.outputGain := if t.solo then t.volume else 0.0;
        } else {
          t.SetMute(t.muted);
        }
        assert t.Valid() && t.muted == old(t.muted) && t.volume == old(t.volume);
        assert t.outputGain == SoloMuteGain(anySolo, t.solo, t.muted, t.volume);
        todo := todo - {t};
      }
    }

    /** `destroy()`: stop the transport and empty both registries. */
    method Destroy() returns (notices: seq<Notice>)
      requires Valid()
      modifies this`tracks, this`patterns, transport`playing, transport`schedulerId, transport`position
      ensures Valid()
      ensures !transport.playing && transport.position == 0.0
      ensures old(transport.playing) ==> transport.schedulerId == None
      ensures !old(transport.playing) ==> transport.schedulerId == old(transport.schedulerId)
      ensures notices == (if old(transport.playing) then NotifyPlayState(transport.playStateSubscribers, false) else [])
                         + NotifyPosition(transport.positionSubscribers, 0.0)
      ensures tracks == map[] && patterns == map[]
    {
      notices := transport.Stop();
      tracks := map[];
      patterns := map[];
    }
  }
}
