/** The playback transport of src/core/engine/Transport.ts: a play/pause/stop
    state machine over a beat position, with a clamped tempo, loop points,
    two subscriber lists and a look-ahead loop that advances the position
    one beat at a time. The audio clock is an input (`now`); the timer the
    look-ahead re-arms is represented by the id the host hands back. */
module Transports {
  import opened Options
  import opened Common
  import opened Seqs

  /** A subscriber, by identity: the model keeps which callbacks are
      registered and which calls they receive, not what they do. */
  type Callback = nat

  /** One callback invocation made by the transport. */
  datatype Notice = PositionNotice(cb: Callback, position: real) | PlayStateNotice(cb: Callback, playing: bool)

  /** `getState()`. */
  datatype TransportState = TransportState(playing: bool, position: real, bpm: real,
                                           looping: bool, loopStart: real, loopEnd: real)

  const MinBpm: real := 20.0
  const MaxBpm: real := 999.0
  /** How far ahead of the audio clock the scheduler fills, in seconds. */
  const ScheduleAhead: real := 0.1

  /** `forEach(cb => cb(position))` over the position subscribers. */
  function NotifyPosition(subs: seq<Callback>, position: real): (r: seq<Notice>)
    ensures |r| == |subs|
    ensures forall i :: 0 <= i < |subs| ==> r[i] == PositionNotice(subs[i], position)
  {
    if subs == [] then [] else [PositionNotice(subs[0], position)] + NotifyPosition(subs[1..], position)
  }

  /** `forEach(cb => cb(playing))` over the play-state subscribers. */
  function NotifyPlayState(subs: seq<Callback>, playing: bool): (r: seq<Notice>)
    ensures |r| == |subs|
    ensures forall i :: 0 <= i < |subs| ==> r[i] == PlayStateNotice(subs[i], playing)
  {
    if subs == [] then [] else [PlayStateNotice(subs[0], playing)] + NotifyPlayState(subs[1..], playing)
  }

  /** One look-ahead iteration's effect on the position: one beat on, then
      back to the loop start if looping and the loop end has been reached. */
  function NextPosition(position: real, looping: bool, loopStart: real, loopEnd: real): real
  {
    if looping && position + 1.0 >= loopEnd then loopStart else position + 1.0
  }

  /** The position after `n` look-ahead iterations. */
  function AdvanceBy(position: real, n: nat, looping: bool, loopStart: real, loopEnd: real): real
  {
    if n == 0 then position
    else NextPosition(AdvanceBy(position, n - 1, looping, loopStart, loopEnd), looping, loopStart, loopEnd)
  }

  /** Without looping the position just counts iterations. */
  lemma {:induction false} AdvanceWithoutLoop(position: real, n: nat, loopStart: real, loopEnd: real)
    ensures AdvanceBy(position, n, false, loopStart, loopEnd) == position + n as real
  {
    if n > 0 {
      AdvanceWithoutLoop(position, n - 1, loopStart, loopEnd);
    }
  }

  /** With looping on, after any iteration the position is either before
      the loop end or back at the loop start; when the loop is well formed
      and the position started inside it, it stays inside it. */
  lemma {:induction false} AdvanceWithLoop(position: real, n: nat, loopStart: real, loopEnd: real)
    ensures n > 0 ==> var p := AdvanceBy(position, n, true, loopStart, loopEnd);
                      p < loopEnd || p == loopStart
    ensures loopStart < loopEnd && loopStart <= position < loopEnd ==>
              loopStart <= AdvanceBy(position, n, true, loopStart, loopEnd) < loopEnd
  {
    if n > 0 {
      AdvanceWithLoop(position, n - 1, loopStart, loopEnd);
    }
  }

  /** With a negative tempo every iteration moves the schedule time back,
      so the look-ahead condition never becomes false and `schedule` does
      not return. */
  lemma ScheduleDivergesWhenBpmNegative(last: real, now: real, bpm: real, n: nat)
    requires bpm < 0.0 && last < now + ScheduleAhead
    ensures last + n as real * (60.0 / bpm) < now + ScheduleAhead
  {
    assert 60.0 / bpm < 0.0;
    MulNonpos(n as real, 60.0 / bpm);
  }

  /** One more iteration adds one more beat to the schedule time. */
  lemma BeatStep(start: real, steps: nat, beat: real)
    ensures start + (steps + 1) as real * beat == (start + steps as real * beat) + beat
  {
    assert (steps + 1) as real * beat == steps as real * beat + beat;
  }

  /** One more iteration brings the horizon one beat closer. */
  lemma HorizonStep(horizon: real, before: real, beat: real)
    requires beat > 0.0
    ensures (horizon - (before + beat)) / beat == (horizon - before) / beat - 1.0
  {
    var q := (horizon - before) / beat;
    assert q * beat == horizon - before;
    var r := (horizon - (before + beat)) / beat;
    assert r * beat == horizon - (before + beat);
    var d := r - (q - 1.0);
    assert d * beat == 0.0;
    if d > 0.0 {
      MulPos(d, beat);
    } else if d < 0.0 {
      MulPos(-d, beat);
    }
  }

  lemma MulPos(x: real, y: real)
    requires x > 0.0 && y > 0.0
    ensures x * y > 0.0
  {
  }

  lemma MulNonpos(x: real, y: real)
    requires x >= 0.0 && y <= 0.0
    ensures x * y <= 0.0
  {
  }

  class Transport {
    var bpm: real
    var playing: bool
    var position: real
    var loopStart: real
    var loopEnd: real
    var looping: bool
    var schedulerId: Option<int>
    var lastScheduleTime: real
    var positionSubscribers: seq<Callback>
    var playStateSubscribers: seq<Callback>

    /** `new Transport(ctx, bpm = 120)`: the tempo is taken as given, not
        clamped. */
    constructor (bpm: real := 120.0)
      ensures this.bpm == bpm && !playing && position == 0.0
      ensures loopStart == 0.0 && loopEnd == 32.0 && !looping
      ensures schedulerId == None && lastScheduleTime == 0.0
      ensures positionSubscribers == [] && playStateSubscribers == []
    {
      this.bpm := bpm;
      playing := false;
      position := 0.0;
      loopStart := 0.0;
      loopEnd := 32.0;
      looping := false;
      schedulerId := None;
      lastScheduleTime := 0.0;
      positionSubscribers := [];
      playStateSubscribers := [];
    }

    /** `getState()`: a snapshot of the six public properties. */
    function State(): (s: TransportState)
      reads this
      ensures s.playing == playing && s.position == position && s.bpm == bpm
      ensures s.looping == looping && s.loopStart == loopStart && s.loopEnd == loopEnd
    {
      TransportState(playing, position, bpm, looping, loopStart, loopEnd)
    }

    /** The private `schedule()`: advance one beat per beat duration until
        the schedule time has passed the look-ahead horizon, report the
        position, and re-arm the timer if still playing. `steps` is the
        number of iterations, the least one that reaches the horizon. */
    method Schedule(now: real, timerId: int) returns (notices: seq<Notice>, ghost steps: nat)
      requires bpm > 0.0
      modifies this`position, this`lastScheduleTime, this`schedulerId
      ensures lastScheduleTime == old(lastScheduleTime) + steps as real * (60.0 / bpm)
      ensures lastScheduleTime >= now + ScheduleAhead
      ensures steps > 0 ==> lastScheduleTime - 60.0 / bpm < now + ScheduleAhead
      ensures position == AdvanceBy(old(position), steps, looping, loopStart, loopEnd)
      ensures notices == NotifyPosition(positionSubscribers, position)
      ensures schedulerId == if playing then Some(timerId) else old(schedulerId)
    {
      var beat := 60.0 / bpm;
      var horizon := now + ScheduleAhead;
      steps := 0;
      while lastScheduleTime < horizon
        invariant lastScheduleTime == old(lastScheduleTime) + steps as real * beat
        invariant steps > 0 ==> lastScheduleTime - beat < horizon
        invariant position == AdvanceBy(old(position), steps, looping, loopStart, loopEnd)
        invariant schedulerId == old(schedulerId)
        decreases ((horizon - lastScheduleTime) / beat).Floor
      {
        ghost var before := lastScheduleTime;
        position := position + 1.0;
        lastScheduleTime := lastScheduleTime + beat;
        if looping && position >= loopEnd {
          position := loopStart;
        }
        BeatStep(old(lastScheduleTime), steps, beat);
        steps := steps + 1;
        HorizonStep(horizon, before, beat);
      }
      notices := NotifyPosition(positionSubscribers, position);
      if playing {
        schedulerId := Some(timerId);
      }
    }

    /** `play()`: a no-op while playing; otherwise start playing from the
        current audio time, run the look-ahead at once (which always
        advances at least one beat) and tell the play-state subscribers. */
    method Play(now: real, timerId: int) returns (notices: seq<Notice>, ghost steps: nat)
      requires !playing ==> bpm > 0.0
      modifies this`playing, this`position, this`lastScheduleTime, this`schedulerId
      ensures old(playing) ==> notices == [] && steps == 0 && unchanged(this)
      ensures !old(playing) ==>
                playing && schedulerId == Some(timerId) && steps >= 1 &&
                now + ScheduleAhead <= lastScheduleTime < now + ScheduleAhead + 60.0 / bpm &&
                position == AdvanceBy(old(position), steps, looping, loopStart, loopEnd) &&
                notices == NotifyPosition(positionSubscribers, position) + NotifyPlayState(playStateSubscribers, true)
    {
      if playing {
        return [], 0;
      }
      playing := true;
      lastScheduleTime := now;
      var positionNotices;
      positionNotices, steps := Schedule(now, timerId);
      notices := positionNotices + NotifyPlayState(playStateSubscribers, true);
    }

    /** `pause()`: a no-op while stopped; otherwise stop playing, cancel the
        pending look-ahead and tell the play-state subscribers. The position
        is kept. */
    method Pause() returns (notices: seq<Notice>)
      modifies this`playing, this`schedulerId
      ensures !playing && position == old(position)
      ensures !old(playing) ==> notices == [] && schedulerId == old(schedulerId)
      ensures old(playing) ==> schedulerId == None && notices == NotifyPlayState(playStateSubscribers, false)
    {
      if !playing {
        return [];
      }
      playing := false;
      if schedulerId.Some? {
        schedulerId := None;
      }
      notices := NotifyPlayState(playStateSubscribers, false);
    }

    /** `stop()`: pause, then rewind to beat 0 and tell the position
        subscribers, whatever the state was. */
    method Stop() returns (notices: seq<Notice>)
      modifies this`playing, this`schedulerId, this`position
      ensures !playing && position == 0.0
      ensures old(playing) ==> schedulerId == None
      ensures !old(playing) ==> schedulerId == old(schedulerId)
      ensures notices == (if old(playing) then NotifyPlayState(playStateSubscribers, false) else [])
                         + NotifyPosition(positionSubscribers, 0.0)
    {
      notices := Pause();
      position := 0.0;
      notices := notices + NotifyPosition(positionSubscribers, 0.0);
    }

    /** `setBpm(bpm)`: the tempo is clamped to [20, 999]. */
    method SetBpm(bpm: real)
      modifies this`bpm
      ensures this.bpm == Clamp(bpm, MinBpm, MaxBpm)
      ensures MinBpm <= this.bpm <= MaxBpm
      ensures MinBpm <= bpm <= MaxBpm ==> this.bpm == bpm
      ensures bpm < MinBpm ==> this.bpm == MinBpm
      ensures bpm > MaxBpm ==> this.bpm == MaxBpm
    {
      this.bpm := Clamp(bpm, MinBpm, MaxBpm);
    }

    /** `setPosition(beats)`: jump anywhere, unchecked, and report it. */
    method SetPosition(beats: real) returns (notices: seq<Notice>)
      modifies this`position
      ensures position == beats
      ensures notices == NotifyPosition(positionSubscribers, beats)
    {
      position := beats;
      notices := NotifyPosition(positionSubscribers, beats);
    }

    /** `setLoop(start, end)`: store both points, unchecked, and loop. */
    method SetLoop(start: real, end: real)
      modifies this`loopStart, this`loopEnd, this`looping
      ensures loopStart == start && loopEnd == end && looping
    {
      loopStart := start;
      loopEnd := end;
      looping := true;
    }

    /** `disableLoop()`: only the flag changes; the points are kept. */
    method DisableLoop()
      modifies this`looping
      ensures !looping
    {
      looping := false;
    }

    /** `subscribe(onPosition?, onPlayState?)`: append each callback given
        to its list (a callback may be registered more than once). */
    method Subscribe(onPosition: Option<Callback>, onPlayState: Option<Callback>)
      modifies this`positionSubscribers, this`playStateSubscribers
      ensures positionSubscribers == old(positionSubscribers) + (if onPosition.Some? then [onPosition.value] else [])
      ensures playStateSubscribers == old(playStateSubscribers) + (if onPlayState.Some? then [onPlayState.value] else [])
    {
      if onPosition.Some? {
        positionSubscribers := positionSubscribers + [onPosition.value];
      }
      if onPlayState.Some? {
        playStateSubscribers := playStateSubscribers + [onPlayState.value];
      }
    }

    /** The closure `subscribe` returns: remove the first registration of
        each callback it was given, if there is one, and nothing else. */
    method Unsubscribe(onPosition: Option<Callback>, onPlayState: Option<Callback>)
      modifies this`positionSubscribers, this`playStateSubscribers
      ensures onPosition.Some? ==> positionSubscribers == RemoveFirst(old(positionSubscribers), onPosition.value)
      ensures onPosition.None? ==> positionSubscribers == old(positionSubscribers)
      ensures onPlayState.Some? ==> playStateSubscribers == RemoveFirst(old(playStateSubscribers), onPlayState.value)
      ensures onPlayState.None? ==> playStateSubscribers == old(playStateSubscribers)
    {
      if onPosition.Some? {
        positionSubscribers := RemoveFirst(positionSubscribers, onPosition.value);
      }
      if onPlayState.Some? {
        playStateSubscribers := RemoveFirst(playStateSubscribers, onPlayState.value);
      }
    }
  }

  /** Subscribing and then calling the returned closure leaves both lists as
      they were, as multisets; a callback that was not registered before
      leaves its list exactly as it was, order included. */
  method SubscribeThenUnsubscribe(t: Transport, onPosition: Option<Callback>, onPlayState: Option<Callback>)
    modifies t`positionSubscribers, t`playStateSubscribers
    ensures multiset(t.positionSubscribers) == multiset(old(t.positionSubscribers))
    ensures multiset(t.playStateSubscribers) == multiset(old(t.playStateSubscribers))
    ensures (onPosition.Some? ==> onPosition.value !in old(t.positionSubscribers)) ==>
              t.positionSubscribers == old(t.positionSubscribers)
    ensures (onPlayState.Some? ==> onPlayState.value !in old(t.playStateSubscribers)) ==>
              t.playStateSubscribers == old(t.playStateSubscribers)
  {
    ghost var pos, play := t.positionSubscribers, t.playStateSubscribers;
    t.Subscribe(onPosition, onPlayState);
    ghost var pos1, play1 := t.positionSubscribers, t.playStateSubscribers;
    t.Unsubscribe(onPosition, onPlayState);
    AddThenRemove(pos, pos1, t.positionSubscribers, onPosition);
    AddThenRemove(play, play1, t.playStateSubscribers, onPlayState);
  }

  /** One list through `subscribe` and then its closure. */
  lemma AddThenRemove(s0: seq<Callback>, s1: seq<Callback>, s2: seq<Callback>, cb: Option<Callback>)
    requires s1 == s0 + (if cb.Some? then [cb.value] else [])
    requires cb.Some? ==> s2 == RemoveFirst(s1, cb.value)
    requires cb.None? ==> s2 == s1
    ensures multiset(s2) == multiset(s0)
    ensures (cb.Some? ==> cb.value !in s0) ==> s2 == s0
  {
    if cb.Some? {
      RemoveFirstCount(s1, cb.value);
      assert multiset(s1) == multiset(s0) + multiset{cb.value};
      if cb.value !in s0 {
        RemoveAppended(s0, cb.value);
      }
    } else {
      assert s1 == s0;
    }
  }

  /** Removing the first registration of a callback that was appended to a
      list not holding it gives the list back. */
  lemma RemoveAppended(s0: seq<Callback>, cb: Callback)
    requires cb !in s0
    ensures RemoveFirst(s0 + [cb], cb) == s0
  {
    var s1 := s0 + [cb];
    assert s1[..|s0|] == s0 && s1[|s0|] == cb;
    assert IndexOf(s1, cb) == |s0|;
  }
}
