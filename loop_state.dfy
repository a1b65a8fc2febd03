/**
 * The Loop state holder: a named loop with a play flag, a playhead and a
 * list of tracks that can be muted, unmuted, added, removed, and whose
 * unfinished last recording can be discarded.
 *
 * A track is seen only through what the loop asks of it: its uid, its
 * mute flag and whether its audio file has been loaded.
 */
module LoopState {

  datatype TrackRecord = TrackRecord(uid: string, muted: bool, fileLoaded: bool)

  /** An argument of add_tracks: a Track, or any other value, which is skipped. */
  datatype Arg = TrackArg(track: TrackRecord) | Other

  // ---------------------------------------------------------------------
  // Specification functions and their properties
  // ---------------------------------------------------------------------

  function Uids(ts: seq<TrackRecord>): (r: seq<string>)
    ensures |r| == |ts| && forall k :: 0 <= k < |ts| ==> r[k] == ts[k].uid
  {
    seq(|ts|, k requires 0 <= k < |ts| => ts[k].uid)
  }

  /** The tracks after setting the mute flag to `muted` on every track whose uid is among ids. */
  function WithMuted(ts: seq<TrackRecord>, ids: seq<string>, muted: bool): (r: seq<TrackRecord>)
    ensures |r| == |ts|
  {
    seq(|ts|, k requires 0 <= k < |ts| => if ts[k].uid in ids then ts[k].(muted := muted) else ts[k])
  }

  /** Muting touches only the flag of the named tracks: uids, files and order stay as they were. */
  lemma WithMutedChangesOnlyFlags(ts: seq<TrackRecord>, ids: seq<string>, muted: bool)
    ensures Uids(WithMuted(ts, ids, muted)) == Uids(ts)
    ensures forall k :: 0 <= k < |ts| ==>
      && WithMuted(ts, ids, muted)[k].fileLoaded == ts[k].fileLoaded
      && WithMuted(ts, ids, muted)[k].muted == (if ts[k].uid in ids then muted else ts[k].muted)
  {
  }

  /** Muting the ids one after another is muting them all at once. */
  lemma {:induction false} WithMutedAppend(ts: seq<TrackRecord>, ids: seq<string>, id: string, muted: bool)
    ensures WithMuted(WithMuted(ts, ids, muted), [id], muted) == WithMuted(ts, ids + [id], muted)
  {
    var lhs := WithMuted(WithMuted(ts, ids, muted), [id], muted);
    var rhs := WithMuted(ts, ids + [id], muted);
    forall k | 0 <= k < |ts|
      ensures lhs[k] == rhs[k]
    {
      assert ts[k].uid in ids + [id] <==> ts[k].uid in ids || ts[k].uid == id;
    }
  }

  /** A second mute (or unmute) of the same ids changes nothing. */
  lemma {:induction false} WithMutedIdempotent(ts: seq<TrackRecord>, ids: seq<string>, muted: bool)
    ensures WithMuted(WithMuted(ts, ids, muted), ids, muted) == WithMuted(ts, ids, muted)
  {
    var once := WithMuted(ts, ids, muted);
    assert forall k :: 0 <= k < |ts| ==> WithMuted(once, ids, muted)[k] == once[k];
  }

  /** Unmuting what was just muted restores the tracks that were unmuted before. */
  lemma {:induction false} UnmuteUndoesMute(ts: seq<TrackRecord>, ids: seq<string>)
    requires forall k :: 0 <= k < |ts| && ts[k].uid in ids ==> !ts[k].muted
    ensures WithMuted(WithMuted(ts, ids, true), ids, false) == ts
  {
    var back := WithMuted(WithMuted(ts, ids, true), ids, false);
    assert forall k :: 0 <= k < |ts| ==> back[k] == ts[k];
  }

  /** The tracks among the arguments of add_tracks, in argument order. */
  function TracksAmong(args: seq<Arg>): (r: seq<TrackRecord>)
    ensures |r| <= |args|
  {
    if |args| == 0 then []
    else TracksAmong(args[..|args| - 1]) + (if args[|args| - 1].TrackArg? then [args[|args| - 1].track] else [])
  }

  /** A track is added iff it is one of the arguments; other arguments add nothing. */
  lemma {:induction false} TracksAmongMembers(args: seq<Arg>, t: TrackRecord)
    ensures t in TracksAmong(args) <==> TrackArg(t) in args
  {
    if |args| > 0 {
      TracksAmongMembers(args[..|args| - 1], t);
      assert args == args[..|args| - 1] + [args[|args| - 1]];
    }
  }

  /** Adding in two calls is adding in one. */
  lemma {:induction false} TracksAmongAppend(a: seq<Arg>, b: seq<Arg>)
    ensures TracksAmong(a + b) == TracksAmong(a) + TracksAmong(b)
  {
    if |b| == 0 {
      assert a + b == a;
    } else {
      TracksAmongAppend(a, b[..|b| - 1]);
      assert (a + b)[..|a + b| - 1] == a + b[..|b| - 1];
    }
  }

  /** [track for track in tracks if track.get_uid() not in ids] */
  function Remaining(ts: seq<TrackRecord>, ids: seq<string>): (r: seq<TrackRecord>)
    ensures |r| <= |ts|
  {
    if |ts| == 0 then []
    else (if ts[0].uid in ids then [] else [ts[0]]) + Remaining(ts[1..], ids)
  }

  /** A track survives iff it was there and its uid is not named. */
  lemma {:induction false} RemainingMembers(ts: seq<TrackRecord>, ids: seq<string>, t: TrackRecord)
    ensures t in Remaining(ts, ids) <==> t in ts && t.uid !in ids
  {
    if |ts| > 0 {
      RemainingMembers(ts[1..], ids, t);
      assert ts == [ts[0]] + ts[1..];
    }
  }

  /** Removal keeps order: removing from a + b removes from a, then from b. */
  lemma {:induction false} RemainingAppend(a: seq<TrackRecord>, b: seq<TrackRecord>, ids: seq<string>)
    ensures Remaining(a + b, ids) == Remaining(a, ids) + Remaining(b, ids)
  {
    if |a| == 0 {
      assert a + b == b;
    } else {
      var head := if a[0].uid in ids then [] else [a[0]];
      RemainingAppend(a[1..], b, ids);
      RemainingStep(a, b, ids);
      assert head + (Remaining(a[1..], ids) + Remaining(b, ids)) == (head + Remaining(a[1..], ids)) + Remaining(b, ids);
    }
  }

  /** The first track of a + b is kept or removed as the first track of a is. */
  lemma RemainingStep(a: seq<TrackRecord>, b: seq<TrackRecord>, ids: seq<string>)
    requires |a| > 0
    ensures Remaining(a + b, ids) == (if a[0].uid in ids then [] else [a[0]]) + Remaining(a[1..] + b, ids)
  {
    assert (a + b)[0] == a[0];
    assert (a + b)[1..] == a[1..] + b;
  }

  /** Removing the same ids twice removes nothing more. */
  lemma {:induction false} RemainingIdempotent(ts: seq<TrackRecord>, ids: seq<string>)
    ensures Remaining(Remaining(ts, ids), ids) == Remaining(ts, ids)
  {
    if |ts| > 0 {
      RemainingIdempotent(ts[1..], ids);
      if ts[0].uid !in ids {
        assert ([ts[0]] + Remaining(ts[1..], ids))[1..] == Remaining(ts[1..], ids);
      } else {
        assert Remaining(ts, ids) == [] + Remaining(ts[1..], ids) == Remaining(ts[1..], ids);
      }
    }
  }

  /** Removing ids no track carries leaves the list as it was. */
  lemma {:induction false} RemainingNothingNamed(ts: seq<TrackRecord>, ids: seq<string>)
    requires forall k :: 0 <= k < |ts| ==> ts[k].uid !in ids
    ensures Remaining(ts, ids) == ts
  {
    if |ts| > 0 {
      RemainingNothingNamed(ts[1..], ids);
      assert ts == [ts[0]] + ts[1..];
    }
  }

  /** What stop_recording leaves: the last track goes iff there is one and its audio is not loaded. */
  function Discarded(ts: seq<TrackRecord>): (r: seq<TrackRecord>)
    ensures |ts| > 0 && !ts[|ts| - 1].fileLoaded ==> |r| == |ts| - 1 && ts == r + [ts[|ts| - 1]]
    ensures !(|ts| > 0 && !ts[|ts| - 1].fileLoaded) ==> r == ts
  {
    if |ts| > 0 && !ts[|ts| - 1].fileLoaded then ts[..|ts| - 1] else ts
  }

  /** Appending an unfinished track and discarding gives back the list; a loaded last track is kept. */
  lemma DiscardedThenLoaded(ts: seq<TrackRecord>, t: TrackRecord)
    ensures !t.fileLoaded ==> Discarded(ts + [t]) == ts
    ensures t.fileLoaded ==> Discarded(ts + [t]) == ts + [t]
  {
    assert (ts + [t])[..|ts|] == ts;
  }

  // ---------------------------------------------------------------------
  // The Loop
  // ---------------------------------------------------------------------

  class Loop {
    var name: string
    var isPlaying: bool
    var tracks: seq<TrackRecord>
    var playheadPosition: int

    constructor (name: string)
      ensures this.name == name && !isPlaying && tracks == [] && playheadPosition == 0
    {
      this.name := name;
      isPlaying := false;
      tracks := [];
      playheadPosition := 0;
    }

    /** play: raises the flag once; a second call finds it raised and does nothing. */
    method Play()
      modifies this`isPlaying
      ensures isPlaying
    {
      if isPlaying {
        return;
      }
      isPlaying := true;
    }

    /** pause: lowers the flag, the playhead stays where it is. */
    method Pause()
      modifies this`isPlaying
      ensures !isPlaying
    {
      isPlaying := false;
    }

    /** stop: lowers the flag and rewinds the playhead. */
    method Stop()
      modifies this`isPlaying, this`playheadPosition
      ensures !isPlaying && playheadPosition == 0
    {
      isPlaying := false;
      playheadPosition := 0;
    }

    /** stop_recording: discard the last track if its audio never got loaded. */
    method StopRecording()
      modifies this`tracks
      ensures tracks == Discarded(old(tracks))
    {
      if |tracks| > 0 && !tracks[|tracks| - 1].fileLoaded {
        tracks := tracks[..|tracks| - 1];
      }
    }

    /** mute_tracks (muted = true) and unmute_tracks (muted = false): for each id, every track with that uid. */
    method SetMuted(ids: seq<string>, muted: bool)
      modifies this`tracks
      ensures tracks == WithMuted(old(tracks), ids, muted)
    {
      var i := 0;
      while i < |ids|
        invariant 0 <= i <= |ids|
        invariant tracks == WithMuted(old(tracks), ids[..i], muted)
      {
        var trackId := ids[i];
        ghost var before := tracks;
        var j := 0;
        while j < |tracks|
          invariant 0 <= j <= |tracks| == |before|
          invariant forall k :: 0 <= k < j ==> tracks[k] == WithMuted(before, [trackId], muted)[k]
          invariant forall k :: j <= k < |tracks| ==> tracks[k] == before[k]
        {
          if tracks[j].uid == trackId {
            tracks := tracks[j := tracks[j].(muted := muted)];
          }
          j := j + 1;
        }
        assert tracks == WithMuted(before, [trackId], muted);
        WithMutedAppend(old(tracks), ids[..i], trackId, muted);
        assert ids[..i + 1] == ids[..i] + [trackId];
        i := i + 1;
      }
      assert ids[..i] == ids;
    }

    method MuteTracks(ids: seq<string>)
      modifies this`tracks
      ensures tracks == WithMuted(old(tracks), ids, true)
    {
      SetMuted(ids, true);
    }

    method UnmuteTracks(ids: seq<string>)
      modifies this`tracks
      ensures tracks == WithMuted(old(tracks), ids, false)
    {
      SetMuted(ids, false);
    }

    /** add_tracks: append the Track arguments in order, skip the rest. */
    method AddTracks(args: seq<Arg>)
      modifies this`tracks
      ensures tracks == old(tracks) + TracksAmong(args)
    {
      var i := 0;
      while i < |args|
        invariant 0 <= i <= |args|
        invariant tracks == old(tracks) + TracksAmong(args[..i])
      {
        assert args[..i + 1][..i] == args[..i];
        if args[i].TrackArg? {
          tracks := tracks + [args[i].track];
        }
        i := i + 1;
      }
      assert args[..i] == args;
    }

    /** remove_tracks: keep, in order, the tracks whose uid is not named. */
    method RemoveTracks(ids: seq<string>)
      modifies this`tracks
      ensures tracks == Remaining(old(tracks), ids)
    {
      tracks := Remaining(tracks, ids);
    }

    method Rename(newName: string)
      modifies this`name
      ensures name == newName
    {
      name := newName;
    }
  }
}
