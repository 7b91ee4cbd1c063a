/**
 * The video call panel of client/components/VideoCall.tsx: the list of peer
 * streams keyed by peer id, the camera/microphone fallback chain, the join
 * sequencing in the peer's `open` handler, the inbound and outbound call
 * paths, and the mute / camera-off toggles. getUserMedia and the peer
 * connection library are oracles: what they return is a parameter.
 */
module VideoCall {
  import opened Wrappers

  datatype TrackKind = Audio | Video

  /** A media track; its `enabled` flag is flipped in place by the toggles. */
  class Track {
    const kind: TrackKind
    var enabled: bool

    constructor (kind: TrackKind)
      ensures this.kind == kind && enabled
    {
      this.kind := kind;
      enabled := true;
    }
  }

  datatype MediaStream = MediaStream(id: string, tracks: seq<Track>)

  /** One entry of the `peers` list. */
  datatype PeerEntry = PeerEntry(id: string, stream: MediaStream)

  /** The constraints of one getUserMedia request. */
  datatype Constraints = Constraints(video: bool, audio: bool)

  function Ids(peers: seq<PeerEntry>): (ids: set<string>)
    ensures forall id :: id in ids <==> exists i :: 0 <= i < |peers| && peers[i].id == id
  {
    if peers == [] then {}
    else
      var init := peers[..|peers| - 1];
      assert forall i :: 0 <= i < |init| ==> init[i] == peers[i];
      Ids(init) + {peers[|peers| - 1].id}
  }

  predicate DistinctIds(peers: seq<PeerEntry>) {
    forall i, j :: 0 <= i < j < |peers| ==> peers[i].id != peers[j].id
  }

  /** `addPeerStream`'s updater: a known id leaves the list as it is, a new one is appended. */
  function AddPeerStream(peers: seq<PeerEntry>, id: string, stream: MediaStream): (r: seq<PeerEntry>)
    ensures id in Ids(peers) ==> r == peers
    ensures id !in Ids(peers) ==> r == peers + [PeerEntry(id, stream)]
    ensures Ids(r) == Ids(peers) + {id}
  {
    if id in Ids(peers) then peers
    else
      var r := peers + [PeerEntry(id, stream)];
      assert r[..|peers|] == peers;
      r
  }

  /** Peer ids stay pairwise distinct. */
  lemma AddKeepsDistinct(peers: seq<PeerEntry>, id: string, stream: MediaStream)
    requires DistinctIds(peers)
    ensures DistinctIds(AddPeerStream(peers, id, stream))
  {
  }

  /** Adding under an id twice is the same as adding once: the first stream for an id wins. */
  lemma AddIdempotent(peers: seq<PeerEntry>, id: string, s1: MediaStream, s2: MediaStream)
    ensures AddPeerStream(AddPeerStream(peers, id, s1), id, s2) == AddPeerStream(peers, id, s1)
  {
    var r := AddPeerStream(peers, id, s1);
    if id !in Ids(peers) {
      assert r[|r| - 1].id == id;
    }
  }

  /** The list after a run of stream arrivals (peer id, stream), one at a time. */
  function AddAll(peers: seq<PeerEntry>, arrivals: seq<PeerEntry>): (r: seq<PeerEntry>)
  {
    if arrivals == [] then peers
    else
      var a := arrivals[|arrivals| - 1];
      AddPeerStream(AddAll(peers, arrivals[..|arrivals| - 1]), a.id, a.stream)
  }

  /**
   * Over any run of arrivals the list only grows at the end, its ids stay
   * distinct, and every arriving id ends up present.
   */
  lemma AddAllGrows(peers: seq<PeerEntry>, arrivals: seq<PeerEntry>)
    requires DistinctIds(peers)
    ensures var r := AddAll(peers, arrivals);
      |peers| <= |r| <= |peers| + |arrivals| && r[..|peers|] == peers && DistinctIds(r) &&
      forall i :: 0 <= i < |arrivals| ==> arrivals[i].id in Ids(r)
  {
    AddAllExtends(peers, arrivals);
    AddAllDistinct(peers, arrivals);
    AddAllIds(peers, arrivals);
  }

  lemma {:induction false} AddAllExtends(peers: seq<PeerEntry>, arrivals: seq<PeerEntry>)
    ensures var r := AddAll(peers, arrivals);
      |peers| <= |r| <= |peers| + |arrivals| && r[..|peers|] == peers
    decreases |arrivals|
  {
    if arrivals != [] {
      var init := arrivals[..|arrivals| - 1];
      AddAllExtends(peers, init);
      var prev := AddAll(peers, init);
      var r := AddAll(peers, arrivals);
      assert r[..|prev|] == prev;
      assert r[..|peers|] == prev[..|peers|];
    }
  }

  lemma {:induction false} AddAllDistinct(peers: seq<PeerEntry>, arrivals: seq<PeerEntry>)
    requires DistinctIds(peers)
    ensures DistinctIds(AddAll(peers, arrivals))
    decreases |arrivals|
  {
    if arrivals != [] {
      var init := arrivals[..|arrivals| - 1];
      var a := arrivals[|arrivals| - 1];
      AddAllDistinct(peers, init);
      AddKeepsDistinct(AddAll(peers, init), a.id, a.stream);
    }
  }

  /** The ids present afterwards are the ids present before and the arriving ids. */
  lemma {:induction false} AddAllIds(peers: seq<PeerEntry>, arrivals: seq<PeerEntry>)
    ensures Ids(AddAll(peers, arrivals)) == Ids(peers) + Ids(arrivals)
    decreases |arrivals|
  {
    if arrivals != [] {
      AddAllIds(peers, arrivals[..|arrivals| - 1]);
    }
  }

  /** The entry for an id holds the stream of the first arrival under that id. */
  lemma {:induction false} FirstStreamWins(peers: seq<PeerEntry>, arrivals: seq<PeerEntry>, k: nat)
    requires k < |arrivals| && arrivals[k].id !in Ids(peers)
    requires forall i :: 0 <= i < k ==> arrivals[i].id != arrivals[k].id
    ensures PeerEntry(arrivals[k].id, arrivals[k].stream) in AddAll(peers, arrivals)
    decreases |arrivals|
  {
    var init := arrivals[..|arrivals| - 1];
    var a := arrivals[|arrivals| - 1];
    var prev := AddAll(peers, init);
    if k == |arrivals| - 1 {
      NotYetAdded(peers, init, a.id);
    } else {
      FirstStreamWins(peers, init, k);
    }
  }

  /** An id that neither the list nor any arrival carries is still absent afterwards. */
  lemma {:induction false} NotYetAdded(peers: seq<PeerEntry>, arrivals: seq<PeerEntry>, id: string)
    requires id !in Ids(peers)
    requires forall i :: 0 <= i < |arrivals| ==> arrivals[i].id != id
    ensures id !in Ids(AddAll(peers, arrivals))
    decreases |arrivals|
  {
    if arrivals != [] {
      NotYetAdded(peers, arrivals[..|arrivals| - 1], id);
    }
  }

  /**
   * The three getUserMedia requests, in order: camera and microphone, then
   * camera alone, then microphone alone. The first that succeeds gives the
   * stream; when all three fail there is none.
   */
  method AcquireMedia(getUserMedia: Constraints -> Option<MediaStream>) returns (stream: Option<MediaStream>)
    ensures getUserMedia(Constraints(true, true)).Some? ==> stream == getUserMedia(Constraints(true, true))
    ensures getUserMedia(Constraints(true, true)).None? && getUserMedia(Constraints(true, false)).Some? ==>
      stream == getUserMedia(Constraints(true, false))
    ensures getUserMedia(Constraints(true, true)).None? && getUserMedia(Constraints(true, false)).None? ==>
      stream == getUserMedia(Constraints(false, true))
    ensures stream.None? <==>
      getUserMedia(Constraints(true, true)).None? && getUserMedia(Constraints(true, false)).None? &&
      getUserMedia(Constraints(false, true)).None?
  {
    stream := getUserMedia(Constraints(true, true));
    if stream.Some? {
      return;
    }
    stream := getUserMedia(Constraints(true, false));
    if stream.Some? {
      return;
    }
    stream := getUserMedia(Constraints(false, true));
  }

  predicate AllRequestsFail(getUserMedia: Constraints -> Option<MediaStream>) {
    getUserMedia(Constraints(true, true)).None? && getUserMedia(Constraints(true, false)).None? &&
    getUserMedia(Constraints(false, true)).None?
  }

  /** The stream the fallback chain settles on when some request succeeds. */
  function FirstAvailable(getUserMedia: Constraints -> Option<MediaStream>): (stream: Option<MediaStream>)
  {
    if getUserMedia(Constraints(true, true)).Some? then getUserMedia(Constraints(true, true))
    else if getUserMedia(Constraints(true, false)).Some? then getUserMedia(Constraints(true, false))
    else getUserMedia(Constraints(false, true))
  }

  /** The first track of a kind, as `getAudioTracks()[0]` / `getVideoTracks()[0]` picks it. */
  function FirstTrack(tracks: seq<Track>, kind: TrackKind): (t: Option<Track>)
    ensures t.Some? ==> t.value in tracks && t.value.kind == kind
    ensures t.Some? ==> exists i :: (0 <= i < |tracks| && tracks[i] == t.value &&
      forall j :: 0 <= j < i ==> tracks[j].kind != kind)
    ensures t.None? ==> forall i :: 0 <= i < |tracks| ==> tracks[i].kind != kind
  {
    if tracks == [] then None
    else if tracks[0].kind == kind then Some(tracks[0])
    else
      var t := FirstTrack(tracks[1..], kind);
      if t.Some? then
        ghost var i :| 0 <= i < |tracks[1..]| && tracks[1..][i] == t.value &&
          forall j :: 0 <= j < i ==> tracks[1..][j].kind != kind;
        assert tracks[i + 1] == t.value;
        t
      else t
  }

  const NoDeviceMessage := "No Camera/Mic found. Check permissions."

  class CallPanel {
    const roomId: string
    /** The `peerInstance` ref: set once a peer object exists. */
    var peerCreated: bool
    var peers: seq<PeerEntry>
    var isMuted: bool
    var isVideoOff: bool
    var errorMsg: Option<string>
    /** The stream shown in the local video element. */
    var localStream: Option<MediaStream>
    /** Whether the peer's `call` listener is registered. */
    var answersCalls: bool
    /** Whether the socket's `user-connected` listener is registered. */
    var callsNewUsers: bool

    ghost predicate Valid()
      reads this
    {
      DistinctIds(peers) &&
      (answersCalls ==> localStream.Some? && peerCreated) &&
      (callsNewUsers ==> localStream.Some? && peerCreated)
    }

    constructor (roomId: string)
      ensures Valid() && this.roomId == roomId
      ensures !peerCreated && peers == [] && !isMuted && !isVideoOff && errorMsg == None
      ensures localStream == None && !answersCalls && !callsNewUsers
    {
      this.roomId := roomId;
      peerCreated, peers, isMuted, isVideoOff, errorMsg := false, [], false, false, None;
      localStream, answersCalls, callsNewUsers := None, false, false;
    }

    /** The mount effect: a peer is created only if none exists yet. */
    method Mount() returns (created: bool)
      requires Valid()
      modifies this`peerCreated
      ensures Valid() && peerCreated
      ensures created <==> !old(peerCreated)
    {
      created := !peerCreated;
      peerCreated := true;
    }

    /** The effect's cleanup: only the socket listener is removed; the peer and its listeners stay. */
    method Unmount()
      requires Valid()
      modifies this`callsNewUsers
      ensures Valid() && !callsNewUsers
    {
      callsNewUsers := false;
    }

    /**
     * The peer's `open` handler: acquire media; on success show it, clear
     * the error, announce `join-room(roomId, id)` and only then register the
     * call and user-connected listeners; if every request fails, set the
     * error message and announce nothing.
     */
    method OnOpen(id: string, getUserMedia: Constraints -> Option<MediaStream>) returns (announce: Option<(string, string)>)
      requires Valid() && peerCreated
      modifies this`localStream, this`errorMsg, this`answersCalls, this`callsNewUsers
      ensures Valid()
      ensures announce.None? <==> AllRequestsFail(getUserMedia)
      ensures announce.None? ==>
        errorMsg == Some(NoDeviceMessage) && localStream == old(localStream) &&
        answersCalls == old(answersCalls) && callsNewUsers == old(callsNewUsers)
      ensures announce.Some? ==>
        announce.value == (roomId, id) && errorMsg == None && answersCalls && callsNewUsers &&
        localStream == FirstAvailable(getUserMedia)
    {
      var stream := AcquireMedia(getUserMedia);
      if stream.None? {
        errorMsg := Some(NoDeviceMessage);
        return None;
      }
      localStream := stream;
      errorMsg := None;
      announce := Some((roomId, id));
      answersCalls := true;
      callsNewUsers := true;
    }

    /**
     * An inbound call: answered with the local stream; when the caller's
     * stream arrives it is recorded under the caller's peer id. Before the
     * listener exists the call goes unanswered.
     */
    method OnIncomingCall(caller: string, remote: Option<MediaStream>) returns (answer: Option<MediaStream>)
      requires Valid()
      modifies this`peers
      ensures Valid()
      ensures !answersCalls ==> answer == None && peers == old(peers)
      ensures answersCalls ==> answer == localStream
      ensures answersCalls && remote.Some? ==> peers == AddPeerStream(old(peers), caller, remote.value)
      ensures remote.None? ==> peers == old(peers)
    {
      if !answersCalls {
        return None;
      }
      answer := localStream;
      if remote.Some? {
        AddKeepsDistinct(peers, caller, remote.value);
        peers := AddPeerStream(peers, caller, remote.value);
      }
    }

    /**
     * `user-connected(userId)`: call the newcomer with the local stream and
     * record its stream, when it arrives, under `userId`.
     */
    method OnUserConnected(userId: string, remote: Option<MediaStream>) returns (call: Option<(string, MediaStream)>)
      requires Valid()
      modifies this`peers
      ensures Valid()
      ensures !callsNewUsers ==> call == None && peers == old(peers)
      ensures callsNewUsers ==> call == Some((userId, localStream.value))
      ensures callsNewUsers && remote.Some? ==> peers == AddPeerStream(old(peers), userId, remote.value)
      ensures remote.None? ==> peers == old(peers)
    {
      if !callsNewUsers {
        return None;
      }
      call := Some((userId, localStream.value));
      if remote.Some? {
        AddKeepsDistinct(peers, userId, remote.value);
        peers := AddPeerStream(peers, userId, remote.value);
      }
    }

    /** The tracks of the local stream: all that the toggles may change. */
    function LocalTracks(): (ts: set<Track>)
      reads this
    {
      if localStream.None? then {} else set t | t in localStream.value.tracks
    }

    /** Flips the first audio track; `isMuted` becomes its negation. Without one nothing changes. */
    method ToggleAudio()
      requires Valid()
      modifies this`isMuted, LocalTracks()
      ensures Valid()
      ensures var t := if localStream.Some? then FirstTrack(localStream.value.tracks, Audio) else None;
        (t.Some? ==> t.value.enabled == !old(t.value.enabled) && isMuted == !t.value.enabled) &&
        (t.None? ==> isMuted == old(isMuted)) &&
        forall u :: u in LocalTracks() && Some(u) != t ==> u.enabled == old(u.enabled)
    {
      if localStream.Some? {
        var t := FirstTrack(localStream.value.tracks, Audio);
        if t.Some? {
          t.value.enabled := !t.value.enabled;
          isMuted := !t.value.enabled;
        }
      }
    }

    /** Flips the first video track; `isVideoOff` becomes its negation. Without one nothing changes. */
    method ToggleVideo()
      requires Valid()
      modifies this`isVideoOff, LocalTracks()
      ensures Valid()
      ensures var t := if localStream.Some? then FirstTrack(localStream.value.tracks, Video) else None;
        (t.Some? ==> t.value.enabled == !old(t.value.enabled) && isVideoOff == !t.value.enabled) &&
        (t.None? ==> isVideoOff == old(isVideoOff)) &&
        forall u :: u in LocalTracks() && Some(u) != t ==> u.enabled == old(u.enabled)
    {
      if localStream.Some? {
        var t := FirstTrack(localStream.value.tracks, Video);
        if t.Some? {
          t.value.enabled := !t.value.enabled;
          isVideoOff := !t.value.enabled;
        }
      }
    }
  }

  /**
   * Muting twice gives every local track its original `enabled` flag back.
   * `isMuted` ends as the negation of the audio track's flag, so it is back
   * to its old value whenever it agreed with that track beforehand, and
   * untouched when there is no audio track.
   */
  method ToggleAudioTwice(panel: CallPanel)
    requires panel.Valid()
    modifies panel`isMuted, panel.LocalTracks()
    ensures panel.Valid()
    ensures forall u :: u in panel.LocalTracks() ==> u.enabled == old(u.enabled)
    ensures var t := if panel.localStream.Some? then FirstTrack(panel.localStream.value.tracks, Audio) else None;
      (t.Some? ==> panel.isMuted == !t.value.enabled) &&
      (t.None? || old(panel.isMuted) == !old(t.value.enabled) ==> panel.isMuted == old(panel.isMuted))
  {
    panel.ToggleAudio();
    panel.ToggleAudio();
  }

  /**
   * Panel `a` already has media and hears that `b`'s peer `bId` joined: it
   * calls `b` with its own stream, `b` answers with its stream, and each
   * side records the other's stream under the other's peer id.
   */
  method Converge(a: CallPanel, aId: string, b: CallPanel, bId: string)
    requires a != b && a.Valid() && b.Valid()
    requires a.callsNewUsers && b.answersCalls
    requires bId !in Ids(a.peers) && aId !in Ids(b.peers)
    modifies a`peers, b`peers
    ensures a.Valid() && b.Valid()
    ensures a.peers == old(a.peers) + [PeerEntry(bId, b.localStream.value)]
    ensures b.peers == old(b.peers) + [PeerEntry(aId, a.localStream.value)]
  {
    var answer := b.OnIncomingCall(aId, a.localStream);
    var call := a.OnUserConnected(bId, answer);
  }
}
