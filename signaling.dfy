/**
 * The signaling service: one peer connection per instance, negotiated through the shared
 * document store. The caller writes an offer into a new call record, the callee reads it
 * and merges an answer back; each side appends its own network-path candidates to its own
 * group and applies the other side's newly added ones.
 *
 * Store snapshots and connection events arrive as calls to the `On...` methods, one at a
 * time, with the delivered document, changes or streams as arguments.
 */
module Signaling {
  import opened Common
  import opened Platform

  /** A live subscription the service has opened on the store. */
  datatype Subscription =
    | RecordWatch(callId: string)      // changes to `calls/{callId}`
    | CandidateWatch(source: GroupRef) // incremental changes to one candidate group

  datatype ChangeKind = Added | Modified | Removed

  /** One entry of a candidate-group snapshot's change list. */
  datatype DocChange = DocChange(kind: ChangeKind, data: Candidate)

  // ---------------------------------------------------------------------------------
  // Remote-track aggregation
  // ---------------------------------------------------------------------------------

  /** The remote stream's tracks after adding every track of `incoming`, in order. */
  function MergeTracks(ts: seq<MediaTrack>, incoming: seq<MediaTrack>): (r: seq<MediaTrack>)
    ensures ts <= r
    ensures forall t :: t in incoming ==> t in r
    ensures forall t :: t in r ==> t in ts || t in incoming
    ensures NoDuplicates(ts) ==> NoDuplicates(r)
    decreases |incoming|
  {
    if incoming == [] then ts else MergeTracks(WithTrack(ts, incoming[0]), incoming[1..])
  }

  /** Two track events delivered one after the other add what one event carrying both
      track lists would add. */
  lemma {:induction false} MergeTracksSequential(ts: seq<MediaTrack>, a: seq<MediaTrack>, b: seq<MediaTrack>)
    ensures MergeTracks(MergeTracks(ts, a), b) == MergeTracks(ts, a + b)
    decreases |a|
  {
    if a != [] {
      assert (a + b)[0] == a[0] && (a + b)[1..] == a[1..] + b;
      MergeTracksSequential(WithTrack(ts, a[0]), a[1..], b);
    } else {
      assert a + b == b;
    }
  }

  /** When the remote side sends one audio and one video track, the remote stream ends up
      with exactly those two, however often and in whatever order the events repeat them. */
  lemma TwoRemoteTracks(audio: MediaTrack, video: MediaTrack, incoming: seq<MediaTrack>)
    requires audio != video && audio in incoming && video in incoming
    requires forall t :: t in incoming ==> t == audio || t == video
    ensures |MergeTracks([], incoming)| == 2
  {
    var r := MergeTracks([], incoming);
    assert NoDuplicates<MediaTrack>([]);
    AtMostTwo(r, audio, video);
    assert audio in r && video in r;
  }

  /** A track list without repetitions holding only `a` and `b` has at most two entries. */
  lemma AtMostTwo(r: seq<MediaTrack>, a: MediaTrack, b: MediaTrack)
    requires NoDuplicates(r) && forall t :: t in r ==> t == a || t == b
    ensures |r| <= 2
  {
    DistinctBound(r, {a, b});
  }

  /** A track list without repetitions drawn from `s` is no longer than `s` is large. */
  lemma {:induction false} DistinctBound(r: seq<MediaTrack>, s: set<MediaTrack>)
    requires NoDuplicates(r) && forall t :: t in r ==> t in s
    ensures |r| <= |s|
    decreases |r|
  {
    if r != [] {
      assert forall t :: t in r[1..] ==> t != r[0];
      DistinctBound(r[1..], s - {r[0]});
    }
  }

  // ---------------------------------------------------------------------------------
  // Answer application on the caller side
  // ---------------------------------------------------------------------------------

  /** The remote description after one delivery of the call record: the answer is applied
      only when there is one and no remote description is set yet (a closed connection
      rejects it). */
  function RemoteAfterSnapshot(current: Option<SessionDescription>, closed: bool, data: Option<CallRecord>)
    : (r: Option<SessionDescription>)
    ensures current.Some? ==> r == current
    ensures r != current ==> data.Some? && r == data.value.answer && !closed
  {
    if current.None? && data.Some? && data.value.answer.Some? && !closed then data.value.answer else current
  }

  /** The remote description after a sequence of record deliveries. */
  function RemoteAfterSnapshots(current: Option<SessionDescription>, closed: bool, snaps: seq<Option<CallRecord>>)
    : Option<SessionDescription>
    decreases |snaps|
  {
    if snaps == [] then current
    else RemoteAfterSnapshots(RemoteAfterSnapshot(current, closed, snaps[0]), closed, snaps[1..])
  }

  /** The answer carried by the first delivered record that has one. */
  function FirstAnswer(snaps: seq<Option<CallRecord>>): Option<SessionDescription>
    decreases |snaps|
  {
    if snaps == [] then None
    else if snaps[0].Some? && snaps[0].value.answer.Some? then snaps[0].value.answer
    else FirstAnswer(snaps[1..])
  }

  /** The remote description is set at most once: whatever records are delivered, it ends up
      as the first answer seen, or stays as it was if it was already set. */
  lemma {:induction false} RemoteDescriptionSetOnce(current: Option<SessionDescription>, closed: bool,
                                                     snaps: seq<Option<CallRecord>>)
    ensures RemoteAfterSnapshots(current, closed, snaps) == if current.Some? || closed then current else FirstAnswer(snaps)
    decreases |snaps|
  {
    if snaps != [] {
      RemoteDescriptionSetOnce(RemoteAfterSnapshot(current, closed, snaps[0]), closed, snaps[1..]);
    }
  }

  // ---------------------------------------------------------------------------------
  // Remote candidates
  // ---------------------------------------------------------------------------------

  /** The candidates of the `added` changes, in order; modified and removed changes carry none. */
  function AddedCandidates(changes: seq<DocChange>): (r: seq<Candidate>)
    ensures |r| <= |changes|
    ensures forall c :: c in r ==> exists i :: 0 <= i < |changes| && changes[i] == DocChange(Added, c)
    ensures forall i :: 0 <= i < |changes| && changes[i].kind == Added ==> changes[i].data in r
    decreases |changes|
  {
    if changes == [] then []
    else (if changes[0].kind == Added then [changes[0].data] else []) + AddedCandidates(changes[1..])
  }

  /** Splitting a change list into two deliveries applies the same candidates in the same order. */
  lemma {:induction false} AddedCandidatesSplit(a: seq<DocChange>, b: seq<DocChange>)
    ensures AddedCandidates(a + b) == AddedCandidates(a) + AddedCandidates(b)
    decreases |a|
  {
    if a == [] {
      assert a + b == b;
    } else {
      assert (a + b)[0] == a[0] && (a + b)[1..] == a[1..] + b;
      AddedCandidatesSplit(a[1..], b);
    }
  }

  /** The callee's guard: the record exists and its `offer` field is set, so there is an offer
      to apply. A record written by a successful `CreateCall` always passes it. */
  predicate HasOffer(rec: Option<CallRecord>) {
    rec.Some? && rec.value.offer.Some?
  }

  /** Whether every local track of a fresh capture can be sent on a connection with the given
      state: adding fails on a closed connection and for a track it already sends. */
  predicate CanRegister(closed: bool, senders: seq<MediaTrack>, tracks: seq<MediaTrack>) {
    tracks == [] || (!closed && NoDuplicates(tracks) && forall t :: t in tracks ==> t !in senders)
  }

  class WebRTCService {
    const store: Store
    const pc: PeerConnection
    var localStream: MediaStream?
    const remoteStream: MediaStream
    var callId: Option<string>
    /** The group the installed `onicecandidate` handler writes to, once one is installed. */
    var iceRoute: Option<GroupRef>
    var subscriptions: seq<Subscription>

    ghost predicate Valid()
      reads this, pc
    {
      localStream != remoteStream && NoDuplicates(pc.senders)
    }

    /** The tracks of the current local stream. */
    function LocalTracks(): set<MediaTrack>
      reads this, localStream
    {
      if localStream == null then {} else set t | t in localStream.tracks
    }

    constructor (store: Store)
      ensures Valid() && this.store == store && fresh(pc) && fresh(remoteStream)
      ensures localStream == null && remoteStream.tracks == []
      ensures callId == None && iceRoute == None && subscriptions == []
      ensures pc.localDescription == None && pc.remoteDescription == None
      ensures pc.senders == [] && pc.remoteCandidates == [] && !pc.closed
    {
      this.store := store;
      pc := new PeerConnection();
      remoteStream := new MediaStream();
      localStream := null;
      callId := None;
      iceRoute := None;
      subscriptions := [];
    }

    /** The `ontrack` handler: every track of the event's first stream joins the remote stream. */
    method OnTrack(streams: seq<MediaStream>)
      requires Valid()
      modifies remoteStream`tracks
      ensures Valid()
      ensures remoteStream.tracks == if streams == [] then old(remoteStream.tracks)
                                     else MergeTracks(old(remoteStream.tracks), old(streams[0].tracks))
    {
      if streams != [] {
        var incoming := streams[0].tracks;
        var i := 0;
        while i < |incoming|
          invariant 0 <= i <= |incoming|
          invariant MergeTracks(remoteStream.tracks, incoming[i..]) == MergeTracks(old(remoteStream.tracks), incoming)
        {
          assert incoming[i..][0] == incoming[i] && incoming[i..][1..] == incoming[i + 1..];
          remoteStream.AddTrack(incoming[i]);
          i := i + 1;
        }
      }
    }

    /** Stores the captured stream as the local stream and sends each of its tracks on the
        connection, stopping at the first track the connection refuses. */
    method StartWebcam(capture: Option<MediaStream>) returns (r: Result<MediaStream, PlatformError>)
      requires Valid()
      requires capture.Some? ==> capture.value != remoteStream
      modifies this`localStream, pc`senders
      ensures Valid()
      ensures capture.None? ==> r == Failure(CaptureFailed) && localStream == old(localStream)
                                && pc.senders == old(pc.senders)
      ensures capture.Some? ==> localStream == capture.value
      ensures r.Success? <==> capture.Some? && CanRegister(pc.closed, old(pc.senders), capture.value.tracks)
      ensures r.Success? ==> r.value == localStream && pc.senders == old(pc.senders) + localStream.tracks
      ensures capture.Some? ==> old(pc.senders) <= pc.senders <= old(pc.senders) + capture.value.tracks
    {
      if capture.None? {
        return Failure(CaptureFailed);
      }
      localStream := capture.value;
      var tracks := localStream.tracks;
      var i := 0;
      while i < |tracks|
        invariant 0 <= i <= |tracks|
        invariant localStream == capture.value
        invariant pc.senders == old(pc.senders) + tracks[..i]
        invariant NoDuplicates(pc.senders)
        invariant i > 0 ==> !pc.closed
        invariant forall t :: t in tracks[..i] ==> t !in old(pc.senders)
        invariant NoDuplicates(tracks[..i])
      {
        var t := tracks[i];
        var added := pc.AddTrack(t);
        if added.Fail? {
          assert pc.closed || t in old(pc.senders) || t in tracks[..i];
          assert !CanRegister(pc.closed, old(pc.senders), tracks) by {
            if t in tracks[..i] {
              var j :| 0 <= j < i && tracks[j] == t;
              assert tracks[j] == tracks[i];
            }
          }
          return Failure(added.error);
        }
        assert tracks[..i + 1] == tracks[..i] + [t];
        i := i + 1;
      }
      assert tracks[..i] == tracks;
      r := Success(capture.value);
    }

    /** The caller's side: create the call record, install the offer-side candidate handler,
        set and publish the offer, then watch the record and the answer-side candidates. */
    method CreateCall(newId: string, offerSdp: string) returns (r: Result<string, PlatformError>)
      requires Valid()
      requires newId != ""
      modifies this`callId, this`iceRoute, this`subscriptions, pc`localDescription, store`calls
      ensures Valid()
      ensures callId == Some(newId) && iceRoute == Some(GroupRef(newId, OfferCandidates))
      ensures r.Success? <==> !pc.closed
      ensures r.Success? ==>
                && r.value == newId
                && pc.localDescription == Some(SessionDescription(Offer, offerSdp))
                && store.calls == old(store.calls)[newId := CallRecord(pc.localDescription, None)]
                && subscriptions == old(subscriptions) + [RecordWatch(newId), CandidateWatch(GroupRef(newId, AnswerCandidates))]
      ensures r.Success? ==> HasOffer(store.Read(newId))
      ensures r.Failure? ==>
                && r.error == ConnectionClosed
                && pc.localDescription == old(pc.localDescription)
                && store.calls == old(store.calls)
                && subscriptions == old(subscriptions)
    {
      callId := Some(newId);
      iceRoute := Some(GroupRef(newId, OfferCandidates));
      var offer := pc.CreateOffer(offerSdp);
      if offer.Failure? {
        return Failure(offer.error);
      }
      // the connection is open, so setting the description it just created succeeds
      var _ := pc.SetLocalDescription(offer.value);
      store.SetDoc(newId, CallRecord(Some(offer.value), None));
      subscriptions := subscriptions + [RecordWatch(newId), CandidateWatch(GroupRef(newId, AnswerCandidates))];
      r := Success(newId);
    }

    /** The callee's side: install the answer-side candidate handler, read the record once and,
        only if it holds an offer, apply it, set and merge the answer, and watch the offer-side
        candidates. A record without an offer ends the operation without an error. */
    method AnswerCall(id: string, answerSdp: string) returns (r: Outcome<PlatformError>)
      requires Valid()
      modifies this`callId, this`iceRoute, this`subscriptions
      modifies pc`localDescription, pc`remoteDescription, store`calls
      ensures Valid()
      ensures id == "" ==> r == Fail(InvalidDocumentPath) && callId == old(callId) && iceRoute == old(iceRoute)
      ensures id != "" ==> callId == Some(id) && iceRoute == Some(GroupRef(id, AnswerCandidates))
      ensures r.Pass? <==> id != "" && (!HasOffer(old(store.Read(id))) || !pc.closed)
      ensures r.Fail? && id != "" ==> r.error == ConnectionClosed
      ensures r.Pass? && HasOffer(old(store.Read(id))) ==>
                && pc.remoteDescription == old(store.calls[id].offer)
                && pc.localDescription == Some(SessionDescription(Answer, answerSdp))
                && store.calls == old(store.calls)[id := CallRecord(old(store.calls[id].offer), pc.localDescription)]
                && subscriptions == old(subscriptions) + [CandidateWatch(GroupRef(id, OfferCandidates))]
      ensures !(r.Pass? && HasOffer(old(store.Read(id)))) ==>
                && pc.remoteDescription == old(pc.remoteDescription)
                && pc.localDescription == old(pc.localDescription)
                && store.calls == old(store.calls)
                && subscriptions == old(subscriptions)
    {
      if id == "" {
        return Fail(InvalidDocumentPath);
      }
      callId := Some(id);
      iceRoute := Some(GroupRef(id, AnswerCandidates));
      var callData := store.Read(id);
      if HasOffer(callData) {
        var applied := pc.SetRemoteDescription(callData.value.offer.value);
        if applied.Fail? {
          return applied;
        }
        // open, with the offer as remote description: none of the next three steps can fail
        var answer := pc.CreateAnswer(answerSdp);
        var _ := pc.SetLocalDescription(answer.value);
        var _ := store.UpdateAnswer(id, answer.value);
        subscriptions := subscriptions + [CandidateWatch(GroupRef(id, OfferCandidates))];
      }
      r := Pass;
    }

    /** The `onicecandidate` handler: a discovered candidate goes to the installed handler's
        group only; the end-of-gathering event (no candidate) writes nothing. */
    method OnIceCandidate(c: Option<Candidate>)
      requires Valid()
      modifies store`candidates
      ensures Valid()
      ensures iceRoute.Some? && c.Some? ==>
                store.Candidates(iceRoute.value) == old(store.Candidates(iceRoute.value)) + [c.value]
      ensures forall g :: iceRoute.None? || c.None? || g != iceRoute.value ==> store.Candidates(g) == old(store.Candidates(g))
    {
      if iceRoute.Some? && c.Some? {
        store.AddDoc(iceRoute.value, c.value);
      }
    }

    /** The caller's record-snapshot handler. */
    method OnCallSnapshot(id: string, data: Option<CallRecord>)
      requires Valid() && RecordWatch(id) in subscriptions
      modifies pc`remoteDescription
      ensures Valid()
      ensures pc.remoteDescription == RemoteAfterSnapshot(old(pc.remoteDescription), pc.closed, data)
    {
      if pc.remoteDescription.None? && data.Some? && data.value.answer.Some? {
        var _ := pc.SetRemoteDescription(data.value.answer.value);
      }
    }

    /** The candidate-group snapshot handler of either side: each `added` change is fed to
        the connection, in order; other changes are skipped. */
    method OnCandidateSnapshot(source: GroupRef, changes: seq<DocChange>)
      requires Valid() && CandidateWatch(source) in subscriptions
      modifies pc`remoteCandidates
      ensures Valid()
      ensures pc.remoteCandidates == old(pc.remoteCandidates) + (if pc.AcceptsCandidates() then AddedCandidates(changes) else [])
    {
      var i := 0;
      while i < |changes|
        invariant 0 <= i <= |changes|
        invariant pc.remoteCandidates == old(pc.remoteCandidates) + (if pc.AcceptsCandidates() then AddedCandidates(changes[..i]) else [])
      {
        if changes[i].kind == Added {
          var _ := pc.AddIceCandidate(changes[i].data);
        }
        AddedCandidatesSplit(changes[..i], [changes[i]]);
        assert changes[..i + 1] == changes[..i] + [changes[i]];
        i := i + 1;
      }
      assert changes[..i] == changes;
    }

    /** Stops every local track and closes the connection; nothing else is reset. */
    method HangUp()
      requires Valid()
      modifies pc`closed, LocalTracks()`ended
      ensures Valid()
      ensures pc.closed
      ensures forall t :: t in old(LocalTracks()) ==> t.ended
      ensures unchanged(this) && unchanged(remoteStream)
    {
      if localStream != null {
        var tracks := localStream.tracks;
        var i := 0;
        while i < |tracks|
          invariant 0 <= i <= |tracks|
          invariant forall j :: 0 <= j < i ==> tracks[j].ended
        {
          tracks[i].Stop();
          i := i + 1;
        }
      }
      pc.Close();
    }
  }

  /** Caller and callee complete the offer/answer exchange through one store: each side's
      remote description ends up as the other side's local description. */
  method Handshake(caller: WebRTCService, callee: WebRTCService, id: string, offerSdp: string, answerSdp: string)
    requires caller.Valid() && callee.Valid()
    requires caller.store == callee.store && caller.pc != callee.pc
    requires !caller.pc.closed && !callee.pc.closed && caller.pc.remoteDescription.None?
    requires id != ""
    modifies caller, callee, caller.pc, callee.pc, caller.store
    ensures caller.pc.localDescription == Some(SessionDescription(Offer, offerSdp)) == callee.pc.remoteDescription
    ensures callee.pc.localDescription == Some(SessionDescription(Answer, answerSdp)) == caller.pc.remoteDescription
    ensures id in caller.store.calls && caller.store.calls[id] == CallRecord(caller.pc.localDescription, callee.pc.localDescription)
  {
    var created := caller.CreateCall(id, offerSdp);
    var joined := callee.AnswerCall(id, answerSdp);
    caller.OnCallSnapshot(id, caller.store.Read(id));
  }

  /** The connection is closed, not replaced, by a hang-up, so the same service cannot
      create a second call. */
  method CreateAfterHangUp(s: WebRTCService, id: string, offerSdp: string) returns (r: Result<string, PlatformError>)
    requires s.Valid() && id != ""
    modifies s, s.pc, s.store, s.LocalTracks()`ended
    ensures r == Failure(ConnectionClosed)
  {
    s.HangUp();
    r := s.CreateCall(id, offerSdp);
  }
}
