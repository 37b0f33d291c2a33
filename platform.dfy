/**
 * The collaborators the signaling service drives, reduced to the state it observes:
 * media tracks and streams, the peer connection, and the shared document store.
 * Their internals (codecs, ICE gathering, the store's replication) are not modelled;
 * each operation keeps only the outcome and the failure rules the service runs into.
 */
module Platform {
  import opened Common

  datatype TrackKind = Audio | Video

  /** A captured or received media track. Its kind never changes; `enabled` mutes it
      without releasing the device, `Stop` ends it for good. */
  class MediaTrack {
    const kind: TrackKind
    var enabled: bool
    var ended: bool

    /** A freshly captured track is enabled and live. */
    constructor (kind: TrackKind)
      ensures this.kind == kind && enabled && !ended
    {
      this.kind := kind;
      enabled := true;
      ended := false;
    }

    method Stop()
      modifies this`ended
      ensures ended
    {
      ended := true;
    }
  }

  /** The track list of a stream after adding `t`: a stream holds a set of tracks,
      so adding a track it already holds leaves it as it was. */
  function WithTrack(ts: seq<MediaTrack>, t: MediaTrack): (r: seq<MediaTrack>)
    ensures ts <= r && t in r
    ensures forall x :: x in r ==> x in ts || x == t
    ensures NoDuplicates(ts) ==> NoDuplicates(r)
  {
    if t in ts then ts else ts + [t]
  }

  /** A media stream: an ordered collection of tracks that can grow. */
  class MediaStream {
    var tracks: seq<MediaTrack>

    constructor ()
      ensures tracks == []
    {
      tracks := [];
    }

    method AddTrack(t: MediaTrack)
      modifies this`tracks
      ensures tracks == WithTrack(old(tracks), t)
    {
      tracks := WithTrack(tracks, t);
    }
  }

  datatype SdpType = Offer | Answer

  /** A session description: its type and its SDP text. */
  datatype SessionDescription = SessionDescription(kind: SdpType, sdp: string)

  /** A network-path candidate, opaque to the service. */
  datatype Candidate = Candidate(blob: string)

  /** Why a collaborator rejected an operation. */
  datatype PlatformError =
    | CaptureFailed          // the device refused or had nothing to capture
    | ConnectionClosed       // the peer connection was already closed
    | TrackAlreadyAdded      // the track is already sent on this connection
    | NoRemoteOffer          // an answer was asked for before an offer was applied
    | NoRemoteDescription    // a remote candidate arrived before any remote description
    | DocumentMissing        // a merge targeted a document that does not exist
    | InvalidDocumentPath    // a document reference was built from an empty id

  /** The peer connection. Creating descriptions and candidates is left to the platform;
      the SDP text it would produce is passed in by the caller. */
  class PeerConnection {
    var localDescription: Option<SessionDescription>
    var remoteDescription: Option<SessionDescription>
    var senders: seq<MediaTrack>
    var remoteCandidates: seq<Candidate>
    var closed: bool

    constructor ()
      ensures localDescription == None && remoteDescription == None
      ensures senders == [] && remoteCandidates == [] && !closed
    {
      localDescription, remoteDescription := None, None;
      senders, remoteCandidates := [], [];
      closed := false;
    }

    /** A remote candidate is taken only by an open connection that has a remote description. */
    predicate AcceptsCandidates()
      reads this
    {
      !closed && remoteDescription.Some?
    }

    method AddTrack(t: MediaTrack) returns (r: Outcome<PlatformError>)
      modifies this`senders
      ensures r == if closed then Fail(ConnectionClosed)
                   else if t in old(senders) then Fail(TrackAlreadyAdded)
                   else Pass
      ensures senders == if r.Pass? then old(senders) + [t] else old(senders)
    {
      if closed {
        r := Fail(ConnectionClosed);
      } else if t in senders {
        r := Fail(TrackAlreadyAdded);
      } else {
        senders := senders + [t];
        r := Pass;
      }
    }

    method CreateOffer(sdp: string) returns (r: Result<SessionDescription, PlatformError>)
      ensures r == if closed then Failure(ConnectionClosed) else Success(SessionDescription(Offer, sdp))
    {
      r := if closed then Failure(ConnectionClosed) else Success(SessionDescription(Offer, sdp));
    }

    method CreateAnswer(sdp: string) returns (r: Result<SessionDescription, PlatformError>)
      ensures r == if closed then Failure(ConnectionClosed)
                   else if remoteDescription.None? then Failure(NoRemoteOffer)
                   else Success(SessionDescription(Answer, sdp))
    {
      if closed {
        r := Failure(ConnectionClosed);
      } else if remoteDescription.None? {
        r := Failure(NoRemoteOffer);
      } else {
        r := Success(SessionDescription(Answer, sdp));
      }
    }

    method SetLocalDescription(d: SessionDescription) returns (r: Outcome<PlatformError>)
      modifies this`localDescription
      ensures r == if closed then Fail(ConnectionClosed) else Pass
      ensures localDescription == if r.Pass? then Some(d) else old(localDescription)
    {
      if closed {
        r := Fail(ConnectionClosed);
      } else {
        localDescription := Some(d);
        r := Pass;
      }
    }

    method SetRemoteDescription(d: SessionDescription) returns (r: Outcome<PlatformError>)
      modifies this`remoteDescription
      ensures r == if closed then Fail(ConnectionClosed) else Pass
      ensures remoteDescription == if r.Pass? then Some(d) else old(remoteDescription)
    {
      if closed {
        r := Fail(ConnectionClosed);
      } else {
        remoteDescription := Some(d);
        r := Pass;
      }
    }

    method AddIceCandidate(c: Candidate) returns (r: Outcome<PlatformError>)
      modifies this`remoteCandidates
      ensures r == if closed then Fail(ConnectionClosed)
                   else if remoteDescription.None? then Fail(NoRemoteDescription)
                   else Pass
      ensures remoteCandidates == if r.Pass? then old(remoteCandidates) + [c] else old(remoteCandidates)
    {
      if closed {
        r := Fail(ConnectionClosed);
      } else if remoteDescription.None? {
        r := Fail(NoRemoteDescription);
      } else {
        remoteCandidates := remoteCandidates + [c];
        r := Pass;
      }
    }

    method Close()
      modifies this`closed
      ensures closed
    {
      closed := true;
    }
  }

  /** The two candidate groups under a call record. */
  datatype Group = OfferCandidates | AnswerCandidates

  /** One candidate group of one call: `calls/{callId}/{group}`. */
  datatype GroupRef = GroupRef(callId: string, group: Group)

  /** The fields of a call record: `calls/{callId}`. */
  datatype CallRecord = CallRecord(offer: Option<SessionDescription>, answer: Option<SessionDescription>)

  /** The shared document store: call records by id, and the append-only candidate groups. */
  class Store {
    var calls: map<string, CallRecord>
    var candidates: map<GroupRef, seq<Candidate>>

    constructor ()
      ensures calls == map[] && candidates == map[]
    {
      calls, candidates := map[], map[];
    }

    /** A one-time read of a call record; `None` when the document does not exist. */
    function Read(id: string): (r: Option<CallRecord>)
      reads this
      ensures r.None? <==> id !in calls
      ensures r.Some? ==> r.value == calls[id]
    {
      if id in calls then Some(calls[id]) else None
    }

    /** The candidates appended so far to a group; an untouched group is empty. */
    function Candidates(g: GroupRef): seq<Candidate>
      reads this
    {
      if g in candidates then candidates[g] else []
    }

    /** Writes the record's fields, replacing any that were there. */
    method SetDoc(id: string, rec: CallRecord)
      modifies this`calls
      ensures calls == old(calls)[id := rec]
      ensures Read(id) == Some(rec)
    {
      calls := calls[id := rec];
    }

    /** Merges an `answer` field into an existing record; a missing record is an error. */
    method UpdateAnswer(id: string, answer: SessionDescription) returns (r: Outcome<PlatformError>)
      modifies this`calls
      ensures r == if id in old(calls) then Pass else Fail(DocumentMissing)
      ensures calls == if r.Pass? then old(calls)[id := old(calls)[id].(answer := Some(answer))] else old(calls)
    {
      if id in calls {
        calls := calls[id := calls[id].(answer := Some(answer))];
        r := Pass;
      } else {
        r := Fail(DocumentMissing);
      }
    }

    /** Appends a candidate document to one group. */
    method AddDoc(g: GroupRef, c: Candidate)
      modifies this`candidates
      ensures Candidates(g) == old(Candidates(g)) + [c]
      ensures forall h :: h != g ==> Candidates(h) == old(Candidates(h))
    {
      candidates := candidates[g := Candidates(g) + [c]];
    }
  }
}
