/**
 * The video-call screen's controller: its handlers as methods over the screen's state
 * (`callId`, `inputCallId`, `isInCall`, `isMuted`, `isVideoOn`, `webcamStarted`) and the one
 * signaling service it owns. Each handler returns the notifications it raises, in order:
 * toasts and the `onCallEnd` callback. Device capture, the store-generated call id and the
 * SDP text the connection would produce are parameters.
 */
module VideoCall {
  import opened Common
  import opened Platform
  import opened Signaling

  /** What a handler shows or reports to its parent. */
  datatype Effect =
    | ShowToast(title: string, description: string, destructive: bool)
    | NotifyCallEnd

  const WebcamStartedToast := ShowToast("Webcam Started", "Your camera and microphone are now active.", false)
  const WebcamFailedToast := ShowToast("Error", "Failed to access camera and microphone.", true)
  const CreateFailedToast := ShowToast("Error", "Failed to create call.", true)
  const MissingCallIdToast := ShowToast("Error", "Please enter a call ID.", true)
  const JoinFailedToast := ShowToast("Error", "Failed to join call.", true)
  const CallEndedToast := ShowToast("Call Ended", "You have left the call.", false)

  function CallCreatedToast(id: string): Effect {
    ShowToast("Call Created", "Call ID: " + id + ". Share this ID with the person you want to call.", false)
  }

  function JoinedToast(id: string): Effect {
    ShowToast("Joined Call", "Connected to call " + id, false)
  }

  /** The first track of the given kind (`getAudioTracks()[0]`, `getVideoTracks()[0]`). */
  function FirstOfKind(ts: seq<MediaTrack>, kind: TrackKind): (r: Option<MediaTrack>)
    ensures r.Some? ==> r.value in ts && r.value.kind == kind
    decreases |ts|
  {
    if ts == [] then None
    else if ts[0].kind == kind then Some(ts[0])
    else FirstOfKind(ts[1..], kind)
  }

  /** `FirstOfKind` finds nothing exactly when no track has the kind, and otherwise the
      track at the earliest position holding that kind. */
  lemma {:induction false} FirstOfKindIsFirst(ts: seq<MediaTrack>, kind: TrackKind)
    ensures FirstOfKind(ts, kind).None? <==> forall t :: t in ts ==> t.kind != kind
    ensures FirstOfKind(ts, kind).Some? ==>
              exists i :: 0 <= i < |ts| && ts[i] == FirstOfKind(ts, kind).value
                          && forall j :: 0 <= j < i ==> ts[j].kind != kind
    decreases |ts|
  {
    if ts != [] && ts[0].kind != kind {
      var rest := ts[1..];
      FirstOfKindIsFirst(rest, kind);
      assert forall t :: t in ts ==> t == ts[0] || t in rest;
      if FirstOfKind(rest, kind).Some? {
        var i :| 0 <= i < |rest| && rest[i] == FirstOfKind(rest, kind).value
                 && forall j :: 0 <= j < i ==> rest[j].kind != kind;
        assert ts[i + 1] == rest[i];
        forall j | 0 <= j < i + 1 ensures ts[j].kind != kind {
          if j > 0 { assert ts[j] == rest[j - 1]; }
        }
      }
    } else if ts != [] {
      assert ts[0] in ts;
    }
  }

  /** Whether starting the webcam with this capture succeeds on this connection. */
  predicate StartSucceeds(pc: PeerConnection, capture: Option<MediaStream>)
    reads pc, if capture.Some? then {capture.value} else {}
  {
    capture.Some? && CanRegister(pc.closed, pc.senders, capture.value.tracks)
  }

  /** A captured stream's tracks all start enabled. */
  predicate AllEnabled(s: MediaStream)
    reads s, set t | t in s.tracks
  {
    forall t :: t in s.tracks ==> t.enabled
  }

  /** The connection's senders after a webcam start from `before`: unchanged without a
      capture; every captured track appended once, in order, after a successful start; at most
      a prefix of them after a failed one. */
  predicate SentOnStart(before: seq<MediaTrack>, after: seq<MediaTrack>, capture: Option<MediaStream>, ok: bool)
    reads if capture.Some? then {capture.value} else {}
  {
    if capture.None? then after == before
    else if ok then after == before + capture.value.tracks
    else before <= after <= before + capture.value.tracks
  }

  function StartToast(ok: bool): Effect {
    if ok then WebcamStartedToast else WebcamFailedToast
  }

  class VideoCallController {
    const webrtc: WebRTCService
    var callId: string
    var inputCallId: string
    var isInCall: bool
    var isMuted: bool
    var isVideoOn: bool
    var webcamStarted: bool

    ghost predicate Valid()
      reads this, webrtc, webrtc.pc
    {
      webrtc.Valid()
    }

    /** The first local audio track is enabled exactly when the screen is not muted, and the
        first local video track exactly when video is on. */
    ghost predicate FlagsInStep()
      reads this, webrtc, webrtc.localStream, webrtc.LocalTracks()
    {
      webrtc.localStream != null ==>
        && (var audio := FirstOfKind(webrtc.localStream.tracks, Audio);
            audio.Some? ==> audio.value.enabled == !isMuted)
        && (var video := FirstOfKind(webrtc.localStream.tracks, Video);
            video.Some? ==> video.value.enabled == isVideoOn)
    }

    constructor (store: Store)
      ensures Valid() && FlagsInStep() && fresh(webrtc) && fresh(webrtc.pc) && webrtc.store == store
      ensures webrtc.localStream == null && !webrtc.pc.closed && webrtc.pc.remoteDescription.None?
      ensures callId == "" && inputCallId == "" && !isInCall
      ensures !isMuted && isVideoOn && !webcamStarted
    {
      webrtc := new WebRTCService(store);
      callId, inputCallId := "", "";
      isInCall, isMuted, isVideoOn, webcamStarted := false, false, true, false;
    }

    /** The call-id input field. */
    method SetInputCallId(value: string)
      modifies this`inputCallId
      ensures inputCallId == value
    {
      inputCallId := value;
    }

    /** Starts the camera; a failure is reported and swallowed. */
    method StartWebcam(capture: Option<MediaStream>) returns (effects: seq<Effect>)
      requires Valid()
      requires capture.Some? ==> capture.value != webrtc.remoteStream
      modifies this`webcamStarted, webrtc`localStream, webrtc.pc`senders
      ensures Valid()
      ensures webcamStarted == (old(webcamStarted) || old(StartSucceeds(webrtc.pc, capture)))
      ensures effects == [StartToast(old(StartSucceeds(webrtc.pc, capture)))]
      ensures webrtc.localStream == if capture.Some? then capture.value else old(webrtc.localStream)
      ensures SentOnStart(old(webrtc.pc.senders), webrtc.pc.senders, capture, old(StartSucceeds(webrtc.pc, capture)))
      ensures old(FlagsInStep()) && (capture.Some? ==> AllEnabled(capture.value) && !isMuted && isVideoOn)
              ==> FlagsInStep()
    {
      var started := webrtc.StartWebcam(capture);
      if started.Success? {
        webcamStarted := true;
        effects := [WebcamStartedToast];
      } else {
        effects := [WebcamFailedToast];
      }
    }

    /** Starts the camera unless it was already started; the step both call handlers take first. */
    method StartWebcamIfNeeded(capture: Option<MediaStream>) returns (effects: seq<Effect>)
      requires Valid()
      requires capture.Some? ==> capture.value != webrtc.remoteStream
      modifies this`webcamStarted, webrtc`localStream, webrtc.pc`senders
      ensures Valid()
      ensures old(webcamStarted) ==> webcamStarted && effects == []
                                     && webrtc.localStream == old(webrtc.localStream) && webrtc.pc.senders == old(webrtc.pc.senders)
      ensures !old(webcamStarted) ==> && webcamStarted == old(StartSucceeds(webrtc.pc, capture))
                                      && effects == [StartToast(old(StartSucceeds(webrtc.pc, capture)))]
                                      && webrtc.localStream == (if capture.Some? then capture.value else old(webrtc.localStream))
                                      && SentOnStart(old(webrtc.pc.senders), webrtc.pc.senders, capture, old(StartSucceeds(webrtc.pc, capture)))
      ensures old(FlagsInStep()) && (!old(webcamStarted) && capture.Some? ==> AllEnabled(capture.value) && !isMuted && isVideoOn)
              ==> FlagsInStep()
    {
      effects := [];
      if !webcamStarted {
        effects := StartWebcam(capture);
      }
    }

    /** Starts the camera first unless it was started, then asks the service for a new call. */
    method CreateCall(capture: Option<MediaStream>, newId: string, offerSdp: string) returns (effects: seq<Effect>)
      requires Valid() && newId != ""
      requires capture.Some? ==> capture.value != webrtc.remoteStream
      modifies this`webcamStarted, this`callId, this`isInCall
      modifies webrtc`localStream, webrtc`callId, webrtc`iceRoute, webrtc`subscriptions
      modifies webrtc.pc`senders, webrtc.pc`localDescription, webrtc.store`calls
      ensures Valid()
      ensures old(webcamStarted) ==> webrtc.localStream == old(webrtc.localStream) && webrtc.pc.senders == old(webrtc.pc.senders)
      ensures !old(webcamStarted) ==> && webrtc.localStream == (if capture.Some? then capture.value else old(webrtc.localStream))
                                      && SentOnStart(old(webrtc.pc.senders), webrtc.pc.senders, capture, old(StartSucceeds(webrtc.pc, capture)))
      ensures webcamStarted == (old(webcamStarted) || old(StartSucceeds(webrtc.pc, capture)))
      ensures webrtc.callId == Some(newId) && webrtc.iceRoute == Some(GroupRef(newId, OfferCandidates))
      ensures !webrtc.pc.closed ==> callId == newId && isInCall
      ensures !webrtc.pc.closed ==>
                && webrtc.pc.localDescription == Some(SessionDescription(Offer, offerSdp))
                && webrtc.store.calls == old(webrtc.store.calls)[newId := CallRecord(webrtc.pc.localDescription, None)]
                && webrtc.subscriptions == old(webrtc.subscriptions) + [RecordWatch(newId), CandidateWatch(GroupRef(newId, AnswerCandidates))]
                && HasOffer(webrtc.store.Read(newId))
      ensures webrtc.pc.closed ==> callId == old(callId) && isInCall == old(isInCall)
      ensures webrtc.pc.closed ==>
                && webrtc.pc.localDescription == old(webrtc.pc.localDescription)
                && webrtc.store.calls == old(webrtc.store.calls)
                && webrtc.subscriptions == old(webrtc.subscriptions)
      ensures effects == (if old(webcamStarted) then [] else [StartToast(old(StartSucceeds(webrtc.pc, capture)))])
                         + [if webrtc.pc.closed then CreateFailedToast else CallCreatedToast(newId)]
      ensures old(FlagsInStep()) && (!old(webcamStarted) && capture.Some? ==> AllEnabled(capture.value) && !isMuted && isVideoOn)
              ==> FlagsInStep()
    {
      effects := StartWebcamIfNeeded(capture);
      var shown := PlaceCall(newId, offerSdp);
      effects := effects + [shown];
    }

    /** The create handler's service call and what the screen makes of its outcome. */
    method PlaceCall(newId: string, offerSdp: string) returns (shown: Effect)
      requires Valid() && newId != ""
      modifies this`callId, this`isInCall
      modifies webrtc`callId, webrtc`iceRoute, webrtc`subscriptions, webrtc.pc`localDescription, webrtc.store`calls
      ensures Valid()
      ensures webrtc.callId == Some(newId) && webrtc.iceRoute == Some(GroupRef(newId, OfferCandidates))
      ensures !webrtc.pc.closed ==> callId == newId && isInCall && shown == CallCreatedToast(newId)
      ensures !webrtc.pc.closed ==>
                && webrtc.pc.localDescription == Some(SessionDescription(Offer, offerSdp))
                && webrtc.store.calls == old(webrtc.store.calls)[newId := CallRecord(webrtc.pc.localDescription, None)]
                && webrtc.subscriptions == old(webrtc.subscriptions) + [RecordWatch(newId), CandidateWatch(GroupRef(newId, AnswerCandidates))]
                && HasOffer(webrtc.store.Read(newId))
      ensures webrtc.pc.closed ==> callId == old(callId) && isInCall == old(isInCall) && shown == CreateFailedToast
      ensures webrtc.pc.closed ==>
                && webrtc.pc.localDescription == old(webrtc.pc.localDescription)
                && webrtc.store.calls == old(webrtc.store.calls)
                && webrtc.subscriptions == old(webrtc.subscriptions)
      ensures old(FlagsInStep()) ==> FlagsInStep()
    {
      var created := webrtc.CreateCall(newId, offerSdp);
      if created.Success? {
        callId := created.value;
        isInCall := true;
        shown := CallCreatedToast(created.value);
      } else {
        shown := CreateFailedToast;
      }
    }

    /** Joins the call typed into the input field. An empty field is reported and nothing else
        happens; otherwise the camera is started first unless it was started, and the service
        is asked to answer. */
    method AnswerCall(capture: Option<MediaStream>, answerSdp: string) returns (effects: seq<Effect>)
      requires Valid()
      requires capture.Some? ==> capture.value != webrtc.remoteStream
      modifies this`webcamStarted, this`callId, this`isInCall
      modifies webrtc`localStream, webrtc`callId, webrtc`iceRoute, webrtc`subscriptions
      modifies webrtc.pc`senders, webrtc.pc`localDescription, webrtc.pc`remoteDescription, webrtc.store`calls
      ensures Valid()
      ensures old(inputCallId) == "" ==>
                && effects == [MissingCallIdToast]
                && unchanged(this) && unchanged(webrtc) && unchanged(webrtc.pc) && unchanged(webrtc.store)
      ensures old(inputCallId) != "" ==>
                && webrtc.callId == Some(inputCallId) && webrtc.iceRoute == Some(GroupRef(inputCallId, AnswerCandidates))
                && webcamStarted == (old(webcamStarted) || old(StartSucceeds(webrtc.pc, capture)))
                && (old(webcamStarted) ==> webrtc.localStream == old(webrtc.localStream) && webrtc.pc.senders == old(webrtc.pc.senders))
                && (!old(webcamStarted) ==>
                      && webrtc.localStream == (if capture.Some? then capture.value else old(webrtc.localStream))
                      && SentOnStart(old(webrtc.pc.senders), webrtc.pc.senders, capture, old(StartSucceeds(webrtc.pc, capture))))
      ensures old(inputCallId) != "" && HasOffer(old(webrtc.store.Read(inputCallId))) && !webrtc.pc.closed ==>
                && webrtc.pc.remoteDescription == old(webrtc.store.calls[inputCallId].offer)
                && webrtc.pc.localDescription == Some(SessionDescription(Answer, answerSdp))
                && webrtc.store.calls == old(webrtc.store.calls)[inputCallId := CallRecord(old(webrtc.store.calls[inputCallId].offer), webrtc.pc.localDescription)]
                && webrtc.subscriptions == old(webrtc.subscriptions) + [CandidateWatch(GroupRef(inputCallId, OfferCandidates))]
      ensures old(inputCallId) != "" && !(HasOffer(old(webrtc.store.Read(inputCallId))) && !webrtc.pc.closed) ==>
                && webrtc.pc.remoteDescription == old(webrtc.pc.remoteDescription)
                && webrtc.pc.localDescription == old(webrtc.pc.localDescription)
                && webrtc.store.calls == old(webrtc.store.calls)
                && webrtc.subscriptions == old(webrtc.subscriptions)
      ensures var joined := old(inputCallId) != "" && (!HasOffer(old(webrtc.store.Read(inputCallId))) || !webrtc.pc.closed);
              && (joined ==> callId == inputCallId && isInCall)
              && (!joined ==> callId == old(callId) && isInCall == old(isInCall))
              && (old(inputCallId) != "" ==>
                    effects == (if old(webcamStarted) then [] else [StartToast(old(StartSucceeds(webrtc.pc, capture)))])
                               + [if joined then JoinedToast(inputCallId) else JoinFailedToast])
      ensures old(FlagsInStep()) && (!old(webcamStarted) && capture.Some? ==> AllEnabled(capture.value) && !isMuted && isVideoOn)
              ==> FlagsInStep()
    {
      if inputCallId == "" {
        return [MissingCallIdToast];
      }
      effects := StartWebcamIfNeeded(capture);
      var shown := JoinCall(answerSdp);
      effects := effects + [shown];
    }

    /** The join handler's service call and what the screen makes of its outcome: joined
        whenever the service returns, whether or not the record held an offer. */
    method JoinCall(answerSdp: string) returns (shown: Effect)
      requires Valid() && inputCallId != ""
      modifies this`callId, this`isInCall
      modifies webrtc`callId, webrtc`iceRoute, webrtc`subscriptions
      modifies webrtc.pc`localDescription, webrtc.pc`remoteDescription, webrtc.store`calls
      ensures Valid()
      ensures webrtc.callId == Some(inputCallId) && webrtc.iceRoute == Some(GroupRef(inputCallId, AnswerCandidates))
      ensures var joined := !HasOffer(old(webrtc.store.Read(inputCallId))) || !webrtc.pc.closed;
              && (joined ==> callId == inputCallId && isInCall && shown == JoinedToast(inputCallId))
              && (!joined ==> callId == old(callId) && isInCall == old(isInCall) && shown == JoinFailedToast)
      ensures HasOffer(old(webrtc.store.Read(inputCallId))) && !webrtc.pc.closed ==>
                && webrtc.pc.remoteDescription == old(webrtc.store.calls[inputCallId].offer)
                && webrtc.pc.localDescription == Some(SessionDescription(Answer, answerSdp))
                && webrtc.store.calls == old(webrtc.store.calls)[inputCallId := CallRecord(old(webrtc.store.calls[inputCallId].offer), webrtc.pc.localDescription)]
                && webrtc.subscriptions == old(webrtc.subscriptions) + [CandidateWatch(GroupRef(inputCallId, OfferCandidates))]
      ensures !(HasOffer(old(webrtc.store.Read(inputCallId))) && !webrtc.pc.closed) ==>
                && webrtc.pc.remoteDescription == old(webrtc.pc.remoteDescription)
                && webrtc.pc.localDescription == old(webrtc.pc.localDescription)
                && webrtc.store.calls == old(webrtc.store.calls)
                && webrtc.subscriptions == old(webrtc.subscriptions)
      ensures old(FlagsInStep()) ==> FlagsInStep()
    {
      var joined := webrtc.AnswerCall(inputCallId, answerSdp);
      if joined.Pass? {
        callId := inputCallId;
        isInCall := true;
        shown := JoinedToast(inputCallId);
      } else {
        shown := JoinFailedToast;
      }
    }

    /** Ends the call on the service and resets the call fields; mute and video flags stay. */
    method HangUp() returns (effects: seq<Effect>)
      requires Valid()
      modifies this, webrtc.pc`closed, webrtc.LocalTracks()`ended
      ensures Valid()
      ensures !isInCall && callId == "" && inputCallId == "" && !webcamStarted
      ensures isMuted == old(isMuted) && isVideoOn == old(isVideoOn)
      ensures webrtc.pc.closed && forall t :: t in old(webrtc.LocalTracks()) ==> t.ended
      ensures unchanged(webrtc)
      ensures effects == [NotifyCallEnd, CallEndedToast]
      ensures old(FlagsInStep()) ==> FlagsInStep()
    {
      webrtc.HangUp();
      isInCall := false;
      callId := "";
      inputCallId := "";
      webcamStarted := false;
      effects := [NotifyCallEnd, CallEndedToast];
    }

    /** Flips the first local audio track and the mute flag together; without a local stream
        or an audio track nothing changes. */
    method ToggleMute()
      requires Valid()
      modifies this`isMuted, webrtc.LocalTracks()`enabled
      ensures Valid()
      ensures var audio := if webrtc.localStream == null then None else FirstOfKind(webrtc.localStream.tracks, Audio);
              && (audio.None? ==> isMuted == old(isMuted) && forall t :: t in webrtc.LocalTracks() ==> t.enabled == old(t.enabled))
              && (audio.Some? ==> && isMuted == !old(isMuted) && audio.value.enabled == old(isMuted)
                                  && forall t :: t in webrtc.LocalTracks() && t != audio.value ==> t.enabled == old(t.enabled))
      ensures old(FlagsInStep()) ==> FlagsInStep()
    {
      if webrtc.localStream != null {
        var audio := FirstOfKind(webrtc.localStream.tracks, Audio);
        if audio.Some? {
          audio.value.enabled := isMuted;
          isMuted := !isMuted;
        }
      }
    }

    /** Flips the first local video track and the video flag together; without a local stream
        or a video track nothing changes. */
    method ToggleVideo()
      requires Valid()
      modifies this`isVideoOn, webrtc.LocalTracks()`enabled
      ensures Valid()
      ensures var video := if webrtc.localStream == null then None else FirstOfKind(webrtc.localStream.tracks, Video);
              && (video.None? ==> isVideoOn == old(isVideoOn) && forall t :: t in webrtc.LocalTracks() ==> t.enabled == old(t.enabled))
              && (video.Some? ==> && isVideoOn == !old(isVideoOn) && video.value.enabled == !old(isVideoOn)
                                  && forall t :: t in webrtc.LocalTracks() && t != video.value ==> t.enabled == old(t.enabled))
      ensures old(FlagsInStep()) ==> FlagsInStep()
    {
      if webrtc.localStream != null {
        var video := FirstOfKind(webrtc.localStream.tracks, Video);
        if video.Some? {
          video.value.enabled := !isVideoOn;
          isVideoOn := !isVideoOn;
        }
      }
    }
  }

  /** Hanging up while muted and then creating a new call captures a fresh, enabled microphone
      while the screen still shows itself muted: the mute flag and the track disagree. */
  method MutedAcrossCalls(c: VideoCallController, capture: MediaStream, newId: string, offerSdp: string)
    returns (effects: seq<Effect>)
    requires c.Valid() && c.isMuted && newId != ""
    requires capture != c.webrtc.remoteStream
    requires |capture.tracks| > 0 && capture.tracks[0].kind == Audio && capture.tracks[0].enabled
    modifies c, c.webrtc, c.webrtc.pc, c.webrtc.store, c.webrtc.LocalTracks()`ended
    ensures c.isMuted && c.webrtc.localStream == capture && capture.tracks[0].enabled
    ensures !c.FlagsInStep()
  {
    effects := c.HangUp();
    effects := c.CreateCall(Some(capture), newId, offerSdp);
    assert FirstOfKind(capture.tracks, Audio) == Some(capture.tracks[0]);
  }

  /** Two screens sharing one store: the first creates a call, the second joins it by typing
      its id, and the first then receives the record snapshot. Both screens are in the call,
      each side's remote description is the other side's local one, and the record holds both. */
  method ScreenHandshake(caller: VideoCallController, callee: VideoCallController,
                         callerCapture: Option<MediaStream>, calleeCapture: Option<MediaStream>,
                         id: string, offerSdp: string, answerSdp: string)
    requires caller.Valid() && callee.Valid()
    requires caller.webrtc.store == callee.webrtc.store
    requires caller != callee && caller.webrtc != callee.webrtc && caller.webrtc.pc != callee.webrtc.pc
    requires !caller.webrtc.pc.closed && !callee.webrtc.pc.closed && caller.webrtc.pc.remoteDescription.None?
    requires id != ""
    requires callerCapture.Some? ==> callerCapture.value != caller.webrtc.remoteStream
    requires calleeCapture.Some? ==> calleeCapture.value != callee.webrtc.remoteStream
    modifies caller, callee, caller.webrtc, callee.webrtc, caller.webrtc.pc, callee.webrtc.pc, caller.webrtc.store
    ensures caller.isInCall && callee.isInCall && caller.callId == id == callee.callId
    ensures caller.webrtc.pc.localDescription == Some(SessionDescription(Offer, offerSdp)) == callee.webrtc.pc.remoteDescription
    ensures callee.webrtc.pc.localDescription == Some(SessionDescription(Answer, answerSdp)) == caller.webrtc.pc.remoteDescription
    ensures caller.webrtc.store.Read(id) == Some(CallRecord(caller.webrtc.pc.localDescription, callee.webrtc.pc.localDescription))
  {
    var store := caller.webrtc.store;
    CallerCreates(caller, callerCapture, id, offerSdp);
    CalleeJoins(callee, calleeCapture, id, SessionDescription(Offer, offerSdp), answerSdp);
    caller.webrtc.OnCallSnapshot(id, store.Read(id));
  }

  /** The first half of `ScreenHandshake`: the caller's Create button on an open connection. */
  method CallerCreates(caller: VideoCallController, capture: Option<MediaStream>, id: string, offerSdp: string)
    requires caller.Valid() && !caller.webrtc.pc.closed && caller.webrtc.pc.remoteDescription.None?
    requires id != ""
    requires capture.Some? ==> capture.value != caller.webrtc.remoteStream
    modifies caller, caller.webrtc, caller.webrtc.pc, caller.webrtc.store
    ensures caller.Valid() && !caller.webrtc.pc.closed && caller.webrtc.pc.remoteDescription.None?
    ensures caller.isInCall && caller.callId == id && RecordWatch(id) in caller.webrtc.subscriptions
    ensures caller.webrtc.pc.localDescription == Some(SessionDescription(Offer, offerSdp))
    ensures caller.webrtc.store.Read(id) == Some(CallRecord(caller.webrtc.pc.localDescription, None))
  {
    var effects := caller.CreateCall(capture, id, offerSdp);
  }

  /** The second half of `ScreenHandshake`: the callee types the id of a record holding an
      offer and presses Join on an open connection. */
  method CalleeJoins(callee: VideoCallController, capture: Option<MediaStream>, id: string,
                     offer: SessionDescription, answerSdp: string)
    requires callee.Valid() && !callee.webrtc.pc.closed
    requires id != "" && callee.webrtc.store.Read(id) == Some(CallRecord(Some(offer), None))
    requires capture.Some? ==> capture.value != callee.webrtc.remoteStream
    modifies callee, callee.webrtc, callee.webrtc.pc, callee.webrtc.store
    ensures callee.isInCall && callee.callId == id
    ensures callee.webrtc.pc.remoteDescription == Some(offer)
    ensures callee.webrtc.pc.localDescription == Some(SessionDescription(Answer, answerSdp))
    ensures callee.webrtc.store.Read(id) == Some(CallRecord(Some(offer), callee.webrtc.pc.localDescription))
  {
    callee.SetInputCallId(id);
    var effects := callee.AnswerCall(capture, answerSdp);
  }
}
