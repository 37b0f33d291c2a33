# LingoLive call signaling, call screen and onboarding wizard, in Dafny

This project models three parts of LingoLive, a browser app for language-exchange video calls.

- **The signaling service `WebRTCService`** (`Signaling.WebRTCService`). It sets up a two-party call with the offer/answer model of RFC 8829 (JSEP). A shared document store is the meeting point:
  - the caller writes a call record holding an `offer`;
  - the callee reads the offer, applies it, and merges an `answer` into the record;
  - each side appends its own ICE candidates to its own group, `offerCandidates` or `answerCandidates`;
  - each side applies the candidates *added* to the other side's group.

  The browser's peer connection, its media tracks and streams, and the document store are abstract classes in `Platform`. They keep only the state the service observes and the failure rules it runs into. Event and snapshot callbacks are methods that take the delivered track list, record or change list. Device capture, the SDP text and the store-generated call id are parameters.
- **The video-call screen's controller** (`VideoCall.VideoCallController`). It is a state machine over `callId`, `inputCallId`, `isInCall`, `isMuted`, `isVideoOn` and `webcamStarted`. Each handler returns the toasts and the `onCallEnd` notification it raises, in order, as a list of `Effect`s.
- **The onboarding wizard** (`Onboarding`). It has:
  - a four-step cursor (`Wizard`) with a clamped Back and a Next that is guarded per step;
  - the guard itself (`CanProceed`);
  - the target-language toggle;
  - the filter that leaves out the native language;
  - the step indicator.

`Common` holds `Option`, `Result`, `Outcome` and `NoDuplicates`.

Two behaviours are modelled as the code has them, not as an idealised protocol would:
- `hangUp` closes the connection and does not build a new one. The service's `pc` is therefore a `const`, and a second call on the same screen fails (`Signaling.CreateAfterHangUp`).
- `answerCall` on a record without an offer raises no error. It only records the call id and the candidate route, so the screen reports "Joined Call".

## Model

| member | source | states |
|---|---|---|
| Platform.MediaTrack.constructor | src/services/webrtc.ts:40-43 | a captured track is enabled and live |
| Platform.MediaTrack.Stop | src/services/webrtc.ts:137 | the track is ended afterwards |
| Platform.WithTrack | src/services/webrtc.ts:34 | adding a track to a stream keeps every track already there, contains the new one, adds nothing else, and keeps the stream free of duplicates |
| Platform.MediaStream.constructor | src/services/webrtc.ts:30 | a new stream is empty |
| Platform.MediaStream.AddTrack | src/services/webrtc.ts:34 | the stream's tracks become the old tracks with the new one added unless it was already present |
| Platform.PeerConnection.constructor | src/services/webrtc.ts:29 | a new connection has no descriptions, sends no tracks, has applied no candidates and is open |
| Platform.PeerConnection.AddTrack | src/services/webrtc.ts:46 | fails on a closed connection or for a track already sent; otherwise appends the track to the senders |
| Platform.PeerConnection.CreateOffer | src/services/webrtc.ts:65 | an offer with the given SDP, or a failure when the connection is closed |
| Platform.PeerConnection.CreateAnswer | src/services/webrtc.ts:114 | an answer, or a failure when the connection is closed or has no remote offer |
| Platform.PeerConnection.SetLocalDescription | src/services/webrtc.ts:66 | sets the local description unless the connection is closed, in which case nothing changes |
| Platform.PeerConnection.SetRemoteDescription | src/services/webrtc.ts:112 | sets the remote description unless the connection is closed, in which case nothing changes |
| Platform.PeerConnection.AddIceCandidate | src/services/webrtc.ts:87 | appends the candidate only when the connection is open and has a remote description; otherwise fails and changes nothing |
| Platform.PeerConnection.Close | src/services/webrtc.ts:139 | the connection is closed afterwards |
| Platform.Store.constructor | src/config/firebase.ts:1-27 | the store starts with no records and no candidates |
| Platform.Store.Read | src/services/webrtc.ts:108 | a one-time read finds nothing exactly when no record exists under the id, and otherwise the stored record |
| Platform.Store.SetDoc | src/services/webrtc.ts:73 | the record under the id is replaced, so reading it back gives the written record; every other record is kept |
| Platform.Store.UpdateAnswer | src/services/webrtc.ts:122 | succeeds exactly when the record exists, and then sets its `answer` and keeps its `offer`; a missing record is an error that changes nothing |
| Platform.Store.AddDoc | src/services/webrtc.ts:61 | appends the candidate to one group; every other group is unchanged |
| Signaling.MergeTracks | src/services/webrtc.ts:32-36 | the remote tracks after a track event keep the old tracks as a prefix, contain every incoming track, hold nothing else, and stay duplicate-free |
| Signaling.MergeTracksSequential | src/services/webrtc.ts:32-36 | two track events in a row have the same effect as one event carrying both track lists |
| Signaling.TwoRemoteTracks | src/services/webrtc.ts:32-36 | a peer sending one audio and one video track, in any number of events, leaves exactly two remote tracks |
| Signaling.DistinctBound | src/services/webrtc.ts:32-36 | proof step of `TwoRemoteTracks`: a duplicate-free track list drawn from a set is no longer than the set |
| Signaling.AtMostTwo | src/services/webrtc.ts:32-36 | proof step of `TwoRemoteTracks`: a duplicate-free track list holding only two given tracks has at most two entries |
| Signaling.RemoteAfterSnapshot | src/services/webrtc.ts:75-81 | a set remote description is never replaced; an unset one changes only to the record's `answer`, and only on an open connection |
| Signaling.RemoteDescriptionSetOnce | src/services/webrtc.ts:75-81 | over any series of record snapshots the remote description is the one already set, or else the first delivered answer |
| Signaling.AddedCandidates | src/services/webrtc.ts:83-90 | the candidates applied from a change list are exactly those of its `added` changes |
| Signaling.AddedCandidatesSplit | src/services/webrtc.ts:124-131 | handling a change list in two parts applies the same candidates, in the same order, as handling it whole |
| Signaling.WebRTCService.constructor | src/services/webrtc.ts:28-37 | the new service has an open, fresh connection, an empty remote stream, no local stream, no call id and no subscriptions |
| Signaling.WebRTCService.OnTrack | src/services/webrtc.ts:32-36 | the remote stream's tracks become the merge of the old tracks with the first stream's tracks, in order |
| Signaling.WebRTCService.StartWebcam | src/services/webrtc.ts:39-50 | stores the capture as the local stream; succeeds exactly when every captured track can be sent, and then sends them all once each, in order, and returns the stored stream; a failure sends at most a prefix of them |
| Signaling.WebRTCService.CreateCall | src/services/webrtc.ts:52-93 | records the call id and routes local candidates to `offerCandidates`; on an open connection, sets the offer as the local description, writes that same description as the record's `offer`, returns the id, and subscribes to the record and to `answerCandidates`, so the stored record passes the callee's `HasOffer` guard (src/services/webrtc.ts:110); on a closed one, fails and writes nothing |
| Signaling.WebRTCService.AnswerCall | src/services/webrtc.ts:95-133 | an empty id fails before anything changes; otherwise records the id and routes candidates to `answerCandidates`; with an offer stored, applies it as the remote description, sets the answer as local, merges `answer` and keeps `offer`, and subscribes to `offerCandidates`; without one, changes nothing more and succeeds |
| Signaling.WebRTCService.OnIceCandidate | src/services/webrtc.ts:59-63 | a candidate is appended only to the group of the installed route (`offerCandidates` for the caller, `answerCandidates` for the callee, as at lines 102-106); the end-of-gathering event writes nothing |
| Signaling.WebRTCService.OnCallSnapshot | src/services/webrtc.ts:75-81 | the remote description becomes its value after the snapshot, as `RemoteAfterSnapshot` says; nothing else changes |
| Signaling.WebRTCService.OnCandidateSnapshot | src/services/webrtc.ts:83-90 | appends to the applied candidates exactly the `added` changes' candidates, when the connection accepts candidates (the same handler as at lines 124-131) |
| Signaling.WebRTCService.HangUp | src/services/webrtc.ts:135-140 | every local track is stopped and the connection is closed; the call id, the streams and the subscriptions are left as they were |
| Signaling.Handshake | src/services/webrtc.ts:52-133 | after create, answer and the caller's record snapshot, each side's remote description is the other side's local description, and the record holds both |
| Signaling.CreateAfterHangUp | src/services/webrtc.ts:135-140 | once hung up, the same service can no longer create a call |
| VideoCall.FirstOfKind | src/components/VideoCall.tsx:129 | a found track is in the stream and has the asked kind |
| VideoCall.FirstOfKindIsFirst | src/components/VideoCall.tsx:129 | finds nothing exactly when no track has the kind, and otherwise the track at the earliest position holding it |
| VideoCall.VideoCallController.StartWebcamIfNeeded | src/components/VideoCall.tsx:62-64 | starts the webcam, with its toast, exactly when it was not started, and then sends the captured tracks as the service's start does (all of them, once each, in order, on success; at most a prefix on failure); otherwise changes nothing and raises nothing |
| VideoCall.VideoCallController.constructor | src/components/VideoCall.tsx:26-32 | the screen starts unmuted, with video on, no webcam, no call and empty ids |
| VideoCall.VideoCallController.SetInputCallId | src/components/VideoCall.tsx:198 | the input field's value is stored |
| VideoCall.VideoCallController.StartWebcam | src/components/VideoCall.tsx:41-59 | the webcam becomes started when the service's start succeeds, and a failure leaves the flag as it was; the capture becomes the local stream, a successful start sends all its tracks once each, in order, and a failed one at most a prefix; raises the success toast or the error toast, never an exception |
| VideoCall.VideoCallController.CreateCall | src/components/VideoCall.tsx:61-81 | starts the webcam first exactly when it was not started, and goes on even if that fails; the service routes local candidates to `offerCandidates`; on success, sets `callId` to the service's id and `isInCall`, and the service's local description is the offer, the record holds it (so it passes `HasOffer`) and the record and answer-side candidates are watched; on failure, leaves both flags, the local description, the records and the subscriptions; the toasts are raised in order |
| VideoCall.VideoCallController.AnswerCall | src/components/VideoCall.tsx:83-112 | an empty input raises the missing-id toast and changes nothing; otherwise starts the webcam first exactly when it was not started and routes local candidates to `answerCandidates`; on success, sets `callId` to the input and `isInCall`; with an offer stored on an open connection, the offer becomes the remote description, the answer the local one, the record gains the answer and keeps the offer, and the offer-side candidates are watched; in every other case the descriptions, records and subscriptions are kept; on failure, leaves both flags |
| VideoCall.VideoCallController.PlaceCall | src/components/VideoCall.tsx:66-80 | the service always records the new id and routes candidates to `offerCandidates`; when it succeeds, `callId` becomes that id, `isInCall` is set, the created toast names the id, the offer is the local description and the stored record's `offer`, and the record and answer-side candidates are watched; when it fails, the flags, local description, records and subscriptions are kept and the error toast is shown |
| VideoCall.VideoCallController.JoinCall | src/components/VideoCall.tsx:97-111 | the service always records the input id and routes candidates to `answerCandidates`; the join succeeds when the record has no offer or the connection is open, and then `callId` becomes the input, `isInCall` is set and the joined toast is shown; otherwise both are kept and the error toast is shown; an applied offer becomes the remote description, with the answer as local description, merged into the record beside the offer, and the offer-side candidates watched; without one, descriptions, records and subscriptions are kept |
| VideoCall.VideoCallController.HangUp | src/components/VideoCall.tsx:114-125 | hangs up the service and clears `isInCall`, `callId`, `inputCallId` and `webcamStarted`; keeps `isMuted` and `isVideoOn`; notifies the parent, then shows the ended toast |
| VideoCall.VideoCallController.ToggleMute | src/components/VideoCall.tsx:127-135 | flips the mute flag and the first audio track together, touches no other track, changes nothing without a stream or an audio track, and keeps "audio enabled exactly when unmuted" |
| VideoCall.VideoCallController.ToggleVideo | src/components/VideoCall.tsx:137-145 | flips the video flag and the first video track together, touches no other track, changes nothing without a stream or a video track, and keeps "video enabled exactly when video is on" |
| VideoCall.MutedAcrossCalls | src/components/VideoCall.tsx:114-119 | hanging up while muted and then creating a call leaves the screen muted over an enabled microphone, so the mute flag and the track disagree |
| VideoCall.ScreenHandshake | src/components/VideoCall.tsx:61-112 | one screen creates a call and another, sharing the store, joins it by id; after the caller's record snapshot both screens are in the call, each connection's remote description is the other's local one, and the record holds both |
| Onboarding.CanProceed | src/components/OnboardingWizard.tsx:231-239 | Next is enabled only on one of the four steps: always on steps 0 and 2, on step 1 once a native language and a target are chosen, and on step 3 once the voice is tested |
| Onboarding.RemoveAll | src/components/OnboardingWizard.tsx:135 | removes every occurrence of the value and keeps every other value |
| Onboarding.RemoveAllAbsent | src/components/OnboardingWizard.tsx:135 | removing a value that is absent leaves the list as it was |
| Onboarding.RemoveAllAppended | src/components/OnboardingWizard.tsx:135-136 | removing a value just appended is the same as removing it from the list before the append |
| Onboarding.ToggleTarget | src/components/OnboardingWizard.tsx:131-137 | the clicked language is chosen afterwards exactly when it was not chosen before; every other language keeps its membership; a duplicate-free list stays duplicate-free |
| Onboarding.ToggleTwiceRestores | src/components/OnboardingWizard.tsx:131-137 | clicking an unselected language twice restores the original list |
| Onboarding.TargetChoices | src/components/OnboardingWizard.tsx:126 | the languages offered as targets are exactly the languages whose value differs from the native language |
| Onboarding.TargetChoicesSize | src/components/OnboardingWizard.tsx:126 | with distinct values, a native language from the list removes exactly one choice, and any other native value removes none |
| Onboarding.LanguagesDistinct | src/components/OnboardingWizard.tsx:37-40 | the twelve offered languages have pairwise different lower-case values |
| Onboarding.TargetCount | src/components/OnboardingWizard.tsx:126 | with the twelve languages, choosing one of them as native leaves eleven targets, and any other native value leaves twelve |
| Onboarding.StepDots | src/components/OnboardingWizard.tsx:254-259 | one dot per step; the lit dots always form a prefix of the row, and on any step the first dot is lit |
| Onboarding.LitPrefixCount | src/components/OnboardingWizard.tsx:254-259 | proof step of `LitDots`: a dot row lit exactly on its first k positions has k lit dots |
| Onboarding.LitDots | src/components/OnboardingWizard.tsx:254-259 | on step `currentStep`, exactly `currentStep + 1` dots are lit |
| Onboarding.Wizard.constructor | src/components/OnboardingWizard.tsx:29-35 | the wizard starts on step 0 with empty preferences |
| Onboarding.Wizard.Back | src/components/OnboardingWizard.tsx:273 | moves one step back, stays on step 0, and keeps the cursor on a step |
| Onboarding.Wizard.NextStep | src/components/OnboardingWizard.tsx:241-247 | moves one step forward when not on the last step; on the last step, reports completion and stays; the cursor stays on a step |
| Onboarding.Wizard.PressNext | src/components/OnboardingWizard.tsx:278-280 | a click does nothing while the step's condition fails and acts as `NextStep` otherwise; completion implies the voice was tested, and leaving step 1 implies a native language and a target were chosen |
| Onboarding.Wizard.SetNativeLanguage | src/components/OnboardingWizard.tsx:110 | sets the native language and keeps the other preferences |
| Onboarding.Wizard.ToggleTargetLanguage | src/components/OnboardingWizard.tsx:131-137 | replaces the targets by their toggle and keeps the other preferences |
| Onboarding.Wizard.FinishVoiceTest | src/components/OnboardingWizard.tsx:200 | marks the voice as tested and keeps the other preferences |
| Onboarding.NativeAmongTargets | src/components/OnboardingWizard.tsx:108-137 | targets chosen before the native language are kept when it changes, so the native language can also be a target and step 1 still lets the user through |

## Left out

- The document store and the peer connection are abstract state. Not modelled: Firestore's network and permission failures, ICE gathering, the STUN configuration (src/services/webrtc.ts:13-20), codecs and the connection's signaling-state checks beyond "closed" and "has a remote description".
- Asynchrony. Callbacks are sequential method calls, and no claim is made about concurrent snapshot deliveries. The un-awaited `addDoc` and `addIceCandidate` calls, and the un-awaited `setRemoteDescription` of the record-snapshot handler (src/services/webrtc.ts:79), are treated as completing on the spot. A candidate the connection rejects, because it is closed or has no remote description yet, is dropped (`OnCandidateSnapshot` applies nothing then), and an answer delivered to a closed connection leaves the remote description unset (`OnCallSnapshot`); only the unhandled promise rejections these raise in the browser are not modelled. A consequence the model keeps: on the caller's side, answer-side candidates delivered before the answer snapshot are lost, since the remote description is not set yet.
- `getUserMedia`, the clipboard handler (src/components/VideoCall.tsx:147-153) and the `srcObject` wiring (src/components/VideoCall.tsx:35-39, 44-46). These are device and DOM I/O: the capture is a parameter (`None` for a refused capture), and the rest is not modelled.
- The store-generated call id is a parameter, and ids are plain non-empty strings. An id containing `/` is not modelled: the store reads it as a path, which may name another document or be rejected.
- `Signaling.WebRTCService.OnTrack`: an event with no stream would throw in the source. The model leaves the state unchanged, which is what the throw leaves.
- `Signaling.WebRTCService.OnCallSnapshot` and `OnCandidateSnapshot`: they require an open subscription of the matching kind. Deliveries to a subscription that was never opened are not modelled.
- React's state batching and stale closures. Each handler reads the state as it was when the handler started and writes its updates in order.
- Toasts and `onCallEnd` are returned as `Effect` values: titles, descriptions and the destructive flag. The rest of the JSX, and the toasts inside the wizard's recording simulation, are not modelled.
- The wizard's `setTimeout` recording simulation (src/components/OnboardingWizard.tsx:194-206) is reduced to the moment it sets `voiceTested` (`FinishVoiceTest`). The `useCase` preference is never written by the wizard, so it only appears in the initial value.
- The cultural-tips content, the step subtitles and the other pages and components are presentational and are not modelled.
