/** The client's call-session bookkeeping: the refs and React state the
    provider keeps, the two persisted storage keys, and one method per
    handler. Calls into WebRTC, CallKeep, the socket and navigation are
    appended to an effect log; results of foreign calls (captured media,
    generated offers and answers) are parameters. */
module CallSession {
  import opened JsValues
  import opened CallMedia

  /** A session description or other `rtcMessage` body, never inspected here. */
  type Sdp = string

  /** The three candidate fields the client forwards. */
  datatype Candidate = Candidate(candidate: string, sdpMid: Option<string>, sdpMLineIndex: Option<int>)

  datatype Screen = Home | Receiving | InCall

  datatype Effect =
    | GetUserMedia(video: bool)
    | CreateOffer
    | CreateAnswer
    | SetLocalDescription(sdp: Sdp)
    | SetRemoteDescription(remote: Option<Sdp>)
    | AddIceCandidate(remoteCandidate: Candidate)
    | EmitCall(calleeId: Option<string>, offer: Sdp, roomId: string)
    | EmitAnswerCall(callerId: Option<string>, answer: Sdp, roomId: string)
    | EmitIceCandidate(peerId: Option<string>, localCandidate: Candidate)
    | EmitEndCall(otherId: Option<string>, endedRoom: Option<string>)
    | CallKeepDisplay(callUUID: string, callerLabel: string)
    | CallKeepEnd(endedUUID: string)
    | CallKeepBackToForeground
    | Navigate(screen: Screen, otherIdParam: Option<string>)
    | SwitchCamera(track: nat)

  /** The payload of a `newCall` event. */
  datatype NewCallData = NewCallData(callerId: Option<string>, roomId: string, rtcMessage: Option<Sdp>)

  /** The session's fields other than the two streams, the peer connection
      and the effect log. */
  datatype Fields = Fields(
    appState: string,
    myId: string,
    otherUserId: Option<string>,
    remoteRTCMessage: Option<Sdp>,
    localMicOn: bool,
    localWebcamOn: bool,
    pendingCall: Option<string>,
    storedMyId: Option<string>,
    listenersSee: MediaStream?)

  /** What `leave(isSocket, roomId)` asks of the outside world, in order:
      the `endCall` emit, the CallKeep end, the navigation home. */
  function LeaveEffects(isSocket: bool, roomId: Option<string>, otherUserId: Option<string>): (r: seq<Effect>)
    ensures EmitEndCall(otherUserId, roomId) in r <==> !isSocket
    ensures forall e | e in r && e.EmitEndCall? :: e == EmitEndCall(otherUserId, roomId)
    ensures (exists e | e in r :: e.CallKeepEnd?) <==> Truthy(roomId)
    ensures forall e | e in r && e.CallKeepEnd? :: Truthy(roomId) && e.endedUUID == roomId.value
    ensures |r| > 0 && r[|r| - 1] == Navigate(Home, None)
    ensures |r| == (if isSocket then 0 else 1) + (if Truthy(roomId) then 1 else 0) + 1
    ensures forall e | e in r :: e.EmitEndCall? || e.CallKeepEnd? || e == Navigate(Home, None)
    ensures !isSocket ==> r[0] == EmitEndCall(otherUserId, roomId)
  {
    var ending := if Truthy(roomId) then [CallKeepEnd(roomId.value)] else [];
    var r := (if isSocket then [] else [EmitEndCall(otherUserId, roomId)]) + ending + [Navigate(Home, None)];
    assert Truthy(roomId) ==> r[|r| - 2] == CallKeepEnd(roomId.value);
    r
  }

  /** `localStream.getVideoTracks().forEach(track => track._switchCamera())`:
      one camera switch per video track, in track order. */
  function CameraSwitches(tracks: seq<Track>): (r: seq<Effect>)
    ensures |r| <= |tracks|
    ensures forall e | e in r :: e.SwitchCamera? && e.track < |tracks| && tracks[e.track].kind == Video
    ensures forall j | 0 <= j < |tracks| && tracks[j].kind == Video :: SwitchCamera(j) in r
    ensures forall a, b | 0 <= a < b < |r| :: r[a].track < r[b].track
    decreases |tracks|
  {
    if tracks == [] then []
    else
      var n := |tracks| - 1;
      CameraSwitches(tracks[..n]) + (if tracks[n].kind == Video then [SwitchCamera(n)] else [])
  }

  /** `data.callerId || 'Unknown Caller'`. */
  function CallerLabel(callerId: Option<string>): string {
    if Truthy(callerId) then callerId.value else "Unknown Caller"
  }

  class Session {
    var appState: string
    var localStream: MediaStream?
    var remoteStream: MediaStream?
    var myId: string
    var otherUserId: Option<string>
    var peerConnection: PeerConnection?
    var remoteRTCMessage: Option<Sdp>
    var localMicOn: bool
    var localWebcamOn: bool
    /** The persisted storage keys `pendingCall` and `myId`. */
    var pendingCall: Option<string>
    var storedMyId: Option<string>
    var effects: seq<Effect>
    /** The `localStream` seen by the socket listeners, which are registered
        again only when `myId` changes: the value at that render. */
    var listenersSee: MediaStream?

    function Record(): Fields
      reads this
    {
      Fields(appState, myId, otherUserId, remoteRTCMessage, localMicOn, localWebcamOn, pendingCall, storedMyId, listenersSee)
    }

    /** The objects a teardown touches: the tracks of the stream its closure
        sees, and the peer connection. */
    function Touched(seen: MediaStream?): set<object>
      reads this
    {
      (if seen == null then {} else {seen.tracks})
      + (if peerConnection == null then {} else {peerConnection})
    }

    /** The mic indicator tells the truth: every local audio track is enabled
        exactly when `localMicOn` says so. */
    ghost predicate MicInSync()
      reads this, if localStream == null then {} else {localStream.tracks}
    {
      localStream != null ==> AllOfKind(localStream.tracks[..], Audio, localMicOn)
    }

    /** A provider mounted with the given app state and stored keys. */
    constructor (initialAppState: string, storedPending: Option<string>, storedId: Option<string>)
      ensures localStream == null && remoteStream == null && peerConnection == null
      ensures Record() == Fields(initialAppState, "", None, None, true, true, storedPending, storedId, null)
      ensures effects == []
    {
      listenersSee := null;
      appState, myId, otherUserId, remoteRTCMessage := initialAppState, "", None, None;
      localStream, remoteStream, peerConnection := null, null, null;
      localMicOn, localWebcamOn := true, true;
      pendingCall, storedMyId := storedPending, storedId;
      effects := [];
    }

    /** The `myId` effect: a stored truthy id is adopted, otherwise the current
        id is stored. Either way the stored key and `myId` agree afterwards. */
    method SyncMyId()
      modifies this
      ensures storedMyId == Some(myId)
      ensures Truthy(old(storedMyId)) ==> myId == old(storedMyId).value
      ensures !Truthy(old(storedMyId)) ==> myId == old(myId)
      ensures Record() == old(Record()).(myId := myId, storedMyId := storedMyId, listenersSee := listenersSee)
      ensures listenersSee == if myId != old(myId) then localStream else old(listenersSee)
      ensures localStream == old(localStream) && remoteStream == old(remoteStream)
      ensures peerConnection == old(peerConnection) && effects == old(effects)
    {
      if !Truthy(storedMyId) {
        storedMyId := Some(myId);
      } else {
        if myId != storedMyId.value {
          // the socket effect depends on `myId`: it reconnects and registers
          // its listeners again, closing over the current render
          listenersSee := localStream;
        }
        myId := storedMyId.value;
      }
    }

    /** The `AppState` change listener. */
    method AppStateChanged(next: string)
      modifies this
      ensures Record() == old(Record()).(appState := next)
      ensures localStream == old(localStream) && remoteStream == old(remoteStream)
      ensures peerConnection == old(peerConnection) && effects == old(effects)
    {
      appState := next;
    }

    /** `setOtherUserId`, used by the calling screen before `processCall`. */
    method SetOtherUserId(id: string)
      modifies this
      ensures Record() == old(Record()).(otherUserId := Some(id))
      ensures localStream == old(localStream) && remoteStream == old(remoteStream)
      ensures peerConnection == old(peerConnection) && effects == old(effects)
    {
      otherUserId := Some(id);
    }

    /** The media half of `leave`: stop the tracks of the stream its closure
        sees and every transceiver, close the peer connection, and drop it and
        both streams. With no stream or peer connection there is nothing to stop. */
    method ReleaseMedia(seen: MediaStream?)
      modifies this, Touched(seen)
      ensures peerConnection == null && localStream == null && remoteStream == null
      ensures Record() == old(Record()) && effects == old(effects)
      ensures seen != null ==> seen.tracks[..] == Ended(old(seen.tracks[..]))
      ensures old(peerConnection) != null ==>
                old(peerConnection).closed && old(peerConnection).transceivers == Stopped(old(peerConnection.transceivers))
    {
      var pc := peerConnection;
      if seen != null {
        seen.StopTracks();
      }
      if pc != null {
        pc.StopTransceivers();
        pc.Close();
      }
      peerConnection, localStream, remoteStream := null, null, null;
    }

    /** `leave(isSocket, roomId)`, where `seen` is the `localStream` of the
        render whose `leave` is called (the current one, for the screens):
        stop its tracks and every transceiver, close and drop the peer
        connection, clear both streams and the other party; emit `endCall`
        unless the end came from the socket, end the CallKeep call when a room
        id is given, go home. Safe from any state, and as often as called. */
    method Leave(isSocket: bool, roomId: Option<string>, seen: MediaStream?)
      modifies this, Touched(seen)
      ensures peerConnection == null && localStream == null && remoteStream == null
      ensures Record() == old(Record()).(otherUserId := None)
      ensures effects == old(effects) + LeaveEffects(isSocket, roomId, old(otherUserId))
      ensures seen != null ==> seen.tracks[..] == Ended(old(seen.tracks[..]))
      ensures old(peerConnection) != null ==>
                old(peerConnection).closed && old(peerConnection).transceivers == Stopped(old(peerConnection.transceivers))
    {
      ReleaseMedia(seen);
      var asked: seq<Effect> := [];
      if !isSocket {
        asked := asked + [EmitEndCall(otherUserId, roomId)];
      }
      otherUserId := None;
      if Truthy(roomId) {
        asked := asked + [CallKeepEnd(roomId.value)];
      }
      asked := asked + [Navigate(Home, None)];
      effects := effects + asked;
    }

    /** The socket's `callEnded` handler as written: `leave(true)`, so a call
        ended remotely is never echoed back as another `endCall`. Its `leave`
        is the one of the render that registered the listener, so the tracks
        it stops are those of `listenersSee`, not of the current stream. */
    method CallEnded()
      modifies this, Touched(listenersSee)
      ensures peerConnection == null && localStream == null && remoteStream == null
      ensures Record() == old(Record()).(otherUserId := None)
      ensures effects == old(effects) + LeaveEffects(true, None, old(otherUserId))
      ensures forall e | e in effects[|old(effects)|..] :: !e.EmitEndCall? && !e.CallKeepEnd?
      ensures old(listenersSee) != null ==> old(listenersSee).tracks[..] == Ended(old(listenersSee.tracks[..]))
      ensures old(peerConnection) != null ==>
                old(peerConnection).closed && old(peerConnection).transceivers == Stopped(old(peerConnection.transceivers))
    {
      Leave(true, None, listenersSee);
    }

    /** `callEnded` releasing the current local stream, as teardown intends. */
    method CallEndedReleasingCurrent()
      modifies this, Touched(localStream)
      ensures peerConnection == null && localStream == null && remoteStream == null
      ensures Record() == old(Record()).(otherUserId := None)
      ensures effects == old(effects) + LeaveEffects(true, None, old(otherUserId))
      ensures old(localStream) != null ==> old(localStream).tracks[..] == Ended(old(localStream.tracks[..]))
      ensures old(peerConnection) != null ==>
                old(peerConnection).closed && old(peerConnection).transceivers == Stopped(old(peerConnection.transceivers))
    {
      Leave(true, None, localStream);
    }

    /** CallKeep's `endCall` listener as written: `leave()` of the first render,
        which sees no local stream. It emits `endCall` with no room id, leaves
        the CallKeep call alone, and stops no track. */
    method CallKeepEndCall(callUUID: string)
      modifies this, Touched(null)
      ensures peerConnection == null && localStream == null && remoteStream == null
      ensures Record() == old(Record()).(otherUserId := None)
      ensures effects == old(effects) + [EmitEndCall(old(otherUserId), None), Navigate(Home, None)]
      ensures old(peerConnection) != null ==>
                old(peerConnection).closed && old(peerConnection).transceivers == Stopped(old(peerConnection.transceivers))
    {
      Leave(false, None, null);
    }

    /** CallKeep's `endCall` releasing the current local stream. */
    method CallKeepEndCallReleasingCurrent(callUUID: string)
      modifies this, Touched(localStream)
      ensures peerConnection == null && localStream == null && remoteStream == null
      ensures Record() == old(Record()).(otherUserId := None)
      ensures effects == old(effects) + [EmitEndCall(old(otherUserId), None), Navigate(Home, None)]
      ensures old(localStream) != null ==> old(localStream).tracks[..] == Ended(old(localStream.tracks[..]))
      ensures old(peerConnection) != null ==>
                old(peerConnection).closed && old(peerConnection).transceivers == Stopped(old(peerConnection.transceivers))
    {
      Leave(false, None, localStream);
    }

    /** `initializePeerConnection`, run only when there is no peer connection. */
    method EnsurePeerConnection()
      modifies this
      ensures old(peerConnection) != null ==> peerConnection == old(peerConnection)
      ensures old(peerConnection) == null ==> fresh(peerConnection) && peerConnection.transceivers == [] && !peerConnection.closed
      ensures peerConnection != null
      ensures Record() == old(Record()) && effects == old(effects)
      ensures localStream == old(localStream) && remoteStream == old(remoteStream)
    {
      if peerConnection == null {
        peerConnection := new PeerConnection();
      }
    }

    /** `setupMediaStream` as written: ask for audio, and for video when the
        camera flag its closure sees (`video`) is on; on success the stream
        becomes the local stream and each track is added to the peer
        connection; a failure is swallowed. The mic flag is not applied to
        the new tracks. */
    method SetupMediaStream(media: Option<seq<Track>>, video: bool)
      modifies this, peerConnection
      ensures peerConnection == old(peerConnection)
      ensures media.Some? ==> fresh(localStream) && fresh(localStream.tracks) && localStream.tracks[..] == media.value
      ensures media.None? ==> localStream == old(localStream)
      ensures peerConnection != null ==> peerConnection.closed == old(peerConnection.closed)
      ensures peerConnection != null ==>
                peerConnection.transceivers == old(peerConnection.transceivers) + (if media.Some? then SendersFor(media.value) else [])
      ensures Record() == old(Record()) && remoteStream == old(remoteStream)
      ensures effects == old(effects) + [GetUserMedia(video)]
    {
      effects := effects + [GetUserMedia(video)];
      if media.Some? {
        var stream := new MediaStream(media.value);
        localStream := stream;
        if peerConnection != null {
          peerConnection.AddTracks(stream.tracks);
        }
      }
    }

    /** `setupMediaStream` with the mic flag applied to the captured audio
        tracks, so the indicator and the tracks agree. */
    method SetupMediaStreamInSync(media: Option<seq<Track>>, video: bool)
      requires MicInSync()
      modifies this, peerConnection
      ensures MicInSync()
      ensures peerConnection == old(peerConnection)
      ensures media.Some? ==> fresh(localStream) && fresh(localStream.tracks) && localStream.tracks[..] == WithEnabled(media.value, Audio, localMicOn)
      ensures media.None? ==> localStream == old(localStream)
      ensures peerConnection != null ==> peerConnection.closed == old(peerConnection.closed)
      ensures peerConnection != null ==>
                peerConnection.transceivers == old(peerConnection.transceivers) + (if media.Some? then SendersFor(media.value) else [])
      ensures Record() == old(Record()) && remoteStream == old(remoteStream)
      ensures effects == old(effects) + [GetUserMedia(video)]
    {
      effects := effects + [GetUserMedia(video)];
      if media.Some? {
        var stream := new MediaStream(media.value);
        stream.SetEnabled(Audio, localMicOn);
        WithEnabledLastWins(media.value, Audio, localMicOn, localMicOn);
        localStream := stream;
        if peerConnection != null {
          assert SendersFor(stream.tracks[..]) == SendersFor(media.value) by {
            WithEnabledKeepsSenders(media.value, Audio, localMicOn);
          }
          peerConnection.AddTracks(stream.tracks);
        }
      }
    }

    /** `processCall(roomId)`: create the peer connection if there is none,
        capture media, create and set the offer, emit `call` to the other user. */
    method ProcessCall(roomId: string, media: Option<seq<Track>>, offer: Sdp)
      modifies this, peerConnection
      ensures old(peerConnection) != null ==> peerConnection == old(peerConnection)
      ensures old(peerConnection) == null ==> fresh(peerConnection)
      ensures peerConnection != null
      ensures peerConnection.transceivers ==
                (if old(peerConnection) == null then [] else old(peerConnection.transceivers))
                + (if media.Some? then SendersFor(media.value) else [])
      ensures media.Some? ==> fresh(localStream) && fresh(localStream.tracks) && localStream.tracks[..] == media.value
      ensures media.None? ==> localStream == old(localStream)
      ensures Record() == old(Record()) && remoteStream == old(remoteStream)
      ensures old(peerConnection) == null ==> !peerConnection.closed
      ensures old(peerConnection) != null ==> peerConnection.closed == old(peerConnection.closed)
      ensures effects == old(effects) +
                [GetUserMedia(localWebcamOn), CreateOffer, SetLocalDescription(offer), EmitCall(otherUserId, offer, roomId)]
    {
      EnsurePeerConnection();
      SetupMediaStream(media, localWebcamOn);
      effects := effects + [CreateOffer, SetLocalDescription(offer), EmitCall(otherUserId, offer, roomId)];
    }

    /** `processAccept(roomId)`: create the peer connection if there is none,
        capture media (with video when the camera flag its closure sees is
        on), apply the buffered remote offer, create and set the answer, emit
        `answerCall` to the caller, open the in-call screen. */
    method ProcessAccept(roomId: string, media: Option<seq<Track>>, answer: Sdp, video: bool)
      modifies this, peerConnection
      ensures old(peerConnection) != null ==> peerConnection == old(peerConnection)
      ensures old(peerConnection) == null ==> fresh(peerConnection)
      ensures peerConnection != null
      ensures peerConnection.transceivers ==
                (if old(peerConnection) == null then [] else old(peerConnection.transceivers))
                + (if media.Some? then SendersFor(media.value) else [])
      ensures media.Some? ==> fresh(localStream) && fresh(localStream.tracks) && localStream.tracks[..] == media.value
      ensures media.None? ==> localStream == old(localStream)
      ensures Record() == old(Record()) && remoteStream == old(remoteStream)
      ensures old(peerConnection) == null ==> !peerConnection.closed
      ensures old(peerConnection) != null ==> peerConnection.closed == old(peerConnection.closed)
      ensures effects == old(effects) +
                [GetUserMedia(video), SetRemoteDescription(remoteRTCMessage), CreateAnswer,
                 SetLocalDescription(answer), EmitAnswerCall(otherUserId, answer, roomId), Navigate(InCall, Some(roomId))]
    {
      EnsurePeerConnection();
      SetupMediaStream(media, video);
      effects := effects + [SetRemoteDescription(remoteRTCMessage), CreateAnswer, SetLocalDescription(answer),
                            EmitAnswerCall(otherUserId, answer, roomId), Navigate(InCall, Some(roomId))];
    }

    /** CallKeep's `answerCall` listener: only the call recorded as pending is
        accepted, after which the pending key is cleared; any other id is
        ignored. The listener is registered at mount, so its `processAccept`
        sees the camera flag's initial value, on. */
    method AnswerCall(callUUID: string, media: Option<seq<Track>>, answer: Sdp)
      modifies this, peerConnection
      ensures pendingCall != old(pendingCall) <==> old(pendingCall) == Some(callUUID)
      ensures old(pendingCall) == Some(callUUID) ==>
                && pendingCall == None
                && Record() == old(Record()).(pendingCall := None)
                && peerConnection != null
                && (old(peerConnection) != null ==> peerConnection == old(peerConnection))
                && effects == old(effects) +
                     [GetUserMedia(true), SetRemoteDescription(remoteRTCMessage), CreateAnswer,
                      SetLocalDescription(answer), EmitAnswerCall(otherUserId, answer, callUUID),
                      Navigate(InCall, Some(callUUID)), CallKeepBackToForeground]
      ensures old(pendingCall) == Some(callUUID) ==>
                && peerConnection.transceivers ==
                     (if old(peerConnection) == null then [] else old(peerConnection.transceivers))
                     + (if media.Some? then SendersFor(media.value) else [])
                && (media.Some? ==> fresh(localStream) && fresh(localStream.tracks) && localStream.tracks[..] == media.value)
                && (media.None? ==> localStream == old(localStream))
                && (old(peerConnection) == null ==> !peerConnection.closed)
                && (old(peerConnection) != null ==> peerConnection.closed == old(peerConnection.closed))
      ensures old(pendingCall) != Some(callUUID) ==>
                && Record() == old(Record()) && effects == old(effects)
                && peerConnection == old(peerConnection) && localStream == old(localStream)
      ensures old(pendingCall) != Some(callUUID) && peerConnection != null ==>
                && peerConnection.transceivers == old(peerConnection.transceivers)
                && peerConnection.closed == old(peerConnection.closed)
      ensures remoteStream == old(remoteStream)
    {
      if pendingCall == Some(callUUID) {
        ProcessAccept(callUUID, media, answer, true);
        effects := effects + [CallKeepBackToForeground];
        pendingCall := None;
      }
    }

    /** The socket's `newCall` handler: buffer the offer and the caller,
        persist the room id as the pending call, then ring through CallKeep
        when the app is not active, or open the receiving screen when it is. */
    method NewCall(data: NewCallData)
      modifies this
      ensures Record() == old(Record()).(remoteRTCMessage := data.rtcMessage, otherUserId := data.callerId,
                                          pendingCall := Some(data.roomId))
      ensures appState != "active" ==> effects == old(effects) + [CallKeepDisplay(data.roomId, CallerLabel(data.callerId))]
      ensures appState == "active" ==> effects == old(effects) + [Navigate(Receiving, data.callerId)]
      ensures localStream == old(localStream) && remoteStream == old(remoteStream)
      ensures peerConnection == old(peerConnection)
    {
      remoteRTCMessage := data.rtcMessage;
      otherUserId := data.callerId;
      pendingCall := Some(data.roomId);
      if appState != "active" {
        effects := effects + [CallKeepDisplay(data.roomId, CallerLabel(data.callerId))];
      } else {
        effects := effects + [Navigate(Receiving, data.callerId)];
      }
    }

    /** The socket's `callAnswered` handler: buffer the answer, apply it when
        there is a peer connection, open the in-call screen. */
    method CallAnswered(rtcMessage: Option<Sdp>)
      modifies this
      ensures Record() == old(Record()).(remoteRTCMessage := rtcMessage)
      ensures peerConnection != null ==>
                effects == old(effects) + [SetRemoteDescription(rtcMessage), Navigate(InCall, None)]
      ensures peerConnection == null ==> effects == old(effects) + [Navigate(InCall, None)]
      ensures localStream == old(localStream) && remoteStream == old(remoteStream)
      ensures peerConnection == old(peerConnection)
    {
      remoteRTCMessage := rtcMessage;
      if peerConnection != null {
        effects := effects + [SetRemoteDescription(rtcMessage)];
      }
      effects := effects + [Navigate(InCall, None)];
    }

    /** The socket's `ICEcandidate` handler: a remote candidate is applied only
        when there is a peer connection; otherwise it is dropped. */
    method RemoteIceCandidate(rtcMessage: Candidate)
      modifies this
      ensures peerConnection != null ==> effects == old(effects) + [AddIceCandidate(rtcMessage)]
      ensures peerConnection == null ==> effects == old(effects)
      ensures Record() == old(Record()) && peerConnection == old(peerConnection)
      ensures localStream == old(localStream) && remoteStream == old(remoteStream)
    {
      if peerConnection != null {
        effects := effects + [AddIceCandidate(rtcMessage)];
      }
    }

    /** The peer connection's `onicecandidate`: a discovered candidate goes to
        the other user; the end-of-candidates event (no candidate) sends nothing. */
    method OnIceCandidate(candidate: Option<Candidate>)
      modifies this
      ensures candidate.Some? ==> effects == old(effects) + [EmitIceCandidate(otherUserId, candidate.value)]
      ensures candidate.None? ==> effects == old(effects)
      ensures Record() == old(Record()) && peerConnection == old(peerConnection)
      ensures localStream == old(localStream) && remoteStream == old(remoteStream)
    {
      if candidate.Some? {
        effects := effects + [EmitIceCandidate(otherUserId, candidate.value)];
      }
    }

    /** The peer connection's `ontrack`: the first stream of the event becomes the remote stream. */
    method OnTrack(stream: MediaStream?)
      modifies this
      ensures remoteStream == stream
      ensures Record() == old(Record()) && effects == old(effects)
      ensures peerConnection == old(peerConnection) && localStream == old(localStream)
    {
      remoteStream := stream;
    }

    /** `toggleMic`: with no local stream nothing happens; otherwise the flag
        flips and every audio track takes its new value. */
    method ToggleMic()
      modifies this, if localStream == null then {} else {localStream.tracks}
      ensures localStream == old(localStream) && remoteStream == old(remoteStream)
      ensures old(localStream) == null ==> Record() == old(Record())
      ensures localStream != null ==>
                && Record() == old(Record()).(localMicOn := !old(localMicOn))
                && localStream.tracks[..] == WithEnabled(old(localStream.tracks[..]), Audio, localMicOn)
                && MicInSync()
      ensures peerConnection == old(peerConnection) && effects == old(effects)
    {
      if localStream != null {
        localMicOn := !localMicOn;
        localStream.SetEnabled(Audio, localMicOn);
        WithEnabledLastWins(old(localStream.tracks[..]), Audio, localMicOn, localMicOn);
      }
    }

    /** `toggleCamera`: the same for the camera flag and the video tracks. */
    method ToggleCamera()
      modifies this, if localStream == null then {} else {localStream.tracks}
      ensures localStream == old(localStream) && remoteStream == old(remoteStream)
      ensures old(localStream) == null ==> Record() == old(Record())
      ensures localStream != null ==>
                && Record() == old(Record()).(localWebcamOn := !old(localWebcamOn))
                && localStream.tracks[..] == WithEnabled(old(localStream.tracks[..]), Video, localWebcamOn)
                && AllOfKind(localStream.tracks[..], Video, localWebcamOn)
      ensures peerConnection == old(peerConnection) && effects == old(effects)
    {
      if localStream != null {
        localWebcamOn := !localWebcamOn;
        localStream.SetEnabled(Video, localWebcamOn);
        WithEnabledLastWins(old(localStream.tracks[..]), Video, localWebcamOn, localWebcamOn);
      }
    }

    /** `switchCamera`: one camera switch per video track of the local stream. */
    method SwitchCameraTracks()
      modifies this
      ensures localStream != null ==> effects == old(effects) + CameraSwitches(localStream.tracks[..])
      ensures localStream == null ==> effects == old(effects)
      ensures Record() == old(Record()) && peerConnection == old(peerConnection)
      ensures localStream == old(localStream) && remoteStream == old(remoteStream)
    {
      if localStream != null {
        var tracks := localStream.tracks;
        var switches := [];
        for i := 0 to tracks.Length
          invariant switches == CameraSwitches(tracks[..i])
        {
          assert tracks[..i + 1][..i] == tracks[..i];
          if tracks[i].kind == Video {
            switches := switches + [SwitchCamera(i)];
          }
        }
        assert tracks[..tracks.Length] == tracks[..];
        effects := effects + switches;
      }
    }
  }

  /** A mic muted during one call is still shown as muted in the next, while
      the audio track captured for that call is live. */
  method MutedMicReturnsLive()
  {
    var s := new Session("active", None, None);
    s.ProcessCall("r1", Some([Track(Audio, true, false)]), "offer-1");
    s.ToggleMic();
    assert !s.localMicOn && s.MicInSync();
    s.Leave(false, Some("r1"), s.localStream);
    s.ProcessCall("r2", Some([Track(Audio, true, false)]), "offer-2");
    assert !s.localMicOn && s.localStream.tracks[0] == Track(Audio, true, false);
    assert !s.MicInSync();
  }

  /** Teardown from a session that never started a call, and a second
      teardown after it, both complete and leave nothing behind. */
  method LeaveIsIdempotent()
  {
    var s := new Session("active", None, None);
    s.Leave(false, None, s.localStream);
    s.Leave(true, None, s.localStream);
    assert s.localStream == null && s.remoteStream == null && s.peerConnection == null;
    assert s.effects == [EmitEndCall(None, None), Navigate(Home, None), Navigate(Home, None)];
  }

  /** A call ended by the other side drops the local stream without stopping
      its camera track: the listener's `leave` sees the stream of the render
      that registered it. Releasing the current stream ends the track. */
  method RemoteHangUpLeavesTrackLive()
  {
    var s := new Session("active", None, None);
    s.ProcessCall("r1", Some([Track(Video, true, false)]), "offer-1");
    var stream := s.localStream;
    s.CallEnded();
    assert s.localStream == null && stream.tracks[0] == Track(Video, true, false);

    var t := new Session("active", None, None);
    t.ProcessCall("r1", Some([Track(Video, true, false)]), "offer-1");
    stream := t.localStream;
    t.CallEndedReleasingCurrent();
    assert t.localStream == null && stream.tracks[0] == Track(Video, true, true);
  }

  /** Nothing in the provider generates an identifier: a fresh install
      stores the empty string as its id and keeps it. */
  method FreshInstallKeepsEmptyId()
  {
    var s := new Session("active", None, None);
    s.SyncMyId();
    assert s.myId == "" && s.storedMyId == Some("");
    s.SyncMyId();
    assert s.myId == "" && s.storedMyId == Some("");
  }
}
