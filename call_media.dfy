/** The media objects the client session holds: a stream's tracks, whose
    `enabled` flag and `stop()` the provider drives in place, and a peer
    connection's transceivers. Capture, encoding and negotiation are opaque. */
module CallMedia {

  datatype Kind = Audio | Video

  /** A MediaStreamTrack: its kind, its `enabled` flag, and whether `stop()`
      has ended it. */
  datatype Track = Track(kind: Kind, enabled: bool, ended: bool)

  /** A transceiver of the peer connection and whether `stop()` was called on it. */
  datatype Transceiver = Transceiver(kind: Kind, stopped: bool)

  /** `track.enabled = on` applied to every track of `kind`. */
  function WithEnabled(tracks: seq<Track>, kind: Kind, on: bool): (r: seq<Track>)
    ensures |r| == |tracks|
    ensures forall i | 0 <= i < |r| :: r[i].kind == tracks[i].kind && r[i].ended == tracks[i].ended
    ensures forall i | 0 <= i < |r| :: r[i].enabled == if tracks[i].kind == kind then on else tracks[i].enabled
    decreases |tracks|
  {
    if tracks == [] then []
    else
      var t := tracks[0];
      [if t.kind == kind then t.(enabled := on) else t] + WithEnabled(tracks[1..], kind, on)
  }

  /** Every track of `kind` has `enabled == on`. */
  predicate AllOfKind(tracks: seq<Track>, kind: Kind, on: bool) {
    forall i | 0 <= i < |tracks| && tracks[i].kind == kind :: tracks[i].enabled == on
  }

  /** Setting a kind's flag brings that kind in line with it and leaves the
      other kind as it was; only the last of two settings matters. */
  lemma {:induction false} WithEnabledLastWins(tracks: seq<Track>, kind: Kind, first: bool, second: bool)
    ensures AllOfKind(WithEnabled(tracks, kind, second), kind, second)
    ensures WithEnabled(WithEnabled(tracks, kind, first), kind, second) == WithEnabled(tracks, kind, second)
    decreases |tracks|
  {
    if tracks != [] {
      WithEnabledLastWins(tracks[1..], kind, first, second);
    }
  }

  /** `track.stop()` applied to every track. */
  function Ended(tracks: seq<Track>): (r: seq<Track>)
    ensures |r| == |tracks|
    ensures forall i | 0 <= i < |r| :: r[i] == tracks[i].(ended := true)
    decreases |tracks|
  {
    if tracks == [] then [] else [tracks[0].(ended := true)] + Ended(tracks[1..])
  }

  /** Stopping tracks twice is stopping them once. */
  lemma {:induction false} EndedIdempotent(tracks: seq<Track>)
    ensures Ended(Ended(tracks)) == Ended(tracks)
    decreases |tracks|
  {
    if tracks != [] {
      EndedIdempotent(tracks[1..]);
      assert Ended(tracks)[1..] == Ended(tracks[1..]);
    }
  }

  /** Changing `enabled` does not change what `addTrack` creates. */
  lemma {:induction false} WithEnabledKeepsSenders(tracks: seq<Track>, kind: Kind, on: bool)
    ensures SendersFor(WithEnabled(tracks, kind, on)) == SendersFor(tracks)
    decreases |tracks|
  {
    if tracks != [] {
      WithEnabledKeepsSenders(tracks[1..], kind, on);
    }
  }

  /** `transceiver.stop()` applied to every transceiver. */
  function Stopped(ts: seq<Transceiver>): (r: seq<Transceiver>)
    ensures |r| == |ts|
    ensures forall i | 0 <= i < |r| :: r[i] == Transceiver(ts[i].kind, true)
    decreases |ts|
  {
    if ts == [] then [] else [Transceiver(ts[0].kind, true)] + Stopped(ts[1..])
  }

  /** The transceivers `addTrack` creates, one per track in order. */
  function SendersFor(tracks: seq<Track>): (r: seq<Transceiver>)
    ensures |r| == |tracks|
    ensures forall i | 0 <= i < |r| :: r[i] == Transceiver(tracks[i].kind, false)
    decreases |tracks|
  {
    if tracks == [] then [] else [Transceiver(tracks[0].kind, false)] + SendersFor(tracks[1..])
  }

  class MediaStream {
    const tracks: array<Track>

    constructor (initial: seq<Track>)
      ensures fresh(tracks) && tracks[..] == initial
    {
      tracks := new Track[|initial|](i requires 0 <= i < |initial| => initial[i]);
    }

    /** `getTracks().forEach(track => track.stop())`. */
    method StopTracks()
      modifies tracks
      ensures tracks[..] == Ended(old(tracks[..]))
    {
      for i := 0 to tracks.Length
        invariant forall j | 0 <= j < i :: tracks[j] == old(tracks[j]).(ended := true)
        invariant forall j | i <= j < tracks.Length :: tracks[j] == old(tracks[j])
      {
        tracks[i] := tracks[i].(ended := true);
      }
    }

    /** `getAudioTracks()` (or `getVideoTracks()`) `.forEach(track => track.enabled = on)`. */
    method SetEnabled(kind: Kind, on: bool)
      modifies tracks
      ensures tracks[..] == WithEnabled(old(tracks[..]), kind, on)
    {
      for i := 0 to tracks.Length
        invariant forall j | 0 <= j < i :: tracks[j] == if old(tracks[j]).kind == kind then old(tracks[j]).(enabled := on) else old(tracks[j])
        invariant forall j | i <= j < tracks.Length :: tracks[j] == old(tracks[j])
      {
        if tracks[i].kind == kind {
          tracks[i] := tracks[i].(enabled := on);
        }
      }
    }
  }

  class PeerConnection {
    var transceivers: seq<Transceiver>
    var closed: bool

    /** `new RTCPeerConnection(...)`: no transceivers yet, open. */
    constructor ()
      ensures transceivers == [] && !closed
    {
      transceivers, closed := [], false;
    }

    /** `stream.getTracks().forEach(track => pc.addTrack(track, stream))`. */
    method AddTracks(tracks: array<Track>)
      modifies this
      ensures transceivers == old(transceivers) + SendersFor(tracks[..])
      ensures closed == old(closed)
    {
      for i := 0 to tracks.Length
        invariant transceivers == old(transceivers) + SendersFor(tracks[..i])
        invariant closed == old(closed)
      {
        transceivers := transceivers + [Transceiver(tracks[i].kind, false)];
      }
    }

    /** `getTransceivers().forEach(t => t.stop())`. */
    method StopTransceivers()
      modifies this
      ensures transceivers == Stopped(old(transceivers))
      ensures closed == old(closed)
    {
      var i := 0;
      while i < |transceivers|
        invariant 0 <= i <= |transceivers| == |old(transceivers)|
        invariant forall j | 0 <= j < i :: transceivers[j] == Transceiver(old(transceivers)[j].kind, true)
        invariant forall j | i <= j < |transceivers| :: transceivers[j] == old(transceivers)[j]
        invariant closed == old(closed)
      {
        transceivers := transceivers[i := Transceiver(transceivers[i].kind, true)];
        i := i + 1;
      }
    }

    method Close()
      modifies this
      ensures closed && transceivers == old(transceivers)
    {
      closed := true;
    }
  }
}
