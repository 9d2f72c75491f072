/** `VideoSession`'s local state: the elapsed-time counter and its `mm:ss` display, the
    microphone/camera toggles and the recording flag; and the admin dashboard's access rule.
    The WebRTC connection itself is not part of this model; a media track is an object whose
    `enabled` flag the toggles flip in place. */
module VideoSession {
  import opened Common
  import opened Strings
  import opened AppContexts

  /** A string of decimal digits. */
  predicate AllDigits(s: string) {
    forall i :: 0 <= i < |s| ==> IsDigit(s[i])
  }

  /** `n.toString().padStart(2, '0')`. */
  function Pad2(n: nat): (r: string)
    ensures |r| >= 2 && AllDigits(r)
    ensures n < 10 ==> |r| == 2
  {
    PadStart(NatToString(n), 2, '0')
  }

  /** Left-padding with zeros does not change the value. */
  lemma Pad2Value(n: nat)
    ensures ParseNat(Pad2(n)) == n
  {
    var s := NatToString(n);
    ParseNatToString(n);
    if |s| < 2 {
      assert Pad2(n) == Zeros(2 - |s|) + s;
      ParseNatLeadingZeros(2 - |s|, s);
    }
  }

  /** `formatDuration(seconds)`: minutes, padded to at least two digits, a colon, and the
      seconds within the minute, padded to exactly two. */
  function FormatDuration(seconds: nat): (r: string)
    ensures |r| >= 5 && r[|r| - 3] == ':'
    ensures AllDigits(r[..|r| - 3]) && AllDigits(r[|r| - 2..])
    ensures |r| - 3 == Max(2, |NatToString(seconds / 60)|)
  {
    Pad2(seconds / 60) + ":" + Pad2(seconds % 60)
  }

  /** The field before the colon reads back as the whole minutes, the field after it as the
      seconds within the minute; so the display loses nothing. */
  lemma FormatDurationRoundTrip(seconds: nat)
    ensures var r := FormatDuration(seconds);
      ParseNat(r[..|r| - 3]) == seconds / 60 && ParseNat(r[|r| - 2..]) == seconds % 60
    ensures var r := FormatDuration(seconds);
      ParseNat(r[..|r| - 3]) * 60 + ParseNat(r[|r| - 2..]) == seconds
  {
    var m := Pad2(seconds / 60);
    var s := Pad2(seconds % 60);
    var r := m + ":" + s;
    assert |s| == 2;
    assert r[..|r| - 3] == m;
    assert r[|r| - 2..] == s;
    Pad2Value(seconds / 60);
    Pad2Value(seconds % 60);
  }

  /** Minutes are not capped at two digits. */
  lemma FormatDurationExamples()
    ensures FormatDuration(0) == "00:00"
    ensures FormatDuration(65) == "01:05"
    ensures FormatDuration(6000) == "100:00"
  {
    assert NatToString(100) == NatToString(10) + ['0'];
  }

  /** A `MediaStreamTrack`, of which only `enabled` matters here. */
  class MediaTrack {
    var enabled: bool

    constructor (enabled: bool)
      ensures this.enabled == enabled
    {
      this.enabled := enabled;
    }
  }

  /** `localStream.current`: its audio tracks and its video tracks. */
  datatype MediaStream = MediaStream(audio: seq<MediaTrack>, video: seq<MediaTrack>)

  /** The component's refs and state cells. */
  class Session {
    var localStream: Option<MediaStream>
    var isAudioEnabled: bool
    var isVideoEnabled: bool
    var isRecording: bool
    var sessionDuration: nat

    /** Both devices on, not recording, no time elapsed, no stream yet. */
    constructor ()
      ensures localStream.None? && isAudioEnabled && isVideoEnabled && !isRecording && sessionDuration == 0
    {
      localStream := None;
      isAudioEnabled := true;
      isVideoEnabled := true;
      isRecording := false;
      sessionDuration := 0;
    }

    /** The first audio track, when there is a stream with one. */
    function AudioTrack(): Option<MediaTrack>
      reads this
    {
      if localStream.Some? && |localStream.value.audio| > 0 then Some(localStream.value.audio[0]) else None
    }

    /** The first video track, when there is a stream with one. */
    function VideoTrack(): Option<MediaTrack>
      reads this
    {
      if localStream.Some? && |localStream.value.video| > 0 then Some(localStream.value.video[0]) else None
    }

    /** `getUserMedia` resolved: the stream is kept. */
    method AttachStream(stream: MediaStream)
      modifies this
      ensures localStream == Some(stream)
      ensures isAudioEnabled == old(isAudioEnabled) && isVideoEnabled == old(isVideoEnabled)
      ensures isRecording == old(isRecording) && sessionDuration == old(sessionDuration)
    {
      localStream := Some(stream);
    }

    /** One tick of the one-second interval. */
    method Tick()
      modifies this
      ensures sessionDuration == old(sessionDuration) + 1
      ensures localStream == old(localStream) && isAudioEnabled == old(isAudioEnabled)
      ensures isVideoEnabled == old(isVideoEnabled) && isRecording == old(isRecording)
    {
      sessionDuration := sessionDuration + 1;
    }

    /** `toggleAudio`: flips the first audio track and mirrors it in the flag; without a stream
        or without an audio track nothing changes. */
    method ToggleAudio()
      modifies this, if AudioTrack().Some? then {AudioTrack().value} else {}
      ensures localStream == old(localStream)
      ensures old(AudioTrack()).Some? ==>
        var t := old(AudioTrack()).value;
        t.enabled == !old(t.enabled) && isAudioEnabled == t.enabled
      ensures old(AudioTrack()).None? ==> isAudioEnabled == old(isAudioEnabled)
      ensures isVideoEnabled == old(isVideoEnabled) && isRecording == old(isRecording)
      ensures sessionDuration == old(sessionDuration)
    {
      var track := AudioTrack();
      if track.Some? {
        track.value.enabled := !track.value.enabled;
        isAudioEnabled := track.value.enabled;
      }
    }

    /** `toggleVideo`, the same for the first video track. */
    method ToggleVideo()
      modifies this, if VideoTrack().Some? then {VideoTrack().value} else {}
      ensures localStream == old(localStream)
      ensures old(VideoTrack()).Some? ==>
        var t := old(VideoTrack()).value;
        t.enabled == !old(t.enabled) && isVideoEnabled == t.enabled
      ensures old(VideoTrack()).None? ==> isVideoEnabled == old(isVideoEnabled)
      ensures isAudioEnabled == old(isAudioEnabled) && isRecording == old(isRecording)
      ensures sessionDuration == old(sessionDuration)
    {
      var track := VideoTrack();
      if track.Some? {
        track.value.enabled := !track.value.enabled;
        isVideoEnabled := track.value.enabled;
      }
    }

    /** `toggleRecording`: flips the flag and announces the state it leaves behind, read from
        the flag as it was before the call. */
    method ToggleRecording() returns (notice: Notice)
      modifies this
      ensures isRecording == !old(isRecording)
      ensures notice.kind == "info" && notice.duration.None?
      ensures notice.title == "Recording Stopped" <==> old(isRecording)
      ensures notice.title == "Recording Started" <==> !old(isRecording)
      ensures notice.message == Some(if old(isRecording) then "Session recording has been stopped"
                                     else "Session is now being recorded")
      ensures localStream == old(localStream) && isAudioEnabled == old(isAudioEnabled)
      ensures isVideoEnabled == old(isVideoEnabled) && sessionDuration == old(sessionDuration)
    {
      var was := isRecording;
      isRecording := !was;
      notice := Notice("info", if was then "Recording Stopped" else "Recording Started",
                       Some(if was then "Session recording has been stopped" else "Session is now being recorded"),
                       None);
    }
  }

  /** Toggling the microphone twice restores the track and the flag. */
  method ToggleAudioTwice(s: Session)
    requires s.AudioTrack().Some?
    modifies s, s.AudioTrack().value
    ensures s.AudioTrack() == old(s.AudioTrack())
    ensures s.AudioTrack().value.enabled == old(s.AudioTrack().value.enabled)
    ensures s.isAudioEnabled == old(s.AudioTrack().value.enabled)
  {
    s.ToggleAudio();
    s.ToggleAudio();
  }

  datatype AdminView = AccessDenied | AdminDashboard

  /** `AdminDashboard`: anyone whose profile role is not `admin`, a missing profile included,
      gets the access-denied view. */
  function AdminViewFor(role: Option<string>): (v: AdminView)
    ensures v == AdminDashboard <==> role == Some("admin")
  {
    if role == Some("admin") then AdminDashboard else AccessDenied
  }
}
