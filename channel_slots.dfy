/** The five channel socket slots of a session and how connector
    completions fill them (remoting/protocol/jingle_session.cc, lines 33-37
    and 510-540). Completions may arrive in any order; the lemmas here show
    that whether all five slots end up filled depends only on which names
    completed, and that a run fills all five at exactly one completion when
    it ends with all five filled (which completion that is depends on the
    order). */
module ChannelSlots {
  import opened Wrappers

  /** Opaque handle of a connected socket. */
  datatype SocketId = SocketId(handle: nat)

  const ControlChannelName: string := "control"
  const EventChannelName: string := "event"
  const VideoChannelName: string := "video"
  const VideoRtpChannelName: string := "videortp"
  const VideoRtcpChannelName: string := "videortcp"

  /** The names `CreateChannels` opens, in the order it opens them. */
  const ChannelNames: seq<string> :=
    [ControlChannelName, EventChannelName, VideoChannelName, VideoRtpChannelName, VideoRtcpChannelName]

  predicate IsChannelName(name: string)
  {
    name in ChannelNames
  }

  /** The five names are distinct channel names. */
  lemma ChannelNamesDistinct()
    ensures IsChannelName(ControlChannelName) && IsChannelName(EventChannelName) && IsChannelName(VideoChannelName)
            && IsChannelName(VideoRtpChannelName) && IsChannelName(VideoRtcpChannelName)
    ensures ControlChannelName != EventChannelName && ControlChannelName != VideoChannelName
            && ControlChannelName != VideoRtpChannelName && ControlChannelName != VideoRtcpChannelName
            && EventChannelName != VideoChannelName && EventChannelName != VideoRtpChannelName
            && EventChannelName != VideoRtcpChannelName && VideoChannelName != VideoRtpChannelName
            && VideoChannelName != VideoRtcpChannelName && VideoRtpChannelName != VideoRtcpChannelName
  {
    assert ControlChannelName[0] != EventChannelName[0];
    assert ControlChannelName[0] != VideoChannelName[0];
    assert ControlChannelName[0] != VideoRtpChannelName[0];
    assert ControlChannelName[0] != VideoRtcpChannelName[0];
    assert EventChannelName[0] != VideoChannelName[0];
    assert EventChannelName[0] != VideoRtpChannelName[0];
    assert EventChannelName[0] != VideoRtcpChannelName[0];
    assert |VideoChannelName| != |VideoRtpChannelName|;
    assert |VideoChannelName| != |VideoRtcpChannelName|;
    assert |VideoRtpChannelName| != |VideoRtcpChannelName|;
  }

  datatype Slots = Slots(
    control: Option<SocketId>,
    event: Option<SocketId>,
    video: Option<SocketId>,
    videoRtp: Option<SocketId>,
    videoRtcp: Option<SocketId>)

  const NoSockets: Slots := Slots(None, None, None, None, None)

  /** The slot that belongs to `name`; None for a name that has none. */
  function SlotOf(slots: Slots, name: string): Option<SocketId>
  {
    if name == ControlChannelName then slots.control
    else if name == EventChannelName then slots.event
    else if name == VideoChannelName then slots.video
    else if name == VideoRtpChannelName then slots.videoRtp
    else if name == VideoRtcpChannelName then slots.videoRtcp
    else None
  }

  /** Which field `Fill` writes for each of the five names. */
  lemma FillByName(slots: Slots, socket: SocketId)
    ensures Fill(slots, ControlChannelName, socket) == slots.(control := Some(socket))
    ensures Fill(slots, EventChannelName, socket) == slots.(event := Some(socket))
    ensures Fill(slots, VideoChannelName, socket) == slots.(video := Some(socket))
    ensures Fill(slots, VideoRtpChannelName, socket) == slots.(videoRtp := Some(socket))
    ensures Fill(slots, VideoRtcpChannelName, socket) == slots.(videoRtcp := Some(socket))
  {
    ChannelNamesDistinct();
  }

  /** All five sockets are present: the condition for CONNECTED. */
  predicate AllConnected(slots: Slots)
  {
    slots.control.Some? && slots.event.Some? && slots.video.Some?
    && slots.videoRtp.Some? && slots.videoRtcp.Some?
  }

  /** Storing the socket a connector produced for `name`: only that
      channel's slot changes, and an unknown name changes nothing. */
  function Fill(slots: Slots, name: string, socket: SocketId): (r: Slots)
    ensures IsChannelName(name) ==> SlotOf(r, name) == Some(socket)
    ensures forall other :: IsChannelName(other) && other != name ==> SlotOf(r, other) == SlotOf(slots, other)
    ensures !IsChannelName(name) ==> r == slots
  {
    if name == ControlChannelName then slots.(control := Some(socket))
    else if name == EventChannelName then slots.(event := Some(socket))
    else if name == VideoChannelName then slots.(video := Some(socket))
    else if name == VideoRtpChannelName then slots.(videoRtp := Some(socket))
    else if name == VideoRtcpChannelName then slots.(videoRtcp := Some(socket))
    else slots
  }

  /** A completion never empties a slot, so all five stay filled. */
  lemma FillKeepsConnected(slots: Slots, name: string, socket: SocketId)
    requires AllConnected(slots)
    ensures AllConnected(Fill(slots, name, socket))
  {
  }

  lemma AllConnectedBySlots(slots: Slots)
    ensures AllConnected(slots) <==> forall name :: IsChannelName(name) ==> SlotOf(slots, name).Some?
  {
    assert IsChannelName(ControlChannelName) && IsChannelName(EventChannelName) && IsChannelName(VideoChannelName)
      && IsChannelName(VideoRtpChannelName) && IsChannelName(VideoRtcpChannelName);
  }

  /** One successful completion: the channel's name and its socket. */
  datatype Completion = Completion(name: string, socket: SocketId)

  /** The slots after a run of successful completions, in arrival order. */
  function Replay(slots: Slots, completions: seq<Completion>): Slots
    decreases completions
  {
    if completions == [] then slots
    else Replay(Fill(slots, completions[0].name, completions[0].socket), completions[1..])
  }

  predicate Completed(completions: seq<Completion>, name: string)
  {
    exists i :: 0 <= i < |completions| && completions[i].name == name
  }

  /** After any run of completions, a channel's slot is filled exactly when
      it was filled before or its name completed at least once. */
  lemma {:induction false} ReplaySlot(slots: Slots, completions: seq<Completion>, name: string)
    requires IsChannelName(name)
    ensures SlotOf(Replay(slots, completions), name).Some? <==>
              SlotOf(slots, name).Some? || Completed(completions, name)
    decreases completions
  {
    if completions != [] {
      var next := Fill(slots, completions[0].name, completions[0].socket);
      ReplaySlot(next, completions[1..], name);
      if Completed(completions[1..], name) {
        var i :| 0 <= i < |completions[1..]| && completions[1..][i].name == name;
        assert completions[i + 1].name == name;
      }
      if Completed(completions, name) && completions[0].name != name {
        var i :| 0 <= i < |completions| && completions[i].name == name;
        assert completions[1..][i - 1].name == name;
      }
    }
  }

  /** Starting from empty slots, all five sockets are present after a run of
      completions exactly when each of the five names completed at least
      once, in whatever order. */
  lemma ReplayConnects(completions: seq<Completion>)
    ensures AllConnected(Replay(NoSockets, completions)) <==>
              forall name :: IsChannelName(name) ==> Completed(completions, name)
  {
    var final := Replay(NoSockets, completions);
    forall name | IsChannelName(name)
      ensures SlotOf(final, name).Some? <==> Completed(completions, name)
    {
      ReplaySlot(NoSockets, completions, name);
    }
    AllConnectedBySlots(final);
  }

  /** Reordering the completions cannot change whether the session connects:
      two runs that complete the same names agree. */
  lemma ReplayOrderIrrelevant(a: seq<Completion>, b: seq<Completion>)
    requires forall name :: Completed(a, name) <==> Completed(b, name)
    ensures AllConnected(Replay(NoSockets, a)) <==> AllConnected(Replay(NoSockets, b))
  {
    ReplayConnects(a);
    ReplayConnects(b);
  }

  /** How many completions in a run turn the slots from not all filled into
      all filled: the completions at which the session enters CONNECTED. */
  function ConnectedTransitions(slots: Slots, completions: seq<Completion>): nat
    decreases completions
  {
    if completions == [] then 0
    else
      var next := Fill(slots, completions[0].name, completions[0].socket);
      (if !AllConnected(slots) && AllConnected(next) then 1 else 0)
      + ConnectedTransitions(next, completions[1..])
  }

  /** One step of a run that is under way at position `i`. */
  lemma ReplayStep(slots: Slots, completions: seq<Completion>, i: nat)
    requires i < |completions|
    ensures Replay(slots, completions[i..])
              == Replay(Fill(slots, completions[i].name, completions[i].socket), completions[i + 1..])
  {
    assert completions[i..][1..] == completions[i + 1..];
  }

  /** Slots are only ever filled, never emptied, by completions. */
  lemma {:induction false} ReplayKeepsConnected(slots: Slots, completions: seq<Completion>)
    requires AllConnected(slots)
    ensures AllConnected(Replay(slots, completions))
    ensures ConnectedTransitions(slots, completions) == 0
    decreases completions
  {
    if completions != [] {
      ReplayKeepsConnected(Fill(slots, completions[0].name, completions[0].socket), completions[1..]);
    }
  }

  /** The session enters CONNECTED at most once per run, and exactly once
      when the run ends with all five sockets present having started
      without them. */
  lemma {:induction false} ConnectedExactlyOnce(slots: Slots, completions: seq<Completion>)
    ensures ConnectedTransitions(slots, completions) ==
              if !AllConnected(slots) && AllConnected(Replay(slots, completions)) then 1 else 0
    decreases completions
  {
    if completions != [] {
      var next := Fill(slots, completions[0].name, completions[0].socket);
      if AllConnected(next) {
        ReplayKeepsConnected(next, completions[1..]);
      } else {
        ConnectedExactlyOnce(next, completions[1..]);
      }
    }
  }
}
