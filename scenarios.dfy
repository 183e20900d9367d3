/** Clients of the session model, in the manner of a test harness: each
    drives one session through a run of signals and asserts what the
    contracts alone let a caller conclude. */
module Scenarios {
  import opened Wrappers
  import opened KeyMaterial
  import opened SessionConfigs
  import opened ChannelSlots
  import opened JingleSession

  const Entropy: Bytes := seq(16, _ => 7)
  const Link := TransportId(1)

  /** Initiator with candidate {A}; the host accepts with A; the five
      connectors complete in reverse alphabetical order. */
  method HappyPath()
  {
    var a := SessionConfig(1);
    var s := OfferingInitiator(a);
    var view := TransportView("host@example.com", ContentDescription("host-cert", [], Some(a)));
    ChannelNamesDistinct();
    s.OnSessionState(Link, ReceivedAccept, view);
    assert s.config == Some(a);
    CompleteInReverseOrder(s);
  }

  /** An initiator offering candidate {a} whose move to CONNECTING, posted
      when the offer went out, has run. */
  method OfferingInitiator(a: SessionConfig) returns (s: Session)
    ensures fresh(s) && s.Valid() && !s.closed && s.state == Connecting && s.hasCallback && s.initiator
    ensures s.transport == Some(Link) && s.candidateConfig == Some(CandidateConfig({a})) && s.config == None
    ensures s.notifications == [Connecting] && s.sockets == NoSockets && s.connectors == map[] && s.nextConnector == 0
  {
    s := Session.CreateClientSession("host-key", Entropy);
    s.Init(Link, true, "host@example.com");
    s.SetCandidateConfig(CandidateConfig({a}));
    s.SetStateChangeCallback();
    var view := TransportView("host@example.com", ContentDescription([], [], None));
    s.OnSessionState(Link, SentInitiate, view);
    assert s.pending == [SetStateConnecting];
    s.RunPendingTask(true);
  }

  /** The connector registered for `name` completes with `socket`: it first
      reports that it finished, then hands the socket to the session. */
  method Deliver(s: Session, name: string, connector: nat, socket: SocketId)
    requires s.Valid() && !s.closed && IsChannelName(name)
    requires name in s.connectors && s.connectors[name] == Some(connector)
    modifies s`connectors
    modifies s`state, s`closed, s`closing, s`notifications, s`terminations, s`sockets
    ensures s.Valid() && !s.closed && s.hasCallback == old(s.hasCallback)
    ensures s.connectors == old(s.connectors)[name := None]
    ensures s.sockets == Fill(old(s.sockets), name, socket)
    ensures s.state == if AllConnected(s.sockets) then Connected else old(s.state)
    ensures s.notifications == old(s.notifications) +
              (if AllConnected(s.sockets) && old(s.state) != Connected && s.hasCallback then [Connected] else [])
  {
    s.OnChannelConnectorFinished(name, connector);
    s.OnChannelConnected(name, Some(socket));
  }

  /** The socket of a channel whose connector has finished arrives. */
  method Arrive(s: Session, c: Completion)
    requires s.Valid() && !s.closed && IsChannelName(c.name)
    requires c.name in s.connectors && s.connectors[c.name] == None
    modifies s`state, s`closed, s`closing, s`notifications, s`terminations, s`sockets
    ensures s.Valid() && !s.closed
    ensures s.sockets == Fill(old(s.sockets), c.name, c.socket)
    ensures s.state == if AllConnected(s.sockets) then Connected else old(s.state)
    ensures s.notifications == old(s.notifications) +
              (if AllConnected(s.sockets) && old(s.state) != Connected && s.hasCallback then [Connected] else [])
  {
    s.OnChannelConnected(c.name, Some(c.socket));
  }

  /** Sockets for channel names whose connectors have finished, arriving
      through `OnChannelConnected` in any order, repeats included: the
      session ends CONNECTED exactly when every channel name arrived, stays
      CONNECTING otherwise, and the observer hears CONNECTED once in the
      first case and never in the second. */
  method ConnectInAnyOrder(s: Session, cs: seq<Completion>)
    requires s.Valid() && !s.closed && s.state == Connecting && s.sockets == NoSockets
    requires forall i :: 0 <= i < |cs| ==> IsChannelName(cs[i].name)
    requires forall i :: 0 <= i < |cs| ==> cs[i].name in s.connectors && s.connectors[cs[i].name] == None
    modifies s`state, s`closed, s`closing, s`notifications, s`terminations, s`sockets
    ensures s.Valid() && !s.closed
    ensures s.sockets == Replay(NoSockets, cs)
    ensures s.state == if forall name :: IsChannelName(name) ==> Completed(cs, name) then Connected else Connecting
    ensures s.notifications == old(s.notifications) +
              (if s.hasCallback && forall name :: IsChannelName(name) ==> Completed(cs, name) then [Connected] else [])
  {
    var i := 0;
    while i < |cs|
      invariant 0 <= i <= |cs|
      invariant s.Valid() && !s.closed && s.hasCallback == old(s.hasCallback)
      invariant s.connectors == old(s.connectors)
      invariant Replay(s.sockets, cs[i..]) == Replay(NoSockets, cs)
      invariant s.state == if AllConnected(s.sockets) then Connected else Connecting
      invariant s.notifications == old(s.notifications) +
                  (if s.hasCallback && AllConnected(s.sockets) then [Connected] else [])
    {
      ReplayStep(s.sockets, cs, i);
      Arrive(s, cs[i]);
      i := i + 1;
    }
    ReplayConnects(cs);
  }

  /** The five connectors complete in reverse alphabetical order; the last
      one moves the session to CONNECTED, and the observer hears of it
      once. */
  method CompleteInReverseOrder(s: Session)
    requires s.Valid() && !s.closed && s.state == Connecting && s.hasCallback
    requires s.notifications == [Connecting] && s.sockets == NoSockets
    requires s.connectors == WithChannelConnectors(map[], 0)
    modifies s
  {
    CompleteVideoChannels(s);
    ChannelNamesDistinct();
    FillByName(s.sockets, SocketId(11));
    Deliver(s, EventChannelName, 1, SocketId(11));
    assert s.state == Connecting;
    FillByName(s.sockets, SocketId(10));
    Deliver(s, ControlChannelName, 0, SocketId(10));
    assert s.state == Connected;
    assert s.notifications == [Connecting, Connected];
  }

  /** The three video connectors complete first: their slots fill, the
      session stays CONNECTING and the observer hears nothing. */
  method CompleteVideoChannels(s: Session)
    requires s.Valid() && !s.closed && s.state == Connecting && s.hasCallback
    requires s.notifications == [Connecting] && s.sockets == NoSockets
    requires s.connectors == WithChannelConnectors(map[], 0)
    modifies s
    ensures s.Valid() && !s.closed && s.state == Connecting && s.hasCallback
    ensures s.notifications == [Connecting]
    ensures s.sockets == Slots(None, None, Some(SocketId(12)), Some(SocketId(13)), Some(SocketId(14)))
    ensures EventChannelName in s.connectors && s.connectors[EventChannelName] == Some(1)
    ensures ControlChannelName in s.connectors && s.connectors[ControlChannelName] == Some(0)
  {
    ChannelNamesDistinct();
    FillByName(NoSockets, SocketId(13));
    Deliver(s, VideoRtpChannelName, 3, SocketId(13));
    FillByName(s.sockets, SocketId(14));
    Deliver(s, VideoRtcpChannelName, 4, SocketId(14));
    FillByName(s.sockets, SocketId(12));
    Deliver(s, VideoChannelName, 2, SocketId(12));
  }

  /** Initiator with candidate {A, B} receives C: the session fails and no
      channel is created. */
  method UnsupportedConfigFails()
  {
    var a, b, c := SessionConfig(1), SessionConfig(2), SessionConfig(3);
    var s := Session.CreateClientSession("host-key", Entropy);
    s.Init(Link, true, "host@example.com");
    s.SetCandidateConfig(CandidateConfig({a, b}));
    s.SetStateChangeCallback();
    var view := TransportView("host@example.com", ContentDescription("host-cert", [], Some(c)));
    s.OnSessionState(Link, ReceivedAccept, view);
    assert s.state == Failed && s.closed;
    assert s.config == None && s.connectors == map[];
    assert s.notifications == [Failed] && s.terminations == 1;
  }

  /** Closing twice notifies once and terminates the transport once. */
  method CloseTwice()
  {
    var s := Session.CreateServerSession("host-cert", PrivateKey(5), Entropy);
    s.Init(Link, false, "client@example.com");
    s.SetStateChangeCallback();
    s.Close();
    s.Close();
    s.OnSessionError(Link, ErrorCode(3));
    assert s.state == Closed && s.notifications == [Closed] && s.terminations == 1;
  }

  /** The responder learns the initiator's master key, and both derive the
      same control-channel key of the fixed length. */
  method ResponderDerivesControlKey(hmac: Hmac)
  {
    var host := Session.CreateServerSession("host-cert", PrivateKey(5), Entropy);
    host.Init(Link, false, "client@example.com");
    var client := Session.CreateClientSession("host-key", seq(16, i requires 0 <= i < 16 => i as byte));
    var sent := client.GetEncryptedMasterKey();
    var view := TransportView("client@example.com", ContentDescription([], sent, None));
    host.OnSessionState(Link, ReceivedInitiate, view);
    assert host.masterKey == client.masterKey;
    assert host.pending == [RunAcceptConnection];
    var (ok, key) := GetChannelKey(ControlChannelName, host.masterKey, hmac);
    assert ok ==> |key| == ChannelKeyLength;
    assert GetChannelKey(ControlChannelName, client.masterKey, hmac) == (ok, key);
  }

  /** An error arrives after the initiator posted its move to CONNECTING:
      the session is FAILED with the task still queued. As written the task
      would move it back to CONNECTING; the guarded task leaves it FAILED. */
  method PostedTaskAfterClose()
  {
    var s := Session.CreateClientSession("host-key", Entropy);
    s.Init(Link, true, "host@example.com");
    var view := TransportView("host@example.com", ContentDescription([], [], None));
    s.OnSessionState(Link, SentInitiate, view);
    s.OnSessionError(Link, ErrorCode(2));
    assert s.state == Failed && s.closed && s.pending == [SetStateConnecting];
    assert PostedTaskStateAsWritten(s.state, s.closed, s.pending[0], false) == Connecting;
    s.RunPendingTask(false);
    assert s.state == Failed;
  }
}
