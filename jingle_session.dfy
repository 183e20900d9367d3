/** The per-connection session object of the remoting protocol
    (remoting/protocol/jingle_session.cc): a lifecycle state machine driven by
    signalling callbacks, connector completions and a single teardown path.

    The libjingle session it wraps is reduced to an opaque handle, an
    initiator flag and a count of `Terminate()` calls; the observer callback
    to a ghost record of the states it was told about; the message loop to an
    explicit queue of posted tasks. */
module JingleSession {
  import opened Wrappers
  import opened KeyMaterial
  import opened SessionConfigs
  import opened ChannelSlots

  /** `Session::State`. */
  datatype State = Initializing | Connecting | Connected | Closed | Failed

  predicate Terminal(s: State)
  {
    s == Closed || s == Failed
  }

  /** The libjingle session states this object reacts to; `OtherState`
      stands for every state the switch in `OnSessionState` ignores. */
  datatype SignalingState =
    | SentInitiate | ReceivedInitiate
    | SentAccept | ReceivedAccept
    | SentTerminate | ReceivedTerminate | SentReject | ReceivedReject
    | Deinit
    | OtherState

  /** `BaseSession::Error`: only ERROR_NONE is told apart. */
  datatype SignalingError = ErrorNone | ErrorCode(code: nat)

  /** The `net::` error passed to `CloseInternal`; the close path ignores it. */
  datatype CloseReason = ConnectionClosed | ConnectionAborted | ConnectionFailed

  /** The two tasks `OnInitiate` posts to the message loop. */
  datatype PostedTask = SetStateConnecting | RunAcceptConnection

  datatype Handler = HandleInitiate | HandleAccept | HandleTerminate | Unreachable | Ignore

  /** The switch of `OnSessionState`: initiate and accept, sent or
      received, have their own handlers; terminate and reject, sent or
      received, share one; DEINIT cannot arrive; the rest is ignored. */
  function Route(s: SignalingState): (r: Handler)
    ensures r == HandleInitiate <==> s == SentInitiate || s == ReceivedInitiate
    ensures r == HandleAccept <==> s == SentAccept || s == ReceivedAccept
    ensures r == HandleTerminate <==>
              s == SentTerminate || s == ReceivedTerminate || s == SentReject || s == ReceivedReject
    ensures r == Unreachable <==> s == Deinit
  {
    match s
    case SentInitiate | ReceivedInitiate => HandleInitiate
    case SentAccept | ReceivedAccept => HandleAccept
    case SentTerminate | ReceivedTerminate | SentReject | ReceivedReject => HandleTerminate
    case Deinit => Unreachable
    case OtherState => Ignore
  }

  /** Opaque handle of the underlying libjingle session. */
  datatype TransportId = TransportId(handle: nat)

  /** What the libjingle session reports when a signal arrives: the peer's
      name and the chromoting content of the remote description. */
  datatype TransportView = TransportView(remoteName: string, remoteContent: ContentDescription)

  /** The connector ids a connector map points to. */
  ghost function Pointed(m: map<string, Option<nat>>): set<nat>
  {
    set name | name in m && m[name].Some? :: m[name].value
  }

  /** Every id in the map was handed out before `next`, and no two names
      share a connector. */
  ghost predicate ConnectorIdsValid(m: map<string, Option<nat>>, next: nat)
  {
    && (forall name :: name in m && m[name].Some? ==> m[name].value < next)
    && (forall a, b :: a in m && b in m && m[a].Some? && m[a] == m[b] ==> a == b)
  }

  lemma PointedAdd(m: map<string, Option<nat>>, next: nat, name: string)
    requires ConnectorIdsValid(m, next) && name !in m
    ensures ConnectorIdsValid(m[name := Some(next)], next + 1)
    ensures Pointed(m[name := Some(next)]) == Pointed(m) + {next}
  {
    var m' := m[name := Some(next)];
    forall id | id in Pointed(m') ensures id in Pointed(m) + {next} {
      var n :| n in m' && m'[n].Some? && m'[n].value == id;
      if n != name { assert id in Pointed(m); }
    }
    forall id | id in Pointed(m) + {next} ensures id in Pointed(m') {
      if id == next {
        assert m'[name].value == id;
      } else {
        var n :| n in m && m[n].Some? && m[n].value == id;
        assert m'[n] == m[n];
      }
    }
  }

  lemma PointedClear(m: map<string, Option<nat>>, next: nat, name: string, id: nat)
    requires ConnectorIdsValid(m, next) && name in m && m[name] == Some(id)
    ensures ConnectorIdsValid(m[name := None], next)
    ensures Pointed(m[name := None]) == Pointed(m) - {id}
  {
    var m' := m[name := None];
    forall x | x in Pointed(m') ensures x in Pointed(m) - {id} {
      var n :| n in m' && m'[n].Some? && m'[n].value == x;
      assert n != name && m[n] == m'[n];
    }
    forall x | x in Pointed(m) - {id} ensures x in Pointed(m') {
      var n :| n in m && m[n].Some? && m[n].value == x;
      assert n != name && m'[n] == m[n];
    }
  }

  /** A channel's socket exists only once its connector has reported that it
      finished: the channel's entry is in the map and holds NULL. */
  ghost predicate SocketsFromFinishedConnectors(sockets: Slots, m: map<string, Option<nat>>)
  {
    forall name {:trigger SlotOf(sockets, name)} ::
      IsChannelName(name) && SlotOf(sockets, name).Some? ==> name in m && m[name] == None
  }

  /** The connector map after `CreateChannels` registered the five channels
      with consecutive fresh connector ids starting at `first`. */
  function WithChannelConnectors(m: map<string, Option<nat>>, first: nat): map<string, Option<nat>>
  {
    m[ControlChannelName := Some(first)]
     [EventChannelName := Some(first + 1)]
     [VideoChannelName := Some(first + 2)]
     [VideoRtpChannelName := Some(first + 3)]
     [VideoRtcpChannelName := Some(first + 4)]
  }

  /** As the source runs a posted task (the finding in README): nothing
      revokes the task when the session closes, and with its DCHECKs compiled
      out `SetState` assigns any state that differs from the current one. */
  function PostedTaskStateAsWritten(state: State, closed: bool, task: PostedTask, accepts: bool): (r: State)
    // Whether or not the session has closed, the task moves it to CONNECTING
    // unless it is a refused acceptance.
    ensures task == SetStateConnecting || accepts ==> r == Connecting
    // A refused acceptance closes the session, which is a no-op once closed.
    ensures task == RunAcceptConnection && !accepts ==> r == (if closed then state else Closed)
  {
    match task
    case SetStateConnecting => Connecting
    case RunAcceptConnection =>
      if accepts then Connecting else if closed then state else Closed
  }

  /** As written, a task posted before the session closed moves a closed or
      failed session back to CONNECTING, and it does so through a `SetState`
      call whose DCHECK forbids leaving a terminal state. */
  lemma PostedTaskAsWrittenLeavesTerminal(state: State, accepts: bool)
    requires Terminal(state)
    ensures !Terminal(PostedTaskStateAsWritten(state, true, SetStateConnecting, accepts))
    ensures !Terminal(PostedTaskStateAsWritten(state, true, RunAcceptConnection, true))
    ensures PostedTaskStateAsWritten(state, true, SetStateConnecting, accepts) != state
  {
  }

  class Session {
    const localCert: string
    const localPrivateKey: Option<PrivateKey>
    const peerPublicKey: string

    var masterKey: Bytes
    var remoteCert: string
    var jid: string
    var state: State
    var closed: bool
    var closing: bool

    /** `cricket_session_` (None for NULL) and its `initiator()` flag. */
    var transport: Option<TransportId>
    var initiator: bool

    var hasCallback: bool
    var candidateConfig: Option<CandidateConfig>
    var config: Option<SessionConfig>
    var initiatorToken: string
    var receiverToken: string

    /** `channel_connectors_`: channel name to connector id, None once that
        connector finished. Ids are handed out from `nextConnector`. */
    var connectors: map<string, Option<nat>>
    var nextConnector: nat

    /** The five `*_channel_socket_` slots, one per fixed channel name. */
    var sockets: Slots

    /** Tasks posted to the message loop and not yet run, oldest first. */
    var pending: seq<PostedTask>

    /** Every state the observer callback was run with, in order. */
    ghost var notifications: seq<State>
    /** How many times `Terminate()` was called on the libjingle session. */
    ghost var terminations: nat

    /** The connectors that still exist: those the map points to, until
        `CloseInternal` deletes them all (their entries stay in the map). */
    ghost function LiveConnectors(): set<nat>
      reads this
    {
      if closed then {} else Pointed(connectors)
    }

    predicate NoChannelConnectors()
      reads this
    {
      forall name :: IsChannelName(name) ==> name !in connectors
    }

    ghost predicate Valid()
      reads this
    {
      && closing == closed
      && (Terminal(state) <==> closed)
      && (closed ==> sockets == NoSockets)
      && (state == Connected ==> AllConnected(sockets))
      && SocketsFromFinishedConnectors(sockets, connectors)
      && terminations <= (if closed then 1 else 0)
      && ConnectorIdsValid(connectors, nextConnector)
    }

    /** A session as constructed: INITIALIZING, no libjingle session, no
        observer, no configuration, no connector, no socket, nothing posted. */
    ghost predicate Initial()
      reads this
    {
      && state == Initializing && !closed && !closing
      && transport == None && !initiator && !hasCallback
      && candidateConfig == None && config == None
      && remoteCert == [] && jid == [] && initiatorToken == [] && receiverToken == []
      && connectors == map[] && nextConnector == 0 && sockets == NoSockets && pending == []
      && notifications == [] && terminations == 0
    }

    /** What every operation keeps: terminal states absorb, a closed session
        stays closed, both configuration slots are write-once, and the
        notification record and the terminate count only grow. */
    twostate predicate Evolves()
      reads this
    {
      && (old(Terminal(state)) ==> state == old(state))
      && (old(closed) ==> closed)
      && (old(config).Some? ==> config == old(config))
      && (old(candidateConfig).Some? ==> candidateConfig == old(candidateConfig))
      && old(notifications) <= notifications
      && old(terminations) <= terminations
    }

    twostate predicate LifecycleUnchanged()
      reads this
    {
      && unchanged(this`state, this`closed, this`closing, this`notifications, this`terminations)
      && sockets == old(sockets)
    }

    twostate predicate NegotiationUnchanged()
      reads this
    {
      unchanged(this`masterKey, this`remoteCert, this`jid, this`candidateConfig, this`config,
                this`initiatorToken, this`receiverToken, this`hasCallback)
    }

    twostate predicate PlumbingUnchanged()
      reads this
    {
      unchanged(this`transport, this`initiator, this`pending, this`connectors, this`nextConnector)
    }

    /** The effect of `CloseInternal(_, failed)` on the fields it writes: the
        first call moves to FAILED or CLOSED, tells the observer unless none
        is set, drops all five sockets, terminates the libjingle session once
        if there is one, and marks the session closed; a later call changes
        nothing. */
    twostate predicate CloseEffect(failed: bool)
      reads this
    {
      if old(closed) then
        && unchanged(this`state, this`closed, this`closing, this`notifications, this`terminations)
        && sockets == old(sockets)
      else
        && closed && closing
        && state == (if failed then Failed else Closed)
        && notifications == old(notifications) + (if old(hasCallback) then [state] else [])
        && sockets == NoSockets
        && terminations == old(terminations) + (if old(transport).Some? then 1 else 0)
    }

    constructor (localCert: string, localPrivateKey: Option<PrivateKey>, peerPublicKey: string, entropy: Bytes)
      requires |entropy| >= MasterKeyLength
      ensures Valid()
      ensures this.localCert == localCert && this.localPrivateKey == localPrivateKey
      ensures this.peerPublicKey == []
      ensures masterKey == GenerateRandomMasterKey(entropy)
      ensures Initial()
    {
      this.localCert := localCert;
      this.localPrivateKey := localPrivateKey;
      // The initializer list never copies the peer's public key.
      this.peerPublicKey := [];
      masterKey := GenerateRandomMasterKey(entropy);
      remoteCert, jid := [], [];
      state, closed, closing := Initializing, false, false;
      transport, initiator := None, false;
      hasCallback, candidateConfig, config := false, None, None;
      initiatorToken, receiverToken := [], [];
      connectors, nextConnector := map[], 0;
      sockets := NoSockets;
      pending := [];
      notifications, terminations := [], 0;
    }

    /** A client session: no certificate, no private key. */
    static method CreateClientSession(hostPublicKey: string, entropy: Bytes) returns (s: Session)
      requires |entropy| >= MasterKeyLength
      ensures fresh(s) && s.Valid() && s.Initial()
      ensures s.localCert == [] && s.localPrivateKey == None
      ensures s.masterKey == GenerateRandomMasterKey(entropy)
    {
      s := new Session([], None, hostPublicKey, entropy);
    }

    /** A host session: it owns the certificate and a private key. */
    static method CreateServerSession(certificate: string, key: PrivateKey, entropy: Bytes) returns (s: Session)
      requires |entropy| >= MasterKeyLength
      ensures fresh(s) && s.Valid() && s.Initial()
      ensures s.localCert == certificate && s.localPrivateKey == Some(key)
      ensures s.masterKey == GenerateRandomMasterKey(entropy)
    {
      s := new Session(certificate, Some(key), [], entropy);
    }

    /** Attaches the libjingle session and records the peer's name. */
    method Init(t: TransportId, isInitiator: bool, remoteName: string)
      requires Valid()
      modifies this`transport, this`initiator, this`jid
      ensures Valid() && Evolves()
      ensures transport == Some(t) && initiator == isInitiator && jid == remoteName
    {
      transport, initiator := Some(t), isInitiator;
      jid := remoteName;
    }

    /** The master key as sent to the peer; with the encryption placeholder
        the peer recovers it whatever private key it holds. */
    method GetEncryptedMasterKey() returns (encrypted: Bytes)
      ensures forall key :: DecryptMasterKey(key, encrypted) == (true, masterKey)
    {
      encrypted := EncryptMasterKey(peerPublicKey, masterKey);
    }

    /** Moves to `newState`. A change out of CLOSED or FAILED is forbidden;
        setting the current state again does nothing; the observer hears of
        a change unless the session is closed or has no observer. */
    method SetState(newState: State)
      requires newState != state ==> !Terminal(state)
      modifies this`state, this`notifications
      ensures state == newState
      ensures notifications == old(notifications) +
                (if newState != old(state) && !closed && hasCallback then [newState] else [])
    {
      if newState != state {
        state := newState;
        if !closed && hasCallback {
          notifications := notifications + [newState];
        }
      }
    }

    method SetStateChangeCallback()
      requires Valid()
      modifies this`hasCallback
      ensures Valid() && Evolves()
      ensures hasCallback
    {
      hasCallback := true;
    }

    /** The single teardown path. */
    method CloseInternal(result: CloseReason, failed: bool)
      requires Valid()
      modifies this`state, this`closed, this`closing, this`notifications, this`terminations
      modifies this`sockets
      ensures Valid() && Evolves()
      ensures CloseEffect(failed)
    {
      if !closed && !closing {
        closing := true;
        SetState(if failed then Failed else Closed);
        sockets := NoSockets;
        // Deleting the connectors leaves their entries in the map:
        // LiveConnectors() is empty from here on.
        if transport.Some? {
          terminations := terminations + 1;
        }
        closed := true;
      }
    }

    method Close()
      requires Valid()
      modifies this`state, this`closed, this`closing, this`notifications, this`terminations
      modifies this`sockets
      ensures Valid() && Evolves()
      ensures CloseEffect(false)
    {
      CloseInternal(ConnectionClosed, false);
    }

    /** Hands the libjingle session back; allowed only once closed. */
    method ReleaseSession() returns (released: Option<TransportId>)
      requires Valid() && closed
      modifies this`transport
      ensures Valid() && Evolves()
      ensures released == old(transport) && transport == None
    {
      released := transport;
      transport := None;
    }

    method GetCandidateConfig() returns (c: CandidateConfig)
      requires candidateConfig.Some?
      ensures candidateConfig == Some(c)
    {
      c := candidateConfig.value;
    }

    method SetCandidateConfig(c: CandidateConfig)
      requires Valid() && candidateConfig.None?
      modifies this`candidateConfig
      ensures Valid() && Evolves()
      ensures candidateConfig == Some(c)
    {
      candidateConfig := Some(c);
    }

    method GetConfig() returns (c: SessionConfig)
      requires config.Some?
      ensures config == Some(c)
    {
      c := config.value;
    }

    method SetConfig(c: SessionConfig)
      requires config.None?
      modifies this`config
      ensures Evolves()
      ensures config == Some(c)
    {
      config := Some(c);
    }

    method GetInitiatorToken() returns (token: string)
      ensures token == initiatorToken
    {
      token := initiatorToken;
    }

    method SetInitiatorToken(token: string)
      requires Valid()
      modifies this`initiatorToken
      ensures Valid() && Evolves()
      ensures initiatorToken == token
    {
      initiatorToken := token;
    }

    method GetReceiverToken() returns (token: string)
      ensures token == receiverToken
    {
      token := receiverToken;
    }

    method SetReceiverToken(token: string)
      requires Valid()
      modifies this`receiverToken
      ensures Valid() && Evolves()
      ensures receiverToken == token
    {
      receiverToken := token;
    }

    /** Adopts the peer's final configuration when it sent a certificate and
        the configuration is one the candidate supports. The certificate is
        stored whatever the outcome; the configuration only on success. */
    method InitializeConfigFromDescription(description: ContentDescription) returns (ok: bool)
      requires ConsultsCandidate(description) ==> candidateConfig.Some?
      requires NegotiateConfig(description, candidateConfig).Ok? ==> config.None?
      modifies this`remoteCert, this`config
      ensures Evolves()
      ensures remoteCert == description.certificate
      ensures ok <==> NegotiateConfig(description, old(candidateConfig)).Ok?
      ensures config == if ok then Some(NegotiateConfig(description, old(candidateConfig)).value) else old(config)
    {
      remoteCert := description.certificate;
      if remoteCert == [] {
        return false;
      }
      if description.finalConfig.None? {
        return false;
      }
      var candidate := GetCandidateConfig();
      if !candidate.IsSupported(description.finalConfig.value) {
        return false;
      }
      SetConfig(description.finalConfig.value);
      return true;
    }

    /** Registers a new connector for `name`; a second connector for a name
        already in the map is forbidden. */
    method AddChannelConnector(name: string)
      requires Valid() && !closed && name !in connectors
      modifies this`connectors, this`nextConnector
      ensures Valid()
      ensures connectors == old(connectors)[name := Some(old(nextConnector))]
      ensures nextConnector == old(nextConnector) + 1
      ensures LiveConnectors() == old(LiveConnectors()) + {old(nextConnector)}
    {
      PointedAdd(connectors, nextConnector, name);
      connectors := connectors[name := Some(nextConnector)];
      nextConnector := nextConnector + 1;
    }

    /** A connector reports that it is done: its entry is set to NULL (the
        name stays in the map) and the connector is deleted. Only a connector
        that still exists reports, so the session is not closed. */
    method OnChannelConnectorFinished(name: string, connector: nat)
      requires Valid() && !closed
      requires name in connectors && connectors[name] == Some(connector)
      modifies this`connectors
      ensures Valid() && Evolves()
      ensures connectors == old(connectors)[name := None]
      ensures connector in old(LiveConnectors()) && LiveConnectors() == old(LiveConnectors()) - {connector}
    {
      PointedClear(connectors, nextConnector, name, connector);
      connectors := connectors[name := None];
    }

    /** Opens the five channels, three stream and two datagram ones. */
    method CreateChannels()
      requires Valid() && !closed && NoChannelConnectors()
      modifies this`connectors, this`nextConnector
      ensures Valid()
      ensures connectors == WithChannelConnectors(old(connectors), old(nextConnector))
      ensures nextConnector == old(nextConnector) + |ChannelNames|
    {
      ChannelNamesDistinct();
      AddChannelConnector(ControlChannelName);
      AddChannelConnector(EventChannelName);
      AddChannelConnector(VideoChannelName);
      AddChannelConnector(VideoRtpChannelName);
      AddChannelConnector(VideoRtcpChannelName);
    }

    /** A connector's result: a failure closes the whole session as FAILED;
        a socket fills its channel's slot only, and the session becomes
        CONNECTED once all five slots are filled. */
    method OnChannelConnected(name: string, socket: Option<SocketId>)
      requires Valid()
      requires socket.Some? ==> !closed && IsChannelName(name)
      requires socket.Some? ==> name in connectors && connectors[name] == None
      modifies this`state, this`closed, this`closing, this`notifications, this`terminations
      modifies this`sockets
      ensures Valid() && Evolves()
      ensures socket.None? ==> CloseEffect(true)
      ensures socket.Some? ==>
                && sockets == Fill(old(sockets), name, socket.value)
                && state == (if AllConnected(sockets) then Connected else old(state))
                && notifications == old(notifications) +
                     (if AllConnected(sockets) && old(state) != Connected && hasCallback then [Connected] else [])
                && unchanged(this`closed, this`closing, this`terminations)
    {
      if socket.None? {
        CloseInternal(ConnectionClosed, true);
        return;
      }
      if AllConnected(sockets) {
        FillKeepsConnected(sockets, name, socket.value);
      }
      sockets := Fill(sockets, name, socket.value);
      if AllConnected(sockets) {
        SetState(Connected);
      }
    }

    /** What `OnInitiate` does: record the peer's name; a responder takes the
        master key from the peer's content; then post the move to CONNECTING
        (initiator) or the acceptance decision (responder). */
    twostate predicate InitiateEffect(view: TransportView)
      reads this
    {
      && jid == view.remoteName
      && masterKey == (if old(initiator) then old(masterKey)
                       else DecryptMasterKey(localPrivateKey, view.remoteContent.masterKey).1)
      && pending == old(pending) + [if old(initiator) then SetStateConnecting else RunAcceptConnection]
      && unchanged(this`remoteCert, this`candidateConfig, this`config, this`initiatorToken,
                   this`receiverToken, this`hasCallback)
      && unchanged(this`transport, this`initiator, this`connectors, this`nextConnector)
      && LifecycleUnchanged()
    }

    method OnInitiate(view: TransportView)
      requires Valid() && !closed && transport.Some?
      modifies this`jid, this`masterKey, this`pending
      ensures Valid() && Evolves()
      ensures InitiateEffect(view)
    {
      jid := view.remoteName;
      if !initiator {
        var (_, key) := DecryptMasterKey(localPrivateKey, view.remoteContent.masterKey);
        masterKey := key;
      }
      if initiator {
        pending := pending + [SetStateConnecting];
      } else {
        pending := pending + [RunAcceptConnection];
      }
    }

    /** The DCHECKs `OnAccept` can reach: the candidate configuration exists
        when it is consulted, the configuration is still unset when it is
        adopted, and no channel has a connector yet when channels are
        created. */
    predicate AcceptAllowed(view: TransportView)
      reads this
    {
      if initiator then
        && (ConsultsCandidate(view.remoteContent) ==> candidateConfig.Some?)
        && (NegotiateConfig(view.remoteContent, candidateConfig).Ok? ==> config.None? && NoChannelConnectors())
      else NoChannelConnectors()
    }

    /** What `OnAccept` does: an initiator first negotiates the configuration
        and closes as FAILED when that fails, creating no channel; otherwise
        the five channels are created. */
    twostate predicate AcceptEffect(view: TransportView)
      reads this
    {
      && unchanged(this`masterKey, this`jid, this`candidateConfig, this`initiatorToken,
                   this`receiverToken, this`hasCallback)
      && unchanged(this`transport, this`initiator, this`pending)
      && (if !old(initiator) then
            && unchanged(this`remoteCert, this`config)
            && connectors == WithChannelConnectors(old(connectors), old(nextConnector))
            && nextConnector == old(nextConnector) + |ChannelNames|
            && LifecycleUnchanged()
          else
            && remoteCert == view.remoteContent.certificate
            && (ConsultsCandidate(view.remoteContent) ==> old(candidateConfig).Some?)
            && match NegotiateConfig(view.remoteContent, old(candidateConfig))
               case Ok(c) =>
                 && config == Some(c)
                 && connectors == WithChannelConnectors(old(connectors), old(nextConnector))
                 && nextConnector == old(nextConnector) + |ChannelNames|
                 && LifecycleUnchanged()
               case Err(_) =>
                 && config == old(config)
                 && unchanged(this`connectors, this`nextConnector)
                 && CloseEffect(true))
    }

    method OnAccept(view: TransportView)
      requires Valid() && !closed && transport.Some? && AcceptAllowed(view)
      modifies this`remoteCert, this`config, this`connectors, this`nextConnector
      modifies this`state, this`closed, this`closing, this`notifications, this`terminations
      modifies this`sockets
      ensures Valid() && Evolves()
      ensures AcceptEffect(view)
    {
      if initiator {
        var ok := InitializeConfigFromDescription(view.remoteContent);
        if !ok {
          CloseInternal(ConnectionFailed, true);
          return;
        }
      }
      CreateChannels();
    }

    method OnTerminate()
      requires Valid()
      modifies this`state, this`closed, this`closing, this`notifications, this`terminations
      modifies this`sockets
      ensures Valid() && Evolves()
      ensures CloseEffect(false)
    {
      CloseInternal(ConnectionAborted, false);
    }

    /** Signal from the libjingle session: ignored once closed; otherwise an
        initiate runs `OnInitiate`, an accept `OnAccept`, and a terminate or
        reject, sent or received, closes gracefully. */
    method OnSessionState(from: TransportId, s: SignalingState, view: TransportView)
      requires Valid() && transport == Some(from)
      requires !closed ==> s != Deinit
      requires !closed && Route(s) == HandleAccept ==> AcceptAllowed(view)
      modifies this
      ensures Valid() && Evolves()
      ensures old(closed) || Route(s) == Ignore ==> unchanged(this)
      ensures !old(closed) && Route(s) == HandleInitiate ==> InitiateEffect(view)
      ensures !old(closed) && Route(s) == HandleAccept ==> AcceptEffect(view)
      ensures !old(closed) && Route(s) == HandleTerminate ==>
                CloseEffect(false) && state == Closed && NegotiationUnchanged() && PlumbingUnchanged()
    {
      if closed {
        return;
      }
      match Route(s)
      case HandleInitiate => OnInitiate(view);
      case HandleAccept => OnAccept(view);
      case HandleTerminate => OnTerminate();
      case Unreachable =>
      case Ignore =>
    }

    /** Signalling error: anything but ERROR_NONE closes the session as
        FAILED (a no-op once closed). */
    method OnSessionError(from: TransportId, error: SignalingError)
      requires Valid() && transport == Some(from)
      modifies this`state, this`closed, this`closing, this`notifications, this`terminations
      modifies this`sockets
      ensures Valid() && Evolves()
      ensures error == ErrorNone ==> LifecycleUnchanged()
      ensures error != ErrorNone ==> CloseEffect(true)
    {
      if error != ErrorNone {
        CloseInternal(ConnectionAborted, true);
      }
    }

    /** What `AcceptConnection` does: a refused session is closed and its
        libjingle session released; an accepted one moves to CONNECTING. */
    twostate predicate AcceptConnectionEffect(accepts: bool)
      reads this
    {
      if accepts then
        && state == Connecting
        && notifications == old(notifications) +
             (if old(state) != Connecting && old(hasCallback) then [Connecting] else [])
        && unchanged(this`closed, this`closing, this`terminations, this`transport, this`sockets)
      else
        CloseEffect(false) && transport == None
    }

    /** The responder's posted acceptance; the session manager's verdict is
        the input `accepts`. */
    method AcceptConnection(accepts: bool)
      requires Valid()
      requires accepts && state != Connecting ==> !Terminal(state)
      modifies this`state, this`closed, this`closing, this`notifications, this`terminations
      modifies this`sockets
      modifies this`transport
      ensures Valid() && Evolves()
      ensures AcceptConnectionEffect(accepts)
    {
      if !accepts {
        Close();
        var _ := ReleaseSession();
        return;
      }
      SetState(Connecting);
    }

    /** Runs the oldest posted task. A task whose session has closed in the
        meantime does nothing (the correction of the finding in README), so
        terminal states stay terminal. */
    method RunPendingTask(accepts: bool)
      requires Valid() && pending != []
      modifies this
      ensures Valid() && Evolves()
      ensures pending == old(pending)[1..]
      ensures NegotiationUnchanged()
      ensures unchanged(this`connectors, this`nextConnector, this`initiator)
      ensures old(closed) ==> LifecycleUnchanged() && transport == old(transport)
      ensures !old(closed) && old(pending)[0] == SetStateConnecting ==>
                && state == Connecting
                && notifications == old(notifications) +
                     (if old(state) != Connecting && hasCallback then [Connecting] else [])
                && unchanged(this`closed, this`closing, this`terminations, this`transport, this`sockets)
      ensures !old(closed) && old(pending)[0] == RunAcceptConnection ==> AcceptConnectionEffect(accepts)
    {
      var task := pending[0];
      pending := pending[1..];
      if closed {
        return;
      }
      match task
      case SetStateConnecting => SetState(Connecting);
      case RunAcceptConnection => AcceptConnection(accepts);
    }
  }
}
