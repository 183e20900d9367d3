# JingleSession: a Dafny model of the remoting protocol's session object

This project models `remoting/protocol/jingle_session.cc`. That file holds the per-connection session of the Chromoting remote-desktop protocol. A session wraps a libjingle signalling session. It negotiates the session configuration and exchanges a master key. It then brings up five channels through asynchronous connectors: `control`, `event` and `video` as streams, `videortp` and `videortcp` as datagrams. It becomes CONNECTED once all five sockets have arrived, and it tears everything down on a single close path.

The model has five modules:

- `KeyMaterial` (key_material.dfy): master-key generation, the placeholder master-key encryption and decryption, and channel-key derivation, all as functions. `base::RandBytes` becomes an entropy argument. HMAC-SHA256 (section 2 of RFC 2104 over the SHA-256 of section 6.2 of FIPS 180-4) becomes a function argument that returns a 32-byte digest or None. The model assumes that `crypto::HMAC::Sign` into a 16-byte buffer writes the first 16 bytes of the digest; `crypto::HMAC` is not part of this model. The 16-byte length of a channel key does not depend on this assumption, because the key is resized before signing (`jingle_session.cc:74`).
- `SessionConfigs` (session_configs.dfy): the initiator's decision whether to adopt the peer's final configuration.
- `ChannelSlots` (channel_slots.dfy): the five socket slots, how a completion fills one, and lemmas showing that reaching CONNECTED depends only on which names completed, never on their order.
- `JingleSession` (jingle_session.dfy): the class `Session`. Its fields are those of the C++ object: state, `closed`/`closing`, the connector map, the socket slots, both configuration slots, the tokens and the keys. Its methods are the C++ methods. Some things are modelled rather than executed:
  - the observer callback is a ghost record `notifications` of the states it was run with;
  - `Terminate()` calls on the libjingle session are counted in the ghost `terminations`;
  - the two `PostTask` calls are an explicit queue `pending`, drained by `RunPendingTask`.

  `Valid()` is the object invariant:
  - `closing == closed`;
  - the state is CLOSED or FAILED exactly when the session is closed;
  - a closed session has no socket and terminated its libjingle session at most once;
  - a CONNECTED session holds all five sockets;
  - a channel's socket exists only once its connector has reported that it finished: the channel's entry is in the connector map and holds NULL;
  - connector ids are distinct and fresh.

  `Evolves()` is kept by every public operation that changes the session, and by `SetConfig`, `InitializeConfigFromDescription` and `OnChannelConnectorFinished`:
  - terminal states absorb;
  - a closed session stays closed;
  - both configuration slots are write-once;
  - notifications and terminations only grow.
- `Scenarios` (scenarios.dfy): verified clients.
  - The full initiator happy path, with the five completions in reverse alphabetical order. It ends CONNECTED with notifications exactly `[CONNECTING, CONNECTED]`.
  - Sockets arriving in any order, repeats included: CONNECTED exactly when every channel name arrived, with one CONNECTED notification.
  - A rejected configuration: FAILED, no connector.
  - A double close: one notification, one terminate.
  - A responder recovering the master key and deriving the same control key.
  - The reachability of the finding below.

`DCHECK`s and `NOTREACHED`s become `requires` clauses. Inputs that the code reads from libjingle are parameters: `remote_name()`, the remote description's content, and the session manager's accept verdict. Within this file, some private helpers are reached only from `OnSessionState` after its `closed_` check, so they also require `!closed`: `OnInitiate`, `OnAccept`, `CreateChannels` and `AddChannelConnector`. For `AddChannelConnector` this rests on the call graph of this file alone: the public `CreateStreamChannel` and `CreateDatagramChannel` also reach it, and their outside callers are not part of this model. Connector callbacks come only from connectors that still exist, and `CloseInternal` deletes them all. So `OnChannelConnectorFinished` requires `!closed`, and so does `OnChannelConnected` when it is given a socket. A connector reports `OnChannelConnectorFinished` before it hands over its socket, and `OnChannelConnected` is reached only through the callbacks `CreateChannels` binds for the five connectors it creates (`:491-502`). So `OnChannelConnected` with a socket also requires that the channel's entry is in the map and holds NULL.

Where the code and its own comments or design differ, the model follows the code:
- `GetChannelKey` keys the HMAC with the channel name and signs the master key (`jingle_session.cc:73-75`). The comment at `:65-68` says the reverse.
- A finished connector's entry is set to NULL and its key stays in the map (`:486`). `CloseInternal` deletes the connectors but leaves the map as it is (`:164-165`). `LiveConnectors()` is therefore empty once closed, while `connectors` is unchanged.
- The initializer list at `:105-112` never stores the peer's public key, so `peerPublicKey` is always empty. With the encryption placeholder this has no visible effect.
- The initiator and receiver tokens are plain setters that may be called any number of times (`:290-303`).

## Model

| member | source | states |
|---|---|---|
| KeyMaterial.GenerateRandomMasterKey | remoting/protocol/jingle_session.cc:39-47 | the master key is exactly kMasterKeyLength (16) bytes, taken from the random source |
| KeyMaterial.EncryptMasterKey | remoting/protocol/jingle_session.cc:49-54 | the placeholder encryption is undone by decryption under any private key: the peer recovers the master key and the call succeeds |
| KeyMaterial.DecryptMasterKey | remoting/protocol/jingle_session.cc:56-63 | the placeholder decryption always reports success, taking the received bytes as the master key |
| KeyMaterial.MasterKeyRoundTrip | remoting/protocol/jingle_session.cc:49-63 | with the placeholders, decrypting the encrypted master key succeeds and yields the key, whatever keys are involved |
| KeyMaterial.GeneratedMasterKeyExchange | remoting/protocol/jingle_session.cc:39-63 | a generated master key reaches the peer intact and 16 bytes long |
| KeyMaterial.HmacSign | remoting/protocol/jingle_session.cc:72-77 | signing into an n-byte buffer succeeds exactly when the HMAC succeeds and then yields the first n digest bytes |
| KeyMaterial.GetChannelKey | remoting/protocol/jingle_session.cc:69-82 | true exactly when the HMAC keyed with the channel name over the master key succeeds, with a 16-byte key that is a prefix of the digest; on failure false and the empty key, never a partial one |
| KeyMaterial.ChannelKeysAgree | remoting/protocol/jingle_session.cc:49-82 | the responder derives from the decrypted master key the same channel key as the initiator from the generated one |
| SessionConfigs.NegotiateConfig | remoting/protocol/jingle_session.cc:397-427 | the final configuration is adopted exactly when a certificate is present, a final configuration is present and the candidate supports it; each error names the first failing check; the candidate is consulted only after the first two checks pass |
| SessionConfigs.UnsupportedNeverAdopted | remoting/protocol/jingle_session.cc:420-423 | a configuration outside the candidate set is never adopted |
| ChannelSlots.ChannelNamesDistinct | remoting/protocol/jingle_session.cc:33-37 | the five channel names are distinct |
| ChannelSlots.Fill | remoting/protocol/jingle_session.cc:519-531 | storing a socket fills the slot of its name and leaves the other four slots as they were; an unknown name changes nothing |
| ChannelSlots.FillByName | remoting/protocol/jingle_session.cc:519-531 | which slot each of the five names fills |
| ChannelSlots.FillKeepsConnected | remoting/protocol/jingle_session.cc:519-535 | storing a socket never empties a slot, so a session with all five sockets keeps them |
| ChannelSlots.AllConnectedBySlots | remoting/protocol/jingle_session.cc:533-535 | all five sockets present is the same as every channel name's slot being filled |
| ChannelSlots.ReplaySlot | remoting/protocol/jingle_session.cc:510-531 | after any run of completions a slot is filled exactly when it was filled before or its name completed |
| ChannelSlots.ReplayConnects | remoting/protocol/jingle_session.cc:510-539 | from empty slots, all five sockets are present exactly when each of the five names completed, in any order |
| ChannelSlots.ReplayOrderIrrelevant | remoting/protocol/jingle_session.cc:510-539 | two runs that complete the same names agree on whether the session connects |
| ChannelSlots.ReplayKeepsConnected | remoting/protocol/jingle_session.cc:519-539 | once all five sockets are present, further completions keep them and never enter CONNECTED again |
| ChannelSlots.ConnectedExactlyOnce | remoting/protocol/jingle_session.cc:533-539 | a run of completions enters CONNECTED once if it ends with all five sockets having started without them, and never otherwise |
| JingleSession.Route | remoting/protocol/jingle_session.cc:321-347 | initiate and accept, sent or received, reach their own handlers; terminate and reject, sent or received, share the terminate handler; DEINIT is the unreachable case; every other state is ignored |
| JingleSession.PostedTaskStateAsWritten | remoting/protocol/jingle_session.cc:387-393 | as written, a posted SetState(CONNECTING) or an accepting AcceptConnection yields CONNECTING whether or not the session has closed; a refused acceptance closes the session, a no-op once closed |
| JingleSession.PostedTaskAsWrittenLeavesTerminal | remoting/protocol/jingle_session.cc:387-393 | as written, a task posted before close moves a CLOSED or FAILED session back to CONNECTING |
| JingleSession.Session.constructor | remoting/protocol/jingle_session.cc:100-121 | a new session is INITIALIZING, open, without transport, observer, configuration, connectors, sockets or posted tasks; its master key is freshly generated; the peer key stays empty |
| JingleSession.Session.CreateClientSession | remoting/protocol/jingle_session.cc:87-90 | a client session has no certificate and no private key |
| JingleSession.Session.CreateServerSession | remoting/protocol/jingle_session.cc:93-98 | a host session holds the certificate and a private key |
| JingleSession.Session.Init | remoting/protocol/jingle_session.cc:130-139 | attaches the libjingle session, its role and the peer's name |
| JingleSession.Session.GetEncryptedMasterKey | remoting/protocol/jingle_session.cc:141-144 | the peer recovers the session's master key from what is sent, with any private key |
| JingleSession.Session.SetState | remoting/protocol/jingle_session.cc:557-568 | setting the current state changes nothing and notifies no one; a change requires a non-terminal current state; the observer hears of a change only when the session is not closed and an observer is set |
| JingleSession.Session.SetStateChangeCallback | remoting/protocol/jingle_session.cc:195-199 | an observer is set (replacing any earlier one) |
| JingleSession.Session.CloseInternal | remoting/protocol/jingle_session.cc:146-175 | the first call sets FAILED or CLOSED, notifies, empties all five slots, deletes every connector, terminates the libjingle session once if attached and marks the session closed; later calls change nothing and never terminate again |
| JingleSession.Session.Close | remoting/protocol/jingle_session.cc:305-309 | a graceful close: CloseInternal with failed false |
| JingleSession.Session.ReleaseSession | remoting/protocol/jingle_session.cc:182-193 | allowed only once closed; returns the libjingle session and detaches it |
| JingleSession.Session.GetCandidateConfig | remoting/protocol/jingle_session.cc:250-254 | requires a candidate configuration and returns it |
| JingleSession.Session.SetCandidateConfig | remoting/protocol/jingle_session.cc:256-262 | the candidate configuration may be set only while unset |
| JingleSession.Session.GetConfig | remoting/protocol/jingle_session.cc:269-276 | requires a configuration and returns it |
| JingleSession.Session.SetConfig | remoting/protocol/jingle_session.cc:278-283 | the configuration may be set only while unset |
| JingleSession.Session.GetInitiatorToken | remoting/protocol/jingle_session.cc:285-288 | returns the initiator token |
| JingleSession.Session.SetInitiatorToken | remoting/protocol/jingle_session.cc:290-293 | replaces the initiator token |
| JingleSession.Session.GetReceiverToken | remoting/protocol/jingle_session.cc:295-298 | returns the receiver token |
| JingleSession.Session.SetReceiverToken | remoting/protocol/jingle_session.cc:300-303 | replaces the receiver token |
| JingleSession.Session.InitializeConfigFromDescription | remoting/protocol/jingle_session.cc:397-427 | always stores the peer's certificate; returns true exactly when NegotiateConfig succeeds, and only then sets the configuration, leaving it unset otherwise |
| JingleSession.Session.AddChannelConnector | remoting/protocol/jingle_session.cc:464-480 | requires no entry for the name, then maps it to a fresh connector that joins the live connectors |
| JingleSession.Session.OnChannelConnectorFinished | remoting/protocol/jingle_session.cc:482-488 | requires the map to hold this connector for the name, sets the entry to NULL with the key kept, and deletes the connector |
| JingleSession.Session.CreateChannels | remoting/protocol/jingle_session.cc:490-503 | registers fresh connectors for the five channel names, in source order |
| JingleSession.Session.OnChannelConnected | remoting/protocol/jingle_session.cc:505-540 | a null socket closes the session as FAILED; a socket, which arrives only after its connector finished, fills only its name's slot; the state becomes CONNECTED exactly when all five slots are filled, and is unchanged otherwise |
| JingleSession.Session.OnInitiate | remoting/protocol/jingle_session.cc:360-395 | records the peer's name; a responder takes the master key decrypted from the peer's content; posts SetState(CONNECTING) on the initiator and AcceptConnection on the responder, changing nothing else |
| JingleSession.Session.OnAccept | remoting/protocol/jingle_session.cc:429-443 | an initiator whose negotiation fails stores the certificate, closes as FAILED and creates no channel; otherwise the configuration is adopted (initiator) and the five channels are created |
| JingleSession.Session.OnTerminate | remoting/protocol/jingle_session.cc:445-448 | a graceful close |
| JingleSession.Session.OnSessionState | remoting/protocol/jingle_session.cc:311-348 | nothing happens once closed or for ignored states; initiate and accept states run their handlers; terminate and reject, sent or received, close with state CLOSED and touch nothing else |
| JingleSession.Session.OnSessionError | remoting/protocol/jingle_session.cc:350-358 | ERROR_NONE changes nothing; any other error closes as FAILED |
| JingleSession.Session.AcceptConnection | remoting/protocol/jingle_session.cc:450-462 | a refused session is closed and its libjingle session released; an accepted one moves to CONNECTING |
| JingleSession.Session.RunPendingTask | remoting/protocol/jingle_session.cc:387-393 | runs the oldest posted task; once the session has closed the task does nothing, so terminal states stay terminal |
| Scenarios.OfferingInitiator | remoting/protocol/jingle_session.cc:360-395 | after sending initiate and running the posted task, an initiator is CONNECTING and has been notified once |
| Scenarios.Arrive | remoting/protocol/jingle_session.cc:510-540 | the socket of a channel whose connector has finished fills its slot, and the session becomes CONNECTED, with one notification, exactly when all five slots are filled |
| Scenarios.ConnectInAnyOrder | remoting/protocol/jingle_session.cc:510-540 | sockets of channels whose connectors have finished, arriving through OnChannelConnected in any order, repeats included: the session ends CONNECTED exactly when every channel name arrived, CONNECTING otherwise, and the observer hears CONNECTED exactly once in the first case and never in the second |
| Scenarios.Deliver | remoting/protocol/jingle_session.cc:482-540 | a connector that finishes and hands over a socket clears its entry, fills its slot, and moves the session to CONNECTED exactly when all five slots are filled |
| Scenarios.CompleteVideoChannels | remoting/protocol/jingle_session.cc:510-540 | three of five completions fill three slots and leave the session CONNECTING with no further notification |

## Left out

- The libjingle session is left out: `CreateChannel`, the raw transport channels, `GetTransport(...)->ConnectChannels()` and connecting or disconnecting its signals (`:130-139`, `:468-479`). It is foreign I/O. It becomes an opaque handle, an initiator flag and a terminate count.
- The connector internals (`JingleStreamConnector`, `JingleDatagramConnector`) are not part of this model, and neither is the `Connect` call with its certificates and key. A connector is an id, and its completion is `OnChannelConnectorFinished` followed by `OnChannelConnected`.
- `CreateStreamChannel` and `CreateDatagramChannel` (`:201-215`) are public entry points. They choose the connector flavour and hand over a callback supplied by their caller. The model has only the five channels `CreateChannels` opens, whose callbacks lead to `OnChannelConnected`. A channel a caller opens directly, and what its callback does, are not modelled, and neither is a call to these entry points on a closed session.
- `OnStreamChannelConnected` (`:505-508`) only forwards, and is folded into `OnChannelConnected`.
- `GetContentInfo` (`:542-555`), `remote_name()` and the session descriptions are XML plumbing in libjingle. Their results are parameters.
- `CandidateSessionConfig::IsSupported` and `GetFinalConfig` are not part of this model. A candidate is a set of supported configurations.
- Copying the RSA private key by export and import (`:113-120`) is left out. Only the key's presence on host sessions is kept.
- RSA itself is left out: the placeholders are modelled exactly as written.
- The failure branch of `DecryptMasterKey` in `OnInitiate` (`:370-375`) cannot run, because the placeholder always succeeds. It is not modelled.
- Distinct keys for distinct channel names are not stated: they rest on HMAC collision resistance, which cannot be proved about an arbitrary function.
- The thread checks (`CalledOnValidThread`) and the message loop are left out. The message loop is the explicit `pending` queue.
- The observer's code is left out, including any re-entrant call into the session. Only the states it is told are recorded.
- `AcceptConnection` passes the session and its libjingle session to the session manager (`:451`). The model takes only the manager's verdict. Whatever the manager does to the session during that call is modelled only as separate calls before or after it. Setting a responder's configuration is one example; only the manager can do that, because `InitializeConfigFromDescription` runs only for the initiator (`:434-436`).
- The destructor (`:123-128`) is left out. It resets the callback, closes, and notifies the session manager, which is not part of this model. `delete this` in `AcceptConnection` (`:456`) is left out too. The model keeps the closed, released session.
- The trivial accessors are plain field reads: `HasSession` (`:177-180`), the five socket getters (`:217-240`), `jid()` and `local_certificate()`.
- The `net::` error passed to `CloseInternal` is ignored by the code. It is a `CloseReason` value without numeric codes.

## Findings

| source | as written | input that shows it | evidently intended | confidence | as-written member | corrected member |
|---|---|---|---|---|---|---|
| remoting/protocol/jingle_session.cc:387-393 | the tasks OnInitiate posts (SetState(CONNECTING), AcceptConnection) are not revoked when the session closes; run afterwards, SetState(CONNECTING) meets a CLOSED or FAILED state, failing the DCHECK at :561-562, and without DCHECKs moves the session out of its terminal state | initiator: STATE_SENTINITIATE, then a non-NONE signalling error before the message loop runs the posted task (Scenarios.PostedTaskAfterClose) | a posted task does nothing once the session has closed | medium, not executed | JingleSession.PostedTaskAsWrittenLeavesTerminal | JingleSession.Session.RunPendingTask |
