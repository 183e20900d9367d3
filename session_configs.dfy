/** Negotiation of the session configuration on the initiating side
    (remoting/protocol/jingle_session.cc, lines 397-427).

    The configuration types live in files that are not part of this model;
    a configuration is therefore an opaque value, and a candidate
    configuration is the set of final configurations it supports. */
module SessionConfigs {
  import opened Wrappers
  import KeyMaterial

  /** A final, negotiated set of channel and codec parameters. */
  datatype SessionConfig = SessionConfig(tag: nat)

  /** The configurations an initiator is willing to accept. */
  datatype CandidateConfig = CandidateConfig(supported: set<SessionConfig>)
  {
    predicate IsSupported(config: SessionConfig) {
      config in supported
    }
  }

  /** The chromoting content of a session description, as the signalling
      layer parsed it: the sender's certificate, its encrypted master key and
      the final configuration it proposes (None when it did not name exactly
      one). */
  datatype ContentDescription = ContentDescription(
    certificate: string,
    masterKey: KeyMaterial.Bytes,
    finalConfig: Option<SessionConfig>)

  datatype NegotiationError = MissingCertificate | MissingConfig | UnsupportedConfig

  /** Whether negotiation consults the candidate configuration: only when the
      certificate and the final configuration are both present. */
  predicate ConsultsCandidate(description: ContentDescription)
  {
    description.certificate != [] && description.finalConfig.Some?
  }

  /** The decision of `InitializeConfigFromDescription`: the peer's final
      configuration is adopted only when the peer also sent a certificate and
      the configuration is one the candidate supports; the checks run in that
      order, so each error names the first check that failed. */
  function NegotiateConfig(description: ContentDescription, candidate: Option<CandidateConfig>)
    : (r: Result<SessionConfig, NegotiationError>)
    requires ConsultsCandidate(description) ==> candidate.Some?
    ensures r.Ok? <==> description.certificate != [] && description.finalConfig.Some?
                       && candidate.value.IsSupported(description.finalConfig.value)
    ensures r.Ok? ==> Some(r.value) == description.finalConfig
    ensures r == Err(MissingCertificate) <==> description.certificate == []
    ensures r == Err(MissingConfig) <==> description.certificate != [] && description.finalConfig.None?
    ensures r == Err(UnsupportedConfig) <==>
              ConsultsCandidate(description) && !candidate.value.IsSupported(description.finalConfig.value)
  {
    if description.certificate == [] then Err(MissingCertificate)
    else if description.finalConfig.None? then Err(MissingConfig)
    else if !candidate.value.IsSupported(description.finalConfig.value) then Err(UnsupportedConfig)
    else Ok(description.finalConfig.value)
  }

  /** A configuration outside the candidate set is never adopted, whatever
      else the description carries. */
  lemma UnsupportedNeverAdopted(description: ContentDescription, candidate: CandidateConfig)
    requires description.finalConfig.Some? && !candidate.IsSupported(description.finalConfig.value)
    ensures NegotiateConfig(description, Some(candidate)).Err?
  {
  }
}
