/** Master-key generation and exchange, and per-channel key derivation
    (remoting/protocol/jingle_session.cc, lines 39-82).

    Randomness and the keyed hash are parameters: `base::RandBytes` becomes a
    caller-supplied entropy sequence, and HMAC-SHA256 (section 2 of RFC 2104
    over the SHA-256 of section 6.2 of FIPS 180-4) becomes an arbitrary
    function value that yields a 32-byte digest or reports failure. */
module KeyMaterial {
  import opened Wrappers

  newtype byte = b: int | 0 <= b < 256

  /** A `std::string` holding binary data. */
  type Bytes = seq<byte>

  const MasterKeyLength: nat := 16
  const ChannelKeyLength: nat := 16

  /** Output length of HMAC-SHA256 in bytes. */
  const DigestLength: nat := 32

  type Digest = d: Bytes | |d| == DigestLength witness seq(32, _ => 0)

  /** HMAC-SHA256 keyed with its first argument over the message in its
      second; None stands for a failure of the primitive. */
  type Hmac = (string, Bytes) -> Option<Digest>

  /** Opaque RSA private key of a host session. */
  datatype PrivateKey = PrivateKey(handle: nat)

  /** A master key is `kMasterKeyLength` bytes drawn from the random source. */
  function GenerateRandomMasterKey(entropy: Bytes): (key: Bytes)
    requires |entropy| >= MasterKeyLength
    ensures |key| == MasterKeyLength
    ensures key <= entropy
  {
    entropy[..MasterKeyLength]
  }

  /** Placeholder for RSA encryption under the host's public key: the key is
      sent as it is. */
  function EncryptMasterKey(hostPublicKey: string, masterKey: Bytes): (encrypted: Bytes)
    ensures forall privateKey :: DecryptMasterKey(privateKey, encrypted) == (true, masterKey)
  {
    masterKey
  }

  /** Placeholder for RSA decryption: the received bytes are taken as the
      master key, and the call always reports success. */
  function DecryptMasterKey(privateKey: Option<PrivateKey>, encrypted: Bytes): (r: (bool, Bytes))
    ensures r.0
    ensures r.1 == encrypted
  {
    (true, encrypted)
  }

  /** With the placeholders, whatever key one side encrypts the other side
      decrypts unchanged, whatever keys are involved. */
  lemma MasterKeyRoundTrip(hostPublicKey: string, privateKey: Option<PrivateKey>, masterKey: Bytes)
    ensures DecryptMasterKey(privateKey, EncryptMasterKey(hostPublicKey, masterKey)) == (true, masterKey)
  {
  }

  /** A freshly generated master key reaches the peer intact and keeps its
      fixed length. */
  lemma GeneratedMasterKeyExchange(entropy: Bytes, hostPublicKey: string, privateKey: Option<PrivateKey>)
    requires |entropy| >= MasterKeyLength
    ensures var key := GenerateRandomMasterKey(entropy);
            var (ok, received) := DecryptMasterKey(privateKey, EncryptMasterKey(hostPublicKey, key));
            ok && received == key && |received| == MasterKeyLength
  {
    MasterKeyRoundTrip(hostPublicKey, privateKey, GenerateRandomMasterKey(entropy));
  }

  /** `crypto::HMAC::Sign` into a buffer of `length` bytes: the leading
      `length` bytes of the digest, or None when the primitive fails. */
  function HmacSign(hmac: Hmac, key: string, data: Bytes, length: nat): (r: Option<Bytes>)
    requires length <= DigestLength
    ensures r.Some? <==> hmac(key, data).Some?
    ensures r.Some? ==> |r.value| == length && r.value <= hmac(key, data).value
  {
    match hmac(key, data)
    case None => None
    case Some(digest) => Some(digest[..length])
  }

  /** Derives the key of one channel. The HMAC is keyed with the channel
      name and signs the master key. On success the key is the first
      `kChannelKeyLength` bytes of the digest; on failure the result is
      false with an empty key, never a partially written one. */
  function GetChannelKey(channelName: string, masterKey: Bytes, hmac: Hmac): (r: (bool, Bytes))
    ensures r.0 <==> hmac(channelName, masterKey).Some?
    ensures r.0 ==> |r.1| == ChannelKeyLength && r.1 <= hmac(channelName, masterKey).value
    ensures !r.0 ==> r.1 == []
  {
    match HmacSign(hmac, channelName, masterKey, ChannelKeyLength)
    case None => (false, [])
    case Some(signed) => (true, signed)
  }

  /** The key a responder derives from the master key it decrypted equals the
      key the initiator derives from the master key it generated. */
  lemma ChannelKeysAgree(entropy: Bytes, hostPublicKey: string, privateKey: Option<PrivateKey>,
                         channelName: string, hmac: Hmac)
    requires |entropy| >= MasterKeyLength
    ensures var key := GenerateRandomMasterKey(entropy);
            var received := DecryptMasterKey(privateKey, EncryptMasterKey(hostPublicKey, key)).1;
            GetChannelKey(channelName, received, hmac) == GetChannelKey(channelName, key, hmac)
  {
    GeneratedMasterKeyExchange(entropy, hostPublicKey, privateKey);
  }
}
