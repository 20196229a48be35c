/** The format-independent requirements of the baseline profiles T, LT and LTA
    (ETSI EN 319 102-1) and two helpers the format-specific checkers use. */
module BaselineRequirements {

  import opened Wrappers
  import opened X509

  /** A timestamp token; `creationDate` is a `Date` in milliseconds. */
  datatype TimestampToken = TimestampToken(creationDate: int)

  datatype DigestAlgorithm = SHA1 | SHA224 | SHA256 | SHA384 | SHA512 | SHA3_256 | SHA3_512

  /** A `Digest` whose algorithm and value are each a possibly-null reference. */
  datatype Digest = Digest(algorithm: Option<DigestAlgorithm>, value: Option<seq<bv8>>)

  datatype SignaturePolicy = SignaturePolicy(identifier: string, digest: Option<Digest>)

  /** One CRL or OCSP response as carried in the signature. */
  datatype RevocationBinary = RevocationBinary(bytes: seq<bv8>)

  /** What the checker reads of the signature under validation. The timestamp
      sources arrive already without the last archive timestamp's source: which
      archive timestamp is last is decided by the timestamp source, which is not
      part of this model. */
  datatype AdvancedSignature = AdvancedSignature(
    signatureTimestamps: seq<TimestampToken>,
    archiveTimestamps: seq<TimestampToken>,
    signingCertificate: Option<CertificateToken>,
    certificateSource: CertificateSource,
    timestampSourcesExceptLastArchive: seq<CertificateSource>,
    counterSignatureSources: seq<CertificateSource>,
    crlBinaries: seq<RevocationBinary>,
    ocspBinaries: seq<RevocationBinary>,
    signaturePolicy: Option<SignaturePolicy>)

  /** The offline certificate verifier. `allRevocationDataPresent` stands for
      the offline validation pass (chain building and revocation lookup over the
      signature's complete certificate, CRL and OCSP sources) run for the
      selected certificates; it is an oracle here. */
  datatype CertificateVerifier = CertificateVerifier(
    allRevocationDataPresent: (AdvancedSignature, set<CertificateToken>) -> bool)

  const NULL_VERIFIER := "offlineCertificateVerifier cannot be null!"

  /** Every certificate of a run of sources, duplicates merged. */
  function TokensOf(sources: seq<CertificateSource>): (tokens: set<CertificateToken>)
    ensures forall c :: c in tokens <==> exists i :: 0 <= i < |sources| && c in sources[i].certificates
    decreases |sources|
  {
    if sources == [] then {}
    else
      var last := |sources| - 1;
      var earlier := TokensOf(sources[..last]);
      assert forall i :: 0 <= i < last ==> sources[..last][i] == sources[i];
      earlier + set c | c in sources[last].certificates
  }

  /** A list of certificate sources that grows by appending whole sources. */
  class ListCertificateSource {
    var sources: seq<CertificateSource>

    constructor (initial: CertificateSource)
      ensures sources == [initial]
    {
      sources := [initial];
    }

    method AddAll(others: seq<CertificateSource>)
      modifies this
      ensures sources == old(sources) + others
    {
      sources := sources + others;
    }

    function AllCertificateTokens(): set<CertificateToken>
      reads this
    {
      TokensOf(sources)
    }

    function NumberOfCertificates(): nat
      reads this
    {
      |AllCertificateTokens()|
    }

    predicate IsAllSelfSigned()
      reads this
    {
      forall c :: c in AllCertificateTokens() ==> c.selfSigned
    }
  }

  /** `minimalTRequirement` scans the signature timestamps and stops at the first
      one not created strictly before the signing certificate expires. */
  function AllCreatedBefore(timestamps: seq<TimestampToken>, notAfter: int): (r: bool)
    ensures r <==> forall t :: t in timestamps ==> t.creationDate < notAfter
  {
    if timestamps == [] then true
    else if !(timestamps[0].creationDate < notAfter) then false
    else AllCreatedBefore(timestamps[1..], notAfter)
  }

  /** `minimalTRequirement`: at least one signature timestamp, and, when the
      signing certificate is known, every signature timestamp created strictly
      before it expires. */
  function MinimalTRequirement(sig: AdvancedSignature): (r: bool)
    ensures r <==>
      && |sig.signatureTimestamps| > 0
      && (sig.signingCertificate.Some? ==>
            forall i :: 0 <= i < |sig.signatureTimestamps| ==>
              sig.signatureTimestamps[i].creationDate < sig.signingCertificate.value.notAfter)
  {
    if |sig.signatureTimestamps| == 0 then false
    else match sig.signingCertificate
      case None => true
      case Some(cert) => AllCreatedBefore(sig.signatureTimestamps, cert.notAfter)
  }

  /** `Date.before` is strict: a timestamp made at the very instant the signing
      certificate expires denies the T level. */
  lemma TimestampAtExpiryDeniesT(sig: AdvancedSignature, k: nat)
    requires sig.signingCertificate.Some?
    requires k < |sig.signatureTimestamps|
    requires sig.signatureTimestamps[k].creationDate == sig.signingCertificate.value.notAfter
    ensures !MinimalTRequirement(sig)
  {
  }

  /** The certificate sources LT reasons about: the signature's own, those of
      its timestamps but the last archive timestamp, and those of its
      counter-signatures. */
  function RelevantSources(sig: AdvancedSignature): seq<CertificateSource> {
    [sig.certificateSource] + sig.timestampSourcesExceptLastArchive + sig.counterSignatureSources
  }

  function RelevantCertificates(sig: AdvancedSignature): (certs: set<CertificateToken>)
    ensures forall c :: c in certs <==>
      || c in sig.certificateSource.certificates
      || (exists i :: 0 <= i < |sig.timestampSourcesExceptLastArchive| &&
            c in sig.timestampSourcesExceptLastArchive[i].certificates)
      || (exists i :: 0 <= i < |sig.counterSignatureSources| &&
            c in sig.counterSignatureSources[i].certificates)
  {
    var sources := RelevantSources(sig);
    var n := |sig.timestampSourcesExceptLastArchive|;
    assert sources[0] == sig.certificateSource;
    assert forall i :: 0 <= i < n ==> sources[1 + i] == sig.timestampSourcesExceptLastArchive[i];
    assert forall i :: 0 <= i < |sig.counterSignatureSources| ==>
      sources[1 + n + i] == sig.counterSignatureSources[i];
    TokensOf(sources)
  }

  /** `getCertificateSourcesExceptLastArchiveTimestamp`. */
  method GetCertificateSourcesExceptLastArchiveTimestamp(sig: AdvancedSignature)
    returns (list: ListCertificateSource)
    ensures fresh(list)
    ensures list.sources == RelevantSources(sig)
  {
    list := new ListCertificateSource(sig.certificateSource);
    list.AddAll(sig.timestampSourcesExceptLastArchive);
    list.AddAll(sig.counterSignatureSources);
  }

  /** What `minimalLTRequirement` answers. A null verifier is a fatal error.
      Otherwise LT is denied outright when there is no CRL and no OCSP response,
      or when a non-empty relevant certificate set is all self-signed; an empty
      set is not "all self-signed". In every other case the revocation oracle
      decides. */
  function LTRequirement(sig: AdvancedSignature, verifier: Option<CertificateVerifier>): (r: Result<bool>)
    ensures verifier.None? <==> r == Failure(NullArgument(NULL_VERIFIER))
    ensures verifier.Some? ==> r.Success? && (r.value <==>
      && (|sig.crlBinaries| > 0 || |sig.ocspBinaries| > 0)
      && (RelevantCertificates(sig) == {} || exists c :: c in RelevantCertificates(sig) && !c.selfSigned)
      && verifier.value.allRevocationDataPresent(sig, RelevantCertificates(sig)))
  {
    if verifier.None? then Failure(NullArgument(NULL_VERIFIER))
    else
      var certs := RelevantCertificates(sig);
      var allSelfSigned := |certs| > 0 && forall c :: c in certs ==> c.selfSigned;
      var emptyRevocation := |sig.crlBinaries| == 0 && |sig.ocspBinaries| == 0;
      if !allSelfSigned && !emptyRevocation then
        Success(verifier.value.allRevocationDataPresent(sig, certs))
      else
        Success(false)
  }

  /** `minimalLTRequirement`, step by step as the source does it. */
  method MinimalLTRequirement(sig: AdvancedSignature, verifier: Option<CertificateVerifier>)
    returns (r: Result<bool>)
    ensures r == LTRequirement(sig, verifier)
  {
    if verifier.None? {
      return Failure(NullArgument(NULL_VERIFIER));
    }
    var certificateSources := GetCertificateSourcesExceptLastArchiveTimestamp(sig);
    var certificateFound := certificateSources.NumberOfCertificates() > 0;
    var allSelfSigned := certificateFound && certificateSources.IsAllSelfSigned();
    var emptyCRLs := |sig.crlBinaries| == 0;
    var emptyOCSPs := |sig.ocspBinaries| == 0;
    var emptyRevocation := emptyCRLs && emptyOCSPs;
    var minimalLTRequirement := !allSelfSigned && !emptyRevocation;
    if minimalLTRequirement {
      return Success(verifier.value.allRevocationDataPresent(sig, certificateSources.AllCertificateTokens()));
    }
    return Success(minimalLTRequirement);
  }

  /** The two short-circuits answer false whatever the revocation oracle would
      say: the oracle is not consulted. */
  lemma LTShortCircuitsIgnoreOracle(sig: AdvancedSignature, v1: CertificateVerifier, v2: CertificateVerifier)
    requires || (|sig.crlBinaries| == 0 && |sig.ocspBinaries| == 0)
             || (RelevantCertificates(sig) != {} && forall c :: c in RelevantCertificates(sig) ==> c.selfSigned)
    ensures LTRequirement(sig, Some(v1)) == LTRequirement(sig, Some(v2)) == Success(false)
  {
  }

  /** With revocation data present and no certificate to look at, the answer is
      the oracle's, which may well be true: the empty set is not short-circuited. */
  lemma LTEmptyCertificateSetConsultsOracle(sig: AdvancedSignature)
    requires RelevantCertificates(sig) == {}
    requires |sig.crlBinaries| > 0 || |sig.ocspBinaries| > 0
    ensures LTRequirement(sig, Some(CertificateVerifier((s, c) => true))) == Success(true)
    ensures LTRequirement(sig, Some(CertificateVerifier((s, c) => false))) == Success(false)
  {
  }

  /** `minimalLTARequirement`: at least one archive timestamp. */
  function MinimalLTARequirement(sig: AdvancedSignature): (r: bool)
    ensures r <==> exists t :: t in sig.archiveTimestamps
  {
    if |sig.archiveTimestamps| == 0 then false
    else assert sig.archiveTimestamps[0] in sig.archiveTimestamps; true
  }

  /** `containsSigningCertificate`: scans for a token equal to the signing
      certificate; a null signing certificate equals nothing. */
  function ContainsSigningCertificate(sig: AdvancedSignature, tokens: seq<CertificateToken>): (r: bool)
    ensures r <==> sig.signingCertificate.Some? && sig.signingCertificate.value in tokens
    ensures tokens == [] ==> !r
  {
    if tokens == [] then false
    else if Some(tokens[0]) == sig.signingCertificate then true
    else ContainsSigningCertificate(sig, tokens[1..])
  }

  /** `isSignaturePolicyIdentifierHashPresent`: a policy with a digest that names
      its algorithm. */
  function IsSignaturePolicyIdentifierHashPresent(sig: AdvancedSignature): (r: bool)
    ensures r <==> exists p: SignaturePolicy, a: DigestAlgorithm, v: Option<seq<bv8>> ::
      sig.signaturePolicy == Some(p) && p.digest == Some(Digest(Some(a), v))
  {
    match sig.signaturePolicy
    case None => false
    case Some(policy) =>
      match policy.digest
      case None => false
      case Some(digest) =>
        assert sig.signaturePolicy == Some(policy) && policy.digest == Some(Digest(digest.algorithm, digest.value));
        digest.algorithm.Some?
  }

  /** The digest value is never inspected: a policy digest with an algorithm and
      no value still counts as a hash. */
  lemma PolicyHashIgnoresDigestValue(sig: AdvancedSignature, id: string, a: DigestAlgorithm)
    requires sig.signaturePolicy == Some(SignaturePolicy(id, Some(Digest(Some(a), None))))
    ensures IsSignaturePolicyIdentifierHashPresent(sig)
  {
  }
}
