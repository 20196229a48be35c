/** The certificates, certificate identifiers and certificate references one token
    (a signature, a timestamp, an OCSP response) carries, each with the list of
    places in the token where it was found. */
module TokenCertificates {

  import opened Wrappers
  import opened X509
  import opened Seqs
  import opened LinkedMultimaps

  /** `certificateMatcher.match(token, ref)`: whether a reference designates a
      certificate. Its digest and issuer/serial comparison is not part of this model. */
  type Matcher = (CertificateToken, CertificateRef) -> bool

  /** `CertificateIdentifier.isRelatedToCertificate(token)`. */
  type Relation = (CertificateIdentifier, CertificateToken) -> bool

  /** The test each loop of the queries applies to a key. */
  function HasOrigin<K(!new), O(==)>(m: LinkedMultimap<K, O>, origin: O): K -> bool {
    k => origin in Get(m, k)
  }

  function MatchesToken(matcher: Matcher, token: CertificateToken): CertificateRef -> bool {
    ref => matcher(token, ref)
  }

  /** `isOrphan`: no certificate among `tokens` matches the reference. */
  predicate Orphan(tokens: seq<CertificateToken>, matcher: Matcher, ref: CertificateRef) {
    forall t :: t in tokens ==> !matcher(t, ref)
  }

  function OrphanIn(tokens: seq<CertificateToken>, matcher: Matcher): CertificateRef -> bool {
    ref => Orphan(tokens, matcher, ref)
  }

  predicate IsCurrent(id: CertificateIdentifier) {
    id.current
  }

  const NULL_IDENTIFIER := "The certificate identifier cannot be null"
  const NULL_CERTIFICATE := "The certificate cannot be null"
  const NULL_REF := "The certificateRef cannot be null"
  const NULL_ORIGIN := "The origin cannot be null"
  const MANY_CURRENT := "More than one current CertificateIdentifier"

  class TokenCertificateSource {
    var identifierOrigins: LinkedMultimap<CertificateIdentifier, CertificateOrigin>
    var certificateOrigins: LinkedMultimap<CertificateToken, CertificateOrigin>
    var refOrigins: LinkedMultimap<CertificateRef, CertificateRefOrigin>
    const matcher: Matcher
    const relatedTo: Relation

    ghost predicate Valid()
      reads this
    {
      identifierOrigins.Valid() && certificateOrigins.Valid() && refOrigins.Valid()
    }

    constructor (matcher: Matcher, relatedTo: Relation)
      ensures Valid()
      ensures this.matcher == matcher && this.relatedTo == relatedTo
      ensures identifierOrigins == Empty() && certificateOrigins == Empty() && refOrigins == Empty()
    {
      this.matcher := matcher;
      this.relatedTo := relatedTo;
      identifierOrigins := Empty();
      certificateOrigins := Empty();
      refOrigins := Empty();
    }

    /** `addCertificateIdentifier`: a null argument throws and changes nothing;
        otherwise the origin is appended to the identifier's list. */
    method AddCertificateIdentifier(identifier: Option<CertificateIdentifier>, origin: Option<CertificateOrigin>)
      returns (outcome: Outcome)
      requires Valid()
      modifies this
      ensures Valid()
      ensures identifier.None? ==> outcome == Fail(NullArgument(NULL_IDENTIFIER))
      ensures identifier.Some? && origin.None? ==> outcome == Fail(NullArgument(NULL_ORIGIN))
      ensures outcome.Pass? <==> identifier.Some? && origin.Some?
      ensures identifierOrigins ==
        if outcome.Pass? then Add(old(identifierOrigins), identifier.value, origin.value)
        else old(identifierOrigins)
      ensures certificateOrigins == old(certificateOrigins) && refOrigins == old(refOrigins)
    {
      if identifier.None? {
        return Fail(NullArgument(NULL_IDENTIFIER));
      }
      if origin.None? {
        return Fail(NullArgument(NULL_ORIGIN));
      }
      identifierOrigins := Add(identifierOrigins, identifier.value, origin.value);
      return Pass;
    }

    /** `addCertificate`: as above, for the certificate map. */
    method AddCertificate(certificate: Option<CertificateToken>, origin: Option<CertificateOrigin>)
      returns (outcome: Outcome)
      requires Valid()
      modifies this
      ensures Valid()
      ensures certificate.None? ==> outcome == Fail(NullArgument(NULL_CERTIFICATE))
      ensures certificate.Some? && origin.None? ==> outcome == Fail(NullArgument(NULL_ORIGIN))
      ensures outcome.Pass? <==> certificate.Some? && origin.Some?
      ensures certificateOrigins ==
        if outcome.Pass? then Add(old(certificateOrigins), certificate.value, origin.value)
        else old(certificateOrigins)
      ensures identifierOrigins == old(identifierOrigins) && refOrigins == old(refOrigins)
    {
      if certificate.None? {
        return Fail(NullArgument(NULL_CERTIFICATE));
      }
      if origin.None? {
        return Fail(NullArgument(NULL_ORIGIN));
      }
      certificateOrigins := Add(certificateOrigins, certificate.value, origin.value);
      return Pass;
    }

    /** `addCertificateRef`: as above, for the reference map. */
    method AddCertificateRef(ref: Option<CertificateRef>, origin: Option<CertificateRefOrigin>)
      returns (outcome: Outcome)
      requires Valid()
      modifies this
      ensures Valid()
      ensures ref.None? ==> outcome == Fail(NullArgument(NULL_REF))
      ensures ref.Some? && origin.None? ==> outcome == Fail(NullArgument(NULL_ORIGIN))
      ensures outcome.Pass? <==> ref.Some? && origin.Some?
      ensures refOrigins ==
        if outcome.Pass? then Add(old(refOrigins), ref.value, origin.value)
        else old(refOrigins)
      ensures identifierOrigins == old(identifierOrigins) && certificateOrigins == old(certificateOrigins)
    {
      if ref.None? {
        return Fail(NullArgument(NULL_REF));
      }
      if origin.None? {
        return Fail(NullArgument(NULL_ORIGIN));
      }
      refOrigins := Add(refOrigins, ref.value, origin.value);
      return Pass;
    }

    /** `getReferencesForCertificateToken`: the stored references the matcher
        ties to the token, in insertion order. */
    method GetReferencesForCertificateToken(token: CertificateToken) returns (result: seq<CertificateRef>)
      requires Valid()
      ensures result == Filter(refOrigins.keys, MatchesToken(matcher, token))
      ensures forall r :: r in result <==> r in refOrigins.keys && matcher(token, r)
    {
      var keys := refOrigins.keys;
      result := [];
      var i := 0;
      while i < |keys|
        invariant 0 <= i <= |keys|
        invariant result == Filter(keys[..i], MatchesToken(matcher, token))
      {
        assert keys[..i + 1][..i] == keys[..i];
        if matcher(token, keys[i]) {
          result := result + [keys[i]];
        }
        i := i + 1;
      }
      assert keys[..i] == keys;
    }

    /** `getAllCertificateIdentifiers`: the identifier key set, in insertion order. */
    function AllCertificateIdentifiers(): (ids: seq<CertificateIdentifier>)
      reads this
      requires Valid()
      ensures Distinct(ids)
      ensures forall id :: id in ids <==> |Get(identifierOrigins, id)| > 0
    {
      identifierOrigins.keys
    }

    /** `getAllCertificateRefs`: the reference key set, in insertion order. */
    function AllCertificateRefs(): (refs: seq<CertificateRef>)
      reads this
      requires Valid()
      ensures Distinct(refs)
      ensures forall r :: r in refs <==> |Get(refOrigins, r)| > 0
    {
      refOrigins.keys
    }

    /** `getCurrentCertificateIdentifier`: the one identifier flagged current,
        none when there is none, and an IllegalStateException for two or more. */
    method GetCurrentCertificateIdentifier() returns (result: Result<Option<CertificateIdentifier>>)
      requires Valid()
      ensures var cs := Filter(identifierOrigins.keys, IsCurrent);
        && (|cs| == 0 <==> result == Success(None))
        && (|cs| == 1 <==> result.Success? && result.value.Some?)
        && (|cs| == 1 ==> result == Success(Some(cs[0])))
        && (|cs| >= 2 <==> result == Failure(IllegalState(MANY_CURRENT)))
    {
      var keys := identifierOrigins.keys;
      var current: Option<CertificateIdentifier> := None;
      var i := 0;
      while i < |keys|
        invariant 0 <= i <= |keys|
        invariant |Filter(keys[..i], IsCurrent)| <= 1
        invariant current == if |Filter(keys[..i], IsCurrent)| == 0 then None
                             else Some(Filter(keys[..i], IsCurrent)[0])
      {
        assert keys[..i + 1][..i] == keys[..i];
        if keys[i].current {
          if current.Some? {
            FilterPrefix(keys, i + 1, IsCurrent);
            return Failure(IllegalState(MANY_CURRENT));
          }
          current := Some(keys[i]);
        }
        i := i + 1;
      }
      assert keys[..i] == keys;
      return Success(current);
    }

    /** `isOrphan`: no stored certificate matches the reference. */
    method IsOrphan(ref: CertificateRef) returns (orphan: bool)
      requires Valid()
      ensures orphan <==> Orphan(certificateOrigins.keys, matcher, ref)
    {
      var tokens := certificateOrigins.keys;
      var i := 0;
      while i < |tokens|
        invariant 0 <= i <= |tokens|
        invariant forall t :: t in tokens[..i] ==> !matcher(t, ref)
      {
        if matcher(tokens[i], ref) {
          return false;
        }
        assert tokens[..i + 1] == tokens[..i] + [tokens[i]];
        i := i + 1;
      }
      assert tokens[..i] == tokens;
      return true;
    }

    /** `getOrphanCertificateRefs`: the stored references that no stored
        certificate matches, in insertion order. */
    method GetOrphanCertificateRefs() returns (result: seq<CertificateRef>)
      requires Valid()
      ensures result == Filter(refOrigins.keys, OrphanIn(certificateOrigins.keys, matcher))
      ensures forall r :: r in result <==>
        r in refOrigins.keys && forall t :: t in certificateOrigins.keys ==> !matcher(t, r)
    {
      var keys := refOrigins.keys;
      result := [];
      var i := 0;
      while i < |keys|
        invariant 0 <= i <= |keys|
        invariant result == Filter(keys[..i], OrphanIn(certificateOrigins.keys, matcher))
      {
        assert keys[..i + 1][..i] == keys[..i];
        var orphan := IsOrphan(keys[i]);
        if orphan {
          result := result + [keys[i]];
        }
        i := i + 1;
      }
      assert keys[..i] == keys;
    }

    /** `getCertificateToken`: the first stored certificate the identifier is
        related to, or none. */
    method GetCertificateToken(identifier: CertificateIdentifier) returns (token: Option<CertificateToken>)
      requires Valid()
      ensures token.None? <==> forall t :: t in certificateOrigins.keys ==> !relatedTo(identifier, t)
      ensures token.Some? ==>
        && token.value in certificateOrigins.keys
        && relatedTo(identifier, token.value)
        && forall t :: t in certificateOrigins.keys[..FirstIndex(certificateOrigins.keys, token.value)] ==>
             !relatedTo(identifier, t)
    {
      var tokens := certificateOrigins.keys;
      var i := 0;
      while i < |tokens|
        invariant 0 <= i <= |tokens|
        invariant forall t :: t in tokens[..i] ==> !relatedTo(identifier, t)
      {
        if relatedTo(identifier, tokens[i]) {
          FirstIndexUnique(tokens, tokens[i], i);
          return Some(tokens[i]);
        }
        assert tokens[..i + 1] == tokens[..i] + [tokens[i]];
        i := i + 1;
      }
      assert tokens[..i] == tokens;
      return None;
    }

    /** `getCertificateTokensByOrigin`: the stored certificates found at least
        once at the given origin, in insertion order. */
    method GetCertificateTokensByOrigin(origin: CertificateOrigin) returns (result: seq<CertificateToken>)
      requires Valid()
      ensures result == Filter(certificateOrigins.keys, HasOrigin(certificateOrigins, origin))
      ensures forall t :: t in result <==> origin in Get(certificateOrigins, t)
    {
      var keys := certificateOrigins.keys;
      result := [];
      var i := 0;
      while i < |keys|
        invariant 0 <= i <= |keys|
        invariant result == Filter(keys[..i], HasOrigin(certificateOrigins, origin))
      {
        assert keys[..i + 1][..i] == keys[..i];
        var currentOrigins := Get(certificateOrigins, keys[i]);
        if |currentOrigins| > 0 && origin in currentOrigins {
          result := result + [keys[i]];
        }
        i := i + 1;
      }
      assert keys[..i] == keys;
    }

    /** `getCertificateRefsByOrigin`: the stored references found at least once
        at the given origin, in insertion order. */
    method GetCertificateRefsByOrigin(origin: CertificateRefOrigin) returns (result: seq<CertificateRef>)
      requires Valid()
      ensures result == Filter(refOrigins.keys, HasOrigin(refOrigins, origin))
      ensures forall r :: r in result <==> origin in Get(refOrigins, r)
    {
      var keys := refOrigins.keys;
      result := [];
      var i := 0;
      while i < |keys|
        invariant 0 <= i <= |keys|
        invariant result == Filter(keys[..i], HasOrigin(refOrigins, origin))
      {
        assert keys[..i + 1][..i] == keys[..i];
        var currentOrigins := Get(refOrigins, keys[i]);
        if |currentOrigins| > 0 && origin in currentOrigins {
          result := result + [keys[i]];
        }
        i := i + 1;
      }
      assert keys[..i] == keys;
    }

    /** `getCertificateRefOrigins`: the origins recorded for a known reference
        (never empty), and the empty list for an unknown one. */
    function CertificateRefOrigins(ref: CertificateRef): (origins: seq<CertificateRefOrigin>)
      reads this
      requires Valid()
      ensures ref in refOrigins.keys ==> |origins| > 0 && origins == refOrigins.lists[ref]
      ensures ref !in refOrigins.keys ==> origins == []
    {
      var origins := Get(refOrigins, ref);
      if |origins| > 0 then origins else []
    }
  }

  /** Adding a reference and then asking for its origins gives what it had
      before followed by the new origin; every other reference is unaffected. */
  lemma AddThenRefOrigins(s: TokenCertificateSource, ref: CertificateRef, origin: CertificateRefOrigin,
                          other: CertificateRef, m: LinkedMultimap<CertificateRef, CertificateRefOrigin>)
    requires s.Valid() && m.Valid()
    requires s.refOrigins == Add(m, ref, origin)
    ensures s.CertificateRefOrigins(ref) == Get(m, ref) + [origin]
    ensures other != ref ==> s.CertificateRefOrigins(other) == Get(m, other)
  {
    GetNonEmptyIffKey(s.refOrigins, ref);
    GetNonEmptyIffKey(s.refOrigins, other);
  }
}
