/** Which certificates may sign the current List of Trusted Lists (LOTL): the
    configured ones, replaced in turn by the signer set each pivot LOTL
    declares, provided that pivot validates against the signers then in force.
    Pivots are walked from the oldest to the newest. */
module LotlPivots {

  import opened Wrappers
  import opened X509

  datatype Document = Document(bytes: seq<bv8>)

  /** A downloaded and parsed pivot: its document and the LOTL signing
      certificates it announces. */
  datatype PivotProcessingResult = PivotProcessingResult(pivot: Document, lotlSigCerts: seq<CertificateToken>)

  /** The cached parsing result of the current LOTL; its pivot URL list is
      newest first, as published, and is reversed in place by the analysis. */
  datatype LOTLParsingResult = LOTLParsingResult(pivotURLs: array<string>)

  /** `validation(pivot, signers)` followed by reading the pivot's validation
      result from the cache: true when a result is there and it is valid. */
  type PivotValidation = (string, Document, seq<CertificateToken>) -> bool

  function Reversed<T>(s: seq<T>): (r: seq<T>)
    ensures |r| == |s|
  {
    seq(|s|, i requires 0 <= i < |s| => s[|s| - 1 - i])
  }

  /** One iteration of the pivot loop. A pivot without a processing result, or
      one that does not validate against `current`, leaves `current` as it is. */
  function Adopt(current: seq<CertificateToken>, url: string,
                 results: map<string, PivotProcessingResult>, valid: PivotValidation): (next: seq<CertificateToken>)
    ensures next == current || (url in results && next == results[url].lotlSigCerts)
    ensures url in results && valid(url, results[url].pivot, current) ==> next == results[url].lotlSigCerts
    ensures !(url in results && valid(url, results[url].pivot, current)) ==> next == current
  {
    if url in results && valid(url, results[url].pivot, current) then results[url].lotlSigCerts
    else current
  }

  /** The signer set after walking `urls` in order from `current`. */
  function PivotFold(current: seq<CertificateToken>, urls: seq<string>,
                     results: map<string, PivotProcessingResult>, valid: PivotValidation): (r: seq<CertificateToken>)
    ensures (forall u :: u in urls ==> u !in results) ==> r == current
    decreases |urls|
  {
    if urls == [] then current
    else PivotFold(Adopt(current, urls[0], results, valid), urls[1..], results, valid)
  }

  /** `Collections.reverse`, in place. */
  method Reverse(a: array<string>)
    modifies a
    ensures a[..] == Reversed(old(a[..]))
  {
    var lo, hi := 0, a.Length - 1;
    while lo < hi
      invariant 0 <= lo && hi == a.Length - 1 - lo && lo <= hi + 1
      invariant forall k :: 0 <= k < lo ==> a[k] == old(a[a.Length - 1 - k]) && a[a.Length - 1 - k] == old(a[k])
      invariant forall k :: lo <= k <= hi ==> a[k] == old(a[k])
    {
      a[lo], a[hi] := a[hi], a[lo];
      lo, hi := lo + 1, hi - 1;
    }
  }

  /** `getCurrentLOTLSigCertificatesFromPivots`: reverses the pivot URLs to
      oldest first, then validates each pivot against the signers in force and
      adopts its signers when it validates. */
  method CurrentLOTLSigCertificatesFromPivots(initialSigCerts: seq<CertificateToken>, pivotURLs: array<string>,
                                              processingResults: map<string, PivotProcessingResult>,
                                              valid: PivotValidation)
    returns (currentSigCerts: seq<CertificateToken>)
    modifies pivotURLs
    ensures pivotURLs[..] == Reversed(old(pivotURLs[..]))
    ensures currentSigCerts == PivotFold(initialSigCerts, pivotURLs[..], processingResults, valid)
  {
    Reverse(pivotURLs);
    currentSigCerts := initialSigCerts;
    var i := 0;
    while i < pivotURLs.Length
      invariant 0 <= i <= pivotURLs.Length
      invariant pivotURLs[..] == Reversed(old(pivotURLs[..]))
      invariant PivotFold(currentSigCerts, pivotURLs[i..], processingResults, valid)
             == PivotFold(initialSigCerts, pivotURLs[..], processingResults, valid)
    {
      var pivotUrl := pivotURLs[i];
      assert pivotURLs[i..][1..] == pivotURLs[i + 1..];
      if pivotUrl in processingResults {
        var pivotProcessingResult := processingResults[pivotUrl];
        if valid(pivotUrl, pivotProcessingResult.pivot, currentSigCerts) {
          currentSigCerts := pivotProcessingResult.lotlSigCerts;
        }
      }
      i := i + 1;
    }
    assert pivotURLs[i..] == [];
  }

  /** `getCurrentLOTLSigCertificates`: the configured certificates when there is
      no cached parsing result or no pivot; otherwise the pivot walk. */
  method CurrentLOTLSigCertificates(initialSigCerts: seq<CertificateToken>, parsing: Option<LOTLParsingResult>,
                                    processingResults: map<string, PivotProcessingResult>,
                                    valid: PivotValidation)
    returns (signers: seq<CertificateToken>)
    modifies if parsing.Some? then {parsing.value.pivotURLs} else {}
    ensures parsing.None? ==> signers == initialSigCerts
    ensures parsing.Some? && parsing.value.pivotURLs.Length == 0 ==> signers == initialSigCerts
    ensures parsing.Some? ==>
      && parsing.value.pivotURLs[..] == Reversed(old(parsing.value.pivotURLs[..]))
      && signers == PivotFold(initialSigCerts, Reversed(old(parsing.value.pivotURLs[..])), processingResults, valid)
  {
    signers := [];
    if parsing.Some? {
      var pivotURLs := parsing.value.pivotURLs;
      if pivotURLs.Length == 0 {
        signers := signers + initialSigCerts;
        assert pivotURLs[..] == Reversed(old(pivotURLs[..]));
      } else {
        var fromPivots := CurrentLOTLSigCertificatesFromPivots(initialSigCerts, pivotURLs, processingResults, valid);
        signers := signers + fromPivots;
      }
    } else {
      signers := signers + initialSigCerts;
    }
  }

  /** The walk is sequential: walking `a + b` is walking `b` from where `a` ended. */
  lemma {:induction false} PivotFoldAppend(current: seq<CertificateToken>, a: seq<string>, b: seq<string>,
                                           results: map<string, PivotProcessingResult>, valid: PivotValidation)
    ensures PivotFold(current, a + b, results, valid) ==
            PivotFold(PivotFold(current, a, results, valid), b, results, valid)
    decreases |a|
  {
    if a != [] {
      assert (a + b)[1..] == a[1..] + b;
      PivotFoldAppend(Adopt(current, a[0], results, valid), a[1..], b, results, valid);
    } else {
      assert a + b == b;
    }
  }

  /** A pivot that validates against the signers in force after the pivots
      before it fixes the signer set when it is the last one. */
  lemma LastValidatingPivotWins(current: seq<CertificateToken>, older: seq<string>, url: string,
                                results: map<string, PivotProcessingResult>, valid: PivotValidation)
    requires url in results
    requires valid(url, results[url].pivot, PivotFold(current, older, results, valid))
    ensures PivotFold(current, older + [url], results, valid) == results[url].lotlSigCerts
  {
    PivotFoldAppend(current, older, [url], results, valid);
  }

  /** If no pivot validates against the configured certificates, the configured
      certificates stay in force to the end. */
  lemma {:induction false} NoValidatingPivotKeepsInitial(initial: seq<CertificateToken>, urls: seq<string>,
                                                        results: map<string, PivotProcessingResult>,
                                                        valid: PivotValidation)
    requires forall u :: u in urls && u in results ==> !valid(u, results[u].pivot, initial)
    ensures PivotFold(initial, urls, results, valid) == initial
    decreases |urls|
  {
    if urls != [] {
      assert Adopt(initial, urls[0], results, valid) == initial;
      NoValidatingPivotKeepsInitial(initial, urls[1..], results, valid);
    }
  }

  /** The signer set in force at the end is the configured one or the one some
      processed pivot declared. */
  lemma {:induction false} ResultIsInitialOrAdopted(current: seq<CertificateToken>, urls: seq<string>,
                                                    results: map<string, PivotProcessingResult>,
                                                    valid: PivotValidation)
    ensures var r := PivotFold(current, urls, results, valid);
      r == current || exists u :: u in urls && u in results && r == results[u].lotlSigCerts
    decreases |urls|
  {
    if urls != [] {
      var next := Adopt(current, urls[0], results, valid);
      ResultIsInitialOrAdopted(next, urls[1..], results, valid);
      var r := PivotFold(current, urls, results, valid);
      if r == next && next != current {
        assert urls[0] in urls && urls[0] in results && r == results[urls[0]].lotlSigCerts;
      } else if r != next {
        var u :| u in urls[1..] && u in results && r == results[u].lotlSigCerts;
        assert u in urls;
      }
    }
  }
}
