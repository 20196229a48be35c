# DSS signature-validation core, modelled in Dafny

This project models the core of the DSS (Digital Signature Services) validation engine:

- **`TokenCertificates`**. `TokenCertificateSource` is the per-token registry of the certificates, certificate identifiers and certificate references found in a signature or timestamp. Each entry records the origins it was found under. The model is a class with three insertion-ordered multimaps. They stand for Java's `LinkedHashMap<K, List<V>>` and are defined in `LinkedMultimaps`.
- **`BaselineRequirements`**. The format-independent minimal requirements of the baseline T, LT and LTA profiles. Also the two helpers: "the signing certificate is in this collection" and "the signature policy carries a hash".
- **`QualificationMatrix`**. The table that turns the AdES, QC, e-signature and QSCD verdicts into a signature qualification label. It is proved against an independent statement of the classification rules.
- **`ChainItems`**. One validation check run at a policy level (FAIL, WARN, INFORM, IGNORE). It appends its constraint record to the conclusion and, when a FAIL-level check fails, sets the verdict and stops the chain. Three checks are modelled on top of it:
  - `TimestampMessageImprintCheck`
  - `CertificateSemanticsIdentifierCheck`
  - the additional information of `DigestMatcherCryptographicCheckerResultCheck`
- **`LotlPivots`**. The choice of the certificates allowed to sign the current List of Trusted Lists (LOTL). The pivot URL list is reversed in place so it runs oldest first. The configured signers are then replaced, pivot by pivot, by the signers each pivot announces. A pivot's signers are adopted only if that pivot validates against the signers in force at that point.

Nulls are modelled as `Option`. `Objects.requireNonNull` and `IllegalStateException` become `Failure`/`Fail` values carrying the source's message.

Collaborators whose code is not part of this model become function-typed parameters or fields:

- the certificate matcher;
- `isRelatedToCertificate`;
- the offline revocation-completeness validation;
- the multi-value policy constraint;
- pivot validation together with the cache read that follows it.

Three behaviours of the code worth noting:

- **LT with no relevant certificate.** `allSelfSigned` is set only when at least one certificate was found. So an empty set with revocation data present goes to the revocation oracle, and the answer can be true (`BaselineRequirements.LTEmptyCertificateSetConsultsOracle`).
- **Policy hash.** `isSignaturePolicyIdentifierHashPresent` checks only that the digest and its algorithm are non-null; the digest value is never read (`BaselineRequirements.PolicyHashIgnoresDigestValue`).
- **T with no signing certificate.** `minimalTRequirement` skips the expiry comparison when the signing certificate is null, so one signature timestamp suffices.

## Model

| member | source | states |
|---|---|---|
| TokenCertificates.TokenCertificateSource.constructor | dss-spi/src/main/java/eu/europa/esig/dss/spi/x509/TokenCertificateSource.java:46-54 | A new source has three empty origin maps and satisfies the registry invariant. |
| TokenCertificates.TokenCertificateSource.AddCertificateIdentifier | dss-spi/src/main/java/eu/europa/esig/dss/spi/x509/TokenCertificateSource.java:62-66 | A null identifier and then a null origin each fail with the source's message and change nothing. Otherwise the origin is appended to the identifier's list, and a new identifier is registered last. The other two maps are unchanged and the invariant is kept. |
| TokenCertificates.TokenCertificateSource.AddCertificate | dss-spi/src/main/java/eu/europa/esig/dss/spi/x509/TokenCertificateSource.java:74-78 | The same for certificates: the null checks in order, then the origin appended under the certificate in insertion order. Nothing else changes. |
| TokenCertificates.TokenCertificateSource.AddCertificateRef | dss-spi/src/main/java/eu/europa/esig/dss/spi/x509/TokenCertificateSource.java:88-92 | The same for certificate references. |
| TokenCertificates.TokenCertificateSource.GetReferencesForCertificateToken | dss-spi/src/main/java/eu/europa/esig/dss/spi/x509/TokenCertificateSource.java:101-109 | Returns exactly the registered references the matcher pairs with the token, in registration order. |
| TokenCertificates.TokenCertificateSource.AllCertificateIdentifiers | dss-spi/src/main/java/eu/europa/esig/dss/spi/x509/TokenCertificateSource.java:133-135 | Returns the identifiers without duplicates: exactly those with at least one origin. |
| TokenCertificates.TokenCertificateSource.GetCurrentCertificateIdentifier | dss-spi/src/main/java/eu/europa/esig/dss/spi/x509/TokenCertificateSource.java:144-155 | No current identifier gives null. Exactly one gives that identifier. Two or more give the IllegalState failure. Each of the three is an if-and-only-if. |
| TokenCertificates.TokenCertificateSource.AllCertificateRefs | dss-spi/src/main/java/eu/europa/esig/dss/spi/x509/TokenCertificateSource.java:162-164 | Returns the references without duplicates: exactly those with at least one origin. |
| TokenCertificates.TokenCertificateSource.GetOrphanCertificateRefs | dss-spi/src/main/java/eu/europa/esig/dss/spi/x509/TokenCertificateSource.java:170-178 | Returns exactly the registered references that match no registered certificate, in registration order. |
| TokenCertificates.TokenCertificateSource.IsOrphan | dss-spi/src/main/java/eu/europa/esig/dss/spi/x509/TokenCertificateSource.java:180-187 | True if and only if no registered certificate matches the reference. |
| TokenCertificates.TokenCertificateSource.GetCertificateToken | dss-spi/src/main/java/eu/europa/esig/dss/spi/x509/TokenCertificateSource.java:189-196 | Null if and only if no registered certificate is related to the identifier. Otherwise it is the first related certificate in registration order. |
| TokenCertificates.TokenCertificateSource.GetCertificateTokensByOrigin | dss-spi/src/main/java/eu/europa/esig/dss/spi/x509/TokenCertificateSource.java:198-207 | Returns exactly the certificates whose origin list contains the origin, in registration order. |
| TokenCertificates.TokenCertificateSource.GetCertificateRefsByOrigin | dss-spi/src/main/java/eu/europa/esig/dss/spi/x509/TokenCertificateSource.java:209-218 | Returns exactly the references whose origin list contains the origin, in registration order. |
| TokenCertificates.TokenCertificateSource.CertificateRefOrigins | dss-spi/src/main/java/eu/europa/esig/dss/spi/x509/TokenCertificateSource.java:226-232 | A registered reference gives its non-empty origin list. An unknown one gives the empty list, never null. |
| TokenCertificates.AddThenRefOrigins | dss-spi/src/main/java/eu/europa/esig/dss/spi/x509/TokenCertificateSource.java:226-232 | After adding a reference with an origin, its origins are the old ones plus that origin. Other references keep theirs. |
| LinkedMultimaps.Add | dss-spi/src/main/java/eu/europa/esig/dss/spi/x509/TokenCertificateSource.java:65 | `computeIfAbsent(k, new list).add(v)`: appends to k's list and adds k last if it is new. Other keys are untouched. |
| LinkedMultimaps.AddAllAccumulates | dss-spi/src/main/java/eu/europa/esig/dss/spi/x509/TokenCertificateSource.java:65 | After a run of additions, a key's list is its old list followed by the values added under it, in order. |
| LinkedMultimaps.AddAllKeepsInsertionOrder | dss-spi/src/main/java/eu/europa/esig/dss/spi/x509/TokenCertificateSource.java:46-50 | Keys are distinct and are exactly the keys added. They are in the order of each key's first insertion. |
| Seqs.FilterOrdered | dss-spi/src/main/java/eu/europa/esig/dss/spi/x509/TokenCertificateSource.java:103-107 | Filtering the distinct key list keeps the result distinct and in key order. |
| BaselineRequirements.AllCreatedBefore | dss-document/src/main/java/eu/europa/esig/dss/validation/BaselineRequirementsChecker.java:84-89 | The early-exit scan is true if and only if every timestamp is strictly before the expiry. |
| BaselineRequirements.MinimalTRequirement | dss-document/src/main/java/eu/europa/esig/dss/validation/BaselineRequirementsChecker.java:76-92 | True if and only if there is at least one signature timestamp and, when the signing certificate is known, every one was created strictly before its notAfter. |
| BaselineRequirements.TimestampAtExpiryDeniesT | dss-document/src/main/java/eu/europa/esig/dss/validation/BaselineRequirementsChecker.java:85 | `before` is strict: a timestamp made exactly at expiry denies T. |
| BaselineRequirements.ListCertificateSource.constructor | dss-document/src/main/java/eu/europa/esig/dss/validation/BaselineRequirementsChecker.java:124 | A list source starts with the one source it is built from. |
| BaselineRequirements.ListCertificateSource.AddAll | dss-document/src/main/java/eu/europa/esig/dss/validation/BaselineRequirementsChecker.java:125-126 | Appends the given sources after the existing ones. |
| BaselineRequirements.GetCertificateSourcesExceptLastArchiveTimestamp | dss-document/src/main/java/eu/europa/esig/dss/validation/BaselineRequirementsChecker.java:123-128 | A fresh list holds the signature's source, then the timestamp sources except the last archive timestamp's, then the counter-signature sources. |
| BaselineRequirements.RelevantCertificates | dss-document/src/main/java/eu/europa/esig/dss/validation/BaselineRequirementsChecker.java:123-128 | A certificate is relevant if and only if it is in the signature's source, in a timestamp source other than the last archive's, or in a counter-signature source. |
| BaselineRequirements.LTRequirement | dss-document/src/main/java/eu/europa/esig/dss/validation/BaselineRequirementsChecker.java:99-116 | A null verifier fails if and only if so, with the source's message. Otherwise the answer is true if and only if all three hold: some CRL or OCSP is present, the relevant set is empty or holds a non-self-signed certificate, and the revocation oracle accepts the relevant set. |
| BaselineRequirements.MinimalLTRequirement | dss-document/src/main/java/eu/europa/esig/dss/validation/BaselineRequirementsChecker.java:99-116 | The step-by-step method gives exactly `LTRequirement`. |
| BaselineRequirements.LTShortCircuitsIgnoreOracle | dss-document/src/main/java/eu/europa/esig/dss/validation/BaselineRequirementsChecker.java:110-115 | No revocation data, or a non-empty all-self-signed set, gives false whatever the oracle says. |
| BaselineRequirements.LTEmptyCertificateSetConsultsOracle | dss-document/src/main/java/eu/europa/esig/dss/validation/BaselineRequirementsChecker.java:103-104 | With revocation data present, an empty relevant set is not all self-signed. The oracle decides, and can answer either way. |
| BaselineRequirements.MinimalLTARequirement | dss-document/src/main/java/eu/europa/esig/dss/validation/BaselineRequirementsChecker.java:152-158 | True if and only if there is an archive timestamp. |
| BaselineRequirements.ContainsSigningCertificate | dss-document/src/main/java/eu/europa/esig/dss/validation/BaselineRequirementsChecker.java:166-174 | True if and only if the signing certificate is non-null and equal to a member. An empty collection gives false. |
| BaselineRequirements.IsSignaturePolicyIdentifierHashPresent | dss-document/src/main/java/eu/europa/esig/dss/validation/BaselineRequirementsChecker.java:182-191 | True if and only if a policy is declared whose digest is non-null and names an algorithm. |
| BaselineRequirements.PolicyHashIgnoresDigestValue | dss-document/src/main/java/eu/europa/esig/dss/validation/BaselineRequirementsChecker.java:186-188 | A digest with an algorithm and a null value still counts as a hash. |
| QualificationMatrix.GetInt | validation-policy/src/main/java/eu/europa/esig/dss/validation/process/art32/qualification/QualificationMatrix.java:75-77 | The index is 0 or 1, and 1 exactly for true. |
| QualificationMatrix.GetSignatureQualification | validation-policy/src/main/java/eu/europa/esig/dss/validation/process/art32/qualification/QualificationMatrix.java:71-73 | The lookup of the `QUALIFS` table (lines 23-69) by the four indices never meets a null cell, and returns the label the classification rules give for a definite AdES verdict. |
| QualificationMatrix.TableFollowsRules | validation-policy/src/main/java/eu/europa/esig/dss/validation/process/art32/qualification/QualificationMatrix.java:23-69 | For every AdES verdict and QC/e-sig/QSCD flag, the cell is filled and equals the label the classification rules give. |
| QualificationMatrix.TableDomain | validation-policy/src/main/java/eu/europa/esig/dss/validation/process/art32/qualification/QualificationMatrix.java:23 | The filled cells are exactly the 3x2x2x2 index space. |
| QualificationMatrix.SignatureQualificationTotal | validation-policy/src/main/java/eu/europa/esig/dss/validation/process/art32/qualification/QualificationMatrix.java:71-73 | The lookup never meets a null cell and gives the rules' label for a definite AdES verdict. |
| QualificationMatrix.NeverIndeterminate | validation-policy/src/main/java/eu/europa/esig/dss/validation/process/art32/qualification/QualificationMatrix.java:71-73 | The boolean entry point never returns an INDETERMINATE_ label. |
| QualificationMatrix.IndeterminateRowMirrorsAdesRow | validation-policy/src/main/java/eu/europa/esig/dss/validation/process/art32/qualification/QualificationMatrix.java:41-53 | Every indeterminate-AdES cell is the INDETERMINATE_ form of the matching AdES cell. |
| QualificationMatrix.QualifiedRow | validation-policy/src/main/java/eu/europa/esig/dss/validation/process/art32/qualification/QualificationMatrix.java:29-30 | AdES, QC and QSCD give QESIG or QES, by the e-sig flag. |
| QualificationMatrix.AdesQcRow | validation-policy/src/main/java/eu/europa/esig/dss/validation/process/art32/qualification/QualificationMatrix.java:32-33 | AdES and QC without QSCD give ADESIG_QC or ADES_QC. |
| QualificationMatrix.AdesNotQcRow | validation-policy/src/main/java/eu/europa/esig/dss/validation/process/art32/qualification/QualificationMatrix.java:35-39 | AdES without QC gives ADESIG or ADES, whatever QSCD says. |
| QualificationMatrix.NotAdesQcRow | validation-policy/src/main/java/eu/europa/esig/dss/validation/process/art32/qualification/QualificationMatrix.java:57-61 | Not AdES with QC gives NOT_ADES_QC_QSCD or NOT_ADES_QC, by QSCD alone. |
| QualificationMatrix.NotAdesNotQcRow | validation-policy/src/main/java/eu/europa/esig/dss/validation/process/art32/qualification/QualificationMatrix.java:63-67 | Not AdES without QC is NOT_ADES. |
| ChainItems.Execute | validation-policy/src/test/java/eu/europa/esig/dss/validation/process/bbb/xcv/sub/CertificateOnHoldCheckTest.java:48-86 | The tests back the FAIL-level part: one record, OK if the check holds, NOT_OK if not. The rest is assumed about `ChainItem`, whose code is not part of this model. IGNORE leaves the conclusion unchanged. Any other level appends exactly one constraint: OK if and only if the check holds. On failure it carries the error tag and is NOT_OK, WARNING or INFORMATION by level. The chain proceeds unless the check fails at FAIL level. The first verdict is never overwritten. |
| ChainItems.ExecuteAtFailLevel | validation-policy/src/test/java/eu/europa/esig/dss/validation/process/bbb/xcv/sub/CertificateOnHoldCheckTest.java:62-85 | At FAIL level the one appended record is OK or NOT_OK. A failure sets the check's indication, sub-indication and error tag as the verdict. |
| TimestampMessageImprintCheck.BuildAdditionalInfo | validation-policy/src/main/java/eu/europa/esig/dss/validation/process/vpfltvd/checks/TimestampMessageImprintCheck.java:51-56 | The additional info is the TIMESTAMP_VALIDATION message naming the timestamp's type, then its id, then its production time. |
| TimestampMessageImprintCheck.Check | validation-policy/src/main/java/eu/europa/esig/dss/validation/process/vpfltvd/checks/TimestampMessageImprintCheck.java:30-66 | The chain item carries the timestamp's id and the policy level. It holds exactly when the message imprint is found and intact. Its tags are BBB_SAV_DMICTSTMCMI and BBB_SAV_DMICTSTMCMI_ANS, its failure indication INDETERMINATE/SIG_CONSTRAINTS_FAILURE, and it carries the TIMESTAMP_VALIDATION additional info. |
| TimestampMessageImprintCheck.ExecuteTimestampMessageImprintCheck | validation-policy/src/main/java/eu/europa/esig/dss/validation/process/vpfltvd/checks/TimestampMessageImprintCheck.java:36-66 | OK under BBB_SAV_DMICTSTMCMI if and only if the imprint is found and intact. Otherwise NOT_OK with BBB_SAV_DMICTSTMCMI_ANS, verdict INDETERMINATE/SIG_CONSTRAINTS_FAILURE, and a stop. The additional info carries the type, id and production time. |
| CertificateSemanticsIdentifierCheck.CheckedValues | validation-policy/src/main/java/eu/europa/esig/dss/validation/process/bbb/xcv/sub/checks/CertificateSemanticsIdentifierCheck.java:40-49 | No identifier gives the empty list if and only if so. An identifier gives exactly (name, OID, description). |
| CertificateSemanticsIdentifierCheck.Check | validation-policy/src/main/java/eu/europa/esig/dss/validation/process/bbb/xcv/sub/checks/CertificateSemanticsIdentifierCheck.java:33-69 | The chain item runs at the constraint's level. It holds exactly when the policy accepts the collected values. Its tags are BBB_XCV_CMDCSCSIA and BBB_XCV_CMDCSCSIA_ANS, and its failure indication is INDETERMINATE/CHAIN_CONSTRAINTS_FAILURE. |
| CertificateSemanticsIdentifierCheck.ExecuteCertificateSemanticsIdentifierCheck | validation-policy/src/main/java/eu/europa/esig/dss/validation/process/bbb/xcv/sub/checks/CertificateSemanticsIdentifierCheck.java:39-69 | OK under BBB_XCV_CMDCSCSIA if and only if the policy accepts those values. Otherwise NOT_OK with BBB_XCV_CMDCSCSIA_ANS and INDETERMINATE/CHAIN_CONSTRAINTS_FAILURE. |
| DigestMatcherCryptographicCheckerResultCheck.BuildAdditionalInfo | validation-policy/src/main/java/eu/europa/esig/dss/validation/process/bbb/sav/checks/DigestMatcherCryptographicCheckerResultCheck.java:42-62 | Each of the following is an if-and-only-if. A success tag means the check was valid. A WITH_NAME tag and a reference-name argument mean the name is non-null and non-empty. An algorithm argument means the check passed. An error argument means it failed. The date is always present. |
| DigestMatcherCryptographicCheckerResultCheck.AdditionalInfoBranches | validation-policy/src/main/java/eu/europa/esig/dss/validation/process/bbb/sav/checks/DigestMatcherCryptographicCheckerResultCheck.java:42-62 | The four messages, each with its arguments in the source's order. |
| LotlPivots.Reverse | dss-tsl-validation2/src/main/java/eu/europa/esig/dss/tsl/runnable/LOTLWithPivotsAnalysis.java:99 | The pivot URL array is reversed in place. |
| LotlPivots.Adopt | dss-tsl-validation2/src/main/java/eu/europa/esig/dss/tsl/runnable/LOTLWithPivotsAnalysis.java:103-117 | One pivot step keeps the signers in force or switches to the pivot's announced signers. It switches exactly when the pivot has a processing result that validates against the signers in force. |
| LotlPivots.PivotFold | dss-tsl-validation2/src/main/java/eu/europa/esig/dss/tsl/runnable/LOTLWithPivotsAnalysis.java:101-120 | The walk over the pivots, oldest first. If no pivot has a processing result, the signers in force stay unchanged. |
| LotlPivots.CurrentLOTLSigCertificatesFromPivots | dss-tsl-validation2/src/main/java/eu/europa/esig/dss/tsl/runnable/LOTLWithPivotsAnalysis.java:85-121 | Leaves the URLs reversed. Returns the signers obtained by walking the pivots oldest first, adopting a pivot's signers only if its result exists and it validates against the signers in force. |
| LotlPivots.CurrentLOTLSigCertificates | dss-tsl-validation2/src/main/java/eu/europa/esig/dss/tsl/runnable/LOTLWithPivotsAnalysis.java:63-83 | No parsing result, or no pivot, gives the configured certificates. Otherwise the result is the pivot walk over the reversed list. |
| LotlPivots.PivotFoldAppend | dss-tsl-validation2/src/main/java/eu/europa/esig/dss/tsl/runnable/LOTLWithPivotsAnalysis.java:101-118 | The walk is sequential: walking a+b is walking b from the signers a ended with. |
| LotlPivots.LastValidatingPivotWins | dss-tsl-validation2/src/main/java/eu/europa/esig/dss/tsl/runnable/LOTLWithPivotsAnalysis.java:105-111 | If the last pivot validates against the signers left by the older ones, its announced signers are the result. |
| LotlPivots.NoValidatingPivotKeepsInitial | dss-tsl-validation2/src/main/java/eu/europa/esig/dss/tsl/runnable/LOTLWithPivotsAnalysis.java:101-120 | If no pivot validates against the configured signers, those stay in force. |
| LotlPivots.ResultIsInitialOrAdopted | dss-tsl-validation2/src/main/java/eu/europa/esig/dss/tsl/runnable/LOTLWithPivotsAnalysis.java:101-120 | The final signers are the configured ones or those announced by some processed pivot. |

## Left out

- `hasBaselineBProfile`, `hasBaselineTProfile`, `hasBaselineLTProfile`, `hasBaselineLTAProfile`: abstract in `BaselineRequirementsChecker`, with no behaviour to model.
- Logging calls (`LOG.trace`, `LOG.warn`, `LOG.error`) are not modelled. They have no effect on results.
- `isAllRevocationDataPresent` (chain building and revocation lookup in a fresh `SignatureValidationContext`) is an oracle on the signature and the relevant certificate set. The revocation coverage rules are not part of this model.
- `ListCertificateSource`: its code is not part of this model. `BaselineRequirements.ListCertificateSource` is a stand-in, an appended list of sources. It assumes `getAllCertificateTokens` is the union of the sources' certificates, `getNumberOfCertificates` the size of that union, and `isAllSelfSigned` "every certificate of the union is self-signed". If `isAllSelfSigned` is instead decided source by source (an empty source not counting as self-signed, say), the all-self-signed short-circuit of `LTRequirement` fires in fewer cases than modelled.
- Which archive timestamp is "last" is decided by the timestamp source, which is not part of this model. The timestamp sources arrive already without it.
- Revocation sources are reduced to their lists of binaries, since only their emptiness is read. `Date` values are integers (milliseconds).
- `TokenCertificateSource.addCertificate`: the call to the parent `CommonCertificateSource.addCertificate` (line 79) is not modelled. `CommonCertificateSource` is not part of this model.
- `findTokensFromRefs` is not modelled. It unions `findTokensFromCertRef`, which lives in `CommonCertificateSource`.
- The certificate matcher (`certificateMatcher.match`) and `CertificateIdentifier.isRelatedToCertificate` are oracles fixed at construction.
- Java's `equals`/`hashCode` on certificates, identifiers and references is Dafny value equality.
- `processValuesCheck`: its comparison of values with the policy's accepted list is an oracle.
- `CertificateSemanticsIdentifierCheck.ExecuteCertificateSemanticsIdentifierCheck`: does not state the additional info. That comes from the parent multi-value check, which is not part of this model.
- `isValid(ccResult)`, `getErrorMessage()` and `getVerifiedAlgorithm().getName()` are fields of the check result.
- Message rendering (i18n, `getFormattedDate`, `getTimestampTypeMessageTag`) is kept as a tag with typed arguments, not text.
- `ChainItem` (`execute`, the chain link to the next item, `getFailedIndicationForConclusion`) is not part of this model, and `ChainItems.Execute` is a stand-in for it. Only its FAIL-level behaviour (one record, OK or NOT_OK) is backed by tests in the repository. The rest is assumed: WARN and INFORM failures record WARNING and INFORMATION and go on, an IGNORE-level check leaves no record, and the first verdict set is kept.
- `TimestampMessageImprintCheck.ExecuteTimestampMessageImprintCheck`: stated at FAIL level. Other levels follow from `ChainItems.Execute`.
- `LOTLWithPivotsAnalysis.run`: the download, `lotlParsing` (which fills the cache the analysis then reads) and the latch are I/O. The model starts from the cached parsing result.
- `downloadAndParseAllPivots` and the executor shutdown are threads and network access. The model takes their outcome as a map from URL to processing result. A URL whose future failed is missing from the map.
- `validation(pivot, signers)` followed by `getValidationResult(cacheKey)` is one oracle: "a cached result exists and is valid". How cached results are written is not modelled.
