/** The extra information reported by the cryptographic check of a digest
    matcher (a reference, a message imprint, ...). */
module DigestMatcherCryptographicCheckerResultCheck {

  import opened Wrappers
  import opened ChainItems

  /** The cryptographic check's result: whether it passed (`isValid`), the
      algorithm it verified and the error text `getErrorMessage` renders from it. */
  datatype CryptographicCheckResult = CryptographicCheckResult(
    valid: bool, verifiedAlgorithm: string, errorMessage: string)

  /** `Utils.isStringNotEmpty`: non-null and at least one character. */
  predicate IsStringNotEmpty(s: Option<string>) {
    s.Some? && |s.value| > 0
  }

  /** `buildAdditionalInfo`: success or failure message, each with or without
      the reference name. */
  function BuildAdditionalInfo(validationDate: int, position: MessageTag, referenceName: Option<string>,
                               cc: CryptographicCheckResult): (m: Message)
    ensures cc.valid <==> m.tag in {CRYPTOGRAPHIC_CHECK_SUCCESS_DM, CRYPTOGRAPHIC_CHECK_SUCCESS_DM_WITH_NAME}
    ensures IsStringNotEmpty(referenceName) <==>
      m.tag in {CRYPTOGRAPHIC_CHECK_SUCCESS_DM_WITH_NAME, CRYPTOGRAPHIC_CHECK_FAILURE_WITH_REF_WITH_NAME}
    ensures (exists n :: ReferenceNameArg(n) in m.args) <==> IsStringNotEmpty(referenceName)
    ensures IsStringNotEmpty(referenceName) ==> ReferenceNameArg(referenceName.value) in m.args
    ensures (exists a :: AlgorithmArg(a) in m.args) <==> cc.valid
    ensures (exists e :: ErrorArg(e) in m.args) <==> !cc.valid
    ensures DateArg(validationDate) in m.args
  {
    var dateTime := DateArg(validationDate);
    if cc.valid then
      if IsStringNotEmpty(referenceName) then
        Message(CRYPTOGRAPHIC_CHECK_SUCCESS_DM_WITH_NAME,
                [AlgorithmArg(cc.verifiedAlgorithm), dateTime, TagArg(position), ReferenceNameArg(referenceName.value)])
      else
        var m := Message(CRYPTOGRAPHIC_CHECK_SUCCESS_DM, [AlgorithmArg(cc.verifiedAlgorithm), dateTime, TagArg(position)]);
        assert AlgorithmArg(cc.verifiedAlgorithm) in m.args;
        m
    else
      if IsStringNotEmpty(referenceName) then
        Message(CRYPTOGRAPHIC_CHECK_FAILURE_WITH_REF_WITH_NAME,
                [ErrorArg(cc.errorMessage), ReferenceNameArg(referenceName.value), dateTime])
      else
        var m := Message(CRYPTOGRAPHIC_CHECK_FAILURE_WITH_REF, [ErrorArg(cc.errorMessage), dateTime]);
        assert ErrorArg(cc.errorMessage) in m.args;
        m
  }

  /** The four messages with their arguments in order. */
  lemma AdditionalInfoBranches(validationDate: int, position: MessageTag, referenceName: Option<string>,
                               cc: CryptographicCheckResult)
    ensures var m := BuildAdditionalInfo(validationDate, position, referenceName, cc);
      var named := IsStringNotEmpty(referenceName);
      && (cc.valid && named ==> m == Message(CRYPTOGRAPHIC_CHECK_SUCCESS_DM_WITH_NAME,
            [AlgorithmArg(cc.verifiedAlgorithm), DateArg(validationDate), TagArg(position), ReferenceNameArg(referenceName.value)]))
      && (cc.valid && !named ==> m == Message(CRYPTOGRAPHIC_CHECK_SUCCESS_DM,
            [AlgorithmArg(cc.verifiedAlgorithm), DateArg(validationDate), TagArg(position)]))
      && (!cc.valid && named ==> m == Message(CRYPTOGRAPHIC_CHECK_FAILURE_WITH_REF_WITH_NAME,
            [ErrorArg(cc.errorMessage), ReferenceNameArg(referenceName.value), DateArg(validationDate)]))
      && (!cc.valid && !named ==> m == Message(CRYPTOGRAPHIC_CHECK_FAILURE_WITH_REF,
            [ErrorArg(cc.errorMessage), DateArg(validationDate)]))
  {
  }
}
