/** The check of a certificate's QCStatement SemanticsIdentifier against the
    values a policy accepts. */
module CertificateSemanticsIdentifierCheck {

  import opened Wrappers
  import opened ChainItems

  datatype SemanticsIdentifier = SemanticsIdentifier(name: string, oid: string, description: string)

  datatype CertificateWrapper = CertificateWrapper(id: string, semanticsIdentifier: Option<SemanticsIdentifier>)

  /** A multi-value policy constraint; `accepts` is `processValuesCheck`, whose
      comparison of the values with the policy's list is not part of this model. */
  datatype MultiValuesConstraint = MultiValuesConstraint(level: Level, accepts: seq<string> -> bool)

  /** The values `process()` hands to the multi-value check. */
  function CheckedValues(certificate: CertificateWrapper): (values: seq<string>)
    ensures certificate.semanticsIdentifier.None? <==> values == []
    ensures certificate.semanticsIdentifier.Some? ==>
      var si := certificate.semanticsIdentifier.value;
      |values| == 3 && values[0] == si.name && values[1] == si.oid && values[2] == si.description
  {
    var values := [];
    match certificate.semanticsIdentifier
    case None => values
    case Some(si) => values + [si.name] + [si.oid] + [si.description]
  }

  /** The check as a chain item at the constraint's level; it holds exactly
      when the policy accepts the values `process()` collects. */
  function Check(certificate: CertificateWrapper, constraint: MultiValuesConstraint): (item: CheckItem)
    ensures item.level == constraint.level
    ensures item.holds <==> constraint.accepts(CheckedValues(certificate))
    ensures item.successTag == BBB_XCV_CMDCSCSIA && item.errorTag == BBB_XCV_CMDCSCSIA_ANS
    ensures item.failedIndication == INDETERMINATE && item.failedSubIndication == CHAIN_CONSTRAINTS_FAILURE
  {
    CheckItem(
      None, constraint.level,
      constraint.accepts(CheckedValues(certificate)),
      BBB_XCV_CMDCSCSIA, BBB_XCV_CMDCSCSIA_ANS,
      INDETERMINATE, CHAIN_CONSTRAINTS_FAILURE,
      None)
  }

  /** At FAIL level: one constraint under BBB_XCV_CMDCSCSIA, OK exactly when the
      policy accepts the identifier's (name, OID, description), or the empty
      list when there is none; otherwise NOT_OK with BBB_XCV_CMDCSCSIA_ANS and
      INDETERMINATE / CHAIN_CONSTRAINTS_FAILURE. */
  lemma ExecuteCertificateSemanticsIdentifierCheck(c: Conclusion, certificate: CertificateWrapper,
                                                    constraint: MultiValuesConstraint)
    requires constraint.level == FAIL && c.verdict.None?
    ensures var s := Execute(c, Check(certificate, constraint));
      var ok := match certificate.semanticsIdentifier
        case None => constraint.accepts([])
        case Some(si) => constraint.accepts([si.name, si.oid, si.description]);
      && |s.conclusion.constraints| == |c.constraints| + 1
      && var last := s.conclusion.constraints[|c.constraints|];
         && last.name == BBB_XCV_CMDCSCSIA
         && (last.status == OK <==> ok)
         && (!ok ==> last.status == NOT_OK && last.problem == Some(BBB_XCV_CMDCSCSIA_ANS))
         && (!ok <==> s.conclusion.verdict == Some(Verdict(INDETERMINATE, CHAIN_CONSTRAINTS_FAILURE, BBB_XCV_CMDCSCSIA_ANS)))
  {
    ExecuteAtFailLevel(c, Check(certificate, constraint));
    var values := CheckedValues(certificate);
    if certificate.semanticsIdentifier.Some? {
      var si := certificate.semanticsIdentifier.value;
      assert values == [si.name, si.oid, si.description];
    }
  }
}
