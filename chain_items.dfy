/** One link of the chain of checks: a rule with a configured level, the tags
    it reports under, the verdict it imposes when it fails at FAIL level and the
    extra information it attaches. `Execute` is the step every check performs on
    the shared conclusion it reports into. */
module ChainItems {

  import opened Wrappers

  datatype Level = FAIL | WARN | INFORM | IGNORE

  datatype Status = OK | NOT_OK | WARNING | INFORMATION

  datatype Indication = PASSED | INDETERMINATE | FAILED

  datatype SubIndication =
    | SIG_CONSTRAINTS_FAILURE | CHAIN_CONSTRAINTS_FAILURE | CRYPTO_CONSTRAINTS_FAILURE
    | FORMAT_FAILURE | HASH_FAILURE | SIG_CRYPTO_FAILURE | NO_SIGNING_CERTIFICATE_FOUND

  /** The message tags the modelled checks use, including the positions a
      digest check can report for. */
  datatype MessageTag =
    | BBB_SAV_DMICTSTMCMI | BBB_SAV_DMICTSTMCMI_ANS
    | BBB_XCV_CMDCSCSIA | BBB_XCV_CMDCSCSIA_ANS
    | TIMESTAMP_VALIDATION
    | CRYPTOGRAPHIC_CHECK_SUCCESS_DM | CRYPTOGRAPHIC_CHECK_SUCCESS_DM_WITH_NAME
    | CRYPTOGRAPHIC_CHECK_FAILURE_WITH_REF | CRYPTOGRAPHIC_CHECK_FAILURE_WITH_REF_WITH_NAME
    | ACCM_POS_REF | ACCM_POS_MESS_IMP | ACCM_POS_SIG_CERT_REF

  datatype TimestampType =
    | CONTENT_TIMESTAMP | SIGNATURE_TIMESTAMP | VALIDATION_DATA_REFSONLY_TIMESTAMP
    | VALIDATION_DATA_TIMESTAMP | ARCHIVE_TIMESTAMP

  /** A message argument, marked with the role it plays; dates stay integers
      and are not formatted. */
  datatype Arg =
    | TagArg(tag: MessageTag)
    | TimestampTypeArg(timestampType: TimestampType)   // rendered through its type tag
    | IdArg(id: string)
    | DateArg(date: int)
    | AlgorithmArg(algorithm: string)
    | ReferenceNameArg(name: string)
    | ErrorArg(error: string)

  /** A message as (tag, arguments), before i18n rendering. */
  datatype Message = Message(tag: MessageTag, args: seq<Arg>)

  /** One reported constraint: the check's tag, its status and, when the status
      is not OK, the tag of the problem. */
  datatype Constraint = Constraint(
    id: Option<string>, name: MessageTag, status: Status,
    problem: Option<MessageTag>, additionalInfo: Option<Message>)

  datatype Verdict = Verdict(indication: Indication, subIndication: SubIndication, error: MessageTag)

  /** The conclusion a chain reports into: its constraints in order, and the
      verdict imposed by the first check that failed at FAIL level. */
  datatype Conclusion = Conclusion(constraints: seq<Constraint>, verdict: Option<Verdict>)

  /** What a concrete check supplies: `holds` is the value of its `process()`. */
  datatype CheckItem = CheckItem(
    id: Option<string>, level: Level, holds: bool,
    successTag: MessageTag, errorTag: MessageTag,
    failedIndication: Indication, failedSubIndication: SubIndication,
    additionalInfo: Option<Message>)

  /** The conclusion after a check, and whether the chain goes on to the next. */
  datatype Step = Step(conclusion: Conclusion, proceed: bool)

  function StatusFor(level: Level, holds: bool): Status {
    if holds then OK
    else match level
      case FAIL => NOT_OK
      case WARN => WARNING
      case INFORM => INFORMATION
      case IGNORE => OK
  }

  /** Runs one check. An IGNORE-level check is not evaluated and leaves no
      trace. Any other level appends exactly one constraint, OK when the check
      holds; a failure at FAIL level also sets the verdict, unless an earlier
      failure already did, and stops the chain. */
  function Execute(c: Conclusion, item: CheckItem): (s: Step)
    ensures item.level == IGNORE ==> s == Step(c, true)
    ensures item.level != IGNORE ==>
      && |s.conclusion.constraints| == |c.constraints| + 1
      && s.conclusion.constraints[..|c.constraints|] == c.constraints
      && var last := s.conclusion.constraints[|c.constraints|];
         && last.id == item.id && last.name == item.successTag
         && last.additionalInfo == item.additionalInfo
         && (last.status == OK <==> item.holds)
         && (last.problem.Some? <==> !item.holds)
         && (!item.holds ==> last.problem == Some(item.errorTag))
         && (!item.holds && item.level == FAIL ==> last.status == NOT_OK)
         && (!item.holds && item.level == WARN ==> last.status == WARNING)
         && (!item.holds && item.level == INFORM ==> last.status == INFORMATION)
    ensures s.proceed <==> !(item.level == FAIL && !item.holds)
    ensures c.verdict.Some? ==> s.conclusion.verdict == c.verdict
    ensures c.verdict.None? ==> (s.conclusion.verdict.Some? <==> item.level == FAIL && !item.holds)
  {
    if item.level == IGNORE then Step(c, true)
    else
      var record := Constraint(item.id, item.successTag, StatusFor(item.level, item.holds),
                               if item.holds then None else Some(item.errorTag), item.additionalInfo);
      var constraints := c.constraints + [record];
      if item.level == FAIL && !item.holds then
        var verdict := if c.verdict.Some? then c.verdict
                       else Some(Verdict(item.failedIndication, item.failedSubIndication, item.errorTag));
        Step(Conclusion(constraints, verdict), false)
      else
        Step(Conclusion(constraints, c.verdict), true)
  }

  /** At FAIL level a check appends exactly one constraint, OK when it holds
      and NOT_OK with its error tag and failure verdict when it does not. */
  lemma ExecuteAtFailLevel(c: Conclusion, item: CheckItem)
    requires item.level == FAIL
    ensures var s := Execute(c, item);
      && s.conclusion.constraints == c.constraints + [Constraint(
           item.id, item.successTag, if item.holds then OK else NOT_OK,
           if item.holds then None else Some(item.errorTag), item.additionalInfo)]
      && (!item.holds && c.verdict.None? ==>
            s.conclusion.verdict == Some(Verdict(item.failedIndication, item.failedSubIndication, item.errorTag)))
  {
  }
}
