/** The check that a timestamp's message imprint was found and matches the
    data it covers. */
module TimestampMessageImprintCheck {

  import opened Wrappers
  import opened ChainItems

  /** What the check reads of the timestamp; `productionTime` in milliseconds. */
  datatype TimestampWrapper = TimestampWrapper(
    id: string, timestampType: TimestampType, productionTime: int,
    messageImprintDataFound: bool, messageImprintDataIntact: bool)

  /** The TIMESTAMP_VALIDATION message: the timestamp's type, then its id, then
      its production time. */
  function BuildAdditionalInfo(ts: TimestampWrapper): (m: Message)
    ensures m.tag == TIMESTAMP_VALIDATION && |m.args| == 3
    ensures m.args[0] == TimestampTypeArg(ts.timestampType)
    ensures m.args[1] == IdArg(ts.id) && m.args[2] == DateArg(ts.productionTime)
  {
    Message(TIMESTAMP_VALIDATION, [TimestampTypeArg(ts.timestampType), IdArg(ts.id), DateArg(ts.productionTime)])
  }

  /** The check as a chain item, identified by the timestamp's id. */
  function Check(ts: TimestampWrapper, level: Level): (item: CheckItem)
    ensures item.id == Some(ts.id) && item.level == level
    ensures item.holds <==> ts.messageImprintDataFound && ts.messageImprintDataIntact
    ensures item.successTag == BBB_SAV_DMICTSTMCMI && item.errorTag == BBB_SAV_DMICTSTMCMI_ANS
    ensures item.failedIndication == INDETERMINATE && item.failedSubIndication == SIG_CONSTRAINTS_FAILURE
    ensures item.additionalInfo == Some(BuildAdditionalInfo(ts))
  {
    CheckItem(
      Some(ts.id), level,
      ts.messageImprintDataFound && ts.messageImprintDataIntact,
      BBB_SAV_DMICTSTMCMI, BBB_SAV_DMICTSTMCMI_ANS,
      INDETERMINATE, SIG_CONSTRAINTS_FAILURE,
      Some(BuildAdditionalInfo(ts)))
  }

  /** At FAIL level: one constraint under BBB_SAV_DMICTSTMCMI, OK exactly when
      the imprint is found and intact; otherwise NOT_OK with
      BBB_SAV_DMICTSTMCMI_ANS, INDETERMINATE / SIG_CONSTRAINTS_FAILURE and a
      stop. The additional info names the timestamp's type, id and time. */
  lemma ExecuteTimestampMessageImprintCheck(c: Conclusion, ts: TimestampWrapper)
    requires c.verdict.None?
    ensures var s := Execute(c, Check(ts, FAIL));
      var ok := ts.messageImprintDataFound && ts.messageImprintDataIntact;
      && |s.conclusion.constraints| == |c.constraints| + 1
      && var last := s.conclusion.constraints[|c.constraints|];
         && last.id == Some(ts.id)
         && last.name == BBB_SAV_DMICTSTMCMI
         && (last.status == OK <==> ok)
         && (!ok ==> last.status == NOT_OK && last.problem == Some(BBB_SAV_DMICTSTMCMI_ANS))
         && last.additionalInfo == Some(Message(TIMESTAMP_VALIDATION,
              [TimestampTypeArg(ts.timestampType), IdArg(ts.id), DateArg(ts.productionTime)]))
         && (s.proceed <==> ok)
         && (!ok <==> s.conclusion.verdict == Some(Verdict(INDETERMINATE, SIG_CONSTRAINTS_FAILURE, BBB_SAV_DMICTSTMCMI_ANS)))
  {
    ExecuteAtFailLevel(c, Check(ts, FAIL));
  }
}
