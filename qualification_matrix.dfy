/** The qualification of a signature (Article 32 of eIDAS) from four verdicts:
    whether it is an AdES, whether its certificate is qualified (QC), whether the
    certificate is for electronic signatures (eSig) and whether the key is on a
    qualified creation device (QSCD). */
module QualificationMatrix {

  import opened Wrappers

  datatype SignatureQualification =
    | QESIG | QES | ADESIG_QC | ADES_QC | ADESIG | ADES
    | INDETERMINATE_QESIG | INDETERMINATE_QES | INDETERMINATE_ADESIG_QC
    | INDETERMINATE_ADES_QC | INDETERMINATE_ADESIG | INDETERMINATE_ADES
    | NOT_ADES_QC_QSCD | NOT_ADES_QC | NOT_ADES

  predicate IsIndeterminate(q: SignatureQualification) {
    q in {INDETERMINATE_QESIG, INDETERMINATE_QES, INDETERMINATE_ADESIG_QC,
          INDETERMINATE_ADES_QC, INDETERMINATE_ADESIG, INDETERMINATE_ADES}
  }

  // Array indices of the four dimensions.
  const NotAdesIndex := 0
  const AdesIndex := 1
  const IndeterminateAdesIndex := 2
  const NotQc := 0
  const Qc := 1
  const NotEsig := 0
  const Esig := 1
  const NotQscd := 0
  const Qscd := 1

  /** The `QUALIFS[3][2][2][2]` array as its static initializer fills it, keyed
      by (AdES, QC, eSig, QSCD) index; a key that is absent is a null cell. */
  const QUALIFS: map<(int, int, int, int), SignatureQualification> := map[
    (AdesIndex, Qc, Esig, Qscd) := QESIG,
    (AdesIndex, Qc, NotEsig, Qscd) := QES,
    (AdesIndex, Qc, Esig, NotQscd) := ADESIG_QC,
    (AdesIndex, Qc, NotEsig, NotQscd) := ADES_QC,
    (AdesIndex, NotQc, Esig, NotQscd) := ADESIG,
    (AdesIndex, NotQc, NotEsig, NotQscd) := ADES,
    (AdesIndex, NotQc, Esig, Qscd) := ADESIG,
    (AdesIndex, NotQc, NotEsig, Qscd) := ADES,

    (IndeterminateAdesIndex, Qc, Esig, Qscd) := INDETERMINATE_QESIG,
    (IndeterminateAdesIndex, Qc, NotEsig, Qscd) := INDETERMINATE_QES,
    (IndeterminateAdesIndex, Qc, Esig, NotQscd) := INDETERMINATE_ADESIG_QC,
    (IndeterminateAdesIndex, Qc, NotEsig, NotQscd) := INDETERMINATE_ADES_QC,
    (IndeterminateAdesIndex, NotQc, Esig, NotQscd) := INDETERMINATE_ADESIG,
    (IndeterminateAdesIndex, NotQc, NotEsig, NotQscd) := INDETERMINATE_ADES,
    (IndeterminateAdesIndex, NotQc, Esig, Qscd) := INDETERMINATE_ADESIG,
    (IndeterminateAdesIndex, NotQc, NotEsig, Qscd) := INDETERMINATE_ADES,

    (NotAdesIndex, Qc, Esig, Qscd) := NOT_ADES_QC_QSCD,
    (NotAdesIndex, Qc, NotEsig, Qscd) := NOT_ADES_QC_QSCD,
    (NotAdesIndex, Qc, Esig, NotQscd) := NOT_ADES_QC,
    (NotAdesIndex, Qc, NotEsig, NotQscd) := NOT_ADES_QC,
    (NotAdesIndex, NotQc, Esig, NotQscd) := NOT_ADES,
    (NotAdesIndex, NotQc, NotEsig, NotQscd) := NOT_ADES,
    (NotAdesIndex, NotQc, Esig, Qscd) := NOT_ADES,
    (NotAdesIndex, NotQc, NotEsig, Qscd) := NOT_ADES
  ]

  /** `getInt`: 1 for true, 0 for false. */
  function GetInt(b: bool): (i: int)
    ensures 0 <= i <= 1 && (i == 1 <==> b)
  {
    if b then 1 else 0
  }

  /** `getSignatureQualification`: looks the four verdicts up in the table;
      `None` would be a null cell. */
  function GetSignatureQualification(ades: bool, qc: bool, esig: bool, qscd: bool): (r: Option<SignatureQualification>)
    ensures r == Some(Classify(if ades then AdesYes else AdesNo, qc, esig, qscd))
  {
    var key := (GetInt(ades), GetInt(qc), GetInt(esig), GetInt(qscd));
    TableFollowsRules(if ades then AdesYes else AdesNo, qc, esig, qscd);
    if key in QUALIFS then Some(QUALIFS[key]) else None
  }

  /** The AdES verdict, three-valued. */
  datatype AdesVerdict = AdesYes | AdesNo | AdesIndeterminate

  function AdesIndexOf(v: AdesVerdict): int {
    match v
    case AdesNo => NotAdesIndex
    case AdesYes => AdesIndex
    case AdesIndeterminate => IndeterminateAdesIndex
  }

  /** The INDETERMINATE_ counterpart of an AdES label. */
  function Indeterminate(q: SignatureQualification): SignatureQualification {
    match q
    case QESIG => INDETERMINATE_QESIG
    case QES => INDETERMINATE_QES
    case ADESIG_QC => INDETERMINATE_ADESIG_QC
    case ADES_QC => INDETERMINATE_ADES_QC
    case ADESIG => INDETERMINATE_ADESIG
    case ADES => INDETERMINATE_ADES
    case _ => q
  }

  /** The classification rules, stated independently of the table. */
  function Classify(ades: AdesVerdict, qc: bool, esig: bool, qscd: bool): SignatureQualification
    decreases if ades.AdesIndeterminate? then 1 else 0
  {
    match ades
    case AdesYes =>
      if qc && qscd then (if esig then QESIG else QES)
      else if qc then (if esig then ADESIG_QC else ADES_QC)
      else (if esig then ADESIG else ADES)
    case AdesIndeterminate => Indeterminate(Classify(AdesYes, qc, esig, qscd))
    case AdesNo =>
      if qc then (if qscd then NOT_ADES_QC_QSCD else NOT_ADES_QC)
      else NOT_ADES
  }

  /** All 24 cells of the table are filled, each with the label the rules give. */
  lemma TableFollowsRules(ades: AdesVerdict, qc: bool, esig: bool, qscd: bool)
    ensures var key := (AdesIndexOf(ades), GetInt(qc), GetInt(esig), GetInt(qscd));
      key in QUALIFS && QUALIFS[key] == Classify(ades, qc, esig, qscd)
  {
  }

  /** The table has exactly those 24 cells: no index outside the array. */
  lemma TableDomain()
    ensures forall a, q, e, s :: (a, q, e, s) in QUALIFS <==>
      0 <= a < 3 && 0 <= q < 2 && 0 <= e < 2 && 0 <= s < 2
  {
  }

  /** Totality: every boolean input gets a non-null label, the one the rules
      give for a definite AdES verdict. */
  lemma SignatureQualificationTotal(ades: bool, qc: bool, esig: bool, qscd: bool)
    ensures GetSignatureQualification(ades, qc, esig, qscd) ==
      Some(Classify(if ades then AdesYes else AdesNo, qc, esig, qscd))
  {
    TableFollowsRules(if ades then AdesYes else AdesNo, qc, esig, qscd);
  }

  /** The INDETERMINATE_ADES row is filled but cannot be reached through the
      boolean entry point. */
  lemma NeverIndeterminate(ades: bool, qc: bool, esig: bool, qscd: bool)
    ensures GetSignatureQualification(ades, qc, esig, qscd).Some?
    ensures !IsIndeterminate(GetSignatureQualification(ades, qc, esig, qscd).value)
  {
    SignatureQualificationTotal(ades, qc, esig, qscd);
  }

  /** The INDETERMINATE_ADES row mirrors the ADES row label by label. */
  lemma IndeterminateRowMirrorsAdesRow(q: int, e: int, s: int)
    requires 0 <= q < 2 && 0 <= e < 2 && 0 <= s < 2
    ensures (IndeterminateAdesIndex, q, e, s) in QUALIFS && (AdesIndex, q, e, s) in QUALIFS
    ensures QUALIFS[(IndeterminateAdesIndex, q, e, s)] == Indeterminate(QUALIFS[(AdesIndex, q, e, s)])
    ensures IsIndeterminate(QUALIFS[(IndeterminateAdesIndex, q, e, s)])
  {
  }

  lemma QualifiedRow(esig: bool)
    ensures GetSignatureQualification(true, true, esig, true) == Some(if esig then QESIG else QES)
  {
    SignatureQualificationTotal(true, true, esig, true);
  }

  lemma AdesQcRow(esig: bool)
    ensures GetSignatureQualification(true, true, esig, false) == Some(if esig then ADESIG_QC else ADES_QC)
  {
    SignatureQualificationTotal(true, true, esig, false);
  }

  lemma AdesNotQcRow(esig: bool, qscd: bool)
    ensures GetSignatureQualification(true, false, esig, qscd) == Some(if esig then ADESIG else ADES)
  {
    SignatureQualificationTotal(true, false, esig, qscd);
  }

  lemma NotAdesQcRow(esig: bool, qscd: bool)
    ensures GetSignatureQualification(false, true, esig, qscd) ==
      Some(if qscd then NOT_ADES_QC_QSCD else NOT_ADES_QC)
  {
    SignatureQualificationTotal(false, true, esig, qscd);
  }

  lemma NotAdesNotQcRow(esig: bool, qscd: bool)
    ensures GetSignatureQualification(false, false, esig, qscd) == Some(NOT_ADES)
  {
    SignatureQualificationTotal(false, false, esig, qscd);
  }
}
