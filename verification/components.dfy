/** The scoring components the form offers, the `scor_comp` list that
    orders them, and `scoring_keys`, the name each is written under in the
    generated configuration. */
module Components {
  import opened Wrappers

  /** Every scoring component the tables mention: the 43 of `scor_comp`, then
      the two generic components only the category table lists. */
  datatype Component =
    | SlogP | MolecularWeight | TPSA | GraphLength | NumAtomStereoCenters
    | HBondAcceptors | HBondDonors | NumRotBond | Csp3 | numsp
    | numsp2 | numsp3 | NumHeavyAtoms | NumHeteroAtoms | NumRings
    | NumAromaticRings | NumAliphaticRings | PMI | MolVolume | CustomAlerts
    | GroupCount | MatchingSubstructure | TanimotoSimilarity | MMP | ROCSSimilarity
    | DockStream | AutoQSAR | DeepQSAR | pADME | QED
    | SAScore | ReactionFilter | FragmentMolecularWeight | FragmentGraphLength | FragmentHBondAcceptors
    | FragmentHBondDonors | FragmentNumRotBond | Fragmentnumsp | Fragmentnumsp2 | Fragmentnumsp3
    | FragmentNumRings | FragmentNumAromaticRings | FragmentNumAliphaticRings | ExternalProcess | REST

  /** `scor_comp`, the options of the scoring-component selector. */
  const ScorComp: seq<Component> := [
    SlogP, MolecularWeight, TPSA, GraphLength, NumAtomStereoCenters, HBondAcceptors,
    HBondDonors, NumRotBond, Csp3, numsp, numsp2, numsp3, NumHeavyAtoms, NumHeteroAtoms,
    NumRings, NumAromaticRings, NumAliphaticRings, PMI, MolVolume, CustomAlerts, GroupCount,
    MatchingSubstructure, TanimotoSimilarity, MMP, ROCSSimilarity, DockStream, AutoQSAR,
    DeepQSAR, pADME, QED, SAScore, ReactionFilter, FragmentMolecularWeight, FragmentGraphLength,
    FragmentHBondAcceptors, FragmentHBondDonors, FragmentNumRotBond, Fragmentnumsp,
    Fragmentnumsp2, Fragmentnumsp3, FragmentNumRings, FragmentNumAromaticRings,
    FragmentNumAliphaticRings
  ]

  /** Whether `c` is one of the two generic components, which `scor_comp`
      leaves commented out. */
  predicate Generic(c: Component) {
    c == ExternalProcess || c == REST
  }

  /** `scor_comp` lists every component but the generic ones. */
  lemma ScorCompListsNonGeneric()
    ensures forall c :: c in ScorComp <==> !Generic(c)
  {
  }

  /** `scoring_keys[c]`; `None` for a component that is not a key. */
  function ScoringKey(c: Component): Option<string> {
    if Generic(c) then None else Some(KeyName(c))
  }

  /** The value `scoring_keys` gives a component it lists. */
  function KeyName(c: Component): string
    requires !Generic(c)
  {
    match c
    case SlogP => "SlogP"
    case MolecularWeight => "MolecularWeight"
    case TPSA => "TPSA"
    case GraphLength => "GraphLength"
    case NumAtomStereoCenters => "NumAtomStereoCenters"
    case HBondAcceptors => "HBondAcceptors"
    case HBondDonors => "HBondDonors"
    case NumRotBond => "NumRotBond"
    case Csp3 => "Csp3"
    case numsp => "numsp"
    case numsp2 => "numsp2"
    case numsp3 => "numsp3"
    case NumHeavyAtoms => "NumHeavyAtoms"
    case NumHeteroAtoms => "NumHeteroAtoms"
    case NumRings => "NumRings"
    case NumAromaticRings => "NumAromaticRings"
    case NumAliphaticRings => "NumAliphaticRings"
    case PMI => "PMI"
    case MolVolume => "MolVolume"
    case CustomAlerts => "custom_alerts"
    case GroupCount => "GroupCount"
    case MatchingSubstructure => "MatchingSubstructure"
    case TanimotoSimilarity => "TanimotoDistance"
    case MMP => "MMP"
    case ROCSSimilarity => "ROCSSimilarity"
    case DockStream => "DockStream"
    case AutoQSAR => "AutoQSAR"
    case DeepQSAR => "DeepQSAR"
    case pADME => "PADME"
    case QED => "QED"
    case SAScore => "SAScore"
    case ReactionFilter => "ReactionFilter"
    case FragmentMolecularWeight => "FragmentMolecularWeight"
    case FragmentGraphLength => "FragmentGraphLength"
    case FragmentHBondAcceptors => "FragmentHBondAcceptors"
    case FragmentHBondDonors => "FragmentHBondDonors"
    case FragmentNumRotBond => "FragmentNumRotBond"
    case Fragmentnumsp => "Fragmentnumsp"
    case Fragmentnumsp2 => "Fragmentnumsp2"
    case Fragmentnumsp3 => "Fragmentnumsp3"
    case FragmentNumRings => "FragmentNumRings"
    case FragmentNumAromaticRings => "FragmentNumAromaticRings"
    case FragmentNumAliphaticRings => "FragmentNumAliphaticRings"
    case ExternalProcess => assert false; ""
    case REST => assert false; ""
  }

  /** The keys of `scoring_keys` are the components of `scor_comp`, so the
      lookup `write_scor_component` makes with a selected component never
      fails. */
  lemma ScoringKeysCoverScorComp()
    ensures forall c :: ScoringKey(c).Some? <==> c in ScorComp
  {
    ScorCompListsNonGeneric();
  }
}
