/** The spelling of each scoring component, kept apart from the tables that
    only need to tell components apart. */
module ComponentNames {
  import opened Wrappers
  import opened Components

  /** The component's spelling as a dictionary key and in the form. */
  function Name(c: Component): string {
    match c
    case SlogP => "SlogP"
    case MolecularWeight => "MolecularWeight"
    case TPSA => "TPSA"
    case GraphLength => "GraphLength"
    case NumAtomStereoCenters => "NumAtomStereoCenters"
    case HBondAcceptors => "HBondAcceptors"
    case HBondDonors => "HBondDonors"
    case NumRotBond => "NumRotBond"
    case Csp3 => "Csp3"
    case numsp => "numsp"
    case numsp2 => "numsp2"
    case numsp3 => "numsp3"
    case NumHeavyAtoms => "NumHeavyAtoms"
    case NumHeteroAtoms => "NumHeteroAtoms"
    case NumRings => "NumRings"
    case NumAromaticRings => "NumAromaticRings"
    case NumAliphaticRings => "NumAliphaticRings"
    case PMI => "PMI"
    case MolVolume => "MolVolume"
    case CustomAlerts => "CustomAlerts"
    case GroupCount => "GroupCount"
    case MatchingSubstructure => "MatchingSubstructure"
    case TanimotoSimilarity => "TanimotoSimilarity"
    case MMP => "MMP"
    case ROCSSimilarity => "ROCSSimilarity"
    case DockStream => "DockStream"
    case AutoQSAR => "AutoQSAR"
    case DeepQSAR => "DeepQSAR"
    case pADME => "pADME"
    case QED => "QED"
    case SAScore => "SAScore"
    case ReactionFilter => "ReactionFilter"
    case FragmentMolecularWeight => "FragmentMolecularWeight"
    case FragmentGraphLength => "FragmentGraphLength"
    case FragmentHBondAcceptors => "FragmentHBondAcceptors"
    case FragmentHBondDonors => "FragmentHBondDonors"
    case FragmentNumRotBond => "FragmentNumRotBond"
    case Fragmentnumsp => "Fragmentnumsp"
    case Fragmentnumsp2 => "Fragmentnumsp2"
    case Fragmentnumsp3 => "Fragmentnumsp3"
    case FragmentNumRings => "FragmentNumRings"
    case FragmentNumAromaticRings => "FragmentNumAromaticRings"
    case FragmentNumAliphaticRings => "FragmentNumAliphaticRings"
    case ExternalProcess => "ExternalProcess"
    case REST => "REST"
  }

  /** Only three components are written into the configuration under a name
      other than their own: CustomAlerts as "custom_alerts",
      TanimotoSimilarity as "TanimotoDistance" and pADME as "PADME". */
  lemma ScoringKeyIsName(c: Component)
    ensures ScoringKey(c).Some? ==>
      ((c == CustomAlerts || c == TanimotoSimilarity || c == pADME) <==> ScoringKey(c).value != Name(c))
  {
  }
}
