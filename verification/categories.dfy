/** `scoring_component`, the components grouped by category, and
    `scoring_component_entries`, the single dictionary built from it by
    updating with one category after the other. The description texts are
    not modelled: an entry records the category its description came from. */
module Categories {
  import opened Components

  /** The components each category lists, in the order of the categories:
      basic physical properties, similarity and cheminformatics, physics and
      ligand based, QSAR/QSPR models, drug-likeness and reactions, generic
      components, LinkInvent linker properties. */
  const ScoringCategories: seq<seq<Component>> := [
    [SlogP, MolecularWeight, TPSA, GraphLength, NumAtomStereoCenters, HBondAcceptors,
     HBondDonors, NumRotBond, Csp3, numsp, numsp2, numsp3, NumHeavyAtoms, NumHeteroAtoms,
     NumRings, NumAromaticRings, NumAliphaticRings, PMI, MolVolume],
    [CustomAlerts, GroupCount, MatchingSubstructure, TanimotoSimilarity, MMP, ROCSSimilarity],
    [DockStream],
    [AutoQSAR, DeepQSAR, pADME],
    [QED, SAScore, ReactionFilter],
    [ExternalProcess, REST],
    [FragmentMolecularWeight, FragmentGraphLength, FragmentHBondAcceptors, FragmentHBondDonors,
     FragmentNumRotBond, Fragmentnumsp, Fragmentnumsp2, Fragmentnumsp3, FragmentNumRings,
     FragmentNumAromaticRings, FragmentNumAliphaticRings]
  ]

  /** `entries.update(category)`: every component the category lists now
      maps to `v`; the others keep their entry. */
  function Assign(m: map<Component, nat>, cat: seq<Component>, v: nat): (r: map<Component, nat>)
    ensures forall c :: c in r <==> c in m || c in cat
    ensures forall c :: c in r ==> r[c] == if c in cat then v else m[c]
    decreases |cat|
  {
    if |cat| == 0 then m
    else Assign(m[cat[0] := v], cat[1..], v)
  }

  /** `m` is what updating with the first `k` of `cats` in turn leaves: its
      keys are the components they list, each maps to one of them that lists
      it, and a component no later one lists maps to that one. */
  predicate Merged(cats: seq<seq<Component>>, k: nat, m: map<Component, nat>)
    requires k <= |cats|
  {
    && (forall c :: c in m <==> exists i :: 0 <= i < k && c in cats[i])
    && (forall c :: c in m ==> m[c] < k && c in cats[m[c]])
    && (forall c, i ::
          0 <= i < k && c in cats[i] && (forall j :: i < j < k ==> c !in cats[j])
          ==> c in m && m[c] == i)
  }

  /** The update loop over the first `k` categories. */
  function MergeUpTo(cats: seq<seq<Component>>, k: nat): (m: map<Component, nat>)
    requires k <= |cats|
    ensures Merged(cats, k, m)
  {
    if k == 0 then map[]
    else
      var prev := MergeUpTo(cats, k - 1);
      var m := Assign(prev, cats[k - 1], k - 1);
      MergeDomain(cats, k, prev, m);
      MergeLast(cats, k, prev, m);
      m
  }

  lemma MergeDomain(cats: seq<seq<Component>>, k: nat, prev: map<Component, nat>, m: map<Component, nat>)
    requires 0 < k <= |cats|
    requires forall c :: c in prev <==> exists i :: 0 <= i < k - 1 && c in cats[i]
    requires forall c :: c in m <==> c in prev || c in cats[k - 1]
    ensures forall c :: c in m <==> exists i :: 0 <= i < k && c in cats[i]
  {
    forall c ensures c in m <==> exists i :: 0 <= i < k && c in cats[i] {
      if c in cats[k - 1] {
        assert c in m;
      } else if c in prev {
        var i :| 0 <= i < k - 1 && c in cats[i];
      } else {
        assert c !in m;
      }
    }
  }

  lemma MergeLast(cats: seq<seq<Component>>, k: nat, prev: map<Component, nat>, m: map<Component, nat>)
    requires 0 < k <= |cats|
    requires forall c, i ::
      0 <= i < k - 1 && c in cats[i] && (forall j :: i < j < k - 1 ==> c !in cats[j])
      ==> c in prev && prev[c] == i
    requires forall c :: c in m <==> c in prev || c in cats[k - 1]
    requires forall c :: c in m ==> m[c] == if c in cats[k - 1] then k - 1 else prev[c]
    ensures forall c, i ::
      0 <= i < k && c in cats[i] && (forall j :: i < j < k ==> c !in cats[j])
      ==> c in m && m[c] == i
  {
    forall c, i | 0 <= i < k && c in cats[i] && (forall j :: i < j < k ==> c !in cats[j])
      ensures c in m && m[c] == i
    {
      if i < k - 1 {
        assert c !in cats[k - 1];
        assert forall j :: i < j < k - 1 ==> c !in cats[j];
      }
    }
  }

  /** `scoring_component_entries`. */
  function ScoringComponentEntries(): map<Component, nat> {
    MergeUpTo(ScoringCategories, |ScoringCategories|)
  }

  /** The category that lists each component. */
  function CategoryOf(c: Component): nat {
    match c
    case SlogP => 0
    case MolecularWeight => 0
    case TPSA => 0
    case GraphLength => 0
    case NumAtomStereoCenters => 0
    case HBondAcceptors => 0
    case HBondDonors => 0
    case NumRotBond => 0
    case Csp3 => 0
    case numsp => 0
    case numsp2 => 0
    case numsp3 => 0
    case NumHeavyAtoms => 0
    case NumHeteroAtoms => 0
    case NumRings => 0
    case NumAromaticRings => 0
    case NumAliphaticRings => 0
    case PMI => 0
    case MolVolume => 0
    case CustomAlerts => 1
    case GroupCount => 1
    case MatchingSubstructure => 1
    case TanimotoSimilarity => 1
    case MMP => 1
    case ROCSSimilarity => 1
    case DockStream => 2
    case AutoQSAR => 3
    case DeepQSAR => 3
    case pADME => 3
    case QED => 4
    case SAScore => 4
    case ReactionFilter => 4
    case FragmentMolecularWeight => 6
    case FragmentGraphLength => 6
    case FragmentHBondAcceptors => 6
    case FragmentHBondDonors => 6
    case FragmentNumRotBond => 6
    case Fragmentnumsp => 6
    case Fragmentnumsp2 => 6
    case Fragmentnumsp3 => 6
    case FragmentNumRings => 6
    case FragmentNumAromaticRings => 6
    case FragmentNumAliphaticRings => 6
    case ExternalProcess => 5
    case REST => 5
  }

  /** `CategoryOf` reads the table: every listing of a component is in the
      category `CategoryOf` names. */
  lemma CategoryOfListing()
    ensures forall i, a :: 0 <= i < |ScoringCategories| && 0 <= a < |ScoringCategories[i]| ==>
      CategoryOf(ScoringCategories[i][a]) == i
  {
  }

  /** ... and that category does list it. */
  lemma CategoryListsComponent()
    ensures forall c :: CategoryOf(c) < |ScoringCategories| && c in ScoringCategories[CategoryOf(c)]
  {
  }

  /** No component is listed in two categories. */
  lemma CategoriesDisjoint()
    ensures forall i, j, c ::
      0 <= i < |ScoringCategories| && 0 <= j < |ScoringCategories| &&
      c in ScoringCategories[i] && c in ScoringCategories[j]
      ==> i == j
  {
    CategoryOfListing();
    forall i, c | 0 <= i < |ScoringCategories| && c in ScoringCategories[i]
      ensures CategoryOf(c) == i
    {
      var a :| 0 <= a < |ScoringCategories[i]| && ScoringCategories[i][a] == c;
    }
  }

  /** Every component, the generic ones included, has an entry, and no
      `update` overwrites another category's: each entry is the category
      that lists the component. So `write_scor_component`'s lookup of a
      selected component never fails. */
  lemma EntriesAreCategories()
    ensures forall c :: c in ScoringComponentEntries() && ScoringComponentEntries()[c] == CategoryOf(c)
  {
    CategoryListsComponent();
    CategoriesDisjoint();
    var cats := ScoringCategories;
    forall c ensures c in ScoringComponentEntries() && ScoringComponentEntries()[c] == CategoryOf(c) {
      var i := CategoryOf(c);
      assert forall j :: i < j < |cats| ==> c !in cats[j];
    }
  }
}
