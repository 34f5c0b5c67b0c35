/** `transformer_defaults`, `transformers_false` and
    `transformers_def_param`: the transformer a component starts with and
    the thresholds it proposes, and the pADME models that carry their own. */
module Defaults {
  import opened Wrappers
  import opened Kinds
  import opened Components
  import ComponentNames

  /** `transformer_defaults[c]`: `None` when `c` is not a key, otherwise the
      default transformer, itself `None` for the components that take none. */
  function TransformerDefault(c: Component): Option<Option<Kind>> {
    match c
    case SlogP => Some(Some(Sigmoid))
    case MolecularWeight => Some(Some(Sigmoid))
    case TPSA => Some(Some(Sigmoid))
    case GraphLength => Some(Some(Sigmoid))
    case NumAtomStereoCenters => Some(Some(Step))
    case HBondAcceptors => Some(Some(Step))
    case HBondDonors => Some(Some(Step))
    case NumRotBond => Some(Some(Step))
    case Csp3 => Some(Some(Step))
    case numsp => Some(Some(Step))
    case numsp2 => Some(Some(Step))
    case numsp3 => Some(Some(Step))
    case NumHeavyAtoms => Some(Some(Step))
    case NumHeteroAtoms => Some(Some(Step))
    case NumRings => Some(Some(Step))
    case NumAromaticRings => Some(Some(Step))
    case NumAliphaticRings => Some(Some(Step))
    case PMI => Some(Some(Sigmoid))
    case MolVolume => Some(Some(Sigmoid))
    case CustomAlerts => Some(None)
    case GroupCount => Some(Some(Step))
    case MatchingSubstructure => Some(None)
    case TanimotoSimilarity => Some(None)
    case MMP => Some(Some(ValueMapping))
    case ROCSSimilarity => Some(Some(Sigmoid))
    case DockStream => Some(Some(Sigmoid))
    case AutoQSAR => Some(Some(Sigmoid))
    case DeepQSAR => Some(Some(Sigmoid))
    case pADME => Some(Some(Sigmoid))
    case QED => Some(Some(Sigmoid))
    case SAScore => Some(Some(Sigmoid))
    case ReactionFilter => Some(None)
    case FragmentMolecularWeight => Some(Some(Sigmoid))
    case FragmentGraphLength => Some(Some(Sigmoid))
    case FragmentHBondAcceptors => Some(Some(Step))
    case FragmentHBondDonors => Some(Some(Step))
    case FragmentNumRotBond => Some(Some(Step))
    case Fragmentnumsp => Some(Some(Step))
    case Fragmentnumsp2 => Some(Some(Step))
    case Fragmentnumsp3 => Some(Some(Step))
    case FragmentNumRings => Some(Some(Step))
    case FragmentNumAromaticRings => Some(Some(Step))
    case FragmentNumAliphaticRings => Some(Some(Step))
    case ExternalProcess => None
    case REST => None
  }

  /** The keys of `transformer_defaults` are the components of `scor_comp`. */
  lemma TransformerDefaultsCoverScorComp()
    ensures forall c :: TransformerDefault(c).Some? <==> c in ScorComp
  {
    ScorCompListsNonGeneric();
  }

  /** The keys of `keys` whose default transformer is `None`, in order: the
      list comprehension that builds `transformers_false`. */
  function KeysWithoutTransformer(keys: seq<Component>): (r: seq<Component>)
    requires forall i :: 0 <= i < |keys| ==> TransformerDefault(keys[i]).Some?
    ensures |r| <= |keys|
    ensures forall c :: c in r <==> c in keys && TransformerDefault(c) == Some(None)
  {
    if |keys| == 0 then []
    else
      var init, last := keys[..|keys| - 1], keys[|keys| - 1];
      assert keys == init + [last];
      KeysWithoutTransformer(init) + (if TransformerDefault(last).value.None? then [last] else [])
  }

  /** `transformers_false`; the keys of `transformer_defaults` are listed in
      the order of `scor_comp`. */
  function TransformersFalse(): seq<Component> {
    TransformerDefaultsCoverScorComp();
    KeysWithoutTransformer(ScorComp)
  }

  /** The components that take no transformer are exactly CustomAlerts,
      MatchingSubstructure, TanimotoSimilarity and ReactionFilter. */
  lemma TransformersFalseExact()
    ensures forall c :: c in TransformersFalse() <==>
      c in {CustomAlerts, MatchingSubstructure, TanimotoSimilarity, ReactionFilter}
  {
    TransformerDefaultsCoverScorComp();
    ScorCompListsNonGeneric();
    NoTransformerExactly();
  }

  lemma NoTransformerExactly()
    ensures forall c :: TransformerDefault(c) == Some(None) <==>
      c in {CustomAlerts, MatchingSubstructure, TanimotoSimilarity, ReactionFilter}
  {
  }

  /** The default values `trans_para_input` receives for one component. */
  datatype Defaults = Defaults(transformer: Option<Kind>, low: Option<real>, high: Option<real>)

  /** A `transformers_def_param` entry: the defaults themselves, or, for
      pADME, a dictionary literal from model name to defaults. */
  datatype DefParam = Plain(defaults: Defaults) | Models(models: seq<(string, Defaults)>)

  /** The pADME entry as written, including its repeated "pADME5" key. */
  const PadmeDefaults: seq<(string, Defaults)> := [
    ("pADME1", Defaults(Some(Sigmoid), Some(50.0), Some(100.0))),
    ("pADME2", Defaults(Some(Sigmoid), Some(50.0), Some(100.0))),
    ("pADME3", Defaults(Some(Sigmoid), Some(50.0), Some(100.0))),
    ("pADME4", Defaults(Some(Sigmoid), Some(50.0), Some(100.0))),
    ("pADME5", Defaults(Some(Sigmoid), Some(50.0), Some(100.0))),
    ("pADME5", Defaults(Some(Sigmoid), Some(50.0), Some(100.0))),
    ("pADME6", Defaults(Some(Sigmoid), Some(50.0), Some(100.0))),
    ("pADME7", Defaults(Some(Sigmoid), Some(50.0), Some(100.0))),
    ("pADME8", Defaults(Some(Sigmoid), Some(50.0), Some(100.0))),
    ("pADME9", Defaults(Some(Sigmoid), Some(50.0), Some(100.0))),
    ("pADME10", Defaults(Some(Sigmoid), Some(50.0), Some(100.0)))
  ]

  /** `transformers_def_param[c]`; `None` when `c` is not a key. */
  function DefParamOf(c: Component): Option<DefParam> {
    match c
    case SlogP => Some(Plain(Defaults(Some(Sigmoid), Some(50.0), Some(100.0))))
    case MolecularWeight => Some(Plain(Defaults(Some(Sigmoid), Some(50.0), Some(100.0))))
    case TPSA => Some(Plain(Defaults(Some(Sigmoid), Some(50.0), Some(100.0))))
    case GraphLength => Some(Plain(Defaults(Some(Sigmoid), Some(50.0), Some(100.0))))
    case NumAtomStereoCenters => Some(Plain(Defaults(Some(Step), Some(0.0), Some(5.0))))
    case HBondAcceptors => Some(Plain(Defaults(Some(Step), Some(0.0), Some(5.0))))
    case HBondDonors => Some(Plain(Defaults(Some(Step), Some(0.0), Some(5.0))))
    case NumRotBond => Some(Plain(Defaults(Some(Step), Some(0.0), Some(5.0))))
    case Csp3 => Some(Plain(Defaults(Some(Step), Some(0.0), Some(5.0))))
    case numsp => Some(Plain(Defaults(Some(Step), Some(0.0), Some(5.0))))
    case numsp2 => Some(Plain(Defaults(Some(Step), Some(0.0), Some(5.0))))
    case numsp3 => Some(Plain(Defaults(Some(Step), Some(0.0), Some(5.0))))
    case NumHeavyAtoms => Some(Plain(Defaults(Some(Step), Some(0.0), Some(5.0))))
    case NumHeteroAtoms => Some(Plain(Defaults(Some(Step), Some(0.0), Some(5.0))))
    case NumRings => Some(Plain(Defaults(Some(Step), Some(0.0), Some(5.0))))
    case NumAromaticRings => Some(Plain(Defaults(Some(Step), Some(0.0), Some(5.0))))
    case NumAliphaticRings => Some(Plain(Defaults(Some(Step), Some(0.0), Some(5.0))))
    case PMI => Some(Plain(Defaults(Some(Sigmoid), Some(50.0), Some(100.0))))
    case MolVolume => Some(Plain(Defaults(Some(Sigmoid), Some(50.0), Some(100.0))))
    case CustomAlerts => Some(Plain(Defaults(None, None, None)))
    case GroupCount => Some(Plain(Defaults(Some(Step), Some(0.0), Some(5.0))))
    case MatchingSubstructure => Some(Plain(Defaults(None, None, None)))
    case TanimotoSimilarity => Some(Plain(Defaults(None, None, None)))
    case MMP => Some(Plain(Defaults(Some(ValueMapping), Some(0.0), Some(0.5))))
    case ROCSSimilarity => Some(Plain(Defaults(Some(Sigmoid), Some(50.0), Some(100.0))))
    case DockStream => Some(Plain(Defaults(Some(Sigmoid), Some(50.0), Some(100.0))))
    case AutoQSAR => Some(Plain(Defaults(Some(Sigmoid), Some(50.0), Some(100.0))))
    case DeepQSAR => Some(Plain(Defaults(Some(Sigmoid), Some(50.0), Some(100.0))))
    case pADME => Some(Models(PadmeDefaults))
    case QED => Some(Plain(Defaults(Some(Sigmoid), Some(50.0), Some(100.0))))
    case SAScore => Some(Plain(Defaults(Some(Sigmoid), Some(50.0), Some(100.0))))
    case ReactionFilter => Some(Plain(Defaults(None, None, None)))
    case FragmentMolecularWeight => Some(Plain(Defaults(Some(Sigmoid), Some(50.0), Some(100.0))))
    case FragmentGraphLength => Some(Plain(Defaults(Some(Sigmoid), Some(50.0), Some(100.0))))
    case FragmentHBondAcceptors => Some(Plain(Defaults(Some(Step), Some(0.0), Some(5.0))))
    case FragmentHBondDonors => Some(Plain(Defaults(Some(Step), Some(0.0), Some(5.0))))
    case FragmentNumRotBond => Some(Plain(Defaults(Some(Step), Some(0.0), Some(5.0))))
    case Fragmentnumsp => Some(Plain(Defaults(Some(Step), Some(0.0), Some(5.0))))
    case Fragmentnumsp2 => Some(Plain(Defaults(Some(Step), Some(0.0), Some(5.0))))
    case Fragmentnumsp3 => Some(Plain(Defaults(Some(Step), Some(0.0), Some(5.0))))
    case FragmentNumRings => Some(Plain(Defaults(Some(Step), Some(0.0), Some(5.0))))
    case FragmentNumAromaticRings => Some(Plain(Defaults(Some(Step), Some(0.0), Some(5.0))))
    case FragmentNumAliphaticRings => Some(Plain(Defaults(Some(Step), Some(0.0), Some(5.0))))
    case ExternalProcess => None
    case REST => None
  }

  /** The keys of `transformers_def_param` are the components of
      `scor_comp`. */
  lemma DefParamCoversScorComp()
    ensures forall c :: DefParamOf(c).Some? <==> c in ScorComp
  {
    ScorCompListsNonGeneric();
  }

  /** The defaults of one component are coherent: no transformer and no
      thresholds, or a transformer with `low <= high`. */
  predicate Coherent(d: Defaults) {
    && (d.transformer.None? ==> d.low.None? && d.high.None?)
    && (d.transformer.Some? ==> d.low.Some? && d.high.Some? && d.low.value <= d.high.value)
  }

  /** Every entry of `transformers_def_param`, each pADME model included, is
      coherent, and names the transformer `transformer_defaults` gives the
      component. */
  lemma DefParamCoherent()
    ensures forall c :: DefParamOf(c).Some? && DefParamOf(c).value.Plain? ==>
      Coherent(DefParamOf(c).value.defaults) &&
      TransformerDefault(c) == Some(DefParamOf(c).value.defaults.transformer)
    ensures forall c :: DefParamOf(c).Some? && DefParamOf(c).value.Models? ==> c == pADME
    ensures forall i :: 0 <= i < |PadmeDefaults| ==>
      Coherent(PadmeDefaults[i].1) && TransformerDefault(pADME) == Some(PadmeDefaults[i].1.transformer)
  {
  }

  /** `PADME_models`, the options of the pADME model selector, with the
      repeated "pADME5" the source lists. */
  const PadmeModels: seq<string> := [
    "pADME1", "pADME2", "pADME3", "pADME4", "pADME5", "pADME5", "pADME6", "pADME7", "pADME8",
    "pADME9", "pADME10"
  ]

  /** The dictionary a Python dict literal denotes: its keys are the keys
      written, and a repeated key takes the value of its last occurrence. */
  function DictOf<V>(pairs: seq<(string, V)>): (m: map<string, V>)
    ensures forall k :: k in m <==> exists i :: 0 <= i < |pairs| && pairs[i].0 == k
    ensures forall i :: 0 <= i < |pairs| ==>
      (forall j :: i < j < |pairs| ==> pairs[j].0 != pairs[i].0) ==> m[pairs[i].0] == pairs[i].1
  {
    if |pairs| == 0 then map[]
    else
      var init, last := pairs[..|pairs| - 1], pairs[|pairs| - 1];
      assert forall i :: 0 <= i < |init| ==> init[i] == pairs[i];
      DictOf(init)[last.0 := last.1]
  }

  /** The three fields of a plain defaults dictionary. */
  predicate DefaultsField(name: string) {
    name == "default_transformer" || name == "low_value" || name == "high_value"
  }

  /** `transformers_def_param[comp][model][field]` for the three fields read
      at the pADME call site: the defaults of one model. An absent component
      and an absent model are each a `KeyError` carrying the missing key. A
      component with plain defaults indexed by a field name yields that
      field's number, string or `None`, which the next subscript cannot
      index: a `TypeError`. Indexed by any other name it is a `KeyError`. */
  function ModelDefaults(comp: Component, model: string): (r: Result<Defaults, PyError>)
    ensures r.Success? <==>
      DefParamOf(comp).Some? && DefParamOf(comp).value.Models? &&
      model in DictOf(DefParamOf(comp).value.models)
    ensures r.Success? ==> r.value == DictOf(DefParamOf(comp).value.models)[model]
    ensures DefParamOf(comp).None? ==> r == Failure(KeyError(ComponentNames.Name(comp)))
    ensures DefParamOf(comp).Some? && DefParamOf(comp).value.Plain? ==>
      r == Failure(if DefaultsField(model) then TypeError else KeyError(model))
    ensures DefParamOf(comp).Some? && DefParamOf(comp).value.Models? && r.Failure? ==>
      r == Failure(KeyError(model))
  {
    match DefParamOf(comp)
    case None => Failure(KeyError(ComponentNames.Name(comp)))
    case Some(Plain(_)) => if DefaultsField(model) then Failure(TypeError) else Failure(KeyError(model))
    case Some(Models(models)) =>
      var m := DictOf(models);
      if model in m then Success(m[model]) else Failure(KeyError(model))
  }

  /** Every option of the pADME model selector has defaults, the duplicated
      "pADME5" included, so the lookup that feeds `trans_para_input` for
      pADME succeeds. */
  lemma PadmeModelsResolve()
    ensures forall i :: 0 <= i < |PadmeModels| ==> ModelDefaults(pADME, PadmeModels[i]).Success?
  {
    assert |PadmeModels| == |PadmeDefaults|;
    assert forall i :: 0 <= i < |PadmeModels| ==> PadmeDefaults[i].0 == PadmeModels[i];
  }
}
