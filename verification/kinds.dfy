/** The seven transformer kinds of the form, spelled as the transformer
    selector offers them, and the `type_index` table that turns a default
    transformer name into the selector's initial position. */
module Kinds {
  import opened Wrappers

  datatype Kind = Sigmoid | ReverseSigmoid | DoubleSigmoid | RightStep | LeftStep | Step | ValueMapping

  /** The option text of a kind in the transformer selector. */
  function KindName(k: Kind): string {
    match k
    case Sigmoid => "Sigmoid"
    case ReverseSigmoid => "Reverse_Sigmoid"
    case DoubleSigmoid => "Double_Sigmoid"
    case RightStep => "Right_Step"
    case LeftStep => "Left_Step"
    case Step => "Step"
    case ValueMapping => "Value_Mapping"
  }

  /** The selector's options, in the order it lists them. */
  const Options: seq<Kind> := [Sigmoid, ReverseSigmoid, DoubleSigmoid, RightStep, LeftStep, Step, ValueMapping]

  /** The kind an option text names, if any. */
  function ParseKind(name: string): (r: Option<Kind>)
    ensures r.Some? ==> KindName(r.value) == name
  {
    if name == "Sigmoid" then Some(Sigmoid)
    else if name == "Reverse_Sigmoid" then Some(ReverseSigmoid)
    else if name == "Double_Sigmoid" then Some(DoubleSigmoid)
    else if name == "Right_Step" then Some(RightStep)
    else if name == "Left_Step" then Some(LeftStep)
    else if name == "Step" then Some(Step)
    else if name == "Value_Mapping" then Some(ValueMapping)
    else None
  }

  /** Every kind's option text parses back to that kind: the option texts
      are pairwise distinct. */
  lemma ParseKindName(k: Kind)
    ensures ParseKind(KindName(k)) == Some(k)
  {
  }

  /** `type_index[default]`: the selector position of a default transformer
      name. `None`, or a name that is no option, is a `KeyError`. */
  function TypeIndex(default: Option<string>): (r: Result<nat, PyError>)
    ensures r.Success? <==> default.Some? && ParseKind(default.value).Some?
    ensures r.Success? ==> r.value < |Options| && KindName(Options[r.value]) == default.value
  {
    match default
    case None => Failure(KeyError("None"))
    case Some(name) =>
      match ParseKind(name)
      case None => Failure(KeyError(name))
      case Some(k) => Success(match k
        case Sigmoid => 0
        case ReverseSigmoid => 1
        case DoubleSigmoid => 2
        case RightStep => 3
        case LeftStep => 4
        case Step => 5
        case ValueMapping => 6)
  }

  /** `type_index` agrees with the selector: the position it gives a kind's
      name holds that kind. */
  lemma TypeIndexSelectsKind(k: Kind)
    ensures TypeIndex(Some(KindName(k))).Success?
    ensures Options[TypeIndex(Some(KindName(k))).value] == k
  {
    ParseKindName(k);
  }
}
