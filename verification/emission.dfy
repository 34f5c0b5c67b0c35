/** The configuration text the form writes for one scoring component: the
    header `write_scor_component` writes, and the `transform.*` lines
    `trans_para_input` writes for the transformer chosen for it. A line is
    kept structured; how Python spells a float is not modelled, only which
    of its two spellings a value gets. */
module Emission {
  import opened Wrappers
  import opened Text
  import opened Kinds

  /** A value on the right of `=`: a quoted string, a float as `str()`
      spells it, or a float with two decimals (`:.2f`). */
  datatype Value = Str(s: string) | Num(x: real) | Fixed(x: real)

  /** One written line: `field = value`, a `[table]` header, or the empty
      line that closes a block. */
  datatype Line = Assign(field: string, value: Value) | Header(table: string) | Blank

  /** What the widgets of `trans_para_input` read, after a loaded UI state
      has had its say: the transformer selected and every number input. */
  datatype Readings = Readings(
    choice: string,
    lower: real, upper: real,
    k: real,
    div: real, si: real, se: real,
    hit: real, miss: real)

  /** The transformer block one call writes. `Silent` is a selection no
      branch recognises (only a loaded UI state can produce one): nothing is
      written. */
  datatype Config =
    | Disabled
    | Silent
    | SigmoidConfig(reverse: bool, low: real, high: real, k: real)
    | DoubleSigmoidConfig(low: real, high: real, div: real, si: real, se: real)
    | StepConfig(low: real, high: real)
    | LeftStepConfig(low: real)
    | RightStepConfig(high: real)
    | MappingConfig(comp: string, hit: real, miss: real)

  /** The transformer block for the chosen type. Without the advanced
      options the scaling factors are the fixed defaults: `k` 0.5 for the
      sigmoids, 100, 10 and 10 for the double sigmoid. */
  function Select(comp: string, advanced: bool, w: Readings): (c: Config)
    ensures c.Silent? <==> ParseKind(w.choice).None?
    ensures ParseKind(w.choice).Some? ==> KindOf(c) == ParseKind(w.choice)
    ensures !advanced && c.SigmoidConfig? ==> c.k == 0.5
    ensures !advanced && c.DoubleSigmoidConfig? ==> c.div == 100.0 && c.si == 10.0 && c.se == 10.0
    ensures c.SigmoidConfig? || c.DoubleSigmoidConfig? || c.StepConfig? ==> c.low == w.lower && c.high == w.upper
    ensures c.LeftStepConfig? ==> c.low == w.lower
    ensures c.RightStepConfig? ==> c.high == w.upper
    ensures advanced && c.SigmoidConfig? ==> c.k == w.k
    ensures advanced && c.DoubleSigmoidConfig? ==> c.div == w.div && c.si == w.si && c.se == w.se
    ensures c.MappingConfig? ==> c.comp == comp && c.hit == w.hit && c.miss == w.miss
  {
    if w.choice == "Sigmoid" || w.choice == "Reverse_Sigmoid" then
      SigmoidConfig(w.choice == "Reverse_Sigmoid", w.lower, w.upper, if advanced then w.k else 0.5)
    else if w.choice == "Double_Sigmoid" then
      if advanced then DoubleSigmoidConfig(w.lower, w.upper, w.div, w.si, w.se)
      else DoubleSigmoidConfig(w.lower, w.upper, 100.0, 10.0, 10.0)
    else if w.choice == "Step" then StepConfig(w.lower, w.upper)
    else if w.choice == "Left_Step" then LeftStepConfig(w.lower)
    else if w.choice == "Right_Step" then RightStepConfig(w.upper)
    else if w.choice == "Value_Mapping" then MappingConfig(comp, w.hit, w.miss)
    else Silent
  }

  /** The transformer kind a block configures. */
  function KindOf(c: Config): Option<Kind> {
    match c
    case Disabled => None
    case Silent => None
    case SigmoidConfig(reverse, _, _, _) => Some(if reverse then ReverseSigmoid else Sigmoid)
    case DoubleSigmoidConfig(_, _, _, _, _) => Some(DoubleSigmoid)
    case StepConfig(_, _) => Some(Step)
    case LeftStepConfig(_) => Some(LeftStep)
    case RightStepConfig(_) => Some(RightStep)
    case MappingConfig(_, _, _) => Some(ValueMapping)
  }

  /** `trans_para_input`: the component name comes from the widget key
      before anything else, so a `None` key or one without an underscore
      fails whatever else holds; an enabled transformer then looks its
      default up in `type_index`, which fails for a component without one. */
  function TransParaInput(key: Option<string>, default: Option<string>, use: bool, advanced: bool, w: Readings)
    : (r: Result<Config, PyError>)
    ensures r.Failure? <==> KeyPart(key).Failure? || (use && TypeIndex(default).Failure?)
    ensures KeyPart(key).Failure? ==> r == Failure(KeyPart(key).error)
    ensures r.Success? ==> (r.value.Disabled? <==> !use)
    ensures r.Success? && use ==> r.value == Select(KeyPart(key).value, advanced, w)
  {
    match KeyPart(key)
    case Failure(e) => Failure(e)
    case Success(comp) =>
      if !use then Success(Disabled)
      else
        match TypeIndex(default)
        case Failure(e) => Failure(e)
        case Success(_) => Success(Select(comp, advanced, w))
  }

  /** The header of the value-mapping table of component `comp`. */
  function MappingTable(comp: string): string {
    "scoring.component." + comp + ".endpoint.transform.mapping"
  }

  /** The field of the "No ..." mapping entry, quoted as TOML needs. */
  function MissField(comp: string): string {
    "\"No " + comp + "\""
  }

  /** The lines a transformer block is written as, in the order written:
      type, low, high, k for the sigmoids; type, low, high and the three
      factors for the double sigmoid; type, then high before low, for the
      step; a single threshold for the half steps; the lower-case type, the
      mapping header, then the component's entry and its "No" entry, for a
      value mapping. A disabled transformer writes only the empty line, an
      unrecognised one nothing; every other block opens with its type and
      closes with the empty line. */
  function Lines(c: Config): (r: seq<Line>)
    ensures c.Disabled? <==> r == [Blank]
    ensures c.Silent? <==> r == []
    ensures !c.Silent? ==> |r| > 0 && r[|r| - 1] == Blank
    ensures KindOf(c).Some? ==> |r| >= 3 && r[0].Assign? && r[0].field == "transform.type" && r[0].value.Str?
  {
    match c
    case Disabled => [Blank]
    case Silent => []
    case SigmoidConfig(reverse, low, high, k) =>
      [Assign("transform.type", Str(if reverse then "Reverse_Sigmoid" else "Sigmoid")),
       Assign("transform.low", Num(low)),
       Assign("transform.high", Num(high)),
       Assign("transform.k", Fixed(k)),
       Blank]
    case DoubleSigmoidConfig(low, high, div, si, se) =>
      [Assign("transform.type", Str("Double_Sigmoid")),
       Assign("transform.low", Num(low)),
       Assign("transform.high", Num(high)),
       Assign("transform.coef_div", Fixed(div)),
       Assign("transform.coef_si", Fixed(si)),
       Assign("transform.coef_se", Fixed(se)),
       Blank]
    case StepConfig(low, high) =>
      [Assign("transform.type", Str("Step")),
       Assign("transform.high", Num(high)),
       Assign("transform.low", Num(low)),
       Blank]
    case LeftStepConfig(low) =>
      [Assign("transform.type", Str("Left_Step")),
       Assign("transform.low", Num(low)),
       Blank]
    case RightStepConfig(high) =>
      [Assign("transform.type", Str("Right_Step")),
       Assign("transform.high", Num(high)),
       Blank]
    case MappingConfig(comp, hit, miss) =>
      [Assign("transform.type", Str("value_mapping")),
       Header(MappingTable(comp)),
       Assign(comp, Num(hit)),
       Assign(MissField(comp), Num(miss)),
       Blank]
  }

  /** The number of a `field = number` line written with `str()`, if
      `l` is one for `field`. */
  function NumField(l: Line, field: string): Option<real> {
    if l.Assign? && l.field == field && l.value.Num? then Some(l.value.x) else None
  }

  /** The number of a `field = number` line written with two decimals, if
      `l` is one for `field`. */
  function FixedField(l: Line, field: string): Option<real> {
    if l.Assign? && l.field == field && l.value.Fixed? then Some(l.value.x) else None
  }

  /** Reads a transformer block back from its lines, checking every line by
      field name and spelling: `None` for lines no block is written as. */
  function Parse(lines: seq<Line>): (c: Option<Config>)
    ensures c.Some? ==> Lines(c.value) == lines
  {
    if lines == [] then Some(Silent)
    else if lines == [Blank] then Some(Disabled)
    else if !(lines[0].Assign? && lines[0].field == "transform.type" && lines[0].value.Str?) then None
    else if lines[|lines| - 1] != Blank then None
    else
      var t := lines[0].value.s;
      if (t == "Sigmoid" || t == "Reverse_Sigmoid") && |lines| == 5 then
        var low := NumField(lines[1], "transform.low");
        var high := NumField(lines[2], "transform.high");
        var k := FixedField(lines[3], "transform.k");
        if low.Some? && high.Some? && k.Some? then
          Some(SigmoidConfig(t == "Reverse_Sigmoid", low.value, high.value, k.value))
        else None
      else if t == "Double_Sigmoid" && |lines| == 7 then
        var low := NumField(lines[1], "transform.low");
        var high := NumField(lines[2], "transform.high");
        var div := FixedField(lines[3], "transform.coef_div");
        var si := FixedField(lines[4], "transform.coef_si");
        var se := FixedField(lines[5], "transform.coef_se");
        if low.Some? && high.Some? && div.Some? && si.Some? && se.Some? then
          Some(DoubleSigmoidConfig(low.value, high.value, div.value, si.value, se.value))
        else None
      else if t == "Step" && |lines| == 4 then
        var high := NumField(lines[1], "transform.high");
        var low := NumField(lines[2], "transform.low");
        if low.Some? && high.Some? then Some(StepConfig(low.value, high.value)) else None
      else if t == "Left_Step" && |lines| == 3 then
        var low := NumField(lines[1], "transform.low");
        if low.Some? then Some(LeftStepConfig(low.value)) else None
      else if t == "Right_Step" && |lines| == 3 then
        var high := NumField(lines[1], "transform.high");
        if high.Some? then Some(RightStepConfig(high.value)) else None
      else if t == "value_mapping" && |lines| == 5 && lines[2].Assign? then
        var comp := lines[2].field;
        var hit := NumField(lines[2], comp);
        var miss := NumField(lines[3], MissField(comp));
        if lines[1] == Header(MappingTable(comp)) && hit.Some? && miss.Some? then
          Some(MappingConfig(comp, hit.value, miss.value))
        else None
      else None
  }

  /** Every block can be read back from what is written for it: no two
      blocks are written alike, and each value keeps its place. */
  lemma ParseLines(c: Config)
    ensures Parse(Lines(c)) == Some(c)
  {
  }

  /** A block is read from exactly the lines it is written as. */
  lemma ParseExactly(lines: seq<Line>, c: Config)
    ensures Parse(lines) == Some(c) <==> Lines(c) == lines
  {
  }

  /** For a widget key `prefix_name_suffix` built from a prefix and a
      component name without underscores, an enabled value mapping is
      written under that component's own name. */
  lemma MappingNamesComponent(prefix: string, name: string, suffix: string, default: Option<string>,
                              advanced: bool, w: Readings)
    requires '_' !in prefix && '_' !in name
    requires TypeIndex(default).Success? && w.choice == "Value_Mapping"
    ensures TransParaInput(Some(prefix + "_" + name + "_" + suffix), default, true, advanced, w)
         == Success(MappingConfig(name, w.hit, w.miss))
  {
    KeyPartOfWidgetKey(prefix, name, suffix);
  }

  /** `write_show`'s file text: a leading backslash, written only to keep
      the displayed markdown from reading `#` as a heading, is dropped. */
  function StripBackslash(text: string): (r: string)
    ensures StartsWith(text, "\\") ==> "\\" + r == text
    ensures !StartsWith(text, "\\") ==> r == text
  {
    if StartsWith(text, "\\") then text[1..] else text
  }

  /** The comment line of a component header reaches the file as a TOML
      comment: `# name: description`. */
  lemma CommentStripped(name: string, description: string)
    ensures StripBackslash("\\# " + name + ": " + description) == "# " + name + ": " + description
  {
    var text := "\\# " + name + ": " + description;
    assert StartsWith(text, "\\");
    assert "\\" + ("# " + name + ": " + description) == text;
  }
}
