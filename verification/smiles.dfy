/** `check_smiles`: the token list of the chosen molecule generator, and the
    scan that walks each SMILES line looking for a character no supported
    token starts with. A `st.warning` becomes an entry of the returned
    list. */
module Smiles {
  import opened Wrappers
  import Text
  import opened ChemTokens
  import opened Scanner
  import opened Reports

  /** The Mol2Mol mode names a run may carry, as `check_smiles` renames them
      to the keys of `chem_tokens["Mol2Mol"]`; any other name is kept. */
  function Mol2MolKey(mol2mol: string): string {
    if mol2mol == "mol2mol_similarity" || mol2mol == "mol2mol_medium_similarity" ||
       mol2mol == "mol2mol_high_similarity" then
      "Mol2mol (high, medium, low similarities)"
    else if mol2mol == "mol2mol_mmp" then "Mol2mol (mmp)"
    else if mol2mol == "mol2mol_scaffold" then "Mol2mol (scaffold)"
    else if mol2mol == "mol2mol_scaffold_generic" then "Mol2mol (scaffold-generic)"
    else mol2mol
  }

  /** `chem_tokens["Mol2Mol"][key].split(", ")`; a key that is not one of the
      four mode names is a `KeyError`. */
  function Mol2MolTokens(key: string): (r: Result<seq<string>, PyError>)
    ensures r.Failure? <==>
      !(key == "Mol2mol (high, medium, low similarities)" || key == "Mol2mol (mmp)" ||
        key == "Mol2mol (scaffold)" || key == "Mol2mol (scaffold-generic)")
    ensures r.Failure? ==> r.error == KeyError(key)
  {
    if key == "Mol2mol (high, medium, low similarities)" then
      Success(Text.Split(TokenText(Mol2MolSimilarity), ", "))
    else if key == "Mol2mol (mmp)" then Success(Text.Split(TokenText(Mol2MolMmp), ", "))
    else if key == "Mol2mol (scaffold)" then Success(Text.Split(TokenText(Mol2MolScaffold), ", "))
    else if key == "Mol2mol (scaffold-generic)" then
      Success(Text.Split(TokenText(Mol2MolScaffoldGeneric), ", "))
    else Failure(KeyError(key))
  }

  /** `tokens_list` as `check_smiles` builds it: `Some` list for a known
      generator, `None` when no branch binds it (an unknown generator), and
      the `KeyError` of an unknown Mol2Mol mode. */
  function TokenList(molGen: string, mol2mol: string): (r: Result<Option<seq<string>>, PyError>)
    ensures r.Failure? <==> molGen == "Mol2Mol" && Mol2MolTokens(Mol2MolKey(mol2mol)).Failure?
    ensures r.Success? && r.value.None? <==>
      !(molGen == "Reinvent" || molGen == "LibInvent" || molGen == "LinkInvent" || molGen == "Mol2Mol")
  {
    if molGen == "Reinvent" then Success(Some(Text.Split(TokenText(Reinvent), ", ")))
    else if molGen == "LibInvent" then
      Success(Some(Text.Split(TokenText(LibInventScaffold), ", ") +
                   Text.Split(TokenText(LibInventDecorator), ", ")))
    else if molGen == "LinkInvent" then
      Success(Some(Text.Split(TokenText(LinkInventWarheads), ", ") +
                   Text.Split(TokenText(LinkInventLinker), ", ")))
    else if molGen == "Mol2Mol" then
      match Mol2MolTokens(Mol2MolKey(mol2mol))
      case Success(tokens) => Success(Some(tokens))
      case Failure(e) => Failure(e)
    else Success(None)
  }

  /** The lists the scanner sees are the stored token tables: LibInvent
      accepts the scaffold tokens followed by the decorator tokens,
      LinkInvent the warhead tokens followed by the linker tokens, and each
      Mol2Mol mode its own table. */
  lemma TokenListsAreTables(mol2mol: string)
    ensures TokenList("Reinvent", mol2mol) == Success(Some(Reinvent))
    ensures TokenList("LibInvent", mol2mol) == Success(Some(LibInventScaffold + LibInventDecorator))
    ensures TokenList("LinkInvent", mol2mol) == Success(Some(LinkInventWarheads + LinkInventLinker))
  {
    ReinventWellFormed();
    TokenTextSplits(Reinvent);
    LibInventScaffoldWellFormed();
    LibInventDecoratorWellFormed();
    TokenTextSplits(LibInventScaffold);
    TokenTextSplits(LibInventDecorator);
    LinkInventWarheadsWellFormed();
    LinkInventLinkerWellFormed();
    TokenTextSplits(LinkInventWarheads);
    TokenTextSplits(LinkInventLinker);
  }

  /** The run names of the Mol2Mol modes are renamed to the keys of
      `chem_tokens["Mol2Mol"]`: the three similarity runs share one key. */
  lemma Mol2MolKeyRenames()
    ensures Mol2MolKey("mol2mol_similarity") == "Mol2mol (high, medium, low similarities)"
    ensures Mol2MolKey("mol2mol_medium_similarity") == "Mol2mol (high, medium, low similarities)"
    ensures Mol2MolKey("mol2mol_high_similarity") == "Mol2mol (high, medium, low similarities)"
    ensures Mol2MolKey("mol2mol_mmp") == "Mol2mol (mmp)"
    ensures Mol2MolKey("mol2mol_scaffold") == "Mol2mol (scaffold)"
    ensures Mol2MolKey("mol2mol_scaffold_generic") == "Mol2mol (scaffold-generic)"
  {
  }

  /** The similarity table, split back out of its stored text. */
  lemma Mol2MolSimilarityList()
    ensures Mol2MolTokens("Mol2mol (high, medium, low similarities)") == Success(Mol2MolSimilarity)
  {
    Mol2MolSimilarityWellFormed();
    TokenTextSplits(Mol2MolSimilarity);
  }

  /** The mmp table, split back out of its stored text. */
  lemma Mol2MolMmpList()
    ensures Mol2MolTokens("Mol2mol (mmp)") == Success(Mol2MolMmp)
  {
    Mol2MolMmpWellFormed();
    TokenTextSplits(Mol2MolMmp);
  }

  /** The scaffold table, split back out of its stored text. */
  lemma Mol2MolScaffoldList()
    ensures Mol2MolTokens("Mol2mol (scaffold)") == Success(Mol2MolScaffold)
  {
    Mol2MolScaffoldWellFormed();
    TokenTextSplits(Mol2MolScaffold);
  }

  /** The generic-scaffold table, split back out of its stored text. */
  lemma Mol2MolScaffoldGenericList()
    ensures Mol2MolTokens("Mol2mol (scaffold-generic)") == Success(Mol2MolScaffoldGeneric)
  {
    Mol2MolScaffoldGenericWellFormed();
    TokenTextSplits(Mol2MolScaffoldGeneric);
  }

  /** `smile[i:j] in tokens_list`: membership in the list, whatever its
      order or repetitions. */
  function TokenSet(list: seq<string>): (r: set<string>)
    ensures forall t :: t in r <==> t in list
  {
    set t | t in list
  }

  /** `check_smiles`: the warnings raised over a list of SMILES. Building
      the token list comes first, so an unknown Mol2Mol mode is a `KeyError`
      even in the `Scoring` run mode, which checks nothing else. For an
      unknown generator `tokens_list` is never bound, and the first
      non-empty line that reaches it is a `NameError`. */
  method CheckSmiles(smiles: seq<string>, runMode: string, molGen: string, mol2mol: string)
    returns (r: Result<seq<Warning>, PyError>)
    ensures TokenList(molGen, mol2mol).Failure? ==> r == Failure(TokenList(molGen, mol2mol).error)
    ensures TokenList(molGen, mol2mol).Success? && runMode == "Scoring" ==> r == Success([])
    ensures TokenList(molGen, mol2mol) == Success(None) && runMode != "Scoring" ==>
      (r.Failure? <==> exists l :: 0 <= l < |smiles| && |smiles[l]| > 0) &&
      (r.Failure? ==> r.error == NameError("tokens_list")) &&
      (r.Success? ==> r.value == [])
    ensures TokenList(molGen, mol2mol).Success? && TokenList(molGen, mol2mol).value.Some? && runMode != "Scoring" ==>
      r == Success(WarningsOf(smiles, StopsOf(smiles, TokenSet(TokenList(molGen, mol2mol).value.value)), |smiles|))
  {
    var list := TokenList(molGen, mol2mol);
    if list.Failure? {
      return Failure(list.error);
    }
    if runMode == "Scoring" {
      return Success([]);
    }
    if list.value.None? {
      var l := 0;
      while l < |smiles|
        invariant l <= |smiles|
        invariant forall k :: 0 <= k < l ==> |smiles[k]| == 0
      {
        if |smiles[l]| > 0 {
          return Failure(NameError("tokens_list"));
        }
        l := l + 1;
      }
      return Success([]);
    }
    var ws := WarnLines(smiles, TokenSet(list.value.value));
    r := Success(ws);
  }
}
