/** `chem_tokens`: the SMILES tokens each molecule generator supports,
    stored as one ", "-separated text per generator (two for LibInvent and
    LinkInvent, one per mode for Mol2Mol). */
module ChemTokens {
  import Text

  /** A token list as the scanner needs it: every token is one to six
      characters long and holds no ',', so its ", "-joined text splits back
      into exactly these tokens. */
  predicate TokenTable(tokens: seq<string>) {
    forall i :: 0 <= i < |tokens| ==> 1 <= |tokens[i]| <= 6 && ',' !in tokens[i]
  }

  /** The text a `chem_tokens` entry holds for a token list. */
  function TokenText(tokens: seq<string>): string {
    Text.Join(tokens, ", ")
  }

  /** Splitting the stored text on ", " gives back the tokens. */
  lemma TokenTextSplits(tokens: seq<string>)
    requires |tokens| >= 1 && TokenTable(tokens)
    ensures Text.Split(TokenText(tokens), ", ") == tokens
  {
    Text.SplitJoin(tokens, ", ");
  }

  /** `chem_tokens["Reinvent"]`. */
  const Reinvent: seq<string> := [
    "#", "=", "-", "(", ")", "[", "]", "1", "2", "3", "4", "5", "6", "7", "8", "9", "10", "Br",
    "C", "Cl", "F", "N", "O", "S", "[N+]", "[N-]", "[O-]", "[S+]", "[n+]", "[nH]", "c", "n",
    "o", "s"
  ]

  /** `chem_tokens["LibInvent"]["Decorator"]`. */
  const LibInventDecorator: seq<string> := [
    "#", "=", "-", "(", ")", "[", "]", "1", "2", "3", "4", "5", "6", "Br", "C", "Cl", "F", "N",
    "O", "S", "[N+]", "[N-]", "[N]", "[O-]", "[O]", "[S+]", "[n+]", "[nH]", "[s+]", "c", "n",
    "o", "s", "*", "|"
  ]

  /** `chem_tokens["LibInvent"]["Scaffold"]`. */
  const LibInventScaffold: seq<string> := [
    "#", "=", "-", "(", ")", "[", "]", "1", "2", "3", "4", "5", "6", "7", "8", "9", "Br", "C",
    "Cl", "F", "N", "O", "S", "[*]", "[N+]", "[N-]", "[N]", "[O-]", "[O]", "[S+]", "[n+]",
    "[nH]", "[s+]", "c", "n", "o", "s"
  ]

  /** `chem_tokens["LinkInvent"]["Warheads"]`. */
  const LinkInventWarheads: seq<string> := [
    "#", "=", "-", "(", ")", "[", "]", "1", "2", "3", "4", "5", "6", "Br", "C", "Cl", "F", "N",
    "O", "S", "[N+]", "[O-]", "[O]", "[S+]", "[n+]", "[nH]", "[s+]", "c", "n", "o", "s", "*",
    "|"
  ]

  /** `chem_tokens["LinkInvent"]["Linker"]`. */
  const LinkInventLinker: seq<string> := [
    "#", "=", "-", "(", ")", "[", "]", "1", "2", "3", "4", "5", "6", "7", "Br", "C", "Cl", "F",
    "N", "O", "S", "[*]", "[N+]", "[N-]", "[O-]", "[S+]", "[n+]", "[nH]", "[s+]", "c", "n", "o",
    "s"
  ]

  /** `chem_tokens["Mol2Mol"]["Mol2mol (high, medium, low similarities)"]`;
      the token written as a lone backslash before a comma in the source
      text is the one-character string holding a backslash. */
  const Mol2MolSimilarity: seq<string> := [
    "#", "=", "-", "/", "\\", "(", ")", "[", "]", "1", "2", "3", "4", "5", "6", "7", "8", "Br",
    "C", "Cl", "F", "I", "N", "O", "S", "[C@@H]", "[C@@]", "[C@H]", "[C@]", "[N+]", "[N@+]",
    "[N@@+]", "[N@]", "[O-]", "[O]", "[S@@]", "[S@]", "[n+]", "[nH]", "c", "n", "o", "s"
  ]

  /** `chem_tokens["Mol2Mol"]["Mol2mol (mmp)"]`. */
  const Mol2MolMmp: seq<string> := [
    "#", "=", "-", "/", "\\", "(", ")", "[", "]", "1", "2", "3", "4", "5", "6", "7", "8", "Br",
    "C", "Cl", "F", "I", "N", "O", "S", "[C@@H]", "[C@@]", "[C@H]", "[C@]", "[N+]", "[N@+]",
    "[N@@+]", "[O-]", "[O]", "[S@@]", "[S@]", "[n+]", "[nH]", "c", "n", "o", "s"
  ]

  /** `chem_tokens["Mol2Mol"]["Mol2mol (scaffold)"]`. */
  const Mol2MolScaffold: seq<string> := [
    "#", "=", "-", "/", "\\", "(", ")", "[", "]", "1", "2", "3", "4", "5", "6", "7", "8", "Br",
    "C", "Cl", "F", "I", "N", "O", "S", "[C@@H]", "[C@@]", "[C@H]", "[C@]", "[N+]", "[N@+]",
    "[N@@+]", "[O-]", "[O]", "[S@@]", "[S@]", "[n+]", "[nH]", "c", "n", "o", "s"
  ]

  /** `chem_tokens["Mol2Mol"]["Mol2mol (scaffold-generic)"]`. */
  const Mol2MolScaffoldGeneric: seq<string> := [
    "#", "=", "-", "/", "\\", "(", ")", "[", "]", "1", "2", "3", "4", "5", "6", "7", "8", "Br",
    "C", "Cl", "F", "I", "N", "O", "S", "[C@@H]", "[C@@]", "[C@H]", "[C@]", "[N+]", "[N@+]",
    "[N@@+]", "[O-]", "[O]", "[S@@]", "[S@]", "[n+]", "[n-]", "[nH]", "c", "n", "o", "s"
  ]

  lemma ReinventWellFormed()
    ensures TokenTable(Reinvent)
  {
  }

  lemma LibInventDecoratorWellFormed()
    ensures TokenTable(LibInventDecorator)
  {
  }

  lemma LibInventScaffoldWellFormed()
    ensures TokenTable(LibInventScaffold)
  {
  }

  lemma LinkInventWarheadsWellFormed()
    ensures TokenTable(LinkInventWarheads)
  {
  }

  lemma LinkInventLinkerWellFormed()
    ensures TokenTable(LinkInventLinker)
  {
  }

  lemma Mol2MolSimilarityWellFormed()
    ensures TokenTable(Mol2MolSimilarity)
  {
  }

  lemma Mol2MolMmpWellFormed()
    ensures TokenTable(Mol2MolMmp)
  {
  }

  lemma Mol2MolScaffoldWellFormed()
    ensures TokenTable(Mol2MolScaffold)
  {
  }

  lemma Mol2MolScaffoldGenericWellFormed()
    ensures TokenTable(Mol2MolScaffoldGeneric)
  {
  }
}
