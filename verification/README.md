# A Dafny model of the REINVENT input-form builder's core

The form builder is a Streamlit application that writes REINVENT 4
configuration files. This project models the parts of it that are logic
rather than widgets:

- **the score transforms** (`transforms.dfy`, module `Transforms`):
  `hard_sigmoid`, `stable_sigmoid`, `sigmoid`, `reverse_sigmoid`,
  `double_sigmoid`, `step`, `left_step` and `right_step`. Each is an
  element-wise map from a score sequence to a sequence of the same length,
  over `real`. There is no exponential over the reals, so `np.exp` and
  `np.log(10)` are carried by an `Exponential` value. Its `Valid()`
  predicate states the laws the proofs use: positive, `exp(0) = 1`,
  `exp(a) * exp(-a) = 1`, monotone, and `ln 10 > 0`;
- **the SMILES token scan** `check_smiles`:
  - `chem_tokens.dfy` holds the token tables;
  - `smiles.dfy` chooses the token list by generator;
  - `scanner.dfy` holds the greedy scan of one line. It uses Python's
    clipped slices and the source's preference order: 2, 3, 4, 5, 6
    characters, then 1;
  - `reports.dfy` holds the list of warnings. Each `st.warning` becomes a
    `(line, character)` entry of a returned list;
- **the transformer block `trans_para_input` writes**, and the backslash
  strip of `write_show` (`emission.dfy`, `kinds.dfy`). Lines stay
  structured: a `field = value` line, a `[table]` header, or the empty
  line;
- **the component header `write_scor_component` writes**, with its
  lookups (`component_headers.dfy`);
- **the UI-state bookkeeping** (`session.dfy`), over explicit maps instead
  of `st.session_state`:
  - the run-mode classification of `load_state`;
  - the one-shot override flags of `change_param`;
  - the default-writing fold of `reset_values`;
- **the static tables of data.py** as constants, with lemmas about their
  shape:
  - `scor_comp`, `scoring_keys` and `scoring_component` / `scoring_component_entries`
    (`components.dfy`, `component_names.dfy`, `categories.dfy`);
  - `transformer_defaults`, `transformers_false`, `transformers_def_param`
    and `PADME_models` (`defaults.dfy`).

Python's exceptions are modelled as values: an operation whose source can
raise returns a `Result` whose failure is a `PyError` (`wrappers.dfy`):
`KeyError`, `IndexError`, `NameError`, `AttributeError` or `TypeError`.
`text.dfy` holds the string operations the code relies on: `startswith`,
`split`, `join`, and the `key.split("_")[1]` of `trans_para_input`.

## Model

| member | source | states |
|---|---|---|
| Transforms.HardSigmoidAt | functions.py:1712-1723 | `hard_sigmoid` gives 1.0 exactly when `k * x > 0` and 0.0 exactly otherwise |
| Transforms.HardSigmoid | functions.py:1712-1723 | the output has the input's length, and position `i` holds the hard sigmoid of `x[i]` |
| Transforms.StableSigmoidAt | functions.py:1726-1745 | each `stable_sigmoid` value lies strictly between 0 and 1, whichever branch the sign of `h` selects |
| Transforms.StableSigmoid | functions.py:1726-1745 | the output has the input's length, and position `i` holds the stable sigmoid of `x[i]` |
| Transforms.BranchesAgree | functions.py:1741-1744 | the two branch formulas `1/(1+e^-h)` and `e^h/(1+e^h)` are the same real number |
| Transforms.StableSigmoidIsLogistic | functions.py:1736-1745 | `stable_sigmoid` is the logistic curve of `k * x * ln 10` (base 10), and is 0.5 at `x = 0` |
| Transforms.SigmoidAt | functions.py:1748-1769 | with `high == low`, `sigmoid` is 1 exactly when `10k(x - centre) > 0` and 0 otherwise, so 0 at the centre; it always lies in [0, 1] |
| Transforms.SigmoidAtIsStable | functions.py:1762-1768 | with `high != low`, `sigmoid` is `stable_sigmoid` of the shifted score with slope `10k / (high - low)` |
| Transforms.SigmoidIsLogistic | functions.py:1762-1768 | with `high != low`, `sigmoid` is the base-10 logistic curve of slope `10k / (high - low)` around the centre `(high + low) / 2` |
| Transforms.SigmoidHalfAtCentre | functions.py:1748-1769 | with `high != low`, `sigmoid` is exactly 0.5 at the centre |
| Transforms.Sigmoid | functions.py:1748-1769 | the output has the input's length and order |
| Transforms.ReverseSigmoid | functions.py:1772-1793 | each element is `1 -` the matching `sigmoid` element, for every parameter choice including `high == low`, and lies in [0, 1] |
| Transforms.SigmoidMonotone | functions.py:1748-1769 | for `k >= 0` and `low <= high`, `sigmoid` never decreases in the score |
| Transforms.ReverseSigmoidAntitone | functions.py:1772-1793 | for `k >= 0` and `low <= high`, `reverse_sigmoid` never increases in the score |
| Transforms.DoubleSigmoidAt | functions.py:1796-1828 | a score below the midpoint takes the left curve, any other score `1 -` the right curve; the value lies in [0, 1], and with `k == 0` it is 0 or 1 |
| Transforms.DoubleSigmoidHalfAtThresholds | functions.py:1796-1828 | with `k != 0` and `x_left <= x_right`, `double_sigmoid` is 0.5 at `x_left` and at `x_right`, as its docstring says |
| Transforms.Side | functions.py:1811-1814 | the boolean-mask gather keeps only scores on the chosen side of the midpoint, and no more scores than the input has |
| Transforms.LeftGroup | functions.py:1813-1822 | `sigmoid_left` has one value per gathered score, computed with the left curve |
| Transforms.RightGroup | functions.py:1814-1823 | `sigmoid_right` has one value per gathered score: one minus the right curve |
| Transforms.ScatterIndex | functions.py:1825-1827 | the mask assignment puts the `n`-th value of a side back at the position of that side's `n`-th score |
| Transforms.DoubleSigmoid | functions.py:1796-1828 | the gather, evaluate and scatter of `double_sigmoid` gives every position the double-sigmoid value of its own score, and keeps the length |
| Transforms.Step | functions.py:1831-1844 | `step` gives 1.0 exactly when `low <= x <= high` (closed at both ends) and 0.0 exactly otherwise, in order |
| Transforms.LeftStep | functions.py:1847-1859 | `left_step` gives 1.0 exactly when `x <= low` and 0.0 exactly otherwise, in order |
| Transforms.RightStep | functions.py:1862-1873 | `right_step` gives 1.0 exactly when `x >= high` and 0.0 exactly otherwise, in order |
| Transforms.StepIsMeetOfHalfSteps | functions.py:1831-1873 | `step` is `right_step` at `low` times `left_step` at `high`, and the two half steps at one threshold overlap only at the threshold |
| Text.Split | functions.py:1655 | `s.split(sep)` gives at least one piece; joining the pieces with `sep` gives `s` back, and no piece contains `sep` |
| Text.SplitJoin | functions.py:1655 | splitting a joined list whose pieces do not contain the separator's first character gives the list back |
| Text.FindFrom | functions.py:258 | finds the leftmost occurrence of a separator at or after a position, or reports that there is none |
| Text.KeyPart | functions.py:258 | `key.split("_")[1]`: a `None` key fails on `split`; a key without `_` fails with an `IndexError`; a result holds no `_` |
| Text.KeyPartOfWidgetKey | functions.py:258 | for a key `prefix_name_suffix` whose prefix and name hold no `_`, the component name taken is `name` |
| Kinds.ParseKind | functions.py:270-272 | a recognised option text names the kind whose text it is |
| Kinds.ParseKindName | functions.py:270-272 | the seven option texts are pairwise distinct: each parses back to its kind |
| Kinds.TypeIndex | functions.py:259-272 | `type_index[default]` succeeds exactly for the seven transformer names, and gives the position of that name among the selector options |
| Kinds.TypeIndexSelectsKind | functions.py:259-272 | the index `type_index` gives a kind's name selects that kind in the option list |
| Emission.Select | functions.py:278-369 | the branch taken follows the selected type. An unrecognised type writes nothing. `low` is the lower-threshold reading and `high` the upper-threshold reading, in every block that has them. With the advanced options `k` and the three double-sigmoid factors are the `k`, `coef_div`, `coef_si` and `coef_se` readings; without them `k` is 0.5 and the factors are 100, 10 and 10. A value mapping is written for the component named in the key, with the component's and the "No" threshold readings. |
| Emission.TransParaInput | functions.py:255-276 | fails exactly when the key part fails, or when the transformer is enabled and `type_index[default]` fails; a disabled transformer writes only the empty line, an enabled one the selected block |
| Emission.Lines | functions.py:294-369 | disabled writes only the empty line; an unrecognised type writes nothing; every written block opens with `transform.type` and ends with the empty line |
| Emission.Parse | functions.py:294-369 | a reader that checks each line by field name and spelling, with no reference to the writer: `transform.low`/`transform.high` as `str()` numbers, `transform.k` and `transform.coef_div`/`coef_si`/`coef_se` with two decimals, the mapping header and `"No comp"` entry; any block it reads is one whose written lines are exactly those |
| Emission.ParseLines | functions.py:294-369 | every written block reads back as itself, so each block is written with the field names, field order (type/low/high/k, type/low/high/coef_div/coef_si/coef_se, type/high/low, type/low, type/high, type/mapping header/comp/"No comp") and number spellings the reader checks |
| Emission.ParseExactly | functions.py:294-369 | lines read as a block exactly when they are that block's written lines |
| Emission.MappingNamesComponent | functions.py:355-369 | an enabled value mapping under key `prefix_name_suffix` is written for component `name` with the two thresholds read |
| Emission.StripBackslash | functions.py:174 | a leading backslash is dropped and nothing else is; text without one is kept |
| Emission.CommentStripped | functions.py:222-227 | the `\# name: description` header line reaches the file as the comment `# name: description` |
| ComponentHeaders.ComponentHeader | functions.py:208-230 | the four `write_show` calls run in order, and the first failed lookup stops them with a `KeyError` naming the component. Without an entry nothing is written. With an entry but no scoring key (the generic `ExternalProcess` and `REST`), the comment line with the component's own name and category and the `[[scoring.component]]` (or `[[stage.scoring.component]]`) line are written before the `KeyError`. With both, four lines are written and nothing is raised |
| ComponentHeaders.ComponentHeaderSucceeds | functions.py:208-230 | with the real entry and key tables, every component gets its comment line, with the category that lists it; the header succeeds exactly for the components of `scor_comp`, and any other component stops after two lines |
| Components.ScorCompListsNonGeneric | data.py:16-41 | `scor_comp` lists every component except the two generic ones, ExternalProcess and REST |
| Components.ScoringKeysCoverScorComp | data.py:45-77 | the keys of `scoring_keys` are exactly the components of `scor_comp` |
| ComponentNames.ScoringKeyIsName | data.py:45-77 | a component's scoring key differs from its own name exactly for CustomAlerts, TanimotoSimilarity and pADME |
| Defaults.TransformerDefaultsCoverScorComp | data.py:81-109 | the keys of `transformer_defaults` are exactly the components of `scor_comp` |
| Defaults.NoTransformerExactly | data.py:81-109 | the default transformer is `None` exactly for CustomAlerts, MatchingSubstructure, TanimotoSimilarity and ReactionFilter |
| Defaults.KeysWithoutTransformer | data.py:113 | the comprehension keeps exactly the listed keys whose default is `None`, and never more entries than it reads |
| Defaults.TransformersFalseExact | data.py:113 | `transformers_false` holds exactly CustomAlerts, MatchingSubstructure, TanimotoSimilarity and ReactionFilter |
| Defaults.DefParamCoversScorComp | data.py:117-194 | the keys of `transformers_def_param` are exactly the components of `scor_comp` |
| Defaults.DefParamCoherent | data.py:117-194 | every entry, each pADME model included, has either no transformer and no thresholds, or a transformer with `low <= high`; it names the transformer `transformer_defaults` gives the component, and only pADME has per-model entries |
| Defaults.DictOf | data.py:155-167 | a dict literal has exactly the keys written, and a repeated key such as `pADME5` keeps the value of its last occurrence |
| Defaults.ModelDefaults | functions.py:966-967 | `transformers_def_param[comp][model]` followed by a field subscript succeeds exactly when the component has per-model entries with that model, and gives that model's entry. A component without an entry is a `KeyError` naming it. A plain entry indexed by `default_transformer`, `low_value` or `high_value` gives a string, a number or `None`, which the next subscript rejects with a `TypeError`; any other model name is a `KeyError` naming it. Per-model entries without the model are a `KeyError` naming the model |
| Defaults.PadmeModelsResolve | data.py:330 | every option of `PADME_models`, the repeated `pADME5` included, has defaults |
| Categories.Assign | data.py:268-269 | `dict.update` adds every key of the category with the new value and keeps all other entries |
| Categories.MergeUpTo | data.py:267-269 | after updating with the first `k` categories, the keys are the components they list, each mapped to the category that lists it |
| Categories.CategoryOfListing | data.py:198-263 | each listing of a component in `scoring_component` is in the category `CategoryOf` gives |
| Categories.CategoryListsComponent | data.py:198-263 | the category `CategoryOf` gives does list the component |
| Categories.CategoriesDisjoint | data.py:198-263 | no component is listed in two categories, so no entry of `scoring_component_entries` is overwritten |
| Categories.EntriesAreCategories | data.py:267-269 | every component, the generic ones included, has an entry in `scoring_component_entries`, under its own category |
| ChemTokens.TokenTextSplits | data.py:968-998 | splitting a stored table's text on `", "` gives back its tokens |
| ChemTokens.ReinventWellFormed | data.py:970 | every Reinvent token has one to six characters, and none contains a comma |
| ChemTokens.LibInventDecoratorWellFormed | data.py:975 | the same for the LibInvent decorator tokens |
| ChemTokens.LibInventScaffoldWellFormed | data.py:977 | the same for the LibInvent scaffold tokens |
| ChemTokens.LinkInventWarheadsWellFormed | data.py:983 | the same for the LinkInvent warhead tokens |
| ChemTokens.LinkInventLinkerWellFormed | data.py:985 | the same for the LinkInvent linker tokens |
| ChemTokens.Mol2MolSimilarityWellFormed | data.py:991 | the same for the Mol2Mol similarity tokens |
| ChemTokens.Mol2MolMmpWellFormed | data.py:993 | the same for the Mol2Mol mmp tokens |
| ChemTokens.Mol2MolScaffoldWellFormed | data.py:995 | the same for the Mol2Mol scaffold tokens |
| ChemTokens.Mol2MolScaffoldGenericWellFormed | data.py:997 | the same for the Mol2Mol generic-scaffold tokens |
| Smiles.Mol2MolKeyRenames | functions.py:1660-1668 | the six Mol2Mol run names are renamed to the four keys of `chem_tokens["Mol2Mol"]`; the three similarity runs share one key |
| Smiles.Mol2MolTokens | functions.py:1669 | the lookup fails with a `KeyError` exactly for a name that is not one of the four Mol2Mol keys |
| Smiles.TokenList | functions.py:1654-1669 | building the token list fails exactly for Mol2Mol with an unknown mode, and binds nothing exactly for an unknown generator |
| Smiles.TokenListsAreTables | functions.py:1654-1659 | Reinvent uses its table; LibInvent uses the scaffold tokens then the decorator tokens; LinkInvent uses the warhead tokens then the linker tokens |
| Smiles.Mol2MolSimilarityList | functions.py:1669 | the similarity key yields the similarity table |
| Smiles.Mol2MolMmpList | functions.py:1669 | the mmp key yields the mmp table |
| Smiles.Mol2MolScaffoldList | functions.py:1669 | the scaffold key yields the scaffold table |
| Smiles.Mol2MolScaffoldGenericList | functions.py:1669 | the generic-scaffold key yields the generic-scaffold table |
| Smiles.TokenSet | functions.py:1676 | `in tokens_list` is membership: the set holds exactly the listed tokens |
| Smiles.CheckSmiles | functions.py:1641-1703 | a token-list failure is raised even in the Scoring mode. Scoring checks nothing. An unknown generator fails with a `NameError` exactly when some line is non-empty. Otherwise the warnings are those of the per-line scans. |
| Scanner.Slice | functions.py:1677 | Python's `s[i:j]` has at most `j - i` characters, and inside the line it is the ordinary slice |
| Scanner.WindowInLine | functions.py:1675-1698 | a window starting inside the line is the slice of its clipped length, ending where the clipped advance ends |
| Scanner.ShortestWindow | functions.py:1676-1688 | the `elif` chain of windows picks a length between the first tried and six |
| Scanner.ShortestWindowIsShortest | functions.py:1676-1698 | the chain picks the shortest window that is a token, or finds that none of the lengths tried is one |
| Scanner.Advance | functions.py:1675-1698 | every advance is by one to six characters |
| Scanner.AdvanceToken | functions.py:1675-1698 | the window the scan advances by is a token |
| Scanner.AdvancePrefers | functions.py:1675-1702 | no shorter window of two or more characters is a token; a one-character advance happens only when no longer window is a token; the scan stops exactly where no window of one to six characters is a token |
| Scanner.ScanTokens | functions.py:1674-1702 | every part the scan of a line matches is a token of one to six characters |
| Scanner.ScanStopsInside | functions.py:1699-1702 | a scan that stops early stops inside the line, at a position with no advance |
| Scanner.ScanStopsAt | functions.py:1689-1702 | a scan stops early only at a character from which no window of one to six characters is a token |
| Scanner.ScanSpells | functions.py:1674-1702 | the matched parts spell out the line up to its end, or up to the stopping character |
| Scanner.ScanLine | functions.py:1674-1702 | the `while` loop, advancing even past the end when the last window was cut short, computes the recursive scan |
| Scanner.StopOf | functions.py:1699-1702 | a line's stopping point, if any, lies inside the line |
| Scanner.StopOfNoToken | functions.py:1689-1702 | a line stops early exactly when its scan does, at a character that starts no token |
| Scanner.WarnLines | functions.py:1671-1703 | the loop over the lines yields the warnings of the per-line stopping points, line after line |
| Reports.WarningIsAbout | functions.py:1699-1703 | each warning is about one of the lines seen, and carries the character that line stopped at |
| Reports.WarningsAscend | functions.py:1671-1703 | warnings appear in strictly increasing line order, so a line is warned about at most once |
| Reports.StopIsWarned | functions.py:1671-1703 | every line that stops early is warned about, with its 1-based number; later lines are still scanned |
| Reports.WarningsExact | functions.py:1671-1703 | the three facts above, for the whole warning list |
| Session.PrefixesOfRunModes | data.py:6-12 | the five prefixes `load_state` tries are exactly the values of `run_mode_prefix` |
| Session.ModeOf | functions.py:88-98 | a key's run mode is one of the prefixes, and the key starts with it |
| Session.ModeOfIffPrefix | functions.py:88-98 | a key belongs to a mode exactly when it starts with that prefix; no key starts with two, so the order of the `elif` chain does not matter |
| Session.LoadedModes | functions.py:86-98 | the loaded modes are exactly the modes of the state's keys, and only prefixes |
| Session.Register | functions.py:124-128 | `add_key` registers the key once in the UI keys and arms a new flag without touching an existing one; a missing flag dictionary fails on `keys()` |
| Session.ChangeParam | functions.py:109-140 | fails exactly when `add_key` meets a missing flag dictionary (`AttributeError` on `keys()`), or when, without `add_key`, a state and a flag dictionary are given but the key has no flag: the `&` of line 131 does not short-circuit, so that `KeyError` is raised even when `state` is false. Without a loaded state, or with `state` false, the parameter and the session are unchanged. |
| Session.ChangeParamOverrides | functions.py:130-138 | with a loaded state and an armed flag, the parameter becomes the loaded value when there is one, otherwise it is kept. The session value is replaced only when both maps hold the key. The flag ends up disarmed. |
| Session.ChangeParamOneShot | functions.py:130-140 | once a call has succeeded, a second call for the same key changes nothing, whatever parameter it is given |
| Session.ResetValues | functions.py:143-157 | a run mode without defaults is a `KeyError` naming that run mode; otherwise its defaults are written into the session in order |
| Session.ApplyLastWins | functions.py:154-156 | after the reset, the session holds its old keys and the default keys; a key takes the value of its last default; keys without a default are untouched |
| Session.ResetIdempotent | functions.py:143-157 | resetting twice is resetting once |

## Left out

- Float32 and IEEE behaviour of the transforms are not modelled: the
  `astype(np.float32)` casts, overflow and NaN propagation. The model works
  over `real`, where the two branches of `stable_sigmoid` agree exactly.
- Transforms.StableSigmoidAt: only `base_10 = True` (the default of
  `stable_sigmoid`, functions.py:1726) is modelled. The `base_10 = False`
  branch that skips the `ln 10` factor (functions.py:1739) is left out,
  because no caller in the source passes it.
- The exponential and `ln 10` are not computed. They are an `Exponential`
  parameter whose laws are preconditions of the curve lemmas.
- The sigmoid formula shown on the documentation page
  (`pages/1_Documentation.py`) has no `ln 10` factor. The code
  multiplies by `np.log(10)`, so the model follows the code: the curves are
  base-10 logistic curves. That page is not part of this model.
- Value_Mapping has no evaluator in the code and none here. Only its
  configuration block is modelled.
- Streamlit is not modelled: widgets, columns, `st.info`, `st.rerun`, and
  the display half of `write_show`. Widget readings after any loaded UI
  state has been applied are the `Readings` parameter of `trans_para_input`.
- File I/O is not modelled: the JSON decode in `load_state`, the file append
  in `write_show`, and the other file helpers. `load_state` is modelled
  only as its key-classification loop over the decoded keys.
- RDKit, pandas and the other pages are not modelled.
- The module-global registrations `trans_para_input` makes in
  `state_dict_reset` and `state_dict_UI`, and its calls to `change_param`,
  are not modelled. `change_param` and `reset_values` are modelled on their
  own over explicit maps, and `trans_para_input` receives the values they
  produce.
- Emission.Lines: the text of a number (`str()` of a float, or `:.2f`) is
  not spelled out. Each value records only which of the two spellings it
  gets.
- Emission.Lines: its own contract states only the shape of a block. The
  field names, their order and the number spellings are stated by the
  round trip with the independent reader `Parse` (`ParseLines`,
  `ParseExactly`).
- ComponentHeaders.ComponentHeader: the contract spells out the comment
  line and the opening table line. For the last two table lines it states
  only that they are written, not their text.
- The description texts of `scoring_component` are not modelled. An entry
  maps a component to the index of its category, which determines its
  description.
- Smiles.TokenSet: the token list is used only for membership, so it becomes
  a set. Order and repetitions in the list do not affect the scan.
- The distinctness of the `scor_comp` entries and of the component names is
  not proved. Components are a datatype, whose constructors are distinct
  by construction.
- `transformers_false` is computed over the keys of `transformer_defaults`
  in `scor_comp` order. Both tables list the same 43 components in the same
  order.
- Session.ChangeParam: when a call raises, the widget updates it made before
  the exception are not kept, because the failure carries no store. A
  `change_param_dict` of `None` is the `None` case of the flags `Option`.
- Session.ResetValues: the `st.rerun()` that ends `reset_values` is not
  modelled.
