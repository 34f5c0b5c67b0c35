/** The header `write_scor_component` writes above a scoring component's
    parameters: a comment naming the component and its description, then
    the component's tables. */
module ComponentHeaders {
  import opened Wrappers
  import opened Components
  import opened Categories
  import opened ComponentNames

  /** A line of the header: the comment naming the component and the
      category whose description it shows, or a table line. */
  datatype HeaderLine = Comment(name: string, category: nat) | Table(text: string)

  /** What a call wrote before it returned or raised. */
  datatype Written = Written(lines: seq<HeaderLine>, raised: Option<PyError>)

  /** The table the header opens, under `stage.` for a staged run. */
  function TablePrefix(stages: bool): string {
    if stages then "stage.scoring.component" else "scoring.component"
  }

  /** `write_scor_component`: the comment line, then the table lines, under
      `stage.` for a staged run. Each line is written as soon as its lookups
      succeed. `scoring_component_entries` is read for the comment, so a
      component it lacks raises before anything is written. `scoring_keys`
      is first read for the third line, so a component it lacks (a generic
      one) raises after two lines have been written. */
  function ComponentHeader(entries: map<Component, nat>, c: Component, stages: bool): (w: Written)
    ensures w.raised.None? <==> c in entries && ScoringKey(c).Some?
    ensures w.raised.Some? ==> w.raised.value == KeyError(Name(c))
    ensures c !in entries ==> w.lines == []
    ensures c in entries ==>
      |w.lines| >= 2 && w.lines[0] == Comment(Name(c), entries[c]) &&
      w.lines[1] == Table("[[" + TablePrefix(stages) + "]]\n")
    ensures c in entries && ScoringKey(c).None? ==> |w.lines| == 2
    ensures w.raised.None? ==> |w.lines| == 4
  {
    var table := TablePrefix(stages);
    if c !in entries then Written([], Some(KeyError(Name(c))))
    else
      var opening := [Comment(Name(c), entries[c]), Table("[[" + table + "]]\n")];
      match ScoringKey(c)
      case None => Written(opening, Some(KeyError(Name(c))))
      case Some(k) =>
        Written(opening + [Table("[" + table + "." + k + "]\n"), Table("[[" + table + "." + k + ".endpoint]]\n")], None)
  }

  /** With the real tables, the whole header is written for exactly the
      components of `scor_comp`, and its comment shows the category listing
      the component. A generic component gets the comment and the opening
      table line before its missing scoring key raises. */
  lemma ComponentHeaderSucceeds(c: Component, stages: bool)
    ensures ComponentHeader(ScoringComponentEntries(), c, stages).raised.None? <==> c in ScorComp
    ensures |ComponentHeader(ScoringComponentEntries(), c, stages).lines| >= 2 &&
      ComponentHeader(ScoringComponentEntries(), c, stages).lines[0] == Comment(Name(c), CategoryOf(c))
    ensures c !in ScorComp ==> |ComponentHeader(ScoringComponentEntries(), c, stages).lines| == 2
  {
    var entries := ScoringComponentEntries();
    EntryOf(c);
    KeyOf(c);
    var w := ComponentHeader(entries, c, stages);
    assert w.lines[0] == Comment(Name(c), entries[c]);
  }

  lemma EntryOf(c: Component)
    ensures c in ScoringComponentEntries() && ScoringComponentEntries()[c] == CategoryOf(c)
  {
    EntriesAreCategories();
  }

  lemma KeyOf(c: Component)
    ensures ScoringKey(c).Some? <==> c in ScorComp
  {
    ScoringKeysCoverScorComp();
  }
}
