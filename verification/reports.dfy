/** The warnings `check_smiles` raises over a list of SMILES lines, given
    where the scan of each line stops early. Kept apart from the scanner:
    what a warning list says depends only on the stopping points. */
module Reports {
  import opened Wrappers

  /** A `st.warning` of `check_smiles`: the 1-based line number and the
      character no supported token starts with. */
  datatype Warning = Warning(line: nat, token: char)

  /** `stops[l]` is where the scan of line `l` stops early, if it does: a
      position inside that line. */
  predicate StopsFit(smiles: seq<string>, stops: seq<Option<nat>>) {
    && |stops| == |smiles|
    && forall l :: 0 <= l < |stops| && stops[l].Some? ==> stops[l].value < |smiles[l]|
  }

  /** The warning numbered `line` of a line whose scan stops at `stop`, if
      it stops early. */
  function LineWarning(s: string, stop: Option<nat>, line: nat): seq<Warning>
    requires stop.Some? ==> stop.value < |s|
  {
    match stop
    case None => []
    case Some(at) => [Warning(line, s[at])]
  }

  /** The warnings of the first `n` lines, raised one line after another. */
  function WarningsOf(smiles: seq<string>, stops: seq<Option<nat>>, n: nat): seq<Warning>
    requires StopsFit(smiles, stops) && n <= |smiles|
  {
    if n == 0 then []
    else WarningsOf(smiles, stops, n - 1) + LineWarning(smiles[n - 1], stops[n - 1], n)
  }

  /** `w` is the warning raised for its line: the line stops early, and `w`
      carries the character it stopped at. */
  predicate WarnsAbout(smiles: seq<string>, stops: seq<Option<nat>>, w: Warning)
    requires StopsFit(smiles, stops)
  {
    && 1 <= w.line <= |smiles|
    && stops[w.line - 1].Some?
    && w.token == smiles[w.line - 1][stops[w.line - 1].value]
  }

  /** Every warning of `ws` is about one of the first `n` lines, and is the
      warning that line raises. */
  predicate WarnedLines(smiles: seq<string>, stops: seq<Option<nat>>, n: nat, ws: seq<Warning>)
    requires StopsFit(smiles, stops)
  {
    forall j :: 0 <= j < |ws| ==> ws[j].line <= n && WarnsAbout(smiles, stops, ws[j])
  }

  /** The warnings are in strictly increasing line order, so no line is
      warned about twice. */
  predicate Ascending(ws: seq<Warning>) {
    forall j, k :: 0 <= j < k < |ws| ==> ws[j].line < ws[k].line
  }

  /** Every one of the first `n` lines that stops early is warned about. */
  predicate Covers(stops: seq<Option<nat>>, n: nat, ws: seq<Warning>)
    requires n <= |stops|
  {
    forall l :: 0 <= l < n && stops[l].Some? ==> exists j :: 0 <= j < |ws| && ws[j].line == l + 1
  }

  /** Warning `j` of the first `n` lines is about one of them, and is the
      warning that line raises. */
  lemma {:induction false} WarningIsAbout(smiles: seq<string>, stops: seq<Option<nat>>, n: nat, j: nat)
    requires StopsFit(smiles, stops) && n <= |smiles| && j < |WarningsOf(smiles, stops, n)|
    ensures WarningsOf(smiles, stops, n)[j].line <= n
    ensures WarnsAbout(smiles, stops, WarningsOf(smiles, stops, n)[j])
  {
    var prev := WarningsOf(smiles, stops, n - 1);
    var last := LineWarning(smiles[n - 1], stops[n - 1], n);
    assert WarningsOf(smiles, stops, n) == prev + last;
    if j < |prev| {
      WarningIsAbout(smiles, stops, n - 1, j);
      assert WarningsOf(smiles, stops, n)[j] == prev[j];
    } else {
      assert WarningsOf(smiles, stops, n)[j] == last[0];
    }
  }

  /** Later warnings are about later lines. */
  lemma {:induction false} WarningsAscend(smiles: seq<string>, stops: seq<Option<nat>>, n: nat, j: nat, k: nat)
    requires StopsFit(smiles, stops) && n <= |smiles| && j < k < |WarningsOf(smiles, stops, n)|
    ensures WarningsOf(smiles, stops, n)[j].line < WarningsOf(smiles, stops, n)[k].line
  {
    var prev := WarningsOf(smiles, stops, n - 1);
    var last := LineWarning(smiles[n - 1], stops[n - 1], n);
    assert WarningsOf(smiles, stops, n) == prev + last;
    assert WarningsOf(smiles, stops, n)[j] == prev[j];
    if k < |prev| {
      WarningsAscend(smiles, stops, n - 1, j, k);
      assert WarningsOf(smiles, stops, n)[k] == prev[k];
    } else {
      WarningIsAbout(smiles, stops, n - 1, j);
      assert WarningsOf(smiles, stops, n)[k] == last[0];
    }
  }

  /** A line among the first `n` that stops early is warned about. */
  lemma {:induction false} StopIsWarned(smiles: seq<string>, stops: seq<Option<nat>>, n: nat, l: nat)
    requires StopsFit(smiles, stops) && l < n <= |smiles| && stops[l].Some?
    ensures exists j :: 0 <= j < |WarningsOf(smiles, stops, n)| && WarningsOf(smiles, stops, n)[j].line == l + 1
  {
    var prev := WarningsOf(smiles, stops, n - 1);
    var last := LineWarning(smiles[n - 1], stops[n - 1], n);
    var ws := WarningsOf(smiles, stops, n);
    assert ws == prev + last;
    if l == n - 1 {
      assert ws[|prev|] == last[0];
    } else {
      StopIsWarned(smiles, stops, n - 1, l);
      var j :| 0 <= j < |prev| && prev[j].line == l + 1;
      assert ws[j] == prev[j];
    }
  }

  /** A line is warned about exactly when its scan stops early, once, with
      the character the scan stopped at, and in line order. */
  lemma WarningsExact(smiles: seq<string>, stops: seq<Option<nat>>, n: nat)
    requires StopsFit(smiles, stops) && n <= |smiles|
    ensures WarnedLines(smiles, stops, n, WarningsOf(smiles, stops, n))
    ensures Ascending(WarningsOf(smiles, stops, n))
    ensures Covers(stops, n, WarningsOf(smiles, stops, n))
  {
    var ws := WarningsOf(smiles, stops, n);
    forall j | 0 <= j < |ws|
      ensures ws[j].line <= n && WarnsAbout(smiles, stops, ws[j])
    {
      WarningIsAbout(smiles, stops, n, j);
    }
    forall j, k | 0 <= j < k < |ws|
      ensures ws[j].line < ws[k].line
    {
      WarningsAscend(smiles, stops, n, j, k);
    }
    forall l | 0 <= l < n && stops[l].Some?
      ensures exists j :: 0 <= j < |ws| && ws[j].line == l + 1
    {
      StopIsWarned(smiles, stops, n, l);
    }
  }
}
