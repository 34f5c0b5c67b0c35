/** The scan `check_smiles` makes of one SMILES line, with Python's
    clipped slices: at each position it advances by the shortest token of
    two to six characters, else by a one-character token, and otherwise
    stops and warns about the character there. */
module Scanner {
  import opened Wrappers
  import opened Reports

  /** `min(j, len)`: where a position past the end of a line stops. */
  function Clip(j: nat, len: nat): nat {
    if j <= len then j else len
  }

  /** Python's `s[i:j]` for `0 <= i <= j`: both bounds are clipped to the
      length of `s`. */
  function Slice(s: string, i: nat, j: nat): (r: string)
    requires i <= j
    ensures |r| <= j - i
    ensures j <= |s| ==> r == s[i..j]
  {
    s[Clip(i, |s|)..Clip(j, |s|)]
  }

  /** The `n` characters of a line from position `i` on, `s[i:i+n]`. */
  function Window(s: string, i: nat, n: nat): string {
    Slice(s, i, i + n)
  }

  /** A window inside the line is the slice of its clipped length. */
  lemma WindowInLine(s: string, i: nat, n: nat)
    requires i <= |s|
    ensures i + |Window(s, i, n)| == Clip(i + n, |s|)
    ensures Window(s, i, n) == s[i..i + |Window(s, i, n)|]
  {
  }

  /** The shortest window of `n` to six characters at `i` that is a token:
      the `elif` chain that tries two, three, four, five and six characters
      in turn. */
  function ShortestWindow(s: string, tokens: set<string>, i: nat, n: nat): (r: Option<nat>)
    requires n <= 7
    ensures r.Some? ==> n <= r.value <= 6
    decreases 7 - n
  {
    if n == 7 then None
    else if Window(s, i, n) in tokens then Some(n)
    else ShortestWindow(s, tokens, i, n + 1)
  }

  /** `ShortestWindow` finds the shortest token window, or reports that
      there is none. */
  lemma {:induction false} ShortestWindowIsShortest(s: string, tokens: set<string>, i: nat, n: nat)
    requires n <= 7
    ensures ShortestWindow(s, tokens, i, n).Some? ==>
      Window(s, i, ShortestWindow(s, tokens, i, n).value) in tokens &&
      forall m :: n <= m < ShortestWindow(s, tokens, i, n).value ==> Window(s, i, m) !in tokens
    ensures ShortestWindow(s, tokens, i, n).None? ==> forall m :: n <= m <= 6 ==> Window(s, i, m) !in tokens
    decreases 7 - n
  {
    if n < 7 && Window(s, i, n) !in tokens {
      ShortestWindowIsShortest(s, tokens, i, n + 1);
    }
  }

  /** The advance the scan makes at position `i` of a line: by the
      shortest window of two to six characters that is a token, else by one
      character when that character is a token; `None` where neither holds
      and the warning is raised. */
  function Advance(s: string, tokens: set<string>, i: nat): (r: Option<nat>)
    requires i < |s|
    ensures r.Some? ==> 1 <= r.value <= 6
  {
    var longer := ShortestWindow(s, tokens, i, 2);
    if [s[i]] in tokens then
      if longer.Some? then longer else Some(1)
    else longer
  }

  /** The window the scan advances by is a token. */
  lemma AdvanceToken(s: string, tokens: set<string>, i: nat)
    requires i < |s|
    ensures Advance(s, tokens, i).Some? ==> Window(s, i, Advance(s, tokens, i).value) in tokens
  {
    assert Window(s, i, 1) == [s[i]];
    ShortestWindowIsShortest(s, tokens, i, 2);
  }

  /** The preference order of the scan: no shorter window of two or more
      characters is a token; a one-character advance happens only when no
      longer window is a token; and the scan stops exactly where no window
      of one to six characters is a token. */
  lemma AdvancePrefers(s: string, tokens: set<string>, i: nat)
    requires i < |s|
    ensures Advance(s, tokens, i).Some? ==> forall n :: 2 <= n < Advance(s, tokens, i).value ==> Window(s, i, n) !in tokens
    ensures Advance(s, tokens, i) == Some(1) ==> forall n :: 2 <= n <= 6 ==> Window(s, i, n) !in tokens
    ensures Advance(s, tokens, i).None? <==> forall n :: 1 <= n <= 6 ==> Window(s, i, n) !in tokens
  {
    assert Window(s, i, 1) == [s[i]];
    ShortestWindowIsShortest(s, tokens, i, 2);
  }

  /** The strings of `parts`, one after the other. */
  function Concat(parts: seq<string>): string {
    if |parts| == 0 then "" else parts[0] + Concat(parts[1..])
  }

  /** Each entry is `None` or an advance of one to six characters, one
      entry per position of `s`. */
  predicate StepsFit(s: string, steps: seq<Option<nat>>) {
    && |steps| == |s|
    && forall i :: 0 <= i < |steps| && steps[i].Some? ==> 1 <= steps[i].value <= 6
  }

  /** The advance the scan would make at every position of a line. */
  function Steps(s: string, tokens: set<string>): (r: seq<Option<nat>>)
    ensures StepsFit(s, r)
  {
    seq(|s|, i requires 0 <= i < |s| => Advance(s, tokens, i))
  }

  lemma StepAt(s: string, tokens: set<string>, i: nat)
    requires i < |s|
    ensures Steps(s, tokens)[i] == Advance(s, tokens, i)
  {
  }

  /** The outcome of scanning one line: the tokens matched and, when the
      scan stopped early, the position of the character it warned about. */
  datatype LineScan = Clean(parts: seq<string>) | Unsupported(at: nat, parts: seq<string>)

  /** The scan of a line from position `i` on, making the advances `steps`
      gives: the tokens matched, up to the end of the line or to the
      character the warning names. The scan `check_smiles` makes is the one
      with `Steps(s, tokens)`. */
  function Scan(s: string, steps: seq<Option<nat>>, i: nat): LineScan
    requires StepsFit(s, steps) && i <= |s|
    decreases |s| - i
  {
    if i == |s| then Clean([])
    else match steps[i]
      case None => Unsupported(i, [])
      case Some(n) => Prefixed([Window(s, i, n)], Scan(s, steps, Clip(i + n, |s|)))
  }

  /** `r` with `parts` matched before it. */
  function Prefixed(parts: seq<string>, r: LineScan): LineScan {
    match r
    case Clean(p) => Clean(parts + p)
    case Unsupported(at, p) => Unsupported(at, parts + p)
  }

  /** Every part the scan matches is a token of one to six characters. */
  lemma {:induction false} ScanTokens(s: string, tokens: set<string>, i: nat)
    requires i <= |s|
    ensures AllTokens(Scan(s, Steps(s, tokens), i).parts, tokens)
    decreases |s| - i
  {
    var steps := Steps(s, tokens);
    if i < |s| {
      StepAt(s, tokens, i);
      if steps[i].Some? {
        var n := steps[i].value;
        var j := Clip(i + n, |s|);
        AdvanceToken(s, tokens, i);
        WindowInLine(s, i, n);
        ScanTokens(s, tokens, j);
        TokensCons(Window(s, i, n), Scan(s, steps, j).parts, tokens);
      }
    }
  }

  /** A scan that stops early stops inside the line, at or after where it
      started. */
  lemma {:induction false} ScanStopsInside(s: string, steps: seq<Option<nat>>, i: nat)
    requires StepsFit(s, steps) && i <= |s|
    ensures Scan(s, steps, i).Unsupported? ==>
      i <= Scan(s, steps, i).at < |s| && steps[Scan(s, steps, i).at].None?
    decreases |s| - i
  {
    if i < |s| && steps[i].Some? {
      ScanStopsInside(s, steps, Clip(i + steps[i].value, |s|));
    }
  }

  /** The scan stops early at a character from which no window of one to
      six characters is a token. */
  lemma ScanStopsAt(s: string, tokens: set<string>, i: nat)
    requires i <= |s|
    ensures Scan(s, Steps(s, tokens), i).Unsupported? ==>
      i <= Scan(s, Steps(s, tokens), i).at < |s| &&
      forall n :: 1 <= n <= 6 ==> Window(s, Scan(s, Steps(s, tokens), i).at, n) !in tokens
  {
    var r := Scan(s, Steps(s, tokens), i);
    ScanStopsInside(s, Steps(s, tokens), i);
    if r.Unsupported? {
      StepAt(s, tokens, r.at);
      AdvancePrefers(s, tokens, r.at);
    }
  }

  /** The parts of a scan spell out the line from where it started to the
      end, or to where it stopped early. */
  lemma {:induction false} ScanSpells(s: string, steps: seq<Option<nat>>, i: nat)
    requires StepsFit(s, steps) && i <= |s|
    ensures Scan(s, steps, i).Clean? ==> Concat(Scan(s, steps, i).parts) == s[i..]
    ensures Scan(s, steps, i).Unsupported? ==>
      i <= Scan(s, steps, i).at < |s| && Concat(Scan(s, steps, i).parts) == s[i..Scan(s, steps, i).at]
    decreases |s| - i
  {
    ScanStopsInside(s, steps, i);
    if i < |s| && steps[i].Some? {
      var n := steps[i].value;
      var t := Window(s, i, n);
      WindowInLine(s, i, n);
      var j := Clip(i + n, |s|);
      var rest := Scan(s, steps, j);
      ScanStopsInside(s, steps, j);
      ScanSpells(s, steps, j);
      var end := if rest.Clean? then |s| else rest.at;
      SpellsOut(s, i, j, end, t, rest.parts);
      assert Scan(s, steps, i).parts == [t] + rest.parts;
    }
  }

  /** The `while` loop of `check_smiles` over one line: it advances by the
      window `Advance` picks, even past the end of the line when the window
      was cut short, and stops at the first character no token starts with.
      The loop computes the recursive `Scan`. */
  method ScanLine(s: string, tokens: set<string>) returns (r: LineScan)
    ensures r == Scan(s, Steps(s, tokens), 0)
  {
    ghost var steps := Steps(s, tokens);
    var i: nat := 0;
    var parts: seq<string> := [];
    ghost var whole := Scan(s, steps, 0);
    PrefixedNil(whole);
    while i < |s|
      invariant whole == Prefixed(parts, Scan(s, steps, Clip(i, |s|)))
      decreases |s| - i
    {
      var step := Advance(s, tokens, i);
      StepAt(s, tokens, i);
      if step.None? {
        ScanStops(s, steps, i, parts, whole);
        return Unsupported(i, parts);
      }
      var n := step.value;
      ghost var before, from := parts, i;
      parts := parts + [Window(s, i, n)];
      i := i + n;
      ScanAdvances(s, steps, from, n, before, whole, i, parts);
    }
    ScanEnds(s, steps, i, parts, whole);
    r := Clean(parts);
  }

  lemma ScanAdvances(s: string, steps: seq<Option<nat>>, i: nat, n: nat, parts: seq<string>, whole: LineScan,
                     i': nat, parts': seq<string>)
    requires StepsFit(s, steps) && i < |s| && steps[i] == Some(n)
    requires whole == Prefixed(parts, Scan(s, steps, Clip(i, |s|)))
    requires i' == i + n && parts' == parts + [Window(s, i, n)]
    ensures whole == Prefixed(parts', Scan(s, steps, Clip(i', |s|)))
  {
    PrefixedAppend(parts, Window(s, i, n), Scan(s, steps, Clip(i + n, |s|)));
  }

  lemma PrefixedNil(r: LineScan)
    ensures r == Prefixed([], r)
  {
    assert [] + r.parts == r.parts;
  }

  lemma ScanStops(s: string, steps: seq<Option<nat>>, i: nat, parts: seq<string>, whole: LineScan)
    requires StepsFit(s, steps) && i < |s| && steps[i].None?
    requires whole == Prefixed(parts, Scan(s, steps, Clip(i, |s|)))
    ensures whole == Unsupported(i, parts)
  {
    assert parts + [] == parts;
  }

  lemma ScanEnds(s: string, steps: seq<Option<nat>>, i: nat, parts: seq<string>, whole: LineScan)
    requires StepsFit(s, steps) && i >= |s|
    requires whole == Prefixed(parts, Scan(s, steps, Clip(i, |s|)))
    ensures whole == Clean(parts)
  {
    assert parts + [] == parts;
  }

  lemma PrefixedAppend(parts: seq<string>, t: string, r: LineScan)
    ensures Prefixed(parts, Prefixed([t], r)) == Prefixed(parts + [t], r)
  {
    assert parts + ([t] + r.parts) == parts + [t] + r.parts;
  }

  /** One matched token in front of the scan of the rest of the line is a
      scan from the token's start. */
  lemma ScanCons(s: string, tokens: set<string>, i: nat, t: string, rest: LineScan)
    requires i < |s| && t in tokens && 1 <= |t| <= 6 && i + |t| <= |s| && s[i..i + |t|] == t
    requires AllTokens(rest.parts, tokens)
    requires rest.Clean? ==> Concat(rest.parts) == s[i + |t|..]
    requires rest.Unsupported? ==> i + |t| <= rest.at < |s| && Concat(rest.parts) == s[i + |t|..rest.at]
    ensures AllTokens(Prefixed([t], rest).parts, tokens)
    ensures rest.Clean? ==> Concat(Prefixed([t], rest).parts) == s[i..]
    ensures rest.Unsupported? ==> Concat(Prefixed([t], rest).parts) == s[i..rest.at]
  {
    TokensCons(t, rest.parts, tokens);
    SpellsOut(s, i, i + |t|, if rest.Clean? then |s| else rest.at, t, rest.parts);
  }

  /** A token followed by tokens spelling out the text after it spells out
      the text from the token's start. */
  lemma SpellsOut(s: string, i: nat, j: nat, end: nat, t: string, rest: seq<string>)
    requires i <= j <= end <= |s| && s[i..j] == t && Concat(rest) == s[j..end]
    ensures Concat([t] + rest) == s[i..end]
  {
    assert ([t] + rest)[1..] == rest;
    assert s[i..end] == s[i..j] + s[j..end];
  }

  /** Every part is a non-empty token of at most six characters. */
  predicate AllTokens(parts: seq<string>, tokens: set<string>) {
    forall k :: 0 <= k < |parts| ==> parts[k] in tokens && 1 <= |parts[k]| <= 6
  }

  lemma TokensCons(t: string, rest: seq<string>, tokens: set<string>)
    requires t in tokens && 1 <= |t| <= 6 && AllTokens(rest, tokens)
    ensures AllTokens([t] + rest, tokens)
  {
    forall k | 0 <= k < |[t] + rest|
      ensures ([t] + rest)[k] in tokens && 1 <= |([t] + rest)[k]| <= 6
    {
      if k > 0 {
        assert ([t] + rest)[k] == rest[k - 1];
      }
    }
  }

  /** Where the scan of a whole line stops early, if it does: a position
      inside the line at which no token of one to six characters starts. */
  function StopOf(s: string, tokens: set<string>): (r: Option<nat>)
    ensures r.Some? ==> r.value < |s|
  {
    ScanStopsInside(s, Steps(s, tokens), 0);
    match Scan(s, Steps(s, tokens), 0)
    case Clean(_) => None
    case Unsupported(at, _) => Some(at)
  }

  /** A line's scan stops early exactly at a character that starts no
      token of one to six characters. */
  lemma StopOfNoToken(s: string, tokens: set<string>)
    ensures StopOf(s, tokens).Some? <==> Scan(s, Steps(s, tokens), 0).Unsupported?
    ensures StopOf(s, tokens).Some? ==> forall n :: 1 <= n <= 6 ==> Window(s, StopOf(s, tokens).value, n) !in tokens
  {
    ScanStopsAt(s, tokens, 0);
  }

  /** The stopping point of every line's scan. */
  function StopsOf(smiles: seq<string>, tokens: set<string>): (r: seq<Option<nat>>)
    ensures StopsFit(smiles, r)
  {
    seq(|smiles|, l requires 0 <= l < |smiles| => StopOf(smiles[l], tokens))
  }

  /** Line `l`'s entry is where its own scan stops. */
  lemma StopsOfLine(smiles: seq<string>, tokens: set<string>, l: nat)
    requires l < |smiles|
    ensures StopsOf(smiles, tokens)[l] == StopOf(smiles[l], tokens)
  {
  }

  /** The `for` loop of `check_smiles` over the lines, once a token list is
      bound: each line is scanned, and a line whose scan stops early adds
      its warning. */
  method WarnLines(smiles: seq<string>, tokens: set<string>) returns (ws: seq<Warning>)
    ensures ws == WarningsOf(smiles, StopsOf(smiles, tokens), |smiles|)
  {
    ghost var stops := StopsOf(smiles, tokens);
    ws := [];
    var l := 0;
    while l < |smiles|
      invariant l <= |smiles|
      invariant ws == WarningsOf(smiles, stops, l)
    {
      var scan := ScanLine(smiles[l], tokens);
      WarningsNext(smiles, tokens, stops, l, scan);
      if scan.Unsupported? {
        ws := ws + [Warning(l + 1, smiles[l][scan.at])];
      }
      l := l + 1;
    }
  }

  lemma WarningsNext(smiles: seq<string>, tokens: set<string>, stops: seq<Option<nat>>, l: nat, scan: LineScan)
    requires stops == StopsOf(smiles, tokens)
    requires l < |smiles| && scan == Scan(smiles[l], Steps(smiles[l], tokens), 0)
    ensures scan.Unsupported? ==> scan.at < |smiles[l]|
    ensures WarningsOf(smiles, stops, l + 1) == WarningsOf(smiles, stops, l) +
      (if scan.Unsupported? then [Warning(l + 1, smiles[l][scan.at])] else [])
  {
    StopsOfLine(smiles, tokens, l);
    assert StopOf(smiles[l], tokens) == (if scan.Unsupported? then Some(scan.at) else None);
  }
}
