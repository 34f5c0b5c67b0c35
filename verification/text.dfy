/** The few Python string operations the modelled code relies on:
    `str.startswith`, `str.split(sep)` with a non-empty separator, and its
    inverse `sep.join(parts)`. */
module Text {
  import opened Wrappers

  /** `s.startswith(p)`. */
  predicate StartsWith(s: string, p: string) {
    |p| <= |s| && s[..|p|] == p
  }

  /** `sep` occurs in `s` starting at position `i`. */
  predicate OccursAt(s: string, sep: string, i: nat) {
    i + |sep| <= |s| && s[i..i + |sep|] == sep
  }

  /** `sep in s`. */
  predicate Contains(s: string, sep: string) {
    exists i: nat :: i <= |s| && OccursAt(s, sep, i)
  }

  /** The leftmost occurrence of `sep` in `s` at or after `from`, as
      `s.find(sep, from)` finds it (`None` for Python's -1). */
  function FindFrom(s: string, sep: string, from: nat): (r: Option<nat>)
    requires |sep| > 0 && from <= |s|
    ensures r.Some? ==> from <= r.value && OccursAt(s, sep, r.value)
    ensures r.Some? ==> forall j: nat :: from <= j < r.value ==> !OccursAt(s, sep, j)
    ensures r.None? ==> forall j: nat :: from <= j ==> !OccursAt(s, sep, j)
    decreases |s| - from
  {
    if from + |sep| > |s| then None
    else if s[from..from + |sep|] == sep then Some(from)
    else FindFrom(s, sep, from + 1)
  }

  /** `sep.join(parts)`. */
  function Join(parts: seq<string>, sep: string): string {
    if |parts| == 0 then ""
    else if |parts| == 1 then parts[0]
    else parts[0] + sep + Join(parts[1..], sep)
  }

  /** `s.split(sep)` for a non-empty `sep`: the pieces between the leftmost
      non-overlapping occurrences of `sep`. There is always at least one
      piece, no piece contains the separator, and joining the pieces with
      the separator gives back `s`. */
  function Split(s: string, sep: string): (parts: seq<string>)
    requires |sep| > 0
    ensures |parts| >= 1
    ensures Join(parts, sep) == s
    ensures forall k :: 0 <= k < |parts| ==> !Contains(parts[k], sep)
    decreases |s|
  {
    match FindFrom(s, sep, 0)
    case None =>
      NoOccurrenceAnywhere(s, sep);
      [s]
    case Some(i) =>
      var rest := Split(s[i + |sep|..], sep);
      FirstPieceClean(s, sep, i);
      assert s == s[..i] + sep + s[i + |sep|..];
      [s[..i]] + rest
  }

  lemma NoOccurrenceAnywhere(s: string, sep: string)
    requires |sep| > 0
    requires FindFrom(s, sep, 0).None?
    ensures !Contains(s, sep)
  {
  }

  /** The text before the leftmost occurrence holds no occurrence. */
  lemma FirstPieceClean(s: string, sep: string, i: nat)
    requires |sep| > 0 && FindFrom(s, sep, 0) == Some(i)
    ensures !Contains(s[..i], sep)
  {
    forall j: nat | OccursAt(s[..i], sep, j)
      ensures false
    {
      assert s[..i][j..j + |sep|] == s[j..j + |sep|];
      assert OccursAt(s, sep, j);
    }
  }

  /** `Join` of a list led by one piece. */
  lemma JoinCons(p: string, rest: seq<string>, sep: string)
    requires |rest| >= 1
    ensures Join([p] + rest, sep) == p + sep + Join(rest, sep)
  {
    assert ([p] + rest)[1..] == rest;
  }

  /** The partner of `Split`: splitting a joined list gives the list back,
      provided no piece contains the separator's first character (which
      rules out an occurrence that straddles a piece boundary). */
  lemma {:induction false} SplitJoin(parts: seq<string>, sep: string)
    requires |sep| > 0 && |parts| >= 1
    requires forall k :: 0 <= k < |parts| ==> sep[0] !in parts[k]
    ensures Split(Join(parts, sep), sep) == parts
    decreases |parts|
  {
    var s := Join(parts, sep);
    var p := parts[0];
    if |parts| == 1 {
      assert s == p;
      NoOccurrenceWithoutFirstChar(p, sep, 0);
    } else {
      var rest := parts[1..];
      JoinCons(p, rest, sep);
      assert parts == [p] + rest;
      assert s == p + sep + Join(rest, sep);
      FirstOccurrenceAfterPiece(p, sep, Join(rest, sep));
      assert s[|p| + |sep|..] == Join(rest, sep);
      assert s[..|p|] == p;
      SplitJoin(rest, sep);
    }
  }

  /** A string without `sep[0]` holds no occurrence of `sep`. */
  lemma NoOccurrenceWithoutFirstChar(p: string, sep: string, from: nat)
    requires |sep| > 0 && sep[0] !in p && from <= |p|
    ensures FindFrom(p, sep, from).None?
    decreases |p| - from
  {
    if from + |sep| <= |p| {
      assert p[from..from + |sep|][0] == p[from];
      NoOccurrenceWithoutFirstChar(p, sep, from + 1);
    }
  }

  /** In `p + sep + t` with `sep[0]` not in `p`, the leftmost occurrence of
      `sep` is the one right after `p`. */
  lemma FirstOccurrenceAfterPiece(p: string, sep: string, t: string)
    requires |sep| > 0 && sep[0] !in p
    ensures FindFrom(p + sep + t, sep, 0) == Some(|p|)
  {
    var s := p + sep + t;
    assert s[|p|..|p| + |sep|] == sep;
    SkipPiece(p, sep, t, 0);
  }

  lemma SkipPiece(p: string, sep: string, t: string, from: nat)
    requires |sep| > 0 && sep[0] !in p && from <= |p|
    ensures FindFrom(p + sep + t, sep, from) == Some(|p|)
    decreases |p| - from
  {
    var s := p + sep + t;
    if from < |p| {
      assert s[from..from + |sep|][0] == p[from];
      SkipPiece(p, sep, t, from + 1);
    } else {
      assert s[from..from + |sep|] == sep;
    }
  }

  /** `key.split("_")[1]`: the widget-key segment between the first and the
      second underscore (or the end). A `None` key has no `split` method and
      a key without an underscore has no second piece. */
  function KeyPart(key: Option<string>): (r: Result<string, PyError>)
    ensures key.None? ==> r == Failure(AttributeError("split"))
    ensures key.Some? ==> (r.Failure? <==> '_' !in key.value)
    ensures r.Failure? ==> r.error.AttributeError? || r.error == IndexError
    ensures key.Some? && r.Failure? ==> r.error == IndexError
    ensures r.Success? ==> '_' !in r.value
  {
    match key
    case None => Failure(AttributeError("split"))
    case Some(k) =>
      var parts := Split(k, "_");
      if |parts| < 2 then
        assert Join(parts, "_") == parts[0] == k;
        NoUnderscoreIffNoContains(parts[0]);
        Failure(IndexError)
      else
        UnderscoreInJoin(parts);
        NoUnderscoreIffNoContains(parts[1]);
        Success(parts[1])
  }

  lemma NoUnderscoreIffNoContains(s: string)
    ensures '_' !in s <==> !Contains(s, "_")
  {
    if '_' in s {
      var i :| 0 <= i < |s| && s[i] == '_';
      assert s[i..i + 1] == "_";
      assert OccursAt(s, "_", i);
    }
    if Contains(s, "_") {
      var i: nat :| i <= |s| && OccursAt(s, "_", i);
      assert s[i..i + 1][0] == s[i];
    }
  }

  lemma UnderscoreInJoin(parts: seq<string>)
    requires |parts| >= 2
    ensures '_' in Join(parts, "_")
  {
    assert Join(parts, "_") == parts[0] + "_" + Join(parts[1..], "_");
    assert Join(parts, "_")[|parts[0]|] == '_';
  }

  /** Splitting a widget key `prefix_name_suffix` at `_`, where the prefix
      and the name hold no underscore, gives the prefix, the name and the
      pieces of the suffix. */
  lemma SplitWidgetKey(prefix: string, name: string, suffix: string)
    requires '_' !in prefix && '_' !in name
    ensures Split(prefix + "_" + name + "_" + suffix, "_") == [prefix, name] + Split(suffix, "_")
  {
    var key := prefix + "_" + name + "_" + suffix;
    var rest := Split(suffix, "_");
    var parts := [prefix, name] + rest;
    assert Join(parts, "_") == key by {
      JoinCons(name, rest, "_");
      assert parts == [prefix] + ([name] + rest);
      JoinCons(prefix, [name] + rest, "_");
    }
    NoUnderscoreInPieces(prefix, name, rest);
    SplitJoin(parts, "_");
  }

  /** No piece of `[prefix, name] + rest` holds `_` when the prefix and the
      name hold none and no piece of `rest` contains `"_"`. */
  lemma NoUnderscoreInPieces(prefix: string, name: string, rest: seq<string>)
    requires '_' !in prefix && '_' !in name
    requires forall k :: 0 <= k < |rest| ==> !Contains(rest[k], "_")
    ensures forall k :: 0 <= k < |[prefix, name] + rest| ==> "_"[0] !in ([prefix, name] + rest)[k]
  {
    var parts := [prefix, name] + rest;
    forall k | 0 <= k < |parts|
      ensures "_"[0] !in parts[k]
    {
      if k >= 2 {
        assert parts[k] == rest[k - 2];
        NoUnderscoreIffNoContains(parts[k]);
      }
    }
  }

  /** For a widget key built as `prefix_name_suffix` from a prefix and a
      name without underscores, `KeyPart` recovers the name: the component
      name `trans_para_input` writes into a value mapping. */
  lemma KeyPartOfWidgetKey(prefix: string, name: string, suffix: string)
    requires '_' !in prefix && '_' !in name
    ensures KeyPart(Some(prefix + "_" + name + "_" + suffix)) == Success(name)
  {
    var key := prefix + "_" + name + "_" + suffix;
    SplitWidgetKey(prefix, name, suffix);
    assert Split(key, "_")[1] == name;
  }
}
