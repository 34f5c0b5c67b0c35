/** The UI-state bookkeeping of the form, over explicit maps in place of
    Streamlit's session state: which run modes a loaded UI state holds,
    the one-shot override of a widget by a loaded value (`change_param`),
    and the reset of widgets to their defaults (`reset_values`). Widget
    values are of an arbitrary type `V`. */
module Session {
  import opened Wrappers
  import opened Text

  /** `run_mode_prefix`: the prefix of each run mode's widget keys. */
  function RunModePrefix(name: string): Option<string> {
    if name == "Reinforcement Learning (RL)" then Some("RL")
    else if name == "Staged Learning (SL)" then Some("SL")
    else if name == "Transfer Learning (TL)" then Some("TL")
    else if name == "Sampling" then Some("Sampling")
    else if name == "Scoring" then Some("Scoring")
    else None
  }

  /** The run-mode prefixes, in the order `load_state` tries them. */
  const Prefixes: seq<string> := ["Scoring", "Sampling", "TL", "RL", "SL"]

  /** The prefixes are exactly the values of `run_mode_prefix`. */
  lemma PrefixesOfRunModes()
    ensures forall name :: RunModePrefix(name).Some? ==> RunModePrefix(name).value in Prefixes
    ensures forall i :: 0 <= i < |Prefixes| ==> exists name :: RunModePrefix(name) == Some(Prefixes[i])
  {
    assert RunModePrefix("Scoring") == Some(Prefixes[0]);
    assert RunModePrefix("Sampling") == Some(Prefixes[1]);
    assert RunModePrefix("Transfer Learning (TL)") == Some(Prefixes[2]);
    assert RunModePrefix("Reinforcement Learning (RL)") == Some(Prefixes[3]);
    assert RunModePrefix("Staged Learning (SL)") == Some(Prefixes[4]);
  }

  /** The run mode a key of a loaded UI state belongs to: the first prefix
      it starts with. */
  function ModeOf(key: string): (r: Option<string>)
    ensures r.Some? ==> r.value in Prefixes && StartsWith(key, r.value)
  {
    if StartsWith(key, "Scoring") then Some("Scoring")
    else if StartsWith(key, "Sampling") then Some("Sampling")
    else if StartsWith(key, "TL") then Some("TL")
    else if StartsWith(key, "RL") then Some("RL")
    else if StartsWith(key, "SL") then Some("SL")
    else None
  }

  /** No key starts with two prefixes, so the order in which `load_state`
      tries them does not matter: a key belongs to a mode exactly when it
      starts with that mode's prefix. */
  lemma ModeOfIffPrefix(key: string, m: string)
    ensures ModeOf(key) == Some(m) <==> m in Prefixes && StartsWith(key, m)
  {
    if m in Prefixes && StartsWith(key, m) {
      assert key[..|m|] == m;
      if m == "SL" {
        assert key[0] == 'S' && key[1] == 'L';
      } else if m == "Sampling" {
        assert key[1] == 'a';
      }
    }
  }

  /** The run modes a loaded UI state holds parameters for, from its keys
      in order (the set `load_state` reports). */
  method LoadedModes(keys: seq<string>) returns (modes: set<string>)
    ensures forall m :: m in modes <==> exists k :: k in keys && ModeOf(k) == Some(m)
    ensures modes <= set p | p in Prefixes
  {
    modes := {};
    var i := 0;
    while i < |keys|
      invariant i <= |keys|
      invariant forall m :: m in modes <==> exists j :: 0 <= j < i && ModeOf(keys[j]) == Some(m)
    {
      var mode := ModeOf(keys[i]);
      if mode.Some? {
        modes := modes + {mode.value};
      }
      i := i + 1;
    }
  }

  /** What `change_param` reads and writes besides its result: the
      per-widget override flags (`None` when there is no flag dictionary),
      the current run mode's map of registered UI keys, and the widget
      values of the session. */
  datatype Store<V> = Store(flags: Option<map<string, bool>>, ui: map<string, string>, session: map<string, V>)

  /** The registration `change_param` does with `add_key`: the key joins
      the UI keys and, unless it has a flag already, gets an armed flag. A
      missing flag dictionary fails on `keys()`, after the UI key is
      registered. */
  function Register<V>(st: Store<V>, key: string): (r: Result<Store<V>, PyError>)
    ensures r.Failure? <==> st.flags.None?
    ensures r.Success? ==> r.value.session == st.session
    ensures r.Success? ==> r.value.ui == (if key in st.ui then st.ui else st.ui[key := key])
    ensures r.Success? ==> st.flags.Some? && r.value.flags.Some?
    ensures r.Success? && st.flags.Some? && r.value.flags.Some? ==>
      r.value.flags.value == (if key in st.flags.value then st.flags.value else st.flags.value[key := true])
  {
    var ui := if key in st.ui then st.ui else st.ui[key := key];
    match st.flags
    case None => Failure(AttributeError("keys"))
    case Some(flags) =>
      Success(Store(Some(if key in flags then flags else flags[key := true]), ui, st.session))
  }

  /** `change_param`: with a loaded UI state and an armed flag, the
      parameter becomes the loaded value for its key (if the state holds
      one), the session's widget value is replaced too (if the session
      holds the widget), and the flag is disarmed. The flag is read even
      when no state is loaded, so a key without a flag is a `KeyError`
      then. */
  function ChangeParam<V>(parameter: V, st: Store<V>, loaded: map<string, V>, state: Option<bool>,
                          key: string, addKey: bool): (r: Result<(V, Store<V>), PyError>)
    ensures r.Failure? <==>
      (addKey && st.flags.None?) || (!addKey && state.Some? && st.flags.Some? && key !in st.flags.value)
    ensures addKey && st.flags.None? ==> r == Failure(AttributeError("keys"))
    ensures r.Failure? && !addKey ==> r.error == KeyError(key)
    ensures r.Success? ==> r.value.1.ui == (if addKey && key !in st.ui then st.ui[key := key] else st.ui)
    ensures r.Success? && (state.None? || st.flags.None?) ==>
      r.value.0 == parameter && r.value.1.session == st.session
    ensures r.Success? && state == Some(false) ==> r.value.0 == parameter && r.value.1.session == st.session
  {
    var registered := if addKey then Register(st, key) else Success(st);
    match registered
    case Failure(e) => Failure(e)
    case Success(s) =>
      if state.None? || s.flags.None? then Success((parameter, s))
      else
        var flags := s.flags.value;
        if key !in flags then Failure(KeyError(key))
        else if !(state.value && flags[key]) then Success((parameter, s))
        else
          var p := if key in loaded then loaded[key] else parameter;
          var session := if key in loaded && key in s.session then s.session[key := loaded[key]] else s.session;
          Success((p, Store(Some(flags[key := false]), s.ui, session)))
  }

  /** With a loaded state, an armed flag takes the loaded value when there
      is one and keeps the parameter otherwise; either way the flag ends up
      disarmed. */
  lemma ChangeParamOverrides<V>(parameter: V, st: Store<V>, loaded: map<string, V>, key: string, addKey: bool)
    requires st.flags.Some? && (addKey || key in st.flags.value)
    requires key !in st.flags.value || st.flags.value[key]
    ensures ChangeParam(parameter, st, loaded, Some(true), key, addKey).Success?
    ensures
      var r := ChangeParam(parameter, st, loaded, Some(true), key, addKey).value;
      && r.0 == (if key in loaded then loaded[key] else parameter)
      && r.1.flags.Some? && key in r.1.flags.value && !r.1.flags.value[key]
      && (key in loaded && key in st.session ==> r.1.session == st.session[key := loaded[key]])
      && (key !in loaded || key !in st.session ==> r.1.session == st.session)
  {
  }

  /** The override is one-shot: once a call has succeeded, a second call
      for the same key changes nothing, whatever parameter it is given. */
  lemma ChangeParamOneShot<V>(p: V, q: V, st: Store<V>, loaded: map<string, V>, state: Option<bool>,
                              key: string, addKey: bool)
    requires ChangeParam(p, st, loaded, state, key, addKey).Success?
    requires st.flags.Some? && state.Some?
    ensures
      var st' := ChangeParam(p, st, loaded, state, key, addKey).value.1;
      state.value ==> ChangeParam(q, st', loaded, state, key, addKey) == Success((q, st'))
  {
    var st' := ChangeParam(p, st, loaded, state, key, addKey).value.1;
    if state.value {
      var s := if addKey then Register(st, key).value else st;
      assert key in s.flags.value;
      if s.flags.value[key] {
        assert st'.flags.value == s.flags.value[key := false];
      } else {
        assert st' == s;
      }
      if addKey {
        assert Register(st', key) == Success(st');
      }
    }
  }

  /** One default of `state_dict_reset`: the widget key and its value. */
  datatype ResetEntry<V> = ResetEntry(key: string, value: V)

  /** Writes the defaults into the session one after the other. */
  function Apply<V>(entries: seq<ResetEntry<V>>, session: map<string, V>): map<string, V>
    decreases |entries|
  {
    if |entries| == 0 then session
    else Apply(entries[1..], session[entries[0].key := entries[0].value])
  }

  /** `reset_values`: the session after the current run mode's defaults are
      written into it, in the order they were recorded. A run mode without
      defaults is a `KeyError`. */
  function ResetValues<V>(resets: map<string, seq<ResetEntry<V>>>, runMode: string, session: map<string, V>)
    : (r: Result<map<string, V>, PyError>)
    ensures r.Failure? <==> runMode !in resets
    ensures r.Failure? ==> r.error == KeyError(runMode)
    ensures r.Success? ==> r.value == Apply(resets[runMode], session)
  {
    if runMode !in resets then Failure(KeyError(runMode)) else Success(Apply(resets[runMode], session))
  }

  /** `k` is the key of entry `i` and of no later entry. */
  predicate LastFor<V>(entries: seq<ResetEntry<V>>, k: string, i: int) {
    0 <= i < |entries| && entries[i].key == k && forall j :: i < j < |entries| ==> entries[j].key != k
  }

  /** The session after the reset, described without the fold: a key some
      default names holds the value of the last default naming it; every
      other key keeps its value. */
  lemma {:induction false} ApplyLastWins<V>(entries: seq<ResetEntry<V>>, session: map<string, V>)
    ensures forall k :: k in Apply(entries, session) <==> k in session || exists i :: 0 <= i < |entries| && entries[i].key == k
    ensures forall k, i :: LastFor(entries, k, i) ==> Apply(entries, session)[k] == entries[i].value
    ensures forall k :: k in session && (forall i :: 0 <= i < |entries| ==> entries[i].key != k) ==>
      Apply(entries, session)[k] == session[k]
    decreases |entries|
  {
    if |entries| > 0 {
      var e, rest := entries[0], entries[1..];
      var s := session[e.key := e.value];
      ApplyLastWins(rest, s);
      assert Apply(entries, session) == Apply(rest, s);
      assert forall j :: 0 <= j < |rest| ==> rest[j] == entries[j + 1];
      forall k | k in Apply(entries, session)
        ensures k in session || exists i :: 0 <= i < |entries| && entries[i].key == k
      {
        if k !in session && k != e.key {
          var j :| 0 <= j < |rest| && rest[j].key == k;
          assert entries[j + 1].key == k;
        }
      }
      forall k | k in session || exists i :: 0 <= i < |entries| && entries[i].key == k
        ensures k in Apply(entries, session)
      {
        if k !in session && k != e.key {
          var i :| 0 <= i < |entries| && entries[i].key == k;
          assert rest[i - 1].key == k;
        }
      }
      forall k, i | LastFor(entries, k, i)
        ensures Apply(entries, session)[k] == entries[i].value
      {
        if i == 0 {
          assert forall j :: 0 <= j < |rest| ==> rest[j].key != k;
        } else {
          assert LastFor(rest, k, i - 1);
        }
      }
    }
  }

  /** Resetting twice is resetting once. */
  lemma ResetIdempotent<V>(resets: map<string, seq<ResetEntry<V>>>, runMode: string, session: map<string, V>)
    requires runMode in resets
    ensures ResetValues(resets, runMode, ResetValues(resets, runMode, session).value)
         == ResetValues(resets, runMode, session)
  {
    var entries := resets[runMode];
    var once := Apply(entries, session);
    var twice := Apply(entries, once);
    ApplyLastWins(entries, session);
    ApplyLastWins(entries, once);
    forall k | k in once
      ensures k in twice && twice[k] == once[k]
    {
      if exists i :: 0 <= i < |entries| && entries[i].key == k {
        var i := LastIndex(entries, k);
        assert twice[k] == entries[i].value == once[k];
      }
    }
    assert twice == once;
  }

  /** The last entry naming `k`, when one does. */
  lemma LastIndex<V>(entries: seq<ResetEntry<V>>, k: string) returns (i: int)
    requires exists i :: 0 <= i < |entries| && entries[i].key == k
    ensures LastFor(entries, k, i)
  {
    i := |entries| - 1;
    while entries[i].key != k
      invariant 0 <= i < |entries|
      invariant forall j :: i < j < |entries| ==> entries[j].key != k
      invariant exists j :: 0 <= j <= i && entries[j].key == k
      decreases i
    {
      i := i - 1;
    }
  }
}
