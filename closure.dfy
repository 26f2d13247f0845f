/** The client library's configuration object: private settings with fixed defaults and
    lenient setters that apply a value only when it is on the setting's allow-list. */
module Closure {
  import opened Php
  import opened Wire

  /** The optimisation levels, as the `Level` class names them. */
  const WHITESPACE: string := "WHITESPACE_ONLY"
  const SIMPLE: string := "SIMPLE_OPTIMIZATIONS"
  const ADVANCED: string := "ADVANCED_OPTIMIZATIONS"

  /** The allow-lists. */
  const OptimizationLevels: seq<string> := ["WHITESPACE_ONLY", "SIMPLE_OPTIMIZATIONS", "ADVANCED_OPTIMIZATIONS"]
  const WarningLevels: seq<string> := ["QUIET", "DEFAULT", "VERBOSE"]
  const SupportedLanguages: seq<string> := ["ECMASCRIPT3", "ECMASCRIPT5", "ECMASCRIPT5_STRICT"]

  /** The communication endpoint. */
  const Url: string := "closure-compiler.appspot.com/compile"

  /** All of a compiler object's private fields. */
  datatype Settings = Settings(
    secure: bool,
    level: string,
    useLibrary: bool,
    warningLevel: string,
    externals: Value,
    externalsUrl: Value,
    language: string,
    errors: seq<Diagnostic>)

  /** The allow-listed settings hold allowed values. */
  predicate Allowed(st: Settings)
  {
    st.level in OptimizationLevels && st.warningLevel in WarningLevels && st.language in SupportedLanguages
  }

  /** The field initialisers. */
  function Defaults(): (st: Settings)
    ensures Allowed(st)
    ensures st.level == SIMPLE && st.warningLevel == "QUIET" && st.language == "ECMASCRIPT5"
    ensures !st.secure && !st.useLibrary && st.errors == []
    ensures st.externals == Null && st.externalsUrl == Null
  {
    Settings(false, SIMPLE, false, "QUIET", Null, Null, "ECMASCRIPT5", [])
  }

  /** `set_secure`: a boolean is stored, any other value is ignored. */
  function ApplySecure(st: Settings, v: Value): (r: Settings)
    ensures v.Bool? ==> r.secure == v.b
    ensures !v.Bool? ==> r == st
    ensures r == st.(secure := r.secure)
    ensures Allowed(st) ==> Allowed(r)
  {
    if v.Bool? then st.(secure := v.b) else st
  }

  /** `set_level`, with the allow-list test made strict (see LevelAfterAsWritten). */
  function ApplyLevel(st: Settings, v: Value): (r: Settings)
    ensures StrictInArray(v, OptimizationLevels) ==> r.level == v.s
    ensures !StrictInArray(v, OptimizationLevels) ==> r == st
    ensures r == st.(level := r.level)
    ensures Allowed(st) ==> Allowed(r)
  {
    if StrictInArray(v, OptimizationLevels) then st.(level := v.s) else st
  }

  /** `set_language`, with the allow-list test made strict (see LanguageAfterAsWritten). */
  function ApplyLanguage(st: Settings, v: Value): (r: Settings)
    ensures StrictInArray(v, SupportedLanguages) ==> r.language == v.s
    ensures !StrictInArray(v, SupportedLanguages) ==> r == st
    ensures r == st.(language := r.language)
    ensures Allowed(st) ==> Allowed(r)
  {
    if StrictInArray(v, SupportedLanguages) then st.(language := v.s) else st
  }

  /** `set_externals`: stores whatever it is given. */
  function ApplyExternals(st: Settings, v: Value): (r: Settings)
    ensures r.externals == v
    ensures r == st.(externals := r.externals)
    ensures Allowed(st) ==> Allowed(r)
  {
    st.(externals := v)
  }

  /** `set_externals_url`: stores whatever it is given. */
  function ApplyExternalsUrl(st: Settings, v: Value): (r: Settings)
    ensures r.externalsUrl == v
    ensures r == st.(externalsUrl := r.externalsUrl)
    ensures Allowed(st) ==> Allowed(r)
  {
    st.(externalsUrl := v)
  }

  /** The three `Level` constants are exactly the entries of the level allow-list, so setting
      any of them always takes effect. */
  lemma LevelConstantsTakeEffect(st: Settings)
    ensures forall l :: l in OptimizationLevels <==> l == WHITESPACE || l == SIMPLE || l == ADVANCED
    ensures ApplyLevel(st, Str(WHITESPACE)).level == WHITESPACE
    ensures ApplyLevel(st, Str(SIMPLE)).level == SIMPLE
    ensures ApplyLevel(st, Str(ADVANCED)).level == ADVANCED
  {
  }

  /** Setting the same value twice is the same as setting it once. */
  lemma SettersIdempotent(st: Settings, v: Value)
    ensures ApplySecure(ApplySecure(st, v), v) == ApplySecure(st, v)
    ensures ApplyLevel(ApplyLevel(st, v), v) == ApplyLevel(st, v)
    ensures ApplyLanguage(ApplyLanguage(st, v), v) == ApplyLanguage(st, v)
    ensures ApplyExternals(ApplyExternals(st, v), v) == ApplyExternals(st, v)
    ensures ApplyExternalsUrl(ApplyExternalsUrl(st, v), v) == ApplyExternalsUrl(st, v)
  {
  }

  /** Each setter touches its own field only, so setters of different fields commute. */
  lemma SettersCommute(st: Settings, v: Value, w: Value)
    ensures ApplyLevel(ApplyLanguage(st, v), w) == ApplyLanguage(ApplyLevel(st, w), v)
    ensures ApplySecure(ApplyLevel(st, v), w) == ApplyLevel(ApplySecure(st, w), v)
    ensures ApplySecure(ApplyLanguage(st, v), w) == ApplyLanguage(ApplySecure(st, w), v)
    ensures ApplySecure(ApplyExternals(st, v), w) == ApplyExternals(ApplySecure(st, w), v)
    ensures ApplySecure(ApplyExternalsUrl(st, v), w) == ApplyExternalsUrl(ApplySecure(st, w), v)
    ensures ApplyLevel(ApplyExternals(st, v), w) == ApplyExternals(ApplyLevel(st, w), v)
    ensures ApplyLevel(ApplyExternalsUrl(st, v), w) == ApplyExternalsUrl(ApplyLevel(st, w), v)
    ensures ApplyLanguage(ApplyExternals(st, v), w) == ApplyExternals(ApplyLanguage(st, w), v)
    ensures ApplyLanguage(ApplyExternalsUrl(st, v), w) == ApplyExternalsUrl(ApplyLanguage(st, w), v)
    ensures ApplyExternals(ApplyExternalsUrl(st, v), w) == ApplyExternalsUrl(ApplyExternals(st, w), v)
  {
  }

  /** Loose `in_array` over a list of non-empty, non-numeric words admits exactly the words
      themselves and the boolean `true`. */
  lemma {:induction false} LooseInArrayAdmits(v: Value, list: seq<string>)
    requires |list| > 0
    requires forall k :: 0 <= k < |list| ==> !EmptyString(list[k])
    ensures LooseInArray(v, list) <==> StrictInArray(v, list) || v == Bool(true)
  {
    if v == Bool(true) {
      assert LooseEqualsWord(v, list[0]);
    }
    if v.Str? && v.s in list {
      var k :| 0 <= k < |list| && list[k] == v.s;
      assert LooseEqualsWord(v, list[k]);
    }
  }

  /** The level after `set_level(v)` as written: `in_array` without its strict flag compares
      loosely, and the argument itself is stored. An allow-listed string or `true` is stored;
      any other argument leaves the level as it was. */
  function LevelAfterAsWritten(level: Value, v: Value): (r: Value)
    ensures r == (if StrictInArray(v, OptimizationLevels) || v == Bool(true) then v else level)
  {
    LooseInArrayAdmits(v, OptimizationLevels);
    if LooseInArray(v, OptimizationLevels) then v else level
  }

  /** As written, `set_level(true)` passes the allow-list test (`true == 'WHITESPACE_ONLY'` holds
      under loose comparison) and leaves the boolean `true` as the level. */
  lemma LooseLevelCheckAdmitsTrue()
    ensures LevelAfterAsWritten(Str(SIMPLE), Bool(true)) == Bool(true)
    ensures !StrictInArray(Bool(true), OptimizationLevels)
  {
    assert LooseEqualsWord(Bool(true), OptimizationLevels[0]);
  }

  /** The language after `set_language(v)` as written, with the same loose test: a supported
      string or `true` is stored, any other argument leaves the language as it was. */
  function LanguageAfterAsWritten(language: Value, v: Value): (r: Value)
    ensures r == (if StrictInArray(v, SupportedLanguages) || v == Bool(true) then v else language)
  {
    LooseInArrayAdmits(v, SupportedLanguages);
    if LooseInArray(v, SupportedLanguages) then v else language
  }

  /** As written, `set_language(true)` leaves the boolean `true` as the language. */
  lemma LooseLanguageCheckAdmitsTrue()
    ensures LanguageAfterAsWritten(Str("ECMASCRIPT5"), Bool(true)) == Bool(true)
    ensures !StrictInArray(Bool(true), SupportedLanguages)
  {
    assert LooseEqualsWord(Bool(true), SupportedLanguages[0]);
  }

  /** The state after `set_level` with each argument of `vs` in turn, as a caller that tries
      several levels one after another sees it. */
  function ApplyLevels(st: Settings, vs: seq<Value>): Settings
  {
    if vs == [] then st else ApplyLevel(ApplyLevels(st, vs[..|vs| - 1]), vs[|vs| - 1])
  }

  /** After a run of `set_level` calls the level is the last allow-listed argument, or the
      original level when there was none; nothing else changes, and the level stays allowed
      whatever the arguments were. */
  lemma {:induction false} LastValidLevelWins(st: Settings, vs: seq<Value>)
    ensures ApplyLevels(st, vs) == st.(level := ApplyLevels(st, vs).level)
    ensures Allowed(st) ==> Allowed(ApplyLevels(st, vs))
    ensures (forall k :: 0 <= k < |vs| ==> !StrictInArray(vs[k], OptimizationLevels)) ==> ApplyLevels(st, vs) == st
    ensures forall k :: 0 <= k < |vs| && StrictInArray(vs[k], OptimizationLevels)
                        && (forall m :: k < m < |vs| ==> !StrictInArray(vs[m], OptimizationLevels))
                        ==> ApplyLevels(st, vs).level == vs[k].s
  {
    if vs != [] {
      var init := vs[..|vs| - 1];
      LastValidLevelWins(st, init);
      forall k | 0 <= k < |init| ensures init[k] == vs[k] { }
    }
  }

  /** A client-library compiler object. */
  class Compiler {
    var secure: bool
    var level: string
    var useLibrary: bool
    var warningLevel: string
    var externals: Value
    var externalsUrl: Value
    var language: string
    var errors: seq<Diagnostic>

    /** All fields as one value. */
    function State(): Settings
      reads this
    {
      Settings(secure, level, useLibrary, warningLevel, externals, externalsUrl, language, errors)
    }

    constructor ()
      ensures State() == Defaults()
    {
      secure := false;
      level := SIMPLE;
      useLibrary := false;
      warningLevel := "QUIET";
      externals := Null;
      externalsUrl := Null;
      language := "ECMASCRIPT5";
      errors := [];
    }

    method SetSecure(useSsl: Value)
      modifies this
      ensures State() == ApplySecure(old(State()), useSsl)
    {
      if useSsl.Bool? {
        secure := useSsl.b;
      }
    }

    method SetLevel(newLevel: Value)
      modifies this
      ensures State() == ApplyLevel(old(State()), newLevel)
    {
      if StrictInArray(newLevel, OptimizationLevels) {
        level := newLevel.s;
      }
    }

    method SetLanguage(newLanguage: Value)
      modifies this
      ensures State() == ApplyLanguage(old(State()), newLanguage)
    {
      if StrictInArray(newLanguage, SupportedLanguages) {
        language := newLanguage.s;
      }
    }

    method SetExternals(code: Value)
      modifies this
      ensures State() == ApplyExternals(old(State()), code)
    {
      externals := code;
    }

    method SetExternalsUrl(url: Value)
      modifies this
      ensures State() == ApplyExternalsUrl(old(State()), url)
    {
      externalsUrl := url;
    }

    /** The errors reported so far; reading them changes nothing. */
    method GetErrors() returns (r: seq<Diagnostic>)
      ensures r == errors
    {
      r := errors;
    }
  }
}
