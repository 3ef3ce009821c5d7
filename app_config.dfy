/**
 * The application configuration and `loadConfig`'s merge of a saved
 * configuration file with the defaults (main.js). Reading and writing the
 * file are outside the model: the loader is given the parsed file, or `None`
 * when there is no file or it could not be read or parsed.
 */
module AppConfig {
  import opened Wrappers
  import opened Services

  datatype Point = Point(x: int, y: int)

  /** `llmConfig`. Absent fields are the empty string, which the code treats as unset. */
  datatype LlmSettings = LlmSettings(endpoint: string, model: string, systemPrompt: string)

  datatype Config = Config(
    services: seq<Service>, barPosition: Option<Point>, barOpacity: real, llmConfig: Option<LlmSettings>)

  /**
   * A parsed configuration file: each top-level key is `None` when the file
   * does not have it. `barPosition` and `llmConfig` may be saved as `null`
   * (the inner `None`).
   */
  datatype SavedConfig = SavedConfig(
    services: Option<seq<Service>>, barPosition: Option<Option<Point>>,
    barOpacity: Option<real>, llmConfig: Option<Option<LlmSettings>>)

  const DefaultLlmSettings: LlmSettings := LlmSettings("http://localhost:8000/api/v1", "", "")

  const DefaultConfig: Config := Config(DefaultServices, None, 0.92, Some(DefaultLlmSettings))

  /** `{ visible: true, ...s }`: the saved entry, with `visible` defaulting to `true`. */
  function WithVisibleDefault(s: Service): (r: Service)
    ensures r.visible.Some?
    ensures s.visible.Some? ==> r == s
    ensures s.visible.None? ==> r == s.(visible := Some(true))
  {
    if s.visible.Some? then s else s.(visible := Some(true))
  }

  /** `saved.services.map(s => ({ visible: true, ...s }))`. */
  function Normalized(saved: seq<Service>): (r: seq<Service>)
    ensures |r| == |saved|
    ensures forall i :: 0 <= i < |saved| ==> r[i] == WithVisibleDefault(saved[i])
  {
    seq(|saved|, i requires 0 <= i < |saved| => WithVisibleDefault(saved[i]))
  }

  /** The ids of a list of services. */
  function Ids(services: seq<Service>): (ids: set<string>)
    ensures forall i :: 0 <= i < |services| ==> services[i].id in ids
    ensures forall id :: id in ids ==> exists i :: 0 <= i < |services| && services[i].id == id
  {
    set i | 0 <= i < |services| :: services[i].id
  }

  /** The defaults whose id is not in `ids`, in default order. */
  function MissingDefaults(defaults: seq<Service>, ids: set<string>): (r: seq<Service>)
    ensures |r| <= |defaults|
    ensures forall i :: 0 <= i < |r| ==> r[i] in defaults && r[i].id !in ids
    ensures forall d :: d in defaults && d.id !in ids ==> d in r
  {
    if defaults == [] then []
    else
      var last := defaults[|defaults| - 1];
      assert defaults == defaults[..|defaults| - 1] + [last];
      MissingDefaults(defaults[..|defaults| - 1], ids) + (if last.id in ids then [] else [last])
  }

  /**
   * The defaults are visited in order: the missing defaults of a
   * concatenation are those of its first part followed by those of its second.
   */
  lemma {:induction false} MissingDefaultsAppend(a: seq<Service>, b: seq<Service>, ids: set<string>)
    ensures MissingDefaults(a + b, ids) == MissingDefaults(a, ids) + MissingDefaults(b, ids)
    decreases |b|
  {
    if b == [] {
      assert a + b == a;
    } else {
      assert (a + b)[..|a + b| - 1] == a + b[..|b| - 1];
      MissingDefaultsAppend(a, b[..|b| - 1], ids);
    }
  }

  /** No default is appended more often than it occurs among the defaults. */
  lemma {:induction false} MissingDefaultsAtMost(defaults: seq<Service>, ids: set<string>)
    ensures multiset(MissingDefaults(defaults, ids)) <= multiset(defaults)
    decreases |defaults|
  {
    if defaults != [] {
      var n := |defaults| - 1;
      assert defaults == defaults[..n] + [defaults[n]];
      MissingDefaultsAtMost(defaults[..n], ids);
    }
  }

  /** A single default is appended exactly when its id is missing, and then once. */
  lemma MissingDefaultsSingle(d: Service, ids: set<string>)
    ensures MissingDefaults([d], ids) == (if d.id in ids then [] else [d])
  {
    assert [d][..0] == [];
  }

  /** The service list `loadConfig` builds from a saved list. */
  function MergedServices(saved: seq<Service>, defaults: seq<Service>): seq<Service> {
    Normalized(saved) + MissingDefaults(defaults, Ids(Normalized(saved)))
  }

  /**
   * main.js:67-76: every saved service is kept in order, `visible` defaulting
   * to `true`, and each default whose id the saved list lacks is appended.
   */
  method MergeServices(saved: seq<Service>, defaults: seq<Service>) returns (merged: seq<Service>)
    ensures merged == MergedServices(saved, defaults)
  {
    merged := Normalized(saved);
    var savedIds := Ids(merged);
    for k := 0 to |defaults|
      invariant merged == Normalized(saved) + MissingDefaults(defaults[..k], savedIds)
    {
      assert defaults[..k + 1][..k] == defaults[..k];
      if defaults[k].id !in savedIds {
        merged := merged + [defaults[k]];
      }
    }
    assert defaults[..|defaults|] == defaults;
  }

  /** The saved entries come first, unchanged except for a defaulted `visible`. */
  lemma MergeKeepsSaved(saved: seq<Service>, defaults: seq<Service>)
    ensures var m := MergedServices(saved, defaults);
      |m| >= |saved| &&
      forall i :: 0 <= i < |saved| ==>
        m[i].(visible := saved[i].visible) == saved[i] && (saved[i].visible.Some? ==> m[i] == saved[i])
  {
  }

  /** After the merge every default id is present. */
  lemma MergeCoversDefaults(saved: seq<Service>, defaults: seq<Service>)
    ensures var m := MergedServices(saved, defaults);
      forall i :: 0 <= i < |defaults| ==> defaults[i].id in Ids(m)
  {
    var m := MergedServices(saved, defaults);
    var n := Normalized(saved);
    var extra := MissingDefaults(defaults, Ids(n));
    forall i | 0 <= i < |defaults| ensures defaults[i].id in Ids(m) {
      var d := defaults[i];
      if d.id in Ids(n) {
        var j :| 0 <= j < |n| && n[j].id == d.id;
        assert m[j] == n[j];
      } else {
        assert d in extra;
        var j :| 0 <= j < |extra| && extra[j] == d;
        assert m[|n| + j] == d;
      }
    }
  }

  /** When every default carries a `visible` flag, so does every merged service. */
  lemma MergeFlagsVisibility(saved: seq<Service>, defaults: seq<Service>)
    requires forall i :: 0 <= i < |defaults| ==> defaults[i].visible.Some?
    ensures var m := MergedServices(saved, defaults);
      forall i :: 0 <= i < |m| ==> m[i].visible.Some?
  {
    var m := MergedServices(saved, defaults);
    var n := Normalized(saved);
    var extra := MissingDefaults(defaults, Ids(n));
    forall i | 0 <= i < |m| ensures m[i].visible.Some? {
      if i >= |n| {
        assert m[i] == extra[i - |n|];
        assert extra[i - |n|] in defaults;
      }
    }
  }

  /** Loading a list that a previous load produced gives the same list: saving and loading again is stable. */
  lemma MergeIdempotent(saved: seq<Service>, defaults: seq<Service>)
    requires forall i :: 0 <= i < |defaults| ==> defaults[i].visible.Some?
    ensures MergedServices(MergedServices(saved, defaults), defaults) == MergedServices(saved, defaults)
  {
    var m := MergedServices(saved, defaults);
    MergeCoversDefaults(saved, defaults);
    MergeFlagsVisibility(saved, defaults);
    assert Normalized(m) == m;
    NothingMissing(defaults, Ids(m));
  }

  /** No default is missing from a list that already holds every default id. */
  lemma {:induction false} NothingMissing(defaults: seq<Service>, ids: set<string>)
    requires forall i :: 0 <= i < |defaults| ==> defaults[i].id in ids
    ensures MissingDefaults(defaults, ids) == []
  {
    if defaults != [] {
      NothingMissing(defaults[..|defaults| - 1], ids);
    }
  }

  /**
   * `loadConfig` (main.js:59-83) given the parsed file: the defaults when there
   * is none, otherwise the defaults with each saved top-level key replacing the
   * default one, and the saved service list merged with the default services.
   */
  method LoadConfig(file: Option<SavedConfig>) returns (cfg: Config)
    ensures file.None? ==> cfg == DefaultConfig
    ensures file.Some? ==>
      var saved := file.value;
      && cfg.services == (if saved.services.Some? then MergedServices(saved.services.value, DefaultServices)
                          else DefaultServices)
      && cfg.barPosition == saved.barPosition.GetOr(DefaultConfig.barPosition)
      && cfg.barOpacity == saved.barOpacity.GetOr(DefaultConfig.barOpacity)
      && cfg.llmConfig == saved.llmConfig.GetOr(DefaultConfig.llmConfig)
    ensures forall i :: 0 <= i < |DefaultServices| ==> DefaultServices[i].id in Ids(cfg.services)
  {
    if file.None? {
      return DefaultConfig;
    }
    var saved := file.value;
    var services := DefaultServices;
    if saved.services.Some? {
      services := MergeServices(saved.services.value, DefaultServices);
      MergeCoversDefaults(saved.services.value, DefaultServices);
    }
    cfg := Config(
      services,
      saved.barPosition.GetOr(DefaultConfig.barPosition),
      saved.barOpacity.GetOr(DefaultConfig.barOpacity),
      saved.llmConfig.GetOr(DefaultConfig.llmConfig));
  }
}
