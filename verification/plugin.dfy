/** The plugin registry of qwcore/plugin.py: `get_plugins` folds the loaded entry points of
    a group into a map from plugin name to plugin class, failing on the first entry whose
    class is unnamed, misnamed or already registered, and failing when nothing was found. */
module Plugin {
  import opened Wrappers
  import opened Exceptions
  import opened Click

  /** The class object an entry point's `load()` returns. `name` is `None` when the class
      has no `name` attribute; `doc` is its docstring. */
  datatype PluginClass = PluginClass(name: Option<string>, help: string, doc: string, params: seq<Param>)

  /** One entry point yielded by `pkg_resources.iter_entry_points`, already loaded. */
  datatype EntryPoint = EntryPoint(name: string, plugin: PluginClass)

  /** The dict `get_plugins` returns: plugin name to plugin class. */
  type Registry = map<string, PluginClass>

  /** What the provider guarantees when asked with a name filter: it yields only the entry
      points registered under that name (with no filter it yields the whole group). */
  ghost predicate FilteredBy(filter: Option<string>, eps: seq<EntryPoint>)
  {
    filter.Some? ==> forall i :: 0 <= i < |eps| ==> eps[i].name == filter.value
  }

  /** The entry-point names of the entry points at positions `lo` up to `hi`. */
  ghost function Names(eps: seq<EntryPoint>, lo: nat, hi: nat): set<string>
    requires lo <= hi <= |eps|
  {
    set i | lo <= i < hi :: eps[i].name
  }

  /** The loaded class declares a name, and it is the entry point's name. */
  ghost predicate WellNamed(ep: EntryPoint)
  {
    ep.plugin.name == Some(ep.name)
  }

  /** No two entry points at positions `lo` up to `hi` share a name. */
  ghost predicate Distinct(eps: seq<EntryPoint>, lo: nat, hi: nat)
    requires lo <= hi <= |eps|
  {
    forall i, j :: lo <= i < j < hi ==> eps[i].name != eps[j].name
  }

  /** Every entry point at positions `lo` up to `hi` is well named, its name is not in
      `seen`, and no two of them share a name: the condition under which a scan that has
      already registered `seen` gets through those positions. */
  ghost predicate Clean(seen: set<string>, eps: seq<EntryPoint>, lo: nat, hi: nat)
    requires lo <= hi <= |eps|
  {
    && (forall i :: lo <= i < hi ==> WellNamed(eps[i]) && eps[i].name !in seen)
    && Distinct(eps, lo, hi)
  }

  /** The registry the entry points from position `lo` on describe: each entry-point name
      bound to the class loaded from it (the earliest one, should a name repeat). */
  ghost function Expected(eps: seq<EntryPoint>, lo: nat): Registry
    requires lo <= |eps|
    decreases |eps| - lo
  {
    if lo == |eps| then map[] else Expected(eps, lo + 1)[eps[lo].name := eps[lo].plugin]
  }

  /** The exception an entry point provokes on its own, once the names in `seen` are
      registered: none when it can be registered. */
  ghost function Offence(seen: set<string>, ep: EntryPoint, filter: Option<string>): Option<PluginError>
  {
    match ep.plugin.name
    case None => Some(PluginNoNameAttributeError(ep.name))
    case Some(n) =>
      if n != ep.name then Some(PluginNameMismatchError(ep.name, n))
      else if n in seen then Some(DuplicatePluginError(filter))
      else None
  }

  lemma NamesStep(eps: seq<EntryPoint>, lo: nat, hi: nat)
    requires lo < hi <= |eps|
    ensures Names(eps, lo, hi) == {eps[lo].name} + Names(eps, lo + 1, hi)
  {
  }

  lemma CleanStep(seen: set<string>, eps: seq<EntryPoint>, lo: nat, hi: nat)
    requires lo < hi <= |eps|
    ensures Clean(seen, eps, lo, hi) <==>
      WellNamed(eps[lo]) && eps[lo].name !in seen && Clean(seen + {eps[lo].name}, eps, lo + 1, hi)
  {
  }


  /** A clean stretch extended at the front by a well-named entry point whose name is fresh. */
  lemma CleanExtend(seen: set<string>, eps: seq<EntryPoint>, k: nat, i: nat)
    requires k < i <= |eps|
    requires WellNamed(eps[k]) && eps[k].name !in seen
    requires Clean(seen + {eps[k].name}, eps, k + 1, i)
    ensures Clean(seen, eps, k, i)
    ensures seen + Names(eps, k, i) == (seen + {eps[k].name}) + Names(eps, k + 1, i)
  {
    CleanStep(seen, eps, k, i);
    NamesStep(eps, k, i);
  }

  /** Registering a fresh name before or after merging in bindings that lack it is the same. */
  lemma ShiftBinding(plugins: Registry, rest: Registry, n: string, p: PluginClass)
    requires n !in rest
    ensures plugins[n := p] + rest == plugins + rest[n := p]
  {
  }

  lemma {:induction false} ExpectedKeys(eps: seq<EntryPoint>, lo: nat)
    requires lo <= |eps|
    ensures Expected(eps, lo).Keys == Names(eps, lo, |eps|)
    decreases |eps| - lo
  {
    if lo < |eps| {
      ExpectedKeys(eps, lo + 1);
      NamesStep(eps, lo, |eps|);
    }
  }

  /** A group without repeated names describes a registry with one key per entry point. */
  lemma {:induction false} ExpectedSize(eps: seq<EntryPoint>, lo: nat)
    requires lo <= |eps| && Distinct(eps, lo, |eps|)
    ensures |Expected(eps, lo)| == |eps| - lo
    decreases |eps| - lo
  {
    if lo < |eps| {
      ExpectedKeys(eps, lo + 1);
      ExpectedSize(eps, lo + 1);
      assert eps[lo].name !in Names(eps, lo + 1, |eps|);
    }
  }

  /** In the registry a group without repeated names describes, each entry point's name is
      bound to the class loaded from it. */
  lemma {:induction false} ExpectedValues(eps: seq<EntryPoint>, lo: nat)
    requires lo <= |eps| && Distinct(eps, lo, |eps|)
    ensures forall j :: lo <= j < |eps| ==> eps[j].name in Expected(eps, lo) && Expected(eps, lo)[eps[j].name] == eps[j].plugin
    decreases |eps| - lo
  {
    if lo < |eps| {
      var rest := Expected(eps, lo + 1);
      ExpectedValues(eps, lo + 1);
      forall j | lo < j < |eps| ensures Expected(eps, lo)[eps[j].name] == eps[j].plugin {
        assert eps[j].name != eps[lo].name;
      }
    }
  }

  /** In the registry a clean group describes, every class is registered under its own name. */
  lemma {:induction false} ExpectedKeyedByName(eps: seq<EntryPoint>, lo: nat)
    requires lo <= |eps| && Clean({}, eps, lo, |eps|)
    ensures forall k :: k in Expected(eps, lo) ==> Expected(eps, lo)[k].name == Some(k)
    decreases |eps| - lo
  {
    if lo < |eps| {
      CleanStep({}, eps, lo, |eps|);
      CleanShrink({eps[lo].name}, eps, lo + 1, |eps|);
      ExpectedKeyedByName(eps, lo + 1);
      assert WellNamed(eps[lo]);
    }
  }

  lemma CleanShrink(seen: set<string>, eps: seq<EntryPoint>, lo: nat, hi: nat)
    requires lo <= hi <= |eps| && Clean(seen, eps, lo, hi)
    ensures Clean({}, eps, lo, hi)
  {
  }

  /** The `for entry_point in ...` loop of `get_plugins` from position `i` on, continuing
      from the dict `plugins` built so far. It succeeds exactly when the remaining entry
      points are clean, and then it has added to `plugins` the registry they describe. */
  function Scan(eps: seq<EntryPoint>, i: nat, plugins: Registry, filter: Option<string>): (r: Result<Registry, PluginError>)
    requires i <= |eps|
    ensures r.Success? <==> Clean(plugins.Keys, eps, i, |eps|)
    ensures r.Success? ==> r.value == plugins + Expected(eps, i)
    ensures r.Failure? ==>
      r.error.PluginNameMismatchError? || r.error.PluginNoNameAttributeError? || r.error.DuplicatePluginError?
    decreases |eps| - i
  {
    if i == |eps| then
      assert Expected(eps, i) == map[];
      Success(plugins)
    else
      var ep := eps[i];
      if ep.plugin.name.Some? && ep.name != ep.plugin.name.value then
        Failure(PluginNameMismatchError(ep.name, ep.plugin.name.value))
      else if ep.plugin.name.None? then
        Failure(PluginNoNameAttributeError(ep.name))
      else if ep.plugin.name.value in plugins then
        Failure(DuplicatePluginError(filter))
      else
        var next := plugins[ep.name := ep.plugin];
        CleanStep(plugins.Keys, eps, i, |eps|);
        var r := Scan(eps, i + 1, next, filter);
        if r.Success? then
          ExpectedKeys(eps, i + 1);
          assert ep.name !in Names(eps, i + 1, |eps|);
          ShiftBinding(plugins, Expected(eps, i + 1), ep.name, ep.plugin);
          r
        else
          r
  }

  /** `get_plugins(group, name)`: the scan, then the two empty-result checks, where an empty
      name filter counts as no filter. On success the result is exactly the registry the
      entry points describe. */
  function GetPlugins(group: string, filter: Option<string>, eps: seq<EntryPoint>): (r: Result<Registry, PluginError>)
    requires FilteredBy(filter, eps)
    ensures r.Success? <==> |eps| > 0 && Clean({}, eps, 0, |eps|)
    ensures r.Success? ==> r.value == Expected(eps, 0)
    ensures |eps| == 0 && Truthy(filter) ==> r == Failure(PluginNameNotFoundError(group, filter.value))
    ensures |eps| == 0 && !Truthy(filter) ==> r == Failure(NoPluginsFoundError(group))
    ensures |eps| > 0 && r.Failure? ==>
      r.error.PluginNameMismatchError? || r.error.PluginNoNameAttributeError? || r.error.DuplicatePluginError?
  {
    var empty: Registry := map[];
    var scanned := Scan(eps, 0, empty, filter);
    if scanned.Failure? then
      Failure(scanned.error)
    else
      var plugins := scanned.value;
      ExpectedSize(eps, 0);
      if Truthy(filter) && |plugins| == 0 then
        Failure(PluginNameNotFoundError(group, filter.value))
      else if |plugins| == 0 then
        Failure(NoPluginsFoundError(group))
      else
        Success(plugins)
  }

  /** A successful `get_plugins` has one key per entry point, namely the entry point's
      name, bound to the class loaded from it, and every class is registered under its
      own `name` attribute; in particular the result is never empty. */
  lemma RegistryShape(group: string, filter: Option<string>, eps: seq<EntryPoint>)
    requires FilteredBy(filter, eps)
    requires GetPlugins(group, filter, eps).Success?
    ensures var plugins := GetPlugins(group, filter, eps).value;
      && plugins.Keys == Names(eps, 0, |eps|)
      && |plugins| == |eps| > 0
      && (forall i :: 0 <= i < |eps| ==> plugins[eps[i].name] == eps[i].plugin)
      && (forall k :: k in plugins ==> plugins[k].name == Some(k))
  {
    ExpectedKeys(eps, 0);
    ExpectedSize(eps, 0);
    ExpectedValues(eps, 0);
    ExpectedKeyedByName(eps, 0);
  }

  /** Fail-fast, scan level: when positions `k` up to `i` are clean and entry point `i`
      provokes an exception, the scan from `k` raises it, whatever follows position `i`. */
  lemma {:induction false} ScanStopsAtFirstOffence(eps: seq<EntryPoint>, k: nat, i: nat, plugins: Registry, filter: Option<string>)
    requires k <= i < |eps|
    requires Clean(plugins.Keys, eps, k, i)
    requires Offence(plugins.Keys + Names(eps, k, i), eps[i], filter).Some?
    ensures Scan(eps, k, plugins, filter) == Failure(Offence(plugins.Keys + Names(eps, k, i), eps[i], filter).value)
    decreases i - k
  {
    if k == i {
      assert Names(eps, k, i) == {};
    } else {
      var ep := eps[k];
      CleanStep(plugins.Keys, eps, k, i);
      NamesStep(eps, k, i);
      var next := plugins[ep.name := ep.plugin];
      assert next.Keys == plugins.Keys + {ep.name};
      ScanStopsAtFirstOffence(eps, k + 1, i, next, filter);
    }
  }

  /** The converse: a failing scan from `k` failed at some position after a clean stretch,
      and the exception is the one that entry point provokes. */
  lemma {:induction false} ScanFailureHasFirstOffence(eps: seq<EntryPoint>, k: nat, plugins: Registry, filter: Option<string>)
    requires k <= |eps|
    requires Scan(eps, k, plugins, filter).Failure?
    ensures exists i :: (k <= i < |eps| && Clean(plugins.Keys, eps, k, i)
      && Offence(plugins.Keys + Names(eps, k, i), eps[i], filter) == Some(Scan(eps, k, plugins, filter).error))
    decreases |eps| - k
  {
    var ep := eps[k];
    var err := Scan(eps, k, plugins, filter).error;
    assert Names(eps, k, k) == {};
    if Offence(plugins.Keys, ep, filter).None? {
      var next := plugins[ep.name := ep.plugin];
      assert Scan(eps, k, plugins, filter) == Scan(eps, k + 1, next, filter);
      ScanFailureHasFirstOffence(eps, k + 1, next, filter);
      var i :| k + 1 <= i < |eps| && Clean(next.Keys, eps, k + 1, i)
        && Offence(next.Keys + Names(eps, k + 1, i), eps[i], filter) == Some(err);
      assert next.Keys == plugins.Keys + {ep.name};
      CleanExtend(plugins.Keys, eps, k, i);
    } else {
      assert Clean(plugins.Keys, eps, k, k);
      assert Offence(plugins.Keys + Names(eps, k, k), eps[k], filter) == Some(err);
    }
  }

  /** Fail-fast: when the first `i` entry points are fine and entry point `i` is not,
      `get_plugins` raises what entry point `i` provokes, whatever follows it. */
  lemma FirstOffenceDecides(group: string, filter: Option<string>, eps: seq<EntryPoint>, i: nat)
    requires FilteredBy(filter, eps)
    requires i < |eps|
    requires Clean({}, eps, 0, i)
    requires Offence(Names(eps, 0, i), eps[i], filter).Some?
    ensures GetPlugins(group, filter, eps) == Failure(Offence(Names(eps, 0, i), eps[i], filter).value)
  {
    var empty: Registry := map[];
    assert empty.Keys + Names(eps, 0, i) == Names(eps, 0, i);
    ScanStopsAtFirstOffence(eps, 0, i, empty, filter);
  }

  /** Every failure of `get_plugins` on a non-empty group is the exception of the first
      entry point that provokes one. */
  lemma FailureIsFirstOffence(group: string, filter: Option<string>, eps: seq<EntryPoint>)
    requires FilteredBy(filter, eps)
    requires |eps| > 0 && GetPlugins(group, filter, eps).Failure?
    ensures exists i :: (0 <= i < |eps| && Clean({}, eps, 0, i)
      && Offence(Names(eps, 0, i), eps[i], filter) == Some(GetPlugins(group, filter, eps).error))
  {
    var empty: Registry := map[];
    ScanFailureHasFirstOffence(eps, 0, empty, filter);
    var i :| 0 <= i < |eps| && Clean(empty.Keys, eps, 0, i)
      && Offence(empty.Keys + Names(eps, 0, i), eps[i], filter) == Some(Scan(eps, 0, empty, filter).error);
    assert empty.Keys + Names(eps, 0, i) == Names(eps, 0, i);
  }

  /** Entry points the provider would yield after a failing one are never consulted. */
  lemma LaterEntriesIgnored(group: string, filter: Option<string>, eps: seq<EntryPoint>, more: seq<EntryPoint>)
    requires FilteredBy(filter, eps + more)
    requires |eps| > 0
    requires FilteredBy(filter, eps) && GetPlugins(group, filter, eps).Failure?
    ensures GetPlugins(group, filter, eps + more) == GetPlugins(group, filter, eps)
  {
    FailureIsFirstOffence(group, filter, eps);
    var i :| 0 <= i < |eps| && Clean({}, eps, 0, i)
      && Offence(Names(eps, 0, i), eps[i], filter) == Some(GetPlugins(group, filter, eps).error);
    var all := eps + more;
    assert forall j :: 0 <= j < |eps| ==> all[j] == eps[j];
    assert Names(all, 0, i) == Names(eps, 0, i);
    assert Clean({}, all, 0, i);
    FirstOffenceDecides(group, filter, all, i);
  }

  /** The same well-named entry point yielded twice is a duplicate, although each copy on
      its own is acceptable. */
  lemma SameEntryTwiceIsDuplicate(group: string, filter: Option<string>, ep: EntryPoint)
    requires filter.Some? ==> filter.value == ep.name
    requires WellNamed(ep)
    ensures FilteredBy(filter, [ep]) && FilteredBy(filter, [ep, ep])
    ensures GetPlugins(group, filter, [ep]) == Success(map[ep.name := ep.plugin])
    ensures GetPlugins(group, filter, [ep, ep]) == Failure(DuplicatePluginError(filter))
  {
    var eps := [ep, ep];
    assert Names(eps, 1, 1) == {};
    NamesStep(eps, 0, 1);
    assert Clean({}, eps, 0, 1);
    FirstOffenceDecides(group, filter, eps, 1);
    assert Expected([ep], 0) == map[ep.name := ep.plugin];
  }

  /** With a name filter, a successful lookup found exactly one entry point, under that name. */
  lemma FilteredSuccessIsSingleton(group: string, name: string, eps: seq<EntryPoint>)
    requires FilteredBy(Some(name), eps)
    requires GetPlugins(group, Some(name), eps).Success?
    ensures |eps| == 1
    ensures GetPlugins(group, Some(name), eps).value == map[name := eps[0].plugin]
  {
    RegistryShape(group, Some(name), eps);
    assert eps[0].name == name;
    assert Names(eps, 0, |eps|) == {name};
  }
}
