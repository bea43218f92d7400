/** The handler's registry of browser contexts (`context_wrappers`) and the
    stats counters it keeps beside it. */
module Registry {
  import opened Common
  import Config

  /** `BrowserContextWrapper`: how many pages its context has open
      (`len(context.pages)`), the page semaphore's initial value and whether
      the context is persistent. */
  datatype ContextWrapper = ContextWrapper(pages: nat, maxPages: int, persistent: bool)

  const ContextCount: string := "playwright/context_count"
  const ContextMaxConcurrent: string := "playwright/context_count/max_concurrent"
  const PageMaxConcurrent: string := "playwright/page_count/max_concurrent"

  /** Python's `f"{flag}"` for a bool. */
  function PyBool(b: bool): string
  {
    if b then "True" else "False"
  }

  function PersistentKey(persistent: bool): string
  {
    "playwright/context_count/persistent/" + PyBool(persistent)
  }

  function RemoteKey(remote: bool): string
  {
    "playwright/context_count/remote/" + PyBool(remote)
  }

  /** How `_create_browser_context` classifies a new context: persistent when
      its kwargs carry a truthy `user_data_dir`, otherwise remote when a CDP or
      connect URL is configured.  Returns (persistent, remote). */
  function ContextKind(userDataDir: Option<Value>, cfg: Config.Config): (r: (bool, bool))
    ensures r.0 <==> userDataDir.Some? && Truthy(userDataDir.value)
    ensures r.1 <==> !r.0 && cfg.IsRemote()
    ensures !(r.0 && r.1)
  {
    if userDataDir.Some? && Truthy(userDataDir.value) then (true, false)
    else if Config.SetUrl(cfg.cdpUrl) then (false, true)
    else if Config.SetUrl(cfg.connectUrl) then (false, true)
    else (false, false)
  }

  /** `stats.get_value(key)`: None for a key never set. */
  function Get(stats: map<string, int>, key: string): (r: Option<int>)
    ensures r.Some? <==> key in stats
    ensures r.Some? ==> r.value == stats[key]
  {
    if key in stats then Some(stats[key]) else None
  }

  /** `stats.inc_value(key)`: a missing key counts from 0. */
  function Inc(stats: map<string, int>, key: string): (r: map<string, int>)
    ensures r.Keys == stats.Keys + {key}
    ensures r[key] == (if key in stats then stats[key] else 0) + 1
    ensures forall k :: k in stats && k != key ==> r[k] == stats[k]
  {
    stats[key := (if key in stats then stats[key] else 0) + 1]
  }

  /** The value a `_set_max_concurrent_*` update leaves in its stat: `count`
      when the stat is unset or below it, the stat otherwise. */
  function Watermark(current: Option<int>, count: int): (r: int)
    ensures r >= count
    ensures current.Some? ==> r >= current.value
    ensures r == count || (current.Some? && r == current.value)
  {
    if current.None? || count > current.value then count else current.value
  }

  /** The stat after a whole history of counts has been reported. */
  function WatermarkAfter(current: Option<int>, counts: seq<int>): int
    decreases |counts|
  {
    if counts == [] then (if current.Some? then current.value else 0)
    else WatermarkAfter(Some(Watermark(current, counts[0])), counts[1..])
  }

  /** After at least one report the stat holds the largest count reported (or
      the earlier value, when that was larger): it never decreases. */
  lemma {:induction false} WatermarkIsMaximum(current: Option<int>, counts: seq<int>)
    requires counts != []
    decreases |counts|
    ensures forall k :: 0 <= k < |counts| ==> WatermarkAfter(current, counts) >= counts[k]
    ensures current.Some? ==> WatermarkAfter(current, counts) >= current.value
    ensures (exists k :: 0 <= k < |counts| && WatermarkAfter(current, counts) == counts[k])
            || (current.Some? && WatermarkAfter(current, counts) == current.value)
  {
    var next := Some(Watermark(current, counts[0]));
    if |counts| > 1 {
      WatermarkIsMaximum(next, counts[1..]);
      var r := WatermarkAfter(current, counts);
      assert r == WatermarkAfter(next, counts[1..]);
      forall k | 0 <= k < |counts| ensures r >= counts[k] {
        if k > 0 { assert counts[k] == counts[1..][k - 1]; }
      }
      if r != next.value {
        var j :| 0 <= j < |counts[1..]| && r == counts[1..][j];
        assert r == counts[j + 1];
      }
    }
  }

  /** Sum of the page counts of the named contexts. */
  function PageSum(names: seq<string>, wrappers: map<string, ContextWrapper>): (r: nat)
    requires forall n :: n in names ==> n in wrappers
  {
    if names == [] then 0 else wrappers[names[0]].pages + PageSum(names[1..], wrappers)
  }

  /** Taking any one context out of the list takes its pages out of the sum. */
  lemma {:induction false} PageSumWithout(names: seq<string>, wrappers: map<string, ContextWrapper>, i: nat)
    requires forall n :: n in names ==> n in wrappers
    requires i < |names|
    ensures PageSum(names, wrappers)
            == wrappers[names[i]].pages + PageSum(names[..i] + names[i + 1..], wrappers)
  {
    var others := names[..i] + names[i + 1..];
    if i == 0 {
      assert others == names[1..];
    } else {
      var rest := names[1..];
      PageSumWithout(rest, wrappers, i - 1);
      assert others[0] == names[0];
      assert others[1..] == rest[..i - 1] + rest[i..];
    }
  }

  /** The sum does not look at contexts outside `names`. */
  lemma {:induction false} PageSumFrame(names: seq<string>, w1: map<string, ContextWrapper>,
                                        w2: map<string, ContextWrapper>)
    requires forall n :: n in names ==> n in w1 && n in w2 && w1[n] == w2[n]
    ensures PageSum(names, w1) == PageSum(names, w2)
  {
    if names != [] {
      PageSumFrame(names[1..], w1, w2);
    }
  }

  /** Every context's pages are part of the sum, which is 0 exactly when
      no context has a page open. */
  lemma {:induction false} PageSumBounds(names: seq<string>, wrappers: map<string, ContextWrapper>)
    requires forall n :: n in names ==> n in wrappers
    ensures forall i :: 0 <= i < |names| ==> wrappers[names[i]].pages <= PageSum(names, wrappers)
    ensures PageSum(names, wrappers) == 0 <==> forall i :: 0 <= i < |names| ==> wrappers[names[i]].pages == 0
  {
    if names != [] {
      PageSumBounds(names[1..], wrappers);
      assert forall i :: 0 < i < |names| ==> names[i] == names[1..][i - 1];
    }
  }

  /** `names` lists the keys of `wrappers`, each once: the insertion order of
      a Python dictionary. */
  ghost predicate Registered(names: seq<string>, wrappers: map<string, ContextWrapper>)
  {
    && (forall i, j :: 0 <= i < j < |names| ==> names[i] != names[j])
    && (forall n :: n in wrappers <==> n in names)
  }

  /** Popping the key at position `i` keeps the order of the others and
      takes that context's pages out of the total. */
  lemma PopRegistered(names: seq<string>, wrappers: map<string, ContextWrapper>, i: nat)
    requires Registered(names, wrappers) && i < |names|
    ensures var rest := names[..i] + names[i + 1..];
            var left := wrappers - {names[i]};
            && Registered(rest, left)
            && PageSum(rest, left) == PageSum(names, wrappers) - wrappers[names[i]].pages
  {
    var name := names[i];
    var rest := names[..i] + names[i + 1..];
    var left := wrappers - {name};
    forall n | n in rest ensures n in left {
      var j :| 0 <= j < |rest| && rest[j] == n;
      if j < i { assert n == names[j]; } else { assert n == names[j + 1]; }
    }
    forall n | n in names && n != name ensures n in rest {
      var j :| 0 <= j < |names| && names[j] == n;
      if j < i { assert rest[j] == n; } else { assert rest[j - 1] == n; }
    }
    forall a, b | 0 <= a < b < |rest| ensures rest[a] != rest[b] {
      var a', b' := if a < i then a else a + 1, if b < i then b else b + 1;
      assert rest[a] == names[a'] && rest[b] == names[b'];
    }
    PageSumWithout(names, wrappers, i);
    PageSumFrame(rest, wrappers, left);
  }

  /** Storing a wrapper under `name`: a new key goes last, an existing one
      keeps its place, and the total changes by the difference in pages. */
  lemma PutRegistered(names: seq<string>, wrappers: map<string, ContextWrapper>, name: string, w: ContextWrapper)
    requires Registered(names, wrappers)
    ensures var after := if name in wrappers then names else names + [name];
            && Registered(after, wrappers[name := w])
            && PageSum(after, wrappers[name := w])
               == PageSum(names, wrappers) + w.pages - (if name in wrappers then wrappers[name].pages else 0)
  {
    if name in wrappers {
      var i :| 0 <= i < |names| && names[i] == name;
      ReplaceRegistered(names, wrappers, i, w);
    } else {
      AppendRegistered(names, wrappers, name, w);
    }
  }

  lemma ReplaceRegistered(names: seq<string>, wrappers: map<string, ContextWrapper>, i: nat, w: ContextWrapper)
    requires Registered(names, wrappers) && i < |names|
    ensures Registered(names, wrappers[names[i] := w])
    ensures PageSum(names, wrappers[names[i] := w]) == PageSum(names, wrappers) + w.pages - wrappers[names[i]].pages
  {
    var put := wrappers[names[i] := w];
    var rest := names[..i] + names[i + 1..];
    PopRegistered(names, wrappers, i);
    PageSumWithout(names, put, i);
    PageSumFrame(rest, wrappers - {names[i]}, put);
  }

  lemma AppendRegistered(names: seq<string>, wrappers: map<string, ContextWrapper>, name: string, w: ContextWrapper)
    requires Registered(names, wrappers) && name !in wrappers
    ensures Registered(names + [name], wrappers[name := w])
    ensures PageSum(names + [name], wrappers[name := w]) == PageSum(names, wrappers) + w.pages
  {
    var put := wrappers[name := w];
    var after := names + [name];
    PageSumWithout(after, put, |names|);
    assert after[..|names|] + after[|names| + 1..] == names;
    PageSumFrame(names, wrappers, put);
  }

  /** The download handler's registry state.  `names` keeps the insertion
      order of the `context_wrappers` dictionary, `wrappers` its entries. */
  class Handler {
    var names: seq<string>
    var wrappers: map<string, ContextWrapper>
    var stats: map<string, int>
    var hasBrowser: bool
    const restartDisconnectedBrowser: bool

    /** The dictionary's keys, each once, in insertion order. */
    ghost predicate Valid()
      reads this
    {
      Registered(names, wrappers)
    }

    constructor (restartDisconnectedBrowser: bool)
      ensures Valid()
      ensures names == [] && wrappers == map[] && stats == map[] && !hasBrowser
      ensures this.restartDisconnectedBrowser == restartDisconnectedBrowser
    {
      names := [];
      wrappers := map[];
      stats := map[];
      hasBrowser := false;
      this.restartDisconnectedBrowser := restartDisconnectedBrowser;
    }

    /** `_get_total_page_count`: the pages of all registered contexts. */
    function TotalPageCount(): (total: nat)
      reads this
      requires Valid()
      ensures forall n :: n in wrappers ==> wrappers[n].pages <= total
      ensures total == 0 <==> forall n :: n in wrappers ==> wrappers[n].pages == 0
      ensures wrappers == map[] ==> total == 0
    {
      PageSumBounds(names, wrappers);
      PageSum(names, wrappers)
    }

    /** `_set_max_concurrent_page_count`. */
    method SetMaxConcurrentPageCount()
      requires Valid()
      modifies this
      ensures Valid()
      ensures names == old(names) && wrappers == old(wrappers) && hasBrowser == old(hasBrowser)
      ensures stats == old(stats)[PageMaxConcurrent := Watermark(Get(old(stats), PageMaxConcurrent), TotalPageCount())]
    {
      var count := TotalPageCount();
      var current := Get(stats, PageMaxConcurrent);
      if current.None? || count > current.value {
        stats := stats[PageMaxConcurrent := count];
      }
    }

    /** `_set_max_concurrent_context_count`. */
    method SetMaxConcurrentContextCount()
      requires Valid()
      modifies this
      ensures Valid()
      ensures names == old(names) && wrappers == old(wrappers) && hasBrowser == old(hasBrowser)
      ensures stats == old(stats)[ContextMaxConcurrent := Watermark(Get(old(stats), ContextMaxConcurrent), |wrappers|)]
    {
      var current := Get(stats, ContextMaxConcurrent);
      if current.None? || |wrappers| > current.value {
        stats := stats[ContextMaxConcurrent := |wrappers|];
      }
    }

    /** The bookkeeping at the end of `_create_browser_context` once the
        context exists: the context is classified, the three counters go up,
        the wrapper (whose page semaphore starts at `max_pages_per_context`)
        is stored, a name already present keeping its place, and the context
        high-water mark is updated.  `pages` is `len(context.pages)`. */
    method RegisterContext(name: string, userDataDir: Option<Value>, cfg: Config.Config, pages: nat)
      requires Valid()
      modifies this
      ensures Valid()
      ensures var kind := ContextKind(userDataDir, cfg);
              var wrapper := ContextWrapper(pages, cfg.maxPagesPerContext, kind.0);
              && wrappers == old(wrappers)[name := wrapper]
              && names == (if name in old(wrappers) then old(names) else old(names) + [name])
              && var counted := Inc(Inc(Inc(old(stats), ContextCount), PersistentKey(kind.0)), RemoteKey(kind.1));
                 stats == counted[ContextMaxConcurrent := Watermark(Get(counted, ContextMaxConcurrent), |wrappers|)]
      ensures hasBrowser == old(hasBrowser)
      ensures TotalPageCount() == old(TotalPageCount()) + pages
                                  - (if name in old(wrappers) then old(wrappers)[name].pages else 0)
    {
      var kind := ContextKind(userDataDir, cfg);
      var persistent, remote := kind.0, kind.1;
      CountContext(persistent, remote);
      StoreContext(name, ContextWrapper(pages, cfg.maxPagesPerContext, persistent));
      SetMaxConcurrentContextCount();
    }

    /** `self.context_wrappers[name] = wrapper`. */
    method StoreContext(name: string, wrapper: ContextWrapper)
      requires Valid()
      modifies this
      ensures Valid()
      ensures wrappers == old(wrappers)[name := wrapper]
      ensures names == if name in old(wrappers) then old(names) else old(names) + [name]
      ensures stats == old(stats) && hasBrowser == old(hasBrowser)
      ensures TotalPageCount() == old(TotalPageCount()) + wrapper.pages
                                  - (if name in old(wrappers) then old(wrappers)[name].pages else 0)
    {
      PutRegistered(names, wrappers, name, wrapper);
      if name !in wrappers {
        names := names + [name];
      }
      wrappers := wrappers[name := wrapper];
    }

    /** The three `inc_value` calls of `_create_browser_context`. */
    method CountContext(persistent: bool, remote: bool)
      modifies this
      ensures names == old(names) && wrappers == old(wrappers) && hasBrowser == old(hasBrowser)
      ensures stats == Inc(Inc(Inc(old(stats), ContextCount), PersistentKey(persistent)), RemoteKey(remote))
    {
      stats := Inc(stats, ContextCount);
      stats := Inc(stats, PersistentKey(persistent));
      stats := Inc(stats, RemoteKey(remote));
    }

    /** The close callback of a context: `context_wrappers.pop(name, None)`. */
    method CloseContext(name: string)
      requires Valid()
      modifies this
      ensures Valid()
      ensures wrappers == old(wrappers) - {name}
      ensures name !in old(wrappers) ==> names == old(names)
      ensures name in old(wrappers) ==>
                exists i :: 0 <= i < |old(names)| && old(names)[i] == name
                            && names == old(names)[..i] + old(names)[i + 1..]
      ensures stats == old(stats) && hasBrowser == old(hasBrowser)
      ensures TotalPageCount() == old(TotalPageCount()) - (if name in old(wrappers) then old(wrappers)[name].pages else 0)
    {
      if name in wrappers {
        var i :| 0 <= i < |names| && names[i] == name;
        PopRegistered(names, wrappers, i);
        names := names[..i] + names[i + 1..];
        wrappers := wrappers - {name};
      }
    }

    /** `_close`: every context is closed and the registry emptied. */
    method Close()
      requires Valid()
      modifies this
      ensures Valid()
      ensures names == [] && wrappers == map[]
      ensures stats == old(stats) && hasBrowser == old(hasBrowser)
      ensures TotalPageCount() == 0
    {
      names := [];
      wrappers := map[];
    }

    /** `_browser_disconnected_callback`: the registry is emptied and, when
        restarting is configured, the browser is forgotten so the next request
        launches a new one. */
    method BrowserDisconnected()
      requires Valid()
      modifies this
      ensures Valid()
      ensures names == [] && wrappers == map[]
      ensures stats == old(stats)
      ensures hasBrowser == (old(hasBrowser) && !restartDisconnectedBrowser)
    {
      names := [];
      wrappers := map[];
      if restartDisconnectedBrowser {
        hasBrowser := false;
      }
    }
  }
}
