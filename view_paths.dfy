/**
 * The view-path registry of a scaffolded controller class: the override
 * directories, the custom paths added by the application and the frontend
 * view directories, together with the cached concatenation that is handed
 * to the view resolver.
 */
module ViewPaths {
  import opened Wrappers

  /** A nil list contributes nothing. */
  function Listed(l: Option<seq<string>>): seq<string>
  {
    if l.Some? then l.value else []
  }

  /** The search path list: overrides, then custom paths, then frontends. */
  function Joined(overrides: Option<seq<string>>, custom: Option<seq<string>>, frontends: Option<seq<string>>): (r: seq<string>)
    ensures |r| == |Listed(overrides)| + |Listed(custom)| + |Listed(frontends)|
    ensures r[..|Listed(overrides)|] == Listed(overrides)
    ensures r[|Listed(overrides)|..|Listed(overrides)| + |Listed(custom)|] == Listed(custom)
    ensures r[|r| - |Listed(frontends)|..] == Listed(frontends)
  {
    Listed(overrides) + Listed(custom) + Listed(frontends)
  }

  /** The `views` directory of the frontend `name` under the plug-in directory. */
  function FrontendViews(pluginDir: string, name: string): string
  {
    pluginDir + "/frontends/" + name + "/views"
  }

  /** The name of the frontend that is always searched last. */
  const DefaultFrontend := "default"

  /**
   * The frontends list `active_scaffold` builds: the configured frontend's
   * views when it is not the default one, then the default frontend's views.
   */
  function FrontendList(pluginDir: string, frontend: string): (r: seq<string>)
    ensures 1 <= |r| <= 2
    ensures r[|r| - 1] == FrontendViews(pluginDir, DefaultFrontend)
    ensures |r| == 2 <==> frontend != DefaultFrontend
    ensures |r| == 2 ==> r[0] == FrontendViews(pluginDir, frontend)
  {
    (if frontend != DefaultFrontend then [FrontendViews(pluginDir, frontend)] else [])
      + [FrontendViews(pluginDir, DefaultFrontend)]
  }

  predicate NoDuplicates(s: seq<string>)
  {
    forall i, j :: 0 <= i < j < |s| ==> s[i] != s[j]
  }

  /** The position of the first occurrence of `x` in `s`. */
  function FirstIndex(s: seq<string>, x: string): (i: nat)
    requires x in s
    ensures i < |s| && s[i] == x
    ensures forall j :: 0 <= j < i ==> s[j] != x
  {
    if s[0] == x then 0 else 1 + FirstIndex(s[1..], x)
  }

  /**
   * Ruby's `uniq`: the elements of `s` without repetitions, each kept at its
   * first occurrence.
   */
  function Uniq(s: seq<string>): (r: seq<string>)
    ensures NoDuplicates(r)
    ensures forall x :: x in r <==> x in s
    decreases |s|
  {
    if s == [] then []
    else
      var u := Uniq(s[..|s| - 1]);
      if s[|s| - 1] in u then u else u + [s[|s| - 1]]
  }

  /** A prefix that contains `x` has its first occurrence where the whole sequence does. */
  lemma FirstIndexPrefix(p: seq<string>, s: seq<string>, x: string)
    requires x in p && p <= s
    ensures FirstIndex(s, x) == FirstIndex(p, x)
  {
  }

  /** The entries `uniq` keeps are in the order of their first occurrences. */
  lemma {:induction false} UniqKeepsFirstOccurrenceOrder(s: seq<string>)
    ensures forall i, j :: 0 <= i < j < |Uniq(s)| ==> FirstIndex(s, Uniq(s)[i]) < FirstIndex(s, Uniq(s)[j])
  {
    if s != [] {
      var init := s[..|s| - 1];
      var last := s[|s| - 1];
      var u := Uniq(init);
      UniqKeepsFirstOccurrenceOrder(init);
      forall x | x in init ensures FirstIndex(s, x) == FirstIndex(init, x) && FirstIndex(s, x) < |s| - 1 {
        FirstIndexPrefix(init, s, x);
      }
      if last !in u {
        assert last !in init;
        assert FirstIndex(s, last) == |s| - 1;
        var r := u + [last];
        assert Uniq(s) == r;
        forall i, j | 0 <= i < j < |r| ensures FirstIndex(s, r[i]) < FirstIndex(s, r[j]) {
          assert r[i] == u[i] && r[i] in init;
          if j < |u| {
            assert r[j] == u[j] && r[j] in init;
          }
        }
      } else {
        forall i, j | 0 <= i < j < |u| ensures FirstIndex(s, u[i]) < FirstIndex(s, u[j]) {
          assert u[i] in init && u[j] in init;
        }
      }
    }
  }

  /** `uniq!` leaves a list that has no repetitions as it is. */
  lemma {:induction false} UniqOfDistinct(s: seq<string>)
    requires NoDuplicates(s)
    ensures Uniq(s) == s
  {
    if s != [] {
      var init := s[..|s| - 1];
      UniqOfDistinct(init);
      assert s[|s| - 1] !in init;
      assert init + [s[|s| - 1]] == s;
    }
  }

  /**
   * After `add_active_scaffold_path(p)` the rebuilt list is the previous one
   * with `p` spliced in at the end of the custom paths: directly before the
   * first frontend path, every other entry in its old order.
   */
  lemma AddPathPlacement(overrides: Option<seq<string>>, custom: seq<string>, frontends: Option<seq<string>>, p: string)
    ensures var before := Joined(overrides, Some(custom), frontends);
            var after := Joined(overrides, Some(custom + [p]), frontends);
            var k := |Listed(overrides)| + |custom|;
            k == |before| - |Listed(frontends)| &&
            after == before[..k] + [p] + before[k..] &&
            (|Listed(frontends)| > 0 ==> after[k + 1] == Listed(frontends)[0])
  {
    var before := Joined(overrides, Some(custom), frontends);
    var k := |Listed(overrides)| + |custom|;
    assert before[..k] == Listed(overrides) + custom;
    assert before[k..] == Listed(frontends);
  }

  /**
   * After `add_active_scaffold_override_path(p)` the rebuilt list starts with
   * `p`, followed by the previous list in the same order.
   */
  lemma OverridePlacement(overrides: seq<string>, custom: Option<seq<string>>, frontends: Option<seq<string>>, p: string)
    ensures Joined(Some([p] + overrides), custom, frontends) == [p] + Joined(Some(overrides), custom, frontends)
  {
  }

  /** A nil list contributes nothing: it searches as an empty one. */
  lemma NilContributesNothing(overrides: Option<seq<string>>, custom: Option<seq<string>>, frontends: Option<seq<string>>)
    ensures Joined(None, custom, frontends) == Joined(Some([]), custom, frontends)
    ensures Joined(overrides, None, frontends) == Joined(overrides, Some([]), frontends)
    ensures Joined(overrides, custom, None) == Joined(overrides, custom, Some([]))
  {
  }

  /**
   * The class-level registry. Before `active_scaffold` runs on a class all
   * its lists are nil; `cache` is `@active_scaffold_paths`.
   */
  class PathRegistry {
    var overrides: Option<seq<string>>
    var customPaths: Option<seq<string>>
    var frontends: Option<seq<string>>
    var cache: Option<seq<string>>

    /** A filled cache holds the concatenation of the current lists. */
    ghost predicate Valid()
      reads this
    {
      cache.Some? ==> cache.value == Joined(overrides, customPaths, frontends)
    }

    constructor ()
      ensures overrides == None && customPaths == None && frontends == None && cache == None
      ensures Valid()
    {
      overrides, customPaths, frontends, cache := None, None, None, None;
    }

    /**
     * The path part of `active_scaffold`: `found` are the existing override
     * directories of the application's view paths, `frontend` the frontend
     * the new configuration starts with (the configuration blocks have not
     * run yet). The cache is left as it is; `active_scaffold` then calls
     * `active_scaffold_paths`, which is `Paths` after `Setup`.
     */
    method Setup(found: seq<string>, pluginDir: string, frontend: string)
      modifies this
      ensures overrides == Some(Uniq(found)) && NoDuplicates(overrides.value)
      ensures frontends == Some(FrontendList(pluginDir, frontend))
      ensures customPaths == Some([])
      ensures cache == old(cache)
    {
      overrides := Some(Uniq(found));
      var f: seq<string> := [];
      if frontend != DefaultFrontend {
        f := f + [FrontendViews(pluginDir, frontend)];
      }
      f := f + [FrontendViews(pluginDir, DefaultFrontend)];
      assert f == FrontendList(pluginDir, frontend);
      frontends := Some(f);
      customPaths := Some([]);
    }

    /**
     * `add_active_scaffold_path`: clears the cache, then appends `path` to
     * the custom paths. On a class whose custom paths are still nil the
     * append raises (`ok` is false) after the cache was cleared.
     */
    method AddPath(path: string) returns (ok: bool)
      modifies this
      ensures ok == old(customPaths).Some?
      ensures customPaths == if ok then Some(old(customPaths).value + [path]) else None
      ensures overrides == old(overrides) && frontends == old(frontends)
      ensures cache == None && Valid()
    {
      cache := None;
      if customPaths.None? {
        return false;
      }
      customPaths := Some(customPaths.value + [path]);
      ok := true;
    }

    /**
     * `add_active_scaffold_override_path`: clears the cache, then puts
     * `path` in front of the overrides (raising, `ok` false, while they are
     * nil).
     */
    method AddOverridePath(path: string) returns (ok: bool)
      modifies this
      ensures ok == old(overrides).Some?
      ensures overrides == if ok then Some([path] + old(overrides).value) else None
      ensures customPaths == old(customPaths) && frontends == old(frontends)
      ensures cache == None && Valid()
    {
      cache := None;
      if overrides.None? {
        return false;
      }
      overrides := Some([path] + overrides.value);
      ok := true;
    }

    /**
     * `active_scaffold_paths`: the cached list when there is one, otherwise
     * the concatenation built now and cached. A second call with no `Add`
     * in between returns the identical list.
     */
    method Paths() returns (r: seq<string>)
      modifies this`cache
      ensures old(cache).Some? ==> r == old(cache).value
      ensures old(cache).None? ==> r == Joined(overrides, customPaths, frontends)
      ensures cache == Some(r)
      ensures old(Valid()) ==> Valid() && r == Joined(overrides, customPaths, frontends)
    {
      if cache.Some? {
        return cache.value;
      }
      r := [];
      if overrides.Some? {
        r := r + overrides.value;
      }
      if customPaths.Some? {
        r := r + customPaths.value;
      }
      if frontends.Some? {
        r := r + frontends.value;
      }
      assert r == Listed(overrides) + Listed(customPaths) + Listed(frontends);
      cache := Some(r);
    }
  }
}
