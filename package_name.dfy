/** Package-name resolution: `getPkgName` and its memo table `pkgCache` (lib/index.js). */
module PackageName {
  import opened Wrappers
  import opened Js

  /**
   * The identity of an options object. `pkgCache` is a WeakMap, so it is keyed by the
   * object itself and not by its contents.
   */
  type OptionsKey = nat

  /**
   * `readPkgUp({ cwd })`: the `name` of the nearest package.json at or above `cwd`,
   * None when there is none, or the error it rejects with (an unreadable or malformed
   * package.json).
   */
  type Lookup = Value -> Result<Option<Value>, Error>

  /** Whether the upward search for `options.cwd` finds a package.json. */
  predicate Found(options: Object, readPkgUp: Lookup)
  {
    readPkgUp(Get(options, "cwd")).Success? && readPkgUp(Get(options, "cwd")).value.Some?
  }

  /** Whether resolving the name starts an upward package.json search. */
  predicate Searches(cache: map<OptionsKey, Value>, key: OptionsKey, options: Object)
  {
    IsNullish(Get(options, "name")) && key !in cache
  }

  /** The outcome of `getPkgName(options)` for a given cache content. */
  function PkgNameOf(cache: map<OptionsKey, Value>, key: OptionsKey, options: Object, readPkgUp: Lookup): Result<Value, Error>
  {
    if !IsNullish(Get(options, "name")) then Success(Get(options, "name"))
    else if key in cache then Success(cache[key])
    else match readPkgUp(Get(options, "cwd"))
      case Failure(e) => Failure(e)
      case Success(None) => Failure(NoPackageName(ToString(Get(options, "cwd"))))
      case Success(Some(name)) => Success(name)
  }

  /** The cache after `getPkgName(options)`: only a successful search adds an entry. */
  function CacheAfter(cache: map<OptionsKey, Value>, key: OptionsKey, options: Object, readPkgUp: Lookup): map<OptionsKey, Value>
  {
    if Searches(cache, key, options) && Found(options, readPkgUp) then
      cache[key := readPkgUp(Get(options, "cwd")).value.value]
    else cache
  }

  /**
   * The searches `n` resolutions for one options object start, one after the other:
   * only a failed search is repeated, since nothing is stored for it.
   */
  function RunSearches(cache: map<OptionsKey, Value>, key: OptionsKey, options: Object, readPkgUp: Lookup, n: nat): seq<Value>
  {
    if n == 0 || !Searches(cache, key, options) then []
    else if Found(options, readPkgUp) then [Get(options, "cwd")]
    else Repeat(Get(options, "cwd"), n)
  }

  /** `n` copies of `v`. */
  function Repeat(v: Value, n: nat): seq<Value>
  {
    if n == 0 then [] else Repeat(v, n - 1) + [v]
  }

  /**
   * Memoisation saves searches only after a success: `n` resolutions search at most
   * once when the name resolves, and once each when it does not.
   */
  lemma RunSearchesCount(cache: map<OptionsKey, Value>, key: OptionsKey, options: Object, readPkgUp: Lookup, n: nat)
    ensures var r := RunSearches(cache, key, options, readPkgUp, n);
      && (forall i :: 0 <= i < |r| ==> r[i] == Get(options, "cwd"))
      && (|r| > 0 <==> n > 0 && Searches(cache, key, options))
      && (PkgNameOf(cache, key, options, readPkgUp).Success? ==> |r| <= 1)
      && (PkgNameOf(cache, key, options, readPkgUp).Failure? ==> |r| == n)
  {
    RepeatAll(Get(options, "cwd"), n);
  }

  lemma {:induction false} RepeatAll(v: Value, n: nat)
    ensures |Repeat(v, n)| == n
    ensures forall i :: 0 <= i < n ==> Repeat(v, n)[i] == v
  {
    if n > 0 {
      RepeatAll(v, n - 1);
    }
  }

  /** The memo table and search log after `n` resolutions for one options object, starting from `cache0` and `log0`. */
  predicate AfterResolutions(cache0: map<OptionsKey, Value>, log0: seq<Value>, key: OptionsKey, options: Object, readPkgUp: Lookup, n: nat,
                             cache: map<OptionsKey, Value>, log: seq<Value>)
  {
    && cache == (if n == 0 then cache0 else CacheAfter(cache0, key, options, readPkgUp))
    && log == log0 + RunSearches(cache0, key, options, readPkgUp, n)
  }

  /** One more `getPkgName` call advances the state by one resolution and answers as the first did. */
  lemma ResolutionAdvances(cache0: map<OptionsKey, Value>, log0: seq<Value>, key: OptionsKey, options: Object, readPkgUp: Lookup, n: nat,
                           cache: map<OptionsKey, Value>, log: seq<Value>)
    requires AfterResolutions(cache0, log0, key, options, readPkgUp, n, cache, log)
    ensures PkgNameOf(cache, key, options, readPkgUp) == PkgNameOf(cache0, key, options, readPkgUp)
    ensures AfterResolutions(cache0, log0, key, options, readPkgUp, n + 1, CacheAfter(cache, key, options, readPkgUp),
      if Searches(cache, key, options) then log + [Get(options, "cwd")] else log)
  {
    RunSearchesStep(cache0, key, options, readPkgUp, n, cache);
    var searched := RunSearches(cache0, key, options, readPkgUp, n);
    var extra := if Searches(cache, key, options) then [Get(options, "cwd")] else [];
    assert (log0 + searched) + extra == log0 + (searched + extra);
  }

  /**
   * One more resolution, from the cache the first `n` left behind, adds a search exactly
   * when that cache calls for one, and leaves the cache as the first resolution did.
   */
  lemma RunSearchesStep(cache: map<OptionsKey, Value>, key: OptionsKey, options: Object, readPkgUp: Lookup, n: nat, now: map<OptionsKey, Value>)
    requires now == if n == 0 then cache else CacheAfter(cache, key, options, readPkgUp)
    ensures CacheAfter(now, key, options, readPkgUp) == CacheAfter(cache, key, options, readPkgUp)
    ensures RunSearches(cache, key, options, readPkgUp, n + 1) ==
      RunSearches(cache, key, options, readPkgUp, n) + (if Searches(now, key, options) then [Get(options, "cwd")] else [])
  {
    var v := Get(options, "cwd");
    if Searches(cache, key, options) && !Found(options, readPkgUp) {
      assert Repeat(v, n + 1) == Repeat(v, n) + [v];
      if n == 0 {
        assert Repeat(v, 1) == [v];
      }
    }
  }

  /** The module-level memo table and a log of the upward searches it was meant to save. */
  class Resolver {
    var cache: map<OptionsKey, Value>
    /** The `cwd` of every upward package.json search started, oldest first. */
    var searches: seq<Value>
    /** Every options object created so far has a key below this one. */
    var nextKey: OptionsKey

    ghost predicate Valid()
      reads this
    {
      forall k :: k in cache ==> k < nextKey
    }

    constructor ()
      ensures Valid() && cache == map[] && searches == [] && nextKey == 0
    {
      cache, searches, nextKey := map[], [], 0;
    }

    /** The identity of a freshly created options object: never a key of the WeakMap yet. */
    method NewOptionsKey() returns (key: OptionsKey)
      requires Valid()
      modifies this
      ensures Valid()
      ensures key == old(nextKey) && key !in cache && nextKey == key + 1
      ensures cache == old(cache) && searches == old(searches)
    {
      key := nextKey;
      nextKey := nextKey + 1;
    }

    /** `getPkgName(options)` for the options object with identity `key`. */
    method GetPkgName(key: OptionsKey, options: Object, readPkgUp: Lookup) returns (r: Result<Value, Error>)
      requires Valid() && key < nextKey
      modifies this
      ensures Valid() && nextKey == old(nextKey)
      ensures r == PkgNameOf(old(cache), key, options, readPkgUp)
      ensures cache == CacheAfter(old(cache), key, options, readPkgUp)
      ensures searches == if Searches(old(cache), key, options) then old(searches) + [Get(options, "cwd")] else old(searches)
    {
      var name := Get(options, "name");
      if !IsNullish(name) {
        return Success(name);
      }
      if key in cache {
        return Success(cache[key]);
      }
      var cwd := Get(options, "cwd");
      var result := readPkgUp(cwd);
      searches := searches + [cwd];
      if result.Failure? {
        return Failure(result.error);
      }
      if result.value.None? {
        return Failure(NoPackageName(ToString(cwd)));
      }
      cache := cache[key := result.value.value];
      r := Success(result.value.value);
    }
  }

  /** An explicit `name` is returned as is, whatever the cache holds and whatever the search would find. */
  lemma ExplicitNameWins(cache: map<OptionsKey, Value>, cache': map<OptionsKey, Value>, key: OptionsKey, options: Object, readPkgUp: Lookup, readPkgUp': Lookup)
    requires !IsNullish(Get(options, "name"))
    ensures PkgNameOf(cache, key, options, readPkgUp) == PkgNameOf(cache', key, options, readPkgUp') == Success(options["name"])
    ensures CacheAfter(cache, key, options, readPkgUp) == cache && !Searches(cache, key, options)
  {
  }

  /** Without an explicit name, a cached value is returned and the search is not started. */
  lemma CachedNameWins(cache: map<OptionsKey, Value>, key: OptionsKey, options: Object, readPkgUp: Lookup, readPkgUp': Lookup)
    requires IsNullish(Get(options, "name")) && key in cache
    ensures PkgNameOf(cache, key, options, readPkgUp) == PkgNameOf(cache, key, options, readPkgUp') == Success(cache[key])
    ensures CacheAfter(cache, key, options, readPkgUp) == cache && !Searches(cache, key, options)
  {
  }

  /**
   * Otherwise the search decides: a found name is stored and returned; no package.json
   * is an error whose message ends with `options.cwd`; a rejected search rejects with its
   * own error. In both failure cases the cache stays as it was.
   */
  lemma SearchDecides(cache: map<OptionsKey, Value>, key: OptionsKey, options: Object, readPkgUp: Lookup)
    requires Searches(cache, key, options)
    ensures Found(options, readPkgUp) ==>
      var name := readPkgUp(Get(options, "cwd")).value.value;
      PkgNameOf(cache, key, options, readPkgUp) == Success(name) && CacheAfter(cache, key, options, readPkgUp) == cache[key := name]
    ensures readPkgUp(Get(options, "cwd")) == Success(None) ==>
      var e := PkgNameOf(cache, key, options, readPkgUp);
      var m := Message(e.error);
      var cwd := ToString(Get(options, "cwd"));
      && e.Failure? && |cwd| <= |m| && m[|m| - |cwd|..] == cwd
    ensures readPkgUp(Get(options, "cwd")).Failure? ==>
      PkgNameOf(cache, key, options, readPkgUp) == Failure(readPkgUp(Get(options, "cwd")).error)
    ensures !Found(options, readPkgUp) ==>
      PkgNameOf(cache, key, options, readPkgUp).Failure? && CacheAfter(cache, key, options, readPkgUp) == cache
  {
  }

  /**
   * Memoisation is consistent: resolving again with the updated cache yields the same
   * outcome, and after a successful resolution no further search is started.
   */
  lemma ResolutionStable(cache: map<OptionsKey, Value>, key: OptionsKey, options: Object, readPkgUp: Lookup)
    ensures var cache' := CacheAfter(cache, key, options, readPkgUp);
      && PkgNameOf(cache', key, options, readPkgUp) == PkgNameOf(cache, key, options, readPkgUp)
      && (PkgNameOf(cache, key, options, readPkgUp).Success? ==> !Searches(cache', key, options))
  {
  }

  /** Two fresh options objects with the same contents resolve to the same outcome. */
  lemma FreshKeysAgree(cache: map<OptionsKey, Value>, key: OptionsKey, cache': map<OptionsKey, Value>, key': OptionsKey, options: Object, readPkgUp: Lookup)
    requires key !in cache && key' !in cache'
    ensures PkgNameOf(cache, key, options, readPkgUp) == PkgNameOf(cache', key', options, readPkgUp)
  {
  }

  /** Resolving twice for one options object searches at most once and answers the same both times. */
  method ResolveTwice(resolver: Resolver, key: OptionsKey, options: Object, readPkgUp: Lookup) returns (first: Result<Value, Error>, second: Result<Value, Error>)
    requires resolver.Valid() && key < resolver.nextKey
    modifies resolver
    ensures resolver.Valid()
    ensures first == second
    ensures |resolver.searches| <= |old(resolver.searches)| + (if first.Success? then 1 else 2)
  {
    first := resolver.GetPkgName(key, options, readPkgUp);
    second := resolver.GetPkgName(key, options, readPkgUp);
  }
}
