/** The memoising topic cache of the producer (`cachedTopicURLs` together with
    `resolveTopic`/`retrieveTopicFromMqtt`) as pure functions: a map from a
    logical topic name to the broker's topic name, filled on a miss by one call
    of the client's lookup and never evicted. */
module TopicCache {
  import opened Wrappers

  /** Logical topic name to broker topic name. */
  type Cache = map<string, string>

  /** The client's lookup `getTopic(name).getName()`; `None` where it throws. */
  type Lookup = string -> Option<string>

  /** Every cached entry is what the lookup returns for its key. */
  ghost predicate Sound(cache: Cache, lookup: Lookup)
  {
    forall n :: n in cache ==> lookup(n) == Some(cache[n])
  }

  /** One resolution: the topic (or `None` when the lookup threw), the cache
      afterwards, and the names handed to the lookup, in order. */
  datatype Resolution = Resolution(topic: Option<string>, cache: Cache, lookups: seq<string>)

  function Resolve(cache: Cache, name: string, lookup: Lookup): (r: Resolution)
    // the lookup is called exactly on a miss, and only for the name asked for
    ensures r.lookups == if name in cache then [] else [name]
    // a hit answers from the cache and changes nothing
    ensures name in cache ==> r.topic == Some(cache[name]) && r.cache == cache
    // a miss answers what the lookup answers
    ensures name !in cache ==> r.topic == lookup(name)
    // entries are never evicted or overwritten
    ensures forall n :: n in cache ==> n in r.cache && r.cache[n] == cache[n]
    // the only key that can appear is the name, and only when the answer is a topic
    ensures r.cache.Keys == if r.topic.Some? then cache.Keys + {name} else cache.Keys
    ensures r.topic.Some? ==> name in r.cache && r.cache[name] == r.topic.value
    // a failed lookup inserts nothing
    ensures r.topic.None? ==> r.cache == cache
    // over a sound cache, memoisation is invisible: the answer is the lookup's
    ensures Sound(cache, lookup) ==> Sound(r.cache, lookup) && r.topic == lookup(name)
  {
    if name in cache then
      Resolution(Some(cache[name]), cache, [])
    else
      match lookup(name)
      case None => Resolution(None, cache, [name])
      case Some(url) => Resolution(Some(url), cache[name := url], [name])
  }

  /** Resolving the same name twice in a row: after a successful first call
      the second one is a hit with the same answer; after a failed one the
      cache was not poisoned and the second call retries the lookup. */
  lemma ResolveTwice(cache: Cache, name: string, lookup: Lookup)
    ensures var first := Resolve(cache, name, lookup);
            var second := Resolve(first.cache, name, lookup);
            (first.topic.Some? ==>
               second.topic == first.topic && second.cache == first.cache &&
               second.lookups == [] && |first.lookups + second.lookups| <= 1) &&
            (first.topic.None? ==> second.lookups == [name] && second.topic == lookup(name))
  {
  }

  /** A run of resolutions, one per produced message, in order. */
  datatype Run = Run(topics: seq<Option<string>>, cache: Cache, lookups: seq<string>)

  function ResolveAll(cache: Cache, names: seq<string>, lookup: Lookup): (r: Run)
    ensures |r.topics| == |names|
    ensures |r.lookups| <= |names|
    ensures forall n :: n in cache ==> n in r.cache && r.cache[n] == cache[n]
    decreases |names|
  {
    if names == [] then
      Run([], cache, [])
    else
      var first := Resolve(cache, names[0], lookup);
      var rest := ResolveAll(first.cache, names[1..], lookup);
      Run([first.topic] + rest.topics, rest.cache, first.lookups + rest.lookups)
  }

  /** A run looks up exactly the names it is given that were not cached when
      it began: cached names are never looked up again. */
  lemma {:induction false} RunLooksUpUncachedNames(cache: Cache, names: seq<string>, lookup: Lookup)
    ensures forall n :: n in ResolveAll(cache, names, lookup).lookups <==> n in names && n !in cache
    decreases |names|
  {
    if names != [] {
      var first := Resolve(cache, names[0], lookup);
      RunLooksUpUncachedNames(first.cache, names[1..], lookup);
      var run := ResolveAll(cache, names, lookup);
      forall n
        ensures n in run.lookups <==> n in names && n !in cache
      {
        assert n in names <==> n == names[0] || n in names[1..] by {
          assert names == [names[0]] + names[1..];
        }
      }
    }
  }

  /** A name occurs twice among the lookups only when its lookup fails. */
  ghost predicate RepeatsOnlyFailed(lookups: seq<string>, lookup: Lookup)
  {
    forall i, j :: 0 <= i < j < |lookups| && lookups[i] == lookups[j] ==> lookup(lookups[i]).None?
  }

  /** The same name reaches the lookup twice only when its earlier lookup
      failed: a successful lookup is never repeated. */
  lemma {:induction false} RunRepeatsOnlyFailedLookups(cache: Cache, names: seq<string>, lookup: Lookup)
    ensures RepeatsOnlyFailed(ResolveAll(cache, names, lookup).lookups, lookup)
    decreases |names|
  {
    if names != [] {
      var first := Resolve(cache, names[0], lookup);
      var rest := ResolveAll(first.cache, names[1..], lookup);
      RunRepeatsOnlyFailedLookups(first.cache, names[1..], lookup);
      RunLooksUpUncachedNames(first.cache, names[1..], lookup);
      var ls := ResolveAll(cache, names, lookup).lookups;
      assert ls == first.lookups + rest.lookups;
      forall i, j | 0 <= i < j < |ls| && ls[i] == ls[j]
        ensures lookup(ls[i]).None?
      {
        if i < |first.lookups| {
          // ls[i] is the first name, looked up on a miss; a success would have
          // cached it, and the rest of the run never looks up a cached name
          assert ls[i] == names[0] && names[0] !in cache;
          assert ls[j] == rest.lookups[j - |first.lookups|];
          assert names[0] !in first.cache;
          assert first.topic.None?;
        } else {
          var k := |first.lookups|;
          assert ls[i] == rest.lookups[i - k] && ls[j] == rest.lookups[j - k];
          assert 0 <= i - k < j - k < |rest.lookups|;
        }
      }
    }
  }

  /** Over a sound cache every answer of a run is the lookup's own answer, and
      the cache stays sound. */
  lemma {:induction false} RunIsTransparent(cache: Cache, names: seq<string>, lookup: Lookup)
    requires Sound(cache, lookup)
    ensures var run := ResolveAll(cache, names, lookup);
            Sound(run.cache, lookup) &&
            forall i :: 0 <= i < |names| ==> run.topics[i] == lookup(names[i])
    decreases |names|
  {
    if names != [] {
      var first := Resolve(cache, names[0], lookup);
      RunIsTransparent(first.cache, names[1..], lookup);
      var run := ResolveAll(cache, names, lookup);
      forall i | 0 <= i < |names|
        ensures run.topics[i] == lookup(names[i])
      {
        if i > 0 {
          assert names[i] == names[1..][i - 1];
        }
      }
    }
  }

  /** The names of a run whose lookup succeeds. */
  ghost function Found(names: seq<string>, lookup: Lookup): set<string>
  {
    set i | 0 <= i < |names| && lookup(names[i]).Some? :: names[i]
  }

  lemma FoundSplits(names: seq<string>, lookup: Lookup)
    requires names != []
    ensures Found(names, lookup)
            == (if lookup(names[0]).Some? then {names[0]} else {}) + Found(names[1..], lookup)
  {
  }

  /** After a run the cache holds its initial keys plus exactly the names
      whose lookup succeeds: one entry per distinct name resolved. */
  lemma {:induction false} RunCacheKeys(cache: Cache, names: seq<string>, lookup: Lookup)
    ensures ResolveAll(cache, names, lookup).cache.Keys == cache.Keys + Found(names, lookup)
    decreases |names|
  {
    if names != [] {
      var first := Resolve(cache, names[0], lookup);
      RunCacheKeys(first.cache, names[1..], lookup);
      FoundSplits(names, lookup);
    }
  }
}
