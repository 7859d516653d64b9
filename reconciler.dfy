/**
 * The stack view (`StackView` in createBottomSheetNavigator.js): it keeps the
 * declarative list of route keys of the navigation state in step with the
 * imperative list of mounted sheets. The first route is the base screen and
 * is rendered as it is; every later route is a sheet. A pass over a new
 * route list mounts the keys that appeared, snapshotting their descriptors,
 * and flags the keys that disappeared as removing, so that their sheets
 * animate out; a sheet that finished leaving calls `OnDismiss`, which pops
 * the route from the navigation state unless the state removed it first,
 * and then evicts the key.
 */
module Reconciler {
  import opened Wrappers
  import opened RouteKeys
  import opened SheetRoute
  import opened Navigator

  /** The route keys of a state split into the base key (undefined for no routes) and the sheet keys. */
  function SplitRoutes(routes: seq<RouteKey>): (r: (Option<RouteKey>, seq<RouteKey>))
    ensures routes == [] ==> r.0 == None && r.1 == []
    ensures routes != [] ==> r.0 == Some(routes[0]) && [routes[0]] + r.1 == routes
  {
    if routes == [] then (None, []) else (Some(routes[0]), routes[1..])
  }

  /**
   * In a state whose keys are unique the base key is never among the sheet
   * keys a pass mounts, whatever the previous sheet keys were.
   */
  lemma BaseNeverStacked(routes: seq<RouteKey>, previousKeys: seq<RouteKey>)
    requires routes != [] && routes[0] !in routes[1..]
    ensures routes[0] !in Without(SplitRoutes(routes).1, previousKeys)
  {
  }

  /**
   * The descriptor of the base route, which is rendered without a sheet;
   * None where the source's render fails because the base route or its
   * descriptor is missing.
   */
  function BaseSurface(routes: seq<RouteKey>, descriptors: map<RouteKey, Descriptor>): (r: Option<Descriptor>)
    ensures r.Some? <==> routes != [] && routes[0] in descriptors
    ensures r.Some? ==> r.value == descriptors[routes[0]]
  {
    match SplitRoutes(routes).0
    case None => None
    case Some(first) => if first in descriptors then Some(descriptors[first]) else None
  }

  /**
   * The descriptor cache after storing, for each key of `ks` in turn, the
   * state's descriptor for it; a key the state has no descriptor for is
   * stored as undefined, which leaves it out of the cache.
   */
  function Snapshot(cache: map<RouteKey, Descriptor>, ks: seq<RouteKey>, descriptors: map<RouteKey, Descriptor>): (r: map<RouteKey, Descriptor>)
    ensures forall k :: k in ks ==> (k in r <==> k in descriptors)
    ensures forall k :: k in ks && k in descriptors ==> r[k] == descriptors[k]
    ensures forall k :: k !in ks ==> (k in r <==> k in cache)
    ensures forall k :: k !in ks && k in cache ==> r[k] == cache[k]
  {
    if ks == [] then cache
    else
      var last := ks[|ks| - 1];
      var c := Snapshot(cache, ks[..|ks| - 1], descriptors);
      assert forall k :: k in ks ==> k == last || k in ks[..|ks| - 1];
      if last in descriptors then c[last := descriptors[last]] else c - {last}
  }

  /** Snapshotting one more key updates, or clears, that key's cache entry. */
  lemma SnapshotStep(cache: map<RouteKey, Descriptor>, ks: seq<RouteKey>, k: RouteKey, descriptors: map<RouteKey, Descriptor>)
    ensures Snapshot(cache, ks + [k], descriptors) ==
      if k in descriptors then Snapshot(cache, ks, descriptors)[k := descriptors[k]]
      else Snapshot(cache, ks, descriptors) - {k}
  {
    assert (ks + [k])[..|ks|] == ks;
  }

  /** A mounted sheet as rendered: its key, its cached descriptor and its removing flag. */
  datatype Panel = Panel(key: RouteKey, descriptor: Descriptor, removing: bool)

  /**
   * The sheets rendered for the mounted keys: one per entry of `keys` that
   * still has a cached descriptor, in the order of `keys`.
   */
  function Project(keys: seq<RouteKey>, cache: map<RouteKey, Descriptor>, removing: set<RouteKey>): (r: seq<Panel>)
    ensures |r| <= |keys|
    ensures forall i :: 0 <= i < |r| ==>
      r[i].key in keys && r[i].key in cache && r[i].descriptor == cache[r[i].key] && r[i].removing == (r[i].key in removing)
    ensures forall k :: k in keys && k in cache ==> exists i :: 0 <= i < |r| && r[i].key == k
  {
    if keys == [] then []
    else
      var rest := Project(keys[1..], cache, removing);
      assert forall k :: k in keys ==> k == keys[0] || k in keys[1..];
      if keys[0] in cache then
        var p := Panel(keys[0], cache[keys[0]], keys[0] in removing);
        var r := [p] + rest;
        assert r[0].key == keys[0];
        assert forall k :: k in keys[1..] && k in cache ==> exists i :: 0 <= i < |r| && r[i].key == k by {
          forall k | k in keys[1..] && k in cache ensures exists i :: 0 <= i < |r| && r[i].key == k {
            var i :| 0 <= i < |rest| && rest[i].key == k;
            assert r[i + 1] == rest[i];
          }
        }
        r
      else rest
  }

  /** The projection of a concatenation is the concatenation of the projections. */
  lemma {:induction false} ProjectAppend(a: seq<RouteKey>, b: seq<RouteKey>, cache: map<RouteKey, Descriptor>, removing: set<RouteKey>)
    ensures Project(a + b, cache, removing) == Project(a, cache, removing) + Project(b, cache, removing)
  {
    if a == [] {
      assert a + b == b;
    } else {
      assert (a + b)[0] == a[0];
      assert (a + b)[1..] == a[1..] + b;
      ProjectAppend(a[1..], b, cache, removing);
    }
  }

  /** The panels other than those of key `k`, in order. */
  function PanelsWithout(ps: seq<Panel>, k: RouteKey): seq<Panel>
  {
    if ps == [] then []
    else if ps[0].key == k then PanelsWithout(ps[1..], k)
    else [ps[0]] + PanelsWithout(ps[1..], k)
  }

  /**
   * Evicting `k` changes the rendered sheets by dropping those of `k`: every
   * other sheet stays, in order, with its descriptor and its flag.
   */
  lemma {:induction false} EvictionDropsOnlyKey(keys: seq<RouteKey>, cache: map<RouteKey, Descriptor>, removing: set<RouteKey>, k: RouteKey)
    ensures Project(Without(keys, [k]), cache - {k}, removing - {k}) == PanelsWithout(Project(keys, cache, removing), k)
  {
    if keys != [] {
      EvictionDropsOnlyKey(keys[1..], cache, removing, k);
      if keys[0] == k {
        assert Without(keys, [k]) == Without(keys[1..], [k]);
      } else {
        assert Without(keys, [k]) == [keys[0]] + Without(keys[1..], [k]);
        ProjectAppend([keys[0]], Without(keys[1..], [k]), cache - {k}, removing - {k});
      }
    }
  }

  /**
   * What a pass keeps: snapshots only for mounted keys; every sheet key
   * mounted unless it was known to the previous pass and had been evicted
   * since; and nothing to add or flag when the sheet keys did not change.
   */
  lemma PassFacts(keys: seq<RouteKey>, cache: map<RouteKey, Descriptor>, previousKeys: seq<RouteKey>,
                  restKeys: seq<RouteKey>, descriptors: map<RouteKey, Descriptor>)
    requires forall k :: k in cache ==> k in keys
    ensures forall k :: k in Snapshot(cache, Without(restKeys, previousKeys), descriptors) ==>
      k in keys + Without(restKeys, previousKeys)
    ensures forall k :: k in restKeys ==>
      k in keys + Without(restKeys, previousKeys) || (k in previousKeys && k !in keys)
    ensures previousKeys == restKeys ==>
      Without(restKeys, previousKeys) == [] && Elems(Without(previousKeys, restKeys)) == {}
  {
    if previousKeys == restKeys {
      WithoutCovered(restKeys, previousKeys);
    }
  }

  /**
   * The refs and the `keys` state of one stack view. `cache` holds the
   * descriptor snapshots, `removing` the keys whose removing flag is set,
   * `previousKeys` the sheet keys of the last pass, and `keys` the mounted
   * sheet keys in the order they were first mounted.
   */
  class StackView {
    var cache: map<RouteKey, Descriptor>
    var removing: set<RouteKey>
    var previousKeys: seq<RouteKey>
    var keys: seq<RouteKey>

    /** Every cached descriptor belongs to a mounted key. */
    ghost predicate Valid()
      reads this
    {
      forall k :: k in cache ==> k in keys
    }

    /** Every sheet key of the last pass is mounted. */
    ghost predicate TailMounted()
      reads this
    {
      forall k :: k in previousKeys ==> k in keys
    }

    constructor ()
      ensures Valid() && TailMounted()
      ensures cache == map[] && removing == {} && previousKeys == [] && keys == []
    {
      cache, removing, previousKeys, keys := map[], {}, [], [];
    }

    /**
     * One pass over the route keys of the state. The sheet keys not seen in
     * the previous pass are appended to `keys` in their order and their
     * descriptors snapshotted; the keys of the previous pass that are gone
     * are flagged as removing; no other entry or flag changes; and the new
     * sheet keys are remembered for the next pass.
     */
    method Reconcile(routes: seq<RouteKey>, descriptors: map<RouteKey, Descriptor>)
      requires Valid()
      modifies this
      ensures Valid()
      ensures previousKeys == SplitRoutes(routes).1
      ensures keys == old(keys) + Without(SplitRoutes(routes).1, old(previousKeys))
      ensures cache == Snapshot(old(cache), Without(SplitRoutes(routes).1, old(previousKeys)), descriptors)
      ensures removing == old(removing) + Elems(Without(old(previousKeys), SplitRoutes(routes).1))
      ensures forall k :: k in previousKeys ==> k in keys || (k in old(previousKeys) && k !in old(keys))
      ensures old(TailMounted()) ==> TailMounted()
      ensures old(previousKeys) == SplitRoutes(routes).1 ==>
        keys == old(keys) && cache == old(cache) && removing == old(removing)
    {
      var split := SplitRoutes(routes);
      var restKeys := split.1;
      var newKeys := Without(restKeys, previousKeys);
      if |newKeys| > 0 {
        StoreDescriptors(newKeys, descriptors);
        keys := keys + newKeys;
      } else {
        assert newKeys == [] && keys + newKeys == keys;
      }
      var newRemovingKeys := Without(previousKeys, restKeys);
      FlagRemoving(newRemovingKeys);
      PassFacts(old(keys), old(cache), old(previousKeys), restKeys, descriptors);
      previousKeys := restKeys;
    }

    /** Snapshots the state's descriptor of each of `newKeys`, in order, into the cache. */
    method StoreDescriptors(newKeys: seq<RouteKey>, descriptors: map<RouteKey, Descriptor>)
      modifies this`cache
      ensures cache == Snapshot(old(cache), newKeys, descriptors)
    {
      var i := 0;
      while i < |newKeys|
        invariant 0 <= i <= |newKeys|
        invariant cache == Snapshot(old(cache), newKeys[..i], descriptors)
      {
        var k := newKeys[i];
        SnapshotStep(old(cache), newKeys[..i], k, descriptors);
        assert newKeys[..i + 1] == newKeys[..i] + [k];
        if k in descriptors {
          cache := cache[k := descriptors[k]];
        } else {
          cache := cache - {k};
        }
        i := i + 1;
      }
      assert newKeys[..|newKeys|] == newKeys;
    }

    /** Sets the removing flag of each of `newRemovingKeys`. */
    method FlagRemoving(newRemovingKeys: seq<RouteKey>)
      modifies this`removing
      ensures removing == old(removing) + Elems(newRemovingKeys)
    {
      assert removing + Elems(newRemovingKeys[..0]) == removing;
      for j := 0 to |newRemovingKeys|
        invariant removing == old(removing) + Elems(newRemovingKeys[..j])
      {
        assert newRemovingKeys[..j + 1] == newRemovingKeys[..j] + [newRemovingKeys[j]];
        removing := removing + {newRemovingKeys[j]};
      }
      assert newRemovingKeys[..|newRemovingKeys|] == newRemovingKeys;
    }

    /**
     * The dismiss handler of the sheet for `key`, when it has finished
     * leaving. It dispatches a pop of `key` to the navigation, when there is
     * one that can dispatch, exactly when the key's removing flag is not set;
     * then it always evicts the key: its snapshot and its flag are cleared and
     * every occurrence of it leaves `keys`, nothing else changing.
     */
    method OnDismiss(key: RouteKey, stateKey: string, nav: Navigation?)
      requires Valid()
      modifies this, nav
      ensures Valid()
      ensures nav != null ==>
        nav.outbox == old(nav.outbox) + (if nav.canDispatch && key !in old(removing) then [Pop(1, key, stateKey)] else [])
      ensures cache == old(cache) - {key}
      ensures removing == old(removing) - {key}
      ensures keys == Without(old(keys), [key])
      ensures previousKeys == old(previousKeys)
      ensures old(TailMounted()) && key !in previousKeys ==> TailMounted()
    {
      if key !in removing && nav != null && nav.canDispatch {
        nav.Dispatch(Pop(1, key, stateKey));
      }
      cache := cache - {key};
      removing := removing - {key};
      keys := Without(keys, [key]);
    }
  }

  /** Dismissing a key a second time evicts nothing more: eviction is idempotent. */
  lemma EvictionIdempotent(keys: seq<RouteKey>, cache: map<RouteKey, Descriptor>, removing: set<RouteKey>, k: RouteKey)
    ensures Without(Without(keys, [k]), [k]) == Without(keys, [k])
    ensures (cache - {k}) - {k} == cache - {k}
    ensures (removing - {k}) - {k} == removing - {k}
  {
    WithoutIdempotent(keys, [k]);
  }
}
