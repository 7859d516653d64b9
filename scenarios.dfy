/**
 * Clients of the stack view replaying one navigation history each, with
 * the container accepting dispatches. Each states what is mounted, what was
 * dispatched and which flags are left at the end.
 */
module Scenarios {
  import opened RouteKeys
  import opened SheetRoute
  import opened Navigator
  import opened Reconciler

  const StateKey: string := "stack"

  /** The list differences the histories below need. */
  lemma Differences()
    ensures Without([], []) == [] && Without([], ["detail-1"]) == []
    ensures Without(["detail-1"], []) == ["detail-1"]
    ensures Without(["detail-1", "detail-2"], ["detail-1"]) == ["detail-2"]
    ensures Without(["detail-1"], ["detail-1", "detail-2"]) == []
    ensures Without(["detail-1", "detail-2"], ["detail-2"]) == ["detail-1"]
    ensures Without(["detail-1"], ["detail-1"]) == []
    ensures Without(["detail-1", "detail-2"], []) == ["detail-1", "detail-2"]
    ensures Without(["detail-1"], ["detail-1", "detail-1"]) == []
  {
    assert "detail-1" != "detail-2" by { assert "detail-1"[7] != "detail-2"[7]; }
  }

  /**
   * Two sheets pushed over the base, then the top one popped by the state:
   * its sheet is flagged, closes, and on dismissal is evicted without any
   * dispatch; the base is never mounted as a sheet.
   */
  method PushTwiceThenPopByState(descriptors: map<RouteKey, Descriptor>) returns (mounted: seq<RouteKey>, sent: seq<Action>, flagged: set<RouteKey>)
    ensures mounted == ["detail-1"] && sent == [] && flagged == {}
  {
    var view := new StackView();
    var nav := new Navigation(true);
    Differences();
    view.Reconcile(["home"], descriptors);
    assert view.keys == [];
    view.Reconcile(["home", "detail-1"], descriptors);
    assert view.keys == ["detail-1"];
    view.Reconcile(["home", "detail-1", "detail-2"], descriptors);
    assert view.keys == ["detail-1", "detail-2"];
    view.Reconcile(["home", "detail-1"], descriptors);
    assert view.removing == {"detail-2"};
    view.OnDismiss("detail-2", StateKey, nav);
    assert view.keys == ["detail-1"];
    assert nav.outbox == [];
    assert view.removing == {};
    mounted, sent, flagged := view.keys, nav.outbox, view.removing;
  }

  /**
   * A sheet closed by the user while the state still lists it: its
   * dismissal pops it from the state once and evicts it. When the state then
   * drops the key, the pass flags it although nothing is mounted for it.
   */
  method UserClosesSheet(descriptors: map<RouteKey, Descriptor>) returns (mounted: seq<RouteKey>, sent: seq<Action>, flagged: set<RouteKey>)
    ensures mounted == [] && sent == [Pop(1, "detail-1", StateKey)] && flagged == {"detail-1"}
  {
    var view := new StackView();
    var nav := new Navigation(true);
    Differences();
    view.Reconcile(["home", "detail-1"], descriptors);
    assert view.keys == ["detail-1"] && view.removing == {};
    view.OnDismiss("detail-1", StateKey, nav);
    assert view.keys == [] && nav.outbox == [Pop(1, "detail-1", StateKey)];
    view.Reconcile(["home"], descriptors);
    assert view.keys == [];
    assert view.removing == {"detail-1"};
    mounted, sent, flagged := view.keys, nav.outbox, view.removing;
  }

  /**
   * A sheet removed by the state whose dismissal is reported twice (by the
   * closing animation and by the sheet's dismissal callback): the first
   * report evicts it without dispatching, and since eviction cleared its
   * flag, the second report dispatches a pop for the key.
   */
  method DismissReportedTwice(descriptors: map<RouteKey, Descriptor>) returns (mounted: seq<RouteKey>, sent: seq<Action>)
    ensures mounted == [] && sent == [Pop(1, "detail-1", StateKey)]
  {
    var view := new StackView();
    var nav := new Navigation(true);
    Differences();
    view.Reconcile(["home", "detail-1"], descriptors);
    view.Reconcile(["home"], descriptors);
    assert view.keys == ["detail-1"] && view.removing == {"detail-1"};
    view.OnDismiss("detail-1", StateKey, nav);
    assert view.keys == [] && nav.outbox == [] && view.removing == {};
    view.OnDismiss("detail-1", StateKey, nav);
    mounted, sent := view.keys, nav.outbox;
  }

  /**
   * Pressing the focused tab with two sheets stacked: the reset is
   * dispatched, and the pass over the reset state flags both sheets, which
   * stay mounted, in order, until each is dismissed.
   */
  method TabPressClosesAllSheets(descriptors: map<RouteKey, Descriptor>) returns (mounted: seq<RouteKey>, sent: seq<Action>, flagged: set<RouteKey>)
    ensures mounted == ["detail-1", "detail-2"] && sent == [PopToTop(StateKey)]
    ensures flagged == {"detail-1", "detail-2"}
  {
    var view := new StackView();
    var nav := new Navigation(true);
    Differences();
    view.Reconcile(["home", "detail-1", "detail-2"], descriptors);
    assert view.keys == ["detail-1", "detail-2"];
    OnTabPress(nav, 2, true, false, StateKey);
    view.Reconcile(["home"], descriptors);
    assert view.removing == {"detail-1", "detail-2"};
    mounted, sent, flagged := view.keys, nav.outbox, view.removing;
  }

  /**
   * A key the state drops and adds again before its sheet is dismissed: the
   * pass mounts it a second time but never clears its flag, so the sheet is
   * flagged from its first render, and its dismissal evicts both entries
   * without a pop although the state still lists the key.
   */
  method ReaddedBeforeEviction(descriptors: map<RouteKey, Descriptor>) returns (remounted: seq<RouteKey>, mounted: seq<RouteKey>, sent: seq<Action>)
    ensures remounted == ["detail-1", "detail-1"] && mounted == [] && sent == []
  {
    var view := new StackView();
    var nav := new Navigation(true);
    Differences();
    view.Reconcile(["home", "detail-1"], descriptors);
    view.Reconcile(["home"], descriptors);
    view.Reconcile(["home", "detail-1"], descriptors);
    assert view.keys == ["detail-1", "detail-1"] && "detail-1" in view.removing;
    remounted := view.keys;
    view.OnDismiss("detail-1", StateKey, nav);
    assert view.keys == [] && nav.outbox == [];
    mounted, sent := view.keys, nav.outbox;
  }

  /**
   * Whatever pass came before, handling a second dismissal of the same key
   * leaves the mounted keys, the cache and the flags as the first left them.
   */
  method DismissTwiceEvictsOnce(routes: seq<RouteKey>, descriptors: map<RouteKey, Descriptor>, key: RouteKey)
    returns (keysOnce: seq<RouteKey>, keysTwice: seq<RouteKey>,
             cacheOnce: map<RouteKey, Descriptor>, cacheTwice: map<RouteKey, Descriptor>,
             flagsOnce: set<RouteKey>, flagsTwice: set<RouteKey>)
    ensures keysTwice == keysOnce && cacheTwice == cacheOnce && flagsTwice == flagsOnce
    ensures key !in keysOnce && key !in cacheOnce && key !in flagsOnce
  {
    var view := new StackView();
    view.Reconcile(routes, descriptors);
    EvictionIdempotent(view.keys, view.cache, view.removing, key);
    view.OnDismiss(key, StateKey, null);
    keysOnce, cacheOnce, flagsOnce := view.keys, view.cache, view.removing;
    view.OnDismiss(key, StateKey, null);
    keysTwice, cacheTwice, flagsTwice := view.keys, view.cache, view.removing;
  }
}
