/**
 * The navigator around the stack view (`StackNavigator`): the actions it and
 * the stack view send to the navigation container, the container itself as
 * an outbox of dispatched actions, the screen options merged over the
 * navigator's defaults, and the guard on the tab-press reset.
 */
module Navigator {
  import opened Wrappers
  import opened RouteKeys

  /** Actions sent to the container; `target` is the key of the stack's navigation state. */
  datatype Action =
    | Pop(count: nat, source: RouteKey, target: string)  // a stack pop of `count` routes, on behalf of `source`
    | PopToTop(target: string)                            // reset the stack to its first route

  /**
   * The navigation container as the stack sees it: an outbox of the actions
   * dispatched to it. `canDispatch` is false when the navigation object
   * offers no `dispatch` function.
   */
  class Navigation {
    const canDispatch: bool
    var outbox: seq<Action>

    constructor (canDispatch: bool)
      ensures this.canDispatch == canDispatch && outbox == []
    {
      this.canDispatch := canDispatch;
      outbox := [];
    }

    method Dispatch(a: Action)
      requires canDispatch
      modifies this
      ensures outbox == old(outbox) + [a]
    {
      outbox := outbox + [a];
    }
  }

  datatype Platform = Ios | Android | Web | Windows | MacOs

  /** A value in a screen-options bag. */
  datatype OptionValue = Flag(b: bool) | Text(s: string) | Number(n: real)

  type OptionBag = map<string, OptionValue>

  /** The screen options a user passes to the navigator. */
  datatype ScreenOptions =
    | Unset                                // no screenOptions prop
    | Fixed(bag: OptionBag)                // an object
    | PerScreen(f: RouteKey -> OptionBag)  // a function of the route

  /**
   * The navigator's own defaults: animations are on except on the web and
   * desktop platforms, gestures are always on.
   */
  function DefaultOptions(os: Platform): (d: OptionBag)
    ensures d.Keys == {"animationEnabled", "gestureEnabled"}
    ensures d["animationEnabled"] == Flag(os != Web && os != Windows && os != MacOs)
    ensures d["gestureEnabled"] == Flag(true)
  {
    map["animationEnabled" := Flag(os != Web && os != Windows && os != MacOs),
        "gestureEnabled" := Flag(true)]
  }

  /** The user's options for a route: the object, the function's result, or nothing. */
  function UserOptions(screenOptions: ScreenOptions, route: RouteKey): OptionBag
  {
    match screenOptions
    case Unset => map[]
    case Fixed(bag) => bag
    case PerScreen(f) => f(route)
  }

  /**
   * The screen options the navigator hands on for a route: the user's keys
   * win, the defaults fill in every key the user left out, and nothing else
   * is added.
   */
  function MergedOptions(os: Platform, screenOptions: ScreenOptions, route: RouteKey): (r: OptionBag)
    ensures r.Keys == DefaultOptions(os).Keys + UserOptions(screenOptions, route).Keys
    ensures forall k :: k in UserOptions(screenOptions, route) ==> r[k] == UserOptions(screenOptions, route)[k]
    ensures forall k :: k in DefaultOptions(os) && k !in UserOptions(screenOptions, route) ==> r[k] == DefaultOptions(os)[k]
  {
    DefaultOptions(os) + UserOptions(screenOptions, route)
  }

  /** Without user options every route gets exactly the defaults. */
  lemma UnsetGivesDefaults(os: Platform, route: RouteKey)
    ensures MergedOptions(os, Unset, route) == DefaultOptions(os)
  {
  }

  /**
   * The action a tab press leads to, decided one frame later: a reset to the
   * stack's first route only when the stack holds more than its first route
   * (`index > 0`), the tab was focused when pressed, and no listener prevented
   * the default; otherwise nothing.
   */
  function TabPressAction(index: int, isFocused: bool, defaultPrevented: bool, stateKey: string): (a: Option<Action>)
    ensures a.Some? <==> index > 0 && isFocused && !defaultPrevented
    ensures a.Some? ==> a.value == PopToTop(stateKey)
  {
    if index > 0 && isFocused && !defaultPrevented then Some(PopToTop(stateKey)) else None
  }

  /** The tab-press listener: dispatches the reset when its guards pass, and nothing otherwise. */
  method OnTabPress(nav: Navigation, index: int, isFocused: bool, defaultPrevented: bool, stateKey: string)
    requires nav.canDispatch
    modifies nav
    ensures index > 0 && isFocused && !defaultPrevented ==> nav.outbox == old(nav.outbox) + [PopToTop(stateKey)]
    ensures !(index > 0 && isFocused && !defaultPrevented) ==> nav.outbox == old(nav.outbox)
  {
    var a := TabPressAction(index, isFocused, defaultPrevented, stateKey);
    if a.Some? {
      nav.Dispatch(a.value);
    }
  }
}
