/**
 * The behaviour every `NavigationRouter` gets from the protocol extension: a
 * navigation stack, a slot for a presented screen, and an optional callback
 * invoked before each change.  The callback is modelled by what it gets to
 * observe: each invocation appends the router's state at that moment to
 * `callbackLog`, so the number of invocations is `|callbackLog|`.
 */
module Navigation {
  import opened Results

  /** An element of the type-erased `NavigationPath`: a destination, or any other hashable value. */
  datatype Entry<D, V> = Screen(destination: D) | Value(value: V)

  /** What the router holds, as the callback sees it. */
  datatype Snapshot<D, V> = Snapshot(path: seq<Entry<D, V>>, presenting: Option<D>, isPresenting: bool)

  class Router<D, V> {
    var navigationPath: seq<Entry<D, V>>
    var presentingDestination: Option<D>
    var isPresentingScreen: bool
    /** Whether `willChangeNavigationPathCallback` is set (not `nil`). */
    var hasCallback: bool
    /** The state each invocation of the callback observed, oldest first. */
    var callbackLog: seq<Snapshot<D, V>>

    function State(): Snapshot<D, V>
      reads this
    {
      Snapshot(navigationPath, presentingDestination, isPresentingScreen)
    }

    /** The flag says whether a destination is being presented. */
    predicate PresentationConsistent()
      reads this
    {
      isPresentingScreen == presentingDestination.Some?
    }

    /** A router as a conforming class starts: empty path, nothing presented, no callback. */
    constructor ()
      ensures navigationPath == [] && presentingDestination == None && !isPresentingScreen
      ensures !hasCallback && callbackLog == []
      ensures PresentationConsistent()
    {
      navigationPath := [];
      presentingDestination := None;
      isPresentingScreen := false;
      hasCallback := false;
      callbackLog := [];
    }

    /** `setup(willChangeNavigationPathCallback:)`: install the callback, or remove it with `nil`. */
    method Setup(installed: bool)
      modifies this`hasCallback
      ensures hasCallback == installed
    {
      hasCallback := installed;
    }

    /** `willChangeNavigationPathCallback?()`: the callback, when set, observes the current state. */
    method WillChange()
      modifies this`callbackLog
      ensures callbackLog == old(callbackLog) + if hasCallback then [State()] else []
    {
      if hasCallback {
        callbackLog := callbackLog + [State()];
      }
    }

    /** `push(_:)`: the callback fires once, then the value is appended to the path. */
    method Push(entry: Entry<D, V>)
      modifies this`navigationPath, this`callbackLog
      ensures navigationPath == old(navigationPath) + [entry]
      ensures callbackLog == old(callbackLog) + if hasCallback then [old(State())] else []
    {
      WillChange();
      navigationPath := navigationPath + [entry];
    }

    /** `push(screen:)`: exactly `push(_:)` applied to the destination. */
    method PushScreen(screen: D)
      modifies this`navigationPath, this`callbackLog
      ensures navigationPath == old(navigationPath) + [Screen(screen)]
      ensures callbackLog == old(callbackLog) + if hasCallback then [old(State())] else []
    {
      Push(Screen(screen));
    }

    /** `pop()`: on a non-empty path the callback fires once and the last element goes; otherwise nothing happens. */
    method Pop()
      modifies this`navigationPath, this`callbackLog
      ensures old(navigationPath) == [] ==> navigationPath == [] && callbackLog == old(callbackLog)
      ensures old(navigationPath) != [] ==>
                navigationPath == old(navigationPath)[..|old(navigationPath)| - 1]
                && callbackLog == old(callbackLog) + if hasCallback then [old(State())] else []
    {
      if navigationPath != [] {
        WillChange();
        navigationPath := navigationPath[..|navigationPath| - 1];
      }
    }

    /** `popToRoot()`: the callback fires once, even on an empty path, and the path is emptied. */
    method PopToRoot()
      modifies this`navigationPath, this`callbackLog
      ensures navigationPath == []
      ensures callbackLog == old(callbackLog) + if hasCallback then [old(State())] else []
    {
      WillChange();
      navigationPath := [];
    }

    /** `present(screen:)`: the callback fires once, then `screen` is presented. */
    method Present(screen: D)
      modifies this`presentingDestination, this`isPresentingScreen, this`callbackLog
      ensures presentingDestination == Some(screen) && isPresentingScreen
      ensures PresentationConsistent()
      ensures callbackLog == old(callbackLog) + if hasCallback then [old(State())] else []
    {
      WillChange();
      presentingDestination := Some(screen);
      isPresentingScreen := true;
    }

    /** `dismissPresentedScreen()`: the callback fires once, then nothing is presented. */
    method DismissPresentedScreen()
      modifies this`presentingDestination, this`isPresentingScreen, this`callbackLog
      ensures presentingDestination == None && !isPresentingScreen
      ensures PresentationConsistent()
      ensures callbackLog == old(callbackLog) + if hasCallback then [old(State())] else []
    {
      WillChange();
      presentingDestination := None;
      isPresentingScreen := false;
    }
  }

  datatype TestDestination = ScreenA | ScreenB

  /** The router's tests, replayed on the model: the callback counts they expect. */
  method CallbackCountScenario()
  {
    var router := new Router<TestDestination, string>();
    router.Setup(true);
    router.Pop();
    assert router.navigationPath == [] && |router.callbackLog| == 0;
    router.PushScreen(ScreenA);
    assert |router.navigationPath| == 1 && |router.callbackLog| == 1;
    router.Pop();
    assert router.navigationPath == [] && |router.callbackLog| == 2;
    router.Present(ScreenB);
    assert router.presentingDestination == Some(ScreenB) && router.isPresentingScreen;
    assert |router.callbackLog| == 3;
    router.DismissPresentedScreen();
    assert router.presentingDestination == None && !router.isPresentingScreen;
    assert |router.callbackLog| == 4;
  }

  /** Pop-to-root fires once per call and its callback still sees the full path. */
  method PopToRootScenario()
  {
    var other := new Router<TestDestination, string>();
    other.Setup(true);
    other.Push(Value("TestString"));
    other.PushScreen(ScreenA);
    other.PushScreen(ScreenB);
    assert |other.navigationPath| == 3 && |other.callbackLog| == 3;
    other.PopToRoot();
    assert other.navigationPath == [] && |other.callbackLog| == 4;
    // The callback ran before the path was cleared.
    assert other.callbackLog[3].path == [Value("TestString"), Screen(ScreenA), Screen(ScreenB)];
    other.PopToRoot();
    assert |other.callbackLog| == 5;
  }
}
