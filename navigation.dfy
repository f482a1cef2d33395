/** The navigation stack: pure functions that say what each operation does to a
    stack of routes, the properties those operations keep, and the manager
    object whose methods change its stack and its main-tab flag in place. */
module Navigation {
  import opened Routes

  // ---------------------------------------------------------------------------
  // Stack operations as functions on values
  // ---------------------------------------------------------------------------

  /** Position of the first element equal to `x` (`Array.firstIndex(of:)`), if any. */
  function FirstIndex(s: seq<AppRoute>, x: AppRoute): (r: Option<nat>)
    ensures r.Some? ==> r.value < |s| && s[r.value] == x && x !in s[..r.value]
    ensures r.None? <==> x !in s
  {
    if s == [] then None
    else if s[0] == x then Some(0)
    else
      var rest := FirstIndex(s[1..], x);
      if rest.None? then None else Some(rest.value + 1)
  }

  /** The stack after `goBack`: the top removed, an empty stack left alone. */
  function Pop(s: seq<AppRoute>): (r: seq<AppRoute>)
    ensures r <= s
    ensures |r| == if s == [] then 0 else |s| - 1
  {
    if s == [] then [] else s[..|s| - 1]
  }

  /** The stack after `goBackTo(target)`: cut just above the first occurrence of
      `target`, or unchanged when `target` is not on it. */
  function BackTo(s: seq<AppRoute>, target: AppRoute): (r: seq<AppRoute>)
    ensures r <= s
    ensures target !in s ==> r == s
    ensures target in s ==> |r| > 0 && r[|r| - 1] == target && target !in r[..|r| - 1]
  {
    match FirstIndex(s, target)
    case None => s
    case Some(i) => s[..i + 1]
  }

  /** The stack after `replace(with: route)`: the top, if any, swapped for `route`. */
  function ReplaceTop(s: seq<AppRoute>, route: AppRoute): (r: seq<AppRoute>)
    ensures |r| == if s == [] then 1 else |s|
    ensures r[|r| - 1] == route
    ensures r[..|r| - 1] == s[..|r| - 1]
  {
    Pop(s) + [route]
  }

  /** The cases `navigate(to:from:with:)` attaches navigation data to. */
  predicate TakesNavigationData(route: AppRoute)
  {
    route.OtpVerification? || route.ResetPassword? || route.UnderVerification?
  }

  /** The route `navigate(to:from:with:)` pushes: for the three data-taking cases, the
      same case carrying the source screen and the data, whatever payload `route`
      had; every other route exactly as given. */
  function WithSourceData(route: AppRoute, from: SourceRoute, data: map<string, string>): (r: AppRoute)
    ensures SameCase(r, route)
    ensures TakesNavigationData(route) ==> DataOf(r) == Some(NavigationData(Some(from), data))
    ensures !TakesNavigationData(route) ==> r == route
  {
    var navigationData := NavigationData(sourceRoute := Some(from), additionalData := data);
    match route
    case OtpVerification(_) => AppRoute.OtpVerification(Some(navigationData))
    case ResetPassword(_) => ResetPassword(Some(navigationData))
    case UnderVerification(_) => UnderVerification(Some(navigationData))
    case _ => route
  }

  // ---------------------------------------------------------------------------
  // Properties of the stack operations
  // ---------------------------------------------------------------------------

  /** `goBack` removes exactly the top: what is left, with the old top put back, is the old stack. */
  lemma PopRemovesTop(s: seq<AppRoute>)
    requires s != []
    ensures Pop(s) + [s[|s| - 1]] == s
  {
  }

  /** `goBack` undoes a push. */
  lemma PopAfterPush(s: seq<AppRoute>, route: AppRoute)
    ensures Pop(s + [route]) == s
  {
    assert (s + [route])[..|s|] == s;
  }

  /** `goBackTo` keeps the least prefix that ends in `target`: any prefix of the stack
      that ends in `target` and has no earlier `target` is the result. */
  lemma {:induction false} BackToUnique(s: seq<AppRoute>, target: AppRoute, p: seq<AppRoute>)
    requires p <= s && |p| > 0 && p[|p| - 1] == target && target !in p[..|p| - 1]
    ensures BackTo(s, target) == p
  {
    assert target in s by { assert s[|p| - 1] == target; }
  }

  /** A second reading of `goBackTo`, independent of indices: walk the stack from the
      bottom and keep each route until the target has been kept. */
  function KeepThrough(s: seq<AppRoute>, target: AppRoute): seq<AppRoute>
  {
    if s == [] then []
    else if s[0] == target then [target]
    else [s[0]] + KeepThrough(s[1..], target)
  }

  /** Below the target, going back keeps the bottom route and goes back in the rest. */
  lemma BackToStep(s: seq<AppRoute>, target: AppRoute)
    requires s != [] && s[0] != target
    ensures BackTo(s, target) == [s[0]] + BackTo(s[1..], target)
  {
    var rest := FirstIndex(s[1..], target);
    assert FirstIndex(s, target) == if rest.None? then None else Some(rest.value + 1);
    if rest.None? {
      assert s == [s[0]] + s[1..];
    } else {
      assert s[..rest.value + 2] == [s[0]] + s[1..][..rest.value + 1];
    }
  }

  /** Cutting at the first index of the target is the same as the walk from the bottom. */
  lemma {:induction false} BackToKeepsThrough(s: seq<AppRoute>, target: AppRoute)
    ensures BackTo(s, target) == KeepThrough(s, target)
  {
    if s == [] {
    } else if s[0] == target {
      assert FirstIndex(s, target) == Some(0);
    } else {
      BackToStep(s, target);
      BackToKeepsThrough(s[1..], target);
    }
  }

  /** Going back to the same target twice is going back once. */
  lemma {:induction false} BackToIdempotent(s: seq<AppRoute>, target: AppRoute)
    ensures BackTo(BackTo(s, target), target) == BackTo(s, target)
  {
    var r := BackTo(s, target);
    if target in s {
      BackToUnique(r, target, r);
    }
  }

  /** Replacing twice is replacing once with the second route. */
  lemma {:induction false} ReplaceTwice(s: seq<AppRoute>, a: AppRoute, b: AppRoute)
    ensures ReplaceTop(ReplaceTop(s, a), b) == ReplaceTop(s, b)
  {
    PopAfterPush(Pop(s), a);
  }

  /** `replace` then `goBack` is `goBack`; on a non-empty stack the depth is unchanged. */
  lemma {:induction false} PopAfterReplace(s: seq<AppRoute>, route: AppRoute)
    ensures Pop(ReplaceTop(s, route)) == Pop(s)
  {
    PopAfterPush(Pop(s), route);
  }

  /** Equality of routes includes the payload: after `navigate(to: .otpVerification(), from:with:)`
      the stack holds a payload-carrying route, and `goBackTo(.otpVerification())` on a stack
      with no payload-free OTP screen changes nothing. */
  lemma {:induction false} BackToMissesAttachedData(s: seq<AppRoute>, from: SourceRoute, data: map<string, string>)
    requires AppRoute.OtpVerification() !in s
    ensures BackTo(s + [WithSourceData(AppRoute.OtpVerification(), from, data)], AppRoute.OtpVerification())
         == s + [WithSourceData(AppRoute.OtpVerification(), from, data)]
  {
    var pushed := WithSourceData(AppRoute.OtpVerification(), from, data);
    assert pushed != AppRoute.OtpVerification();
    assert AppRoute.OtpVerification() !in s + [pushed];
  }

  /** Pushing with navigation data never changes which screen is shown, so title, icon
      and authentication requirement are those of the route asked for. */
  lemma {:induction false} WithSourceDataKeepsPresentation(route: AppRoute, from: SourceRoute, data: map<string, string>)
    ensures Title(WithSourceData(route, from, data)) == Title(route)
    ensures IconName(WithSourceData(route, from, data)) == IconName(route)
    ensures RequiresAuth(WithSourceData(route, from, data)) == RequiresAuth(route)
  {
    var r := WithSourceData(route, from, data);
    WithDataLaws(r, None);
    WithDataLaws(route, None);
    PresentationIgnoresPayload(r, None);
    PresentationIgnoresPayload(route, None);
  }

  // ---------------------------------------------------------------------------
  // The navigation manager
  // ---------------------------------------------------------------------------

  /** The observable navigation state: the stack of pushed routes and whether the main
      tab view is to be shown instead of the stack. */
  class NavigationManager {
    var routeStack: seq<AppRoute>
    var shouldShowMainTabView: bool

    constructor ()
      ensures routeStack == [] && !shouldShowMainTabView
    {
      routeStack := [];
      shouldShowMainTabView := false;
    }

    /** `navigate(to:)`: the main tab view raises the flag and leaves the stack alone;
        every other route is pushed. */
    method Navigate(route: AppRoute)
      modifies this
      ensures route == MainTabView ==>
        shouldShowMainTabView && routeStack == old(routeStack)
      ensures route != MainTabView ==>
        routeStack == old(routeStack) + [route] && shouldShowMainTabView == old(shouldShowMainTabView)
    {
      if route == MainTabView {
        shouldShowMainTabView := true;
      } else {
        routeStack := routeStack + [route];
      }
    }

    /** `navigate(to:from:with:)`: always pushes one route, the main tab view included,
        and never touches the flag. */
    method NavigateWithData(route: AppRoute, from: SourceRoute, data: map<string, string> := map[])
      modifies this
      ensures routeStack == old(routeStack) + [WithSourceData(route, from, data)]
      ensures shouldShowMainTabView == old(shouldShowMainTabView)
    {
      var finalRoute := WithSourceData(route, from, data);
      routeStack := routeStack + [finalRoute];
    }

    /** `goBack`. */
    method GoBack()
      modifies this
      ensures routeStack == Pop(old(routeStack))
      ensures shouldShowMainTabView == old(shouldShowMainTabView)
    {
      if routeStack != [] {
        routeStack := routeStack[..|routeStack| - 1];
      }
    }

    /** `goToRoot`: empties the stack, so a second call changes nothing. */
    method GoToRoot()
      modifies this
      ensures routeStack == []
      ensures shouldShowMainTabView == old(shouldShowMainTabView)
    {
      routeStack := [];
    }

    /** `goBackTo(target)`. */
    method GoBackTo(target: AppRoute)
      modifies this
      ensures routeStack == BackTo(old(routeStack), target)
      ensures shouldShowMainTabView == old(shouldShowMainTabView)
    {
      var index := FirstIndex(routeStack, target);
      if index.None? {
        return;
      }
      routeStack := routeStack[..index.value + 1];
    }

    /** `replace(with:)`. */
    method Replace(route: AppRoute)
      modifies this
      ensures routeStack == ReplaceTop(old(routeStack), route)
      ensures shouldShowMainTabView == old(shouldShowMainTabView)
    {
      if routeStack != [] {
        routeStack := routeStack[..|routeStack| - 1];
      }
      routeStack := routeStack + [route];
    }
  }

  /** A sign-up session driven only through the methods' contracts. */
  method SignUpSession(from: SourceRoute, data: map<string, string>)
  {
    var nav := new NavigationManager();
    nav.Navigate(AppRoute.SignUp);
    nav.NavigateWithData(AppRoute.OtpVerification(), from, data);
    assert nav.routeStack == [AppRoute.SignUp, AppRoute.OtpVerification(Some(NavigationData(Some(from), data)))];
    nav.Replace(UnderVerification());
    nav.GoBackTo(AppRoute.SignUp);
    assert nav.routeStack == [AppRoute.SignUp];
    nav.Navigate(MainTabView);
    assert nav.shouldShowMainTabView && nav.routeStack == [AppRoute.SignUp];
    nav.GoToRoot();
    nav.GoToRoot();
    nav.GoBack();
    assert nav.routeStack == [] && nav.shouldShowMainTabView;
  }
}
