/**
  Route logic of the options web app's navigation bar
  (web/src/partials/NavBar.js): whether a path is in advanced mode, the
  basic/advanced toggle table, carrying the pair id along, and whether the
  toggle navigates or asks the user to sign in first. The browser location
  is passed in as the path name and the pair id read from the route.
 */
module NavBar {
  import opened Common

  /**
    A path is in advanced mode when `indexOf("advanced")` is positive: "advanced"
    occurs somewhere in it, but not at the very start.
   */
  function IsAdvanced(pathname: string): (r: bool)
    ensures r <==> (exists i :: OccursAt(pathname, "advanced", i)) && !OccursAt(pathname, "advanced", 0)
  {
    IndexOfPositive(pathname, "advanced");
    IndexOf(pathname, "advanced") > 0
  }

  /** The toggle table: path fragment checked, target route, in the order they are checked. */
  const ModeTable: seq<(string, string)> := [
    ("buy", "/advanced/trade"),
    ("write", "/advanced/mint"),
    ("manage", "/advanced/exercise"),
    ("trade", "/buy"),
    ("mint", "/write"),
    ("exercise", "/manage"),
    ("advanced/pools", "/pools"),
    ("pools", "/advanced/pools")]

  /** The target of the first table entry whose fragment occurs after the first character, or "". */
  function FirstHit(pathname: string, table: seq<(string, string)>): string
  {
    if table == [] then ""
    else if IndexOf(pathname, table[0].0) > 0 then table[0].1
    else FirstHit(pathname, table[1..])
  }

  /** With non-empty targets, `FirstHit` is "" exactly when no fragment occurs, and otherwise the earliest hit's target. */
  lemma {:induction false} FirstHitIsEarliest(pathname: string, table: seq<(string, string)>)
    requires forall i :: 0 <= i < |table| ==> table[i].1 != ""
    ensures FirstHit(pathname, table) == "" <==> forall i :: 0 <= i < |table| ==> IndexOf(pathname, table[i].0) <= 0
    ensures FirstHit(pathname, table) != "" ==>
              exists i :: 0 <= i < |table| && IndexOf(pathname, table[i].0) > 0 && FirstHit(pathname, table) == table[i].1
                && forall j :: 0 <= j < i ==> IndexOf(pathname, table[j].0) <= 0
  {
    if table != [] && IndexOf(pathname, table[0].0) <= 0 {
      var rest := table[1..];
      FirstHitIsEarliest(pathname, rest);
      if FirstHit(pathname, rest) != "" {
        var i :| 0 <= i < |rest| && IndexOf(pathname, rest[i].0) > 0 && FirstHit(pathname, rest) == rest[i].1
                 && forall j :: 0 <= j < i ==> IndexOf(pathname, rest[j].0) <= 0;
        assert table[i + 1] == rest[i];
        assert forall j :: 0 <= j < i + 1 ==> IndexOf(pathname, table[j].0) <= 0 by {
          forall j | 0 <= j < i + 1
            ensures IndexOf(pathname, table[j].0) <= 0
          {
            if j > 0 {
              assert table[j] == rest[j - 1];
            }
          }
        }
      } else {
        forall i | 0 <= i < |table|
          ensures IndexOf(pathname, table[i].0) <= 0
        {
          if i > 0 {
            assert table[i] == rest[i - 1];
          }
        }
      }
    }
  }

  /** The route `changeMode` switches to, before the pair id is appended. */
  function ToggleTarget(pathname: string): string
  {
    if IndexOf(pathname, "buy") > 0 then "/advanced/trade"
    else if IndexOf(pathname, "write") > 0 then "/advanced/mint"
    else if IndexOf(pathname, "manage") > 0 then "/advanced/exercise"
    else if IndexOf(pathname, "trade") > 0 then "/buy"
    else if IndexOf(pathname, "mint") > 0 then "/write"
    else if IndexOf(pathname, "exercise") > 0 then "/manage"
    else if IndexOf(pathname, "advanced/pools") > 0 then "/pools"
    else if IndexOf(pathname, "pools") > 0 then "/advanced/pools"
    else ""
  }

  /** One step of `FirstHit` along a suffix of the table. */
  lemma FirstHitStep(pathname: string, table: seq<(string, string)>, n: int)
    requires 0 <= n < |table|
    ensures FirstHit(pathname, table[n..])
              == if IndexOf(pathname, table[n].0) > 0 then table[n].1 else FirstHit(pathname, table[n + 1..])
  {
    assert table[n..][1..] == table[n + 1..];
  }

  /** The chain of tests in `changeMode` is the first hit in the toggle table. */
  lemma ToggleTargetIsFirstHit(pathname: string)
    ensures ToggleTarget(pathname) == FirstHit(pathname, ModeTable)
  {
    var t := ModeTable;
    var p := pathname;
    assert FirstHit(p, t[8..]) == "";
    FirstHitStep(p, t, 7);
    FirstHitStep(p, t, 6);
    FirstHitStep(p, t, 5);
    FirstHitStep(p, t, 4);
    FirstHitStep(p, t, 3);
    FirstHitStep(p, t, 2);
    FirstHitStep(p, t, 1);
    FirstHitStep(p, t, 0);
    assert t[0..] == t;
  }

  /** `changeMode` finds no target exactly when none of the table's fragments occurs after the first character. */
  lemma NoToggleTargetIffNoHit(pathname: string)
    ensures ToggleTarget(pathname) == "" <==> forall i :: 0 <= i < |ModeTable| ==> IndexOf(pathname, ModeTable[i].0) <= 0
  {
    ToggleTargetIsFirstHit(pathname);
    FirstHitIsEarliest(pathname, ModeTable);
  }

  /** Basic and advanced routes that `changeMode` maps onto each other. */
  predicate ModeRoute(route: string)
  {
    route in ["/buy", "/write", "/manage", "/pools",
              "/advanced/trade", "/advanced/mint", "/advanced/exercise", "/advanced/pools"]
  }

  /** Every route under "/advanced" is an advanced route. */
  lemma AdvancedRoute(s: string)
    requires |s| > 9 && s[..9] == "/advanced"
    ensures IsAdvanced(s)
  {
    assert s[1..9] == "advanced";
    PositiveWhenFoundLater(s, "advanced", 1);
  }

  /** A path without the letter 'v' is a basic route. */
  lemma BasicRoute(s: string)
    requires 'v' !in s
    ensures !IsAdvanced(s)
  {
    AbsentWhenCharMissing(s, "advanced", 'v');
  }

  /*
    The toggle on the eight routes. For each route, a lemma over any path
    that lacks one letter of every fragment checked before the hit; a lemma
    naming those letters for the route itself; and the two put together.
   */

  lemma TogglesBuy(s: string)
    requires s != [] && s[0] == '/' && OccursAt(s, "buy", 1)
    ensures ToggleTarget(s) == "/advanced/trade"
  {
    PositiveWhenFoundLater(s, "buy", 1);
  }

  lemma LettersOfBuy(s: string)
    requires s == "/buy"
    ensures 'v' !in s
  {
  }

  lemma RouteBuy(s: string)
    requires s == "/buy"
    ensures ToggleTarget(s) == "/advanced/trade" && !IsAdvanced(s)
  {
    LettersOfBuy(s);
    assert s[1..4] == "buy";
    TogglesBuy(s);
    BasicRoute(s);
  }

  lemma TogglesWrite(s: string)
    requires 'b' !in s
    requires s != [] && s[0] == '/' && OccursAt(s, "write", 1)
    ensures ToggleTarget(s) == "/advanced/mint"
  {
    AbsentWhenCharMissing(s, "buy", 'b');
    PositiveWhenFoundLater(s, "write", 1);
  }

  lemma LettersOfWrite(s: string)
    requires s == "/write"
    ensures 'b' !in s && 'v' !in s
  {
  }

  lemma RouteWrite(s: string)
    requires s == "/write"
    ensures ToggleTarget(s) == "/advanced/mint" && !IsAdvanced(s)
  {
    LettersOfWrite(s);
    assert s[1..6] == "write";
    TogglesWrite(s);
    BasicRoute(s);
  }

  lemma TogglesManage(s: string)
    requires 'b' !in s && 'w' !in s
    requires s != [] && s[0] == '/' && OccursAt(s, "manage", 1)
    ensures ToggleTarget(s) == "/advanced/exercise"
  {
    AbsentWhenCharMissing(s, "buy", 'b');
    AbsentWhenCharMissing(s, "write", 'w');
    PositiveWhenFoundLater(s, "manage", 1);
  }

  lemma LettersOfManage(s: string)
    requires s == "/manage"
    ensures 'b' !in s && 'w' !in s && 'v' !in s
  {
  }

  lemma RouteManage(s: string)
    requires s == "/manage"
    ensures ToggleTarget(s) == "/advanced/exercise" && !IsAdvanced(s)
  {
    LettersOfManage(s);
    assert s[1..7] == "manage";
    TogglesManage(s);
    BasicRoute(s);
  }

  lemma TogglesPools(s: string)
    requires 'b' !in s && 'w' !in s && 'm' !in s && 't' !in s && 'e' !in s && 'v' !in s
    requires s != [] && s[0] == '/' && OccursAt(s, "pools", 1)
    ensures ToggleTarget(s) == "/advanced/pools"
  {
    AbsentWhenCharMissing(s, "buy", 'b');
    AbsentWhenCharMissing(s, "write", 'w');
    AbsentWhenCharMissing(s, "manage", 'm');
    AbsentWhenCharMissing(s, "trade", 't');
    AbsentWhenCharMissing(s, "mint", 'm');
    AbsentWhenCharMissing(s, "exercise", 'e');
    AbsentWhenCharMissing(s, "advanced/pools", 'v');
    PositiveWhenFoundLater(s, "pools", 1);
  }

  lemma LettersOfPools1(s: string)
    requires s == "/pools"
    ensures 'b' !in s && 'w' !in s && 'm' !in s
  {
  }

  lemma LettersOfPools2(s: string)
    requires s == "/pools"
    ensures 't' !in s && 'e' !in s && 'v' !in s
  {
  }

  lemma RoutePools(s: string)
    requires s == "/pools"
    ensures ToggleTarget(s) == "/advanced/pools" && !IsAdvanced(s)
  {
    LettersOfPools1(s);
    LettersOfPools2(s);
    assert s[1..6] == "pools";
    TogglesPools(s);
    BasicRoute(s);
  }

  lemma TogglesAdvancedTrade(s: string)
    requires 'b' !in s && 'w' !in s && 'm' !in s
    requires s != [] && s[0] == '/' && OccursAt(s, "trade", 10)
    ensures ToggleTarget(s) == "/buy"
  {
    AbsentWhenCharMissing(s, "buy", 'b');
    AbsentWhenCharMissing(s, "write", 'w');
    AbsentWhenCharMissing(s, "manage", 'm');
    PositiveWhenFoundLater(s, "trade", 10);
  }

  lemma LettersOfAdvancedTrade(s: string)
    requires s == "/advanced/trade"
    ensures 'b' !in s && 'w' !in s && 'm' !in s
  {
  }

  lemma RouteAdvancedTrade(s: string)
    requires s == "/advanced/trade"
    ensures ToggleTarget(s) == "/buy" && IsAdvanced(s)
  {
    LettersOfAdvancedTrade(s);
    assert s[10..15] == "trade";
    TogglesAdvancedTrade(s);
    AdvancedRoute(s);
  }

  lemma TogglesAdvancedMint(s: string)
    requires 'b' !in s && 'w' !in s && 'g' !in s && 'r' !in s
    requires s != [] && s[0] == '/' && OccursAt(s, "mint", 10)
    ensures ToggleTarget(s) == "/write"
  {
    AbsentWhenCharMissing(s, "buy", 'b');
    AbsentWhenCharMissing(s, "write", 'w');
    AbsentWhenCharMissing(s, "manage", 'g');
    AbsentWhenCharMissing(s, "trade", 'r');
    PositiveWhenFoundLater(s, "mint", 10);
  }

  lemma LettersOfAdvancedMint1(s: string)
    requires s == "/advanced/mint"
    ensures 'b' !in s && 'w' !in s && 'g' !in s
  {
  }

  lemma LettersOfAdvancedMint2(s: string)
    requires s == "/advanced/mint"
    ensures 'r' !in s
  {
  }

  lemma RouteAdvancedMint(s: string)
    requires s == "/advanced/mint"
    ensures ToggleTarget(s) == "/write" && IsAdvanced(s)
  {
    LettersOfAdvancedMint1(s);
    LettersOfAdvancedMint2(s);
    assert s[10..14] == "mint";
    TogglesAdvancedMint(s);
    AdvancedRoute(s);
  }

  lemma TogglesAdvancedExercise(s: string)
    requires 'b' !in s && 'w' !in s && 'm' !in s && 't' !in s
    requires s != [] && s[0] == '/' && OccursAt(s, "exercise", 10)
    ensures ToggleTarget(s) == "/manage"
  {
    AbsentWhenCharMissing(s, "buy", 'b');
    AbsentWhenCharMissing(s, "write", 'w');
    AbsentWhenCharMissing(s, "manage", 'm');
    AbsentWhenCharMissing(s, "trade", 't');
    AbsentWhenCharMissing(s, "mint", 'm');
    PositiveWhenFoundLater(s, "exercise", 10);
  }

  lemma LettersOfAdvancedExercise1(s: string)
    requires s == "/advanced/exercise"
    ensures 'b' !in s && 'w' !in s && 'm' !in s
  {
  }

  lemma LettersOfAdvancedExercise2(s: string)
    requires s == "/advanced/exercise"
    ensures 't' !in s
  {
  }

  lemma RouteAdvancedExercise(s: string)
    requires s == "/advanced/exercise"
    ensures ToggleTarget(s) == "/manage" && IsAdvanced(s)
  {
    LettersOfAdvancedExercise1(s);
    LettersOfAdvancedExercise2(s);
    assert s[10..18] == "exercise";
    TogglesAdvancedExercise(s);
    AdvancedRoute(s);
  }

  lemma TogglesAdvancedPools(s: string)
    requires 'b' !in s && 'w' !in s && 'm' !in s && 't' !in s && 'x' !in s
    requires s != [] && s[0] == '/' && OccursAt(s, "advanced/pools", 1)
    ensures ToggleTarget(s) == "/pools"
  {
    AbsentWhenCharMissing(s, "buy", 'b');
    AbsentWhenCharMissing(s, "write", 'w');
    AbsentWhenCharMissing(s, "manage", 'm');
    AbsentWhenCharMissing(s, "trade", 't');
    AbsentWhenCharMissing(s, "mint", 'm');
    AbsentWhenCharMissing(s, "exercise", 'x');
    PositiveWhenFoundLater(s, "advanced/pools", 1);
  }

  lemma LettersOfAdvancedPools1(s: string)
    requires s == "/advanced/pools"
    ensures 'b' !in s && 'w' !in s && 'm' !in s
  {
  }

  lemma LettersOfAdvancedPools2(s: string)
    requires s == "/advanced/pools"
    ensures 't' !in s && 'x' !in s
  {
  }

  lemma RouteAdvancedPools(s: string)
    requires s == "/advanced/pools"
    ensures ToggleTarget(s) == "/pools" && IsAdvanced(s)
  {
    LettersOfAdvancedPools1(s);
    LettersOfAdvancedPools2(s);
    assert s[1..15] == "advanced/pools";
    TogglesAdvancedPools(s);
    AdvancedRoute(s);
  }

  lemma SwapsBuyAndTrade(route: string)
    requires route == "/buy" || route == "/advanced/trade"
    ensures ToggleTarget(route) == (if route == "/buy" then "/advanced/trade" else "/buy")
    ensures IsAdvanced(ToggleTarget(route)) <==> !IsAdvanced(route)
    ensures ToggleTarget(ToggleTarget(route)) == route
  {
    if route == "/buy" {
      RouteBuy(route);
      RouteAdvancedTrade(ToggleTarget(route));
    } else {
      RouteAdvancedTrade(route);
      RouteBuy(ToggleTarget(route));
    }
  }

  lemma SwapsWriteAndMint(route: string)
    requires route == "/write" || route == "/advanced/mint"
    ensures ToggleTarget(route) == (if route == "/write" then "/advanced/mint" else "/write")
    ensures IsAdvanced(ToggleTarget(route)) <==> !IsAdvanced(route)
    ensures ToggleTarget(ToggleTarget(route)) == route
  {
    if route == "/write" {
      RouteWrite(route);
      RouteAdvancedMint(ToggleTarget(route));
    } else {
      RouteAdvancedMint(route);
      RouteWrite(ToggleTarget(route));
    }
  }

  lemma SwapsManageAndExercise(route: string)
    requires route == "/manage" || route == "/advanced/exercise"
    ensures ToggleTarget(route) == (if route == "/manage" then "/advanced/exercise" else "/manage")
    ensures IsAdvanced(ToggleTarget(route)) <==> !IsAdvanced(route)
    ensures ToggleTarget(ToggleTarget(route)) == route
  {
    if route == "/manage" {
      RouteManage(route);
      RouteAdvancedExercise(ToggleTarget(route));
    } else {
      RouteAdvancedExercise(route);
      RouteManage(ToggleTarget(route));
    }
  }

  lemma SwapsPoolsAndAdvancedPools(route: string)
    requires route == "/pools" || route == "/advanced/pools"
    ensures ToggleTarget(route) == (if route == "/pools" then "/advanced/pools" else "/pools")
    ensures IsAdvanced(ToggleTarget(route)) <==> !IsAdvanced(route)
    ensures ToggleTarget(ToggleTarget(route)) == route
  {
    if route == "/pools" {
      RoutePools(route);
      RouteAdvancedPools(ToggleTarget(route));
    } else {
      RouteAdvancedPools(route);
      RoutePools(ToggleTarget(route));
    }
  }

  /** The toggle swaps basic and advanced mode on each of the eight routes and undoes itself. */
  lemma ToggleIsAnInvolution(route: string)
    requires ModeRoute(route)
    ensures ModeRoute(ToggleTarget(route))
    ensures IsAdvanced(ToggleTarget(route)) <==> !IsAdvanced(route)
    ensures ToggleTarget(ToggleTarget(route)) == route
  {
    if route == "/buy" || route == "/advanced/trade" {
      SwapsBuyAndTrade(route);
    } else if route == "/write" || route == "/advanced/mint" {
      SwapsWriteAndMint(route);
    } else if route == "/manage" || route == "/advanced/exercise" {
      SwapsManageAndExercise(route);
    } else {
      SwapsPoolsAndAdvancedPools(route);
    }
  }

  /** "/advanced/pools" goes back to "/pools" although "pools" also occurs in it: the longer fragment is checked first. */
  lemma AdvancedPoolsGoesToPools(s: string)
    requires s == "/advanced/pools"
    ensures IndexOf(s, "pools") > 0
    ensures ToggleTarget(s) == "/pools"
  {
    RouteAdvancedPools(s);
    assert s[10..15] == "pools";
    PositiveWhenFoundLater(s, "pools", 10);
  }

  /** The base route, followed by "/" and the pair id when the route names a (non-empty) pair. */
  function UrlWithPairId(baseUrl: string, pairId: Option<string>): (r: string)
    ensures |r| >= |baseUrl| && r[..|baseUrl|] == baseUrl
    ensures !Truthy(pairId) <==> |r| == |baseUrl|
    ensures Truthy(pairId) ==> r[|baseUrl|] == '/' && r[|baseUrl| + 1..] == pairId.value
  {
    if Truthy(pairId) then baseUrl + "/" + pairId.value else baseUrl
  }

  datatype Web3 = Web3(selectedAccount: Option<string>, validNetwork: bool)

  /** An account is connected on the expected network. */
  predicate Connected(web3: Option<Web3>)
  {
    web3.Some? && Truthy(web3.value.selectedAccount) && web3.value.validNetwork
  }

  datatype NavAction = Navigate(url: string) | SignIn(url: string)

  /** `changeMode`: go to the toggled route when connected, otherwise sign in with that route as the goal. */
  function ChangeMode(pathname: string, pairId: Option<string>, web3: Option<Web3>): (r: NavAction)
    ensures r.url == UrlWithPairId(ToggleTarget(pathname), pairId)
    ensures r.Navigate? <==> Connected(web3)
  {
    var url := UrlWithPairId(ToggleTarget(pathname), pairId);
    if Connected(web3) then Navigate(url) else SignIn(url)
  }

  /** The route the "connect wallet" link signs in towards. */
  function ConnectWalletTarget(pathname: string): (r: string)
    ensures r == "/advanced/mint" || r == "/write"
    ensures IsAdvanced(r) <==> IsAdvanced(pathname)
  {
    if IsAdvanced(pathname) then
      AdvancedRoute("/advanced/mint");
      "/advanced/mint"
    else
      BasicRoute("/write");
      "/write"
  }
}
