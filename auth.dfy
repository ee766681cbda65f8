/**
 * app/routes/auth.tsx: the `next` parameter read from the query string, the
 * page navigated to once signed in, and what a click on the button does.
 * The sign-in and sign-out calls and the animations are not modelled; the
 * click's decision is returned instead.
 */
module Auth {
  import opened Wrappers
  import opened Text

  const NextKey := "next="

  /**
   * `location.search`: the query string of a path, from its `?` on, or `""`
   * when there is none or it is empty. Fragments are not modelled.
   */
  function LocationSearch(url: string): (r: string)
    ensures r == "" || (r[0] == '?' && |r| >= 2)
    ensures r != "" ==> IsInfix(r, url)
  {
    match IndexOfChar(url, '?')
    case None => ""
    case Some(i) =>
      if i + 1 == |url| then ""
      else
        assert OccursAt(url, url[i..], i);
        url[i..]
  }

  /**
   * `location.search.split('next=')[1]`: the text after the first `next=`,
   * up to the following `next=` or the end; absent without any `next=`.
   */
  function NextParam(search: string): (r: Option<string>)
    ensures r.None? <==> !IsInfix(NextKey, search)
    ensures r.Some? ==> !IsInfix(NextKey, r.value)
    ensures r.Some? ==> IndexOf(search, NextKey).Some?
    ensures r.Some? ==> OccursAt(search, r.value, IndexOf(search, NextKey).value + |NextKey|)
    ensures r.Some? ==>
      var e := IndexOf(search, NextKey).value + |NextKey| + |r.value|;
      e == |search| || OccursAt(search, NextKey, e)
  {
    NextParamFacts(search);
    At(SplitOn(search, NextKey), 1)
  }

  lemma NextParamFacts(search: string)
    ensures var parts := SplitOn(search, NextKey);
      (|parts| > 1 <==> IsInfix(NextKey, search))
      && (|parts| > 1 ==>
            var i := IndexOf(search, NextKey).value;
            var e := i + |NextKey| + |parts[1]|;
            OccursAt(search, parts[1], i + |NextKey|) && (e == |search| || OccursAt(search, NextKey, e))
            && !IsInfix(NextKey, parts[1]))
  {
    match IndexOf(search, NextKey)
    case None => SplitOnNone(search, NextKey);
    case Some(i) =>
      SplitOnSecond(search, NextKey, i);
      SplitOnPieceFree(search, NextKey, 1);
  }

  /** `next || '/'`: the target once signed in. */
  function RedirectTarget(search: string): (r: string)
    ensures r != ""
    ensures Truthy(NextParam(search)) ==> r == NextParam(search).value
    ensures !Truthy(NextParam(search)) ==> r == "/"
  {
    OrElse(NextParam(search), "/")
  }

  /** The navigation the first effect makes: only when authenticated. */
  function Navigation(isAuthenticated: bool, search: string): (r: Option<string>)
    ensures r.Some? <==> isAuthenticated
    ensures r.Some? ==> r.value == RedirectTarget(search)
  {
    if isAuthenticated then Some(RedirectTarget(search)) else None
  }

  /**
   * A query string that is exactly `?next=` followed by a path without `=`
   * sends the user to that path.
   */
  lemma RedirectToNext(path: string)
    requires path != [] && forall k :: 0 <= k < |path| ==> path[k] != '='
    ensures NextParam("?" + NextKey + path) == Some(path)
    ensures RedirectTarget("?" + NextKey + path) == path
  {
    var s := "?" + NextKey + path;
    assert OccursAt(s, NextKey, 1);
    assert !OccursAt(s, NextKey, 0) by {
      assert s[0] == '?';
    }
    var i := IndexOf(s, NextKey).value;
    assert i == 1;
    var r := NextParam(s).value;
    var k := 1 + |NextKey|;
    assert s[k..] == path;
    assert |r| == |path| by {
      if k + |r| != |s| {
        assert OccursAt(s, NextKey, k + |r|);
        assert OccursAt(path, NextKey, |r|) by {
          assert s[k + |r|..k + |r| + |NextKey|] == path[|r|..|r| + |NextKey|];
        }
        NoEqualsNoKey(path);
      }
    }
    assert r == s[k..k + |r|] == path;
  }

  /** `/auth?next=<path>`: the sign-in page, told where to go next. */
  function LoginUrl(path: string): string {
    "/auth" + ("?" + NextKey + path)
  }

  /** The query string of a sign-in link is `?next=` and the path. */
  lemma SearchOfLoginUrl(path: string)
    ensures LocationSearch(LoginUrl(path)) == "?" + NextKey + path
  {
    var url := LoginUrl(path);
    assert url[5] == '?' && forall k :: 0 <= k < 5 ==> url[k] != '?';
    assert url[5..] == "?" + NextKey + path;
  }

  /** Signing in from `/auth?next=<path>` leads to that path, when it holds no `=`. */
  lemma LoginReturnsTo(path: string)
    requires path != [] && forall k :: 0 <= k < |path| ==> path[k] != '='
    ensures RedirectTarget(LocationSearch(LoginUrl(path))) == path
  {
    SearchOfLoginUrl(path);
    RedirectToNext(path);
  }

  /** A text without `=` holds no `next=`. */
  lemma NoEqualsNoKey(t: string)
    requires forall k :: 0 <= k < |t| ==> t[k] != '='
    ensures !IsInfix(NextKey, t)
  {
    if IsInfix(NextKey, t) {
      assert OccursAt(NextKey, "=", 4);
      InfixTransitive("=", NextKey, t);
      CharInfixIff('=', t);
    }
  }

  /** What a click on the button does. */
  datatype ClickAction = NoAction | SignOut | SignIn

  /**
   * `handleButtonClick`: nothing while loading; otherwise, when the
   * animation completes, sign out if authenticated and sign in if not.
   */
  function ButtonAction(isLoading: bool, isAuthenticated: bool): (r: ClickAction)
    ensures isLoading <==> r == NoAction
    ensures !isLoading ==> (r == SignOut <==> isAuthenticated)
  {
    if isLoading then NoAction
    else if isAuthenticated then SignOut
    else SignIn
  }
}
