/** Reading one cookie from the list a browser context returns. */
module Browser {
  import opened Wrappers

  datatype Cookie = Cookie(name: string, value: string)

  /** The values of the cookies named `name`, in list order (the list comprehension). */
  function ValuesNamed(cookies: seq<Cookie>, name: string): (vs: seq<string>)
    ensures |vs| <= |cookies|
    ensures vs == [] <==> forall i :: 0 <= i < |cookies| ==> cookies[i].name != name
    ensures vs != [] ==> exists i :: 0 <= i < |cookies| && cookies[i].name == name && vs[0] == cookies[i].value &&
                                     forall j :: 0 <= j < i ==> cookies[j].name != name
  {
    if cookies == [] then []
    else
      var rest := ValuesNamed(cookies[1..], name);
      if cookies[0].name == name then [cookies[0].value] + rest
      else
        assert forall i :: 1 <= i < |cookies| ==> cookies[i] == cookies[1..][i - 1];
        rest
  }

  /** `_get_cookie`: the value of the first cookie with that name, or None when there is none. */
  function GetCookie(cookies: seq<Cookie>, name: string): (r: Option<string>)
    ensures r.None? <==> forall i :: 0 <= i < |cookies| ==> cookies[i].name != name
    ensures r.Some? ==> exists i :: 0 <= i < |cookies| && cookies[i].name == name && r.value == cookies[i].value &&
                                    forall j :: 0 <= j < i ==> cookies[j].name != name
  {
    var c := ValuesNamed(cookies, name);
    if c != [] then Some(c[0]) else None
  }

  /**
   * Only the first matching cookie decides: whatever follows a list that already has one
   * is ignored, and a list without one passes the question on to what follows.
   */
  lemma {:induction false} GetCookieAppend(a: seq<Cookie>, b: seq<Cookie>, name: string)
    ensures GetCookie(a + b, name) == if GetCookie(a, name).Some? then GetCookie(a, name) else GetCookie(b, name)
    decreases |a|
  {
    if a == [] {
      assert a + b == b;
    } else {
      assert (a + b)[1..] == a[1..] + b;
      GetCookieAppend(a[1..], b, name);
    }
  }

  /** A cookie with another name, inserted anywhere, does not change the result. */
  lemma GetCookieIgnoresOthers(a: seq<Cookie>, other: Cookie, b: seq<Cookie>, name: string)
    requires other.name != name
    ensures GetCookie(a + [other] + b, name) == GetCookie(a + b, name)
  {
    assert a + [other] + b == a + ([other] + b);
    GetCookieAppend(a, [other] + b, name);
    assert GetCookie([other], name).None?;
    GetCookieAppend([other], b, name);
    assert GetCookie([other] + b, name) == GetCookie(b, name);
    GetCookieAppend(a, b, name);
  }
}
