/**
 * The session-cookie helper (template/src/Core/Configs/cookies.ts): a
 * static field remembers the name of the cookie most recently set, and
 * `remove` clears the cookie of that name.
 */
module CookieStore {
  import opened Wrappers

  /** The options object handed to `res.cookie`. */
  datatype CookieOptions = CookieOptions(httpOnly: bool, secure: bool, sameSite: string, maxAge: int)

  /** Seven days in milliseconds. */
  const SevenDaysMs := 1000 * 60 * 60 * 24 * 7

  const SessionCookieOptions := CookieOptions(true, true, "none", SevenDaysMs)

  /** A call the helper makes on the response; `None` is `undefined`/`null`. */
  datatype ResponseCall =
    | SetCookie(name: string, token: Option<string>, options: CookieOptions)
    | ClearCookie(cleared: Option<string>)

  /** A call on the helper, with whether the response given to `set` has a `cookie` function. */
  datatype CookieCall =
    | SetCall(name: string, hasCookieFunction: bool, token: Option<string>)
    | RemoveCall

  /** One call: the new stored name and what is called on the response. */
  function CallEffect(stored: Option<string>, call: CookieCall): (Option<string>, seq<ResponseCall>) {
    match call
    case SetCall(name, hasFn, token) =>
      (Some(name), if hasFn then [SetCookie(name, token, SessionCookieOptions)] else [])
    case RemoveCall => (stored, [ClearCookie(stored)])
  }

  /** A sequence of calls from the stored name `stored`: the final stored name
      and every response call in order. */
  function Replay(stored: Option<string>, calls: seq<CookieCall>): (Option<string>, seq<ResponseCall>) {
    if calls == [] then (stored, [])
    else
      var (s1, log) := Replay(stored, calls[..|calls| - 1]);
      var (s2, out) := CallEffect(s1, calls[|calls| - 1]);
      (s2, log + out)
  }

  /** The name given to the most recent `set`, if any. */
  function LastSetName(calls: seq<CookieCall>): (r: Option<string>)
    ensures r.Some? ==> exists i :: 0 <= i < |calls| && calls[i].SetCall? && calls[i].name == r.value &&
                                  (forall j :: i < j < |calls| ==> calls[j] == RemoveCall)
    ensures r.None? ==> forall i :: 0 <= i < |calls| ==> calls[i] == RemoveCall
  {
    if calls == [] then None
    else if calls[|calls| - 1].SetCall? then Some(calls[|calls| - 1].name)
    else LastSetName(calls[..|calls| - 1])
  }

  /** The stored name is the name of the most recent `set`, or the starting
      one when there was none. */
  lemma {:induction false} StoredIsLastSetName(stored: Option<string>, calls: seq<CookieCall>)
    ensures Replay(stored, calls).0 == (if LastSetName(calls).Some? then LastSetName(calls) else stored)
    decreases |calls|
  {
    if calls != [] {
      StoredIsLastSetName(stored, calls[..|calls| - 1]);
    }
  }

  /** `remove` clears the cookie named by the most recent `set`, whatever
      response that `set` was given. */
  lemma RemoveClearsLastSetCookie(stored: Option<string>, calls: seq<CookieCall>)
    requires LastSetName(calls).Some?
    ensures var log := Replay(stored, calls + [RemoveCall]).1;
      |log| > 0 && log[|log| - 1] == ClearCookie(LastSetName(calls))
  {
    StoredIsLastSetName(stored, calls);
    assert (calls + [RemoveCall])[..|calls|] == calls;
  }

  /** Every cookie written comes from a `set` whose response had a `cookie`
      function, with that call's name and token and the session options. */
  lemma {:induction false} CookiesOnlyFromSetWithFunction(stored: Option<string>, calls: seq<CookieCall>, k: nat)
    requires k < |Replay(stored, calls).1| && Replay(stored, calls).1[k].SetCookie?
    ensures var c := Replay(stored, calls).1[k];
      && SetCall(c.name, true, c.token) in calls
      && c.options == SessionCookieOptions
    decreases |calls|
  {
    var n := |calls| - 1;
    var (s1, log) := Replay(stored, calls[..n]);
    var (s2, out) := CallEffect(s1, calls[n]);
    assert Replay(stored, calls).1 == log + out;
    if k < |log| {
      CookiesOnlyFromSetWithFunction(stored, calls[..n], k);
      assert forall x :: x in calls[..n] ==> x in calls;
    } else {
      assert calls[n] in calls;
    }
  }

  /** The `express` response as seen by the helper. */
  class Response {
    /** `typeof res.cookie === 'function'`. */
    const hasCookieFunction: bool
    /** The calls made on it, in order. */
    var calls: seq<ResponseCall>

    constructor (hasCookieFunction: bool)
      ensures this.hasCookieFunction == hasCookieFunction && calls == []
    {
      this.hasCookieFunction := hasCookieFunction;
      calls := [];
    }
  }

  /** The class with its static field `cookie`, `undefined` until the first `set`. */
  class Cookies {
    var cookie: Option<string>

    constructor ()
      ensures cookie == None
    {
      cookie := None;
    }

    /** `Cookies.set(name, res, token)`; a `null` response has no `cookie` function. */
    method Set(name: string, res: Response?, token: Option<string>)
      modifies this, res
      ensures var hasFn := res != null && res.hasCookieFunction;
        cookie == CallEffect(old(cookie), SetCall(name, hasFn, token)).0
        && (res != null ==> res.calls == old(res.calls) + CallEffect(old(cookie), SetCall(name, hasFn, token)).1)
    {
      cookie := Some(name);
      if res != null && res.hasCookieFunction {
        res.calls := res.calls + [SetCookie(name, token, SessionCookieOptions)];
      }
    }

    /** `Cookies.remove(res)`. */
    method Remove(res: Response)
      modifies res
      ensures cookie == CallEffect(old(cookie), RemoveCall).0
      ensures res.calls == old(res.calls) + CallEffect(old(cookie), RemoveCall).1
    {
      res.calls := res.calls + [ClearCookie(cookie)];
    }
  }
}
