/** The browser's cookie store as the banner uses it: two record families, the
    per-instance "closed" flag and the global "installed" flag. */
module Cookies {
  import opened Js

  /** Milliseconds in a day: 1000 * 60 * 60 * 24. */
  const DayMs: int := 86400000

  const ClosedPrefix := "smartbanner-closed-"
  const InstalledKey := "smartbanner-installed"

  /** A stored cookie; `expires` is an absolute time in milliseconds. */
  datatype Cookie = Cookie(value: string, path: string, expires: int)

  /** The name of the "closed" record of one banner instance. */
  function ClosedKey(instanceId: string): string {
    ClosedPrefix + instanceId
  }

  /** Distinct instances have distinct "closed" records. */
  lemma {:induction false} ClosedKeyInjective(a: string, b: string)
    ensures ClosedKey(a) == ClosedKey(b) ==> a == b
  {
    if ClosedKey(a) == ClosedKey(b) {
      assert ClosedKey(a)[|ClosedPrefix|..] == a;
      assert ClosedKey(b)[|ClosedPrefix|..] == b;
    }
  }

  /** No instance's "closed" record is the global "installed" record. */
  lemma ClosedKeyIsNotInstalled(a: string)
    ensures ClosedKey(a) != InstalledKey
  {
    assert ClosedKey(a)[12] == 'c' && InstalledKey[12] == 'i';
  }

  /** `cookie.get(name)` at time `now`: the value of a record the browser still
      keeps, which it does until the record's expiry. */
  function Get(cookies: map<string, Cookie>, name: string, now: int): Option<string> {
    if name in cookies && now < cookies[name].expires then Some(cookies[name].value) else None
  }

  /** The truth value of `cookie.get(name)`: a live record with a non-empty value. */
  predicate Present(cookies: map<string, Cookie>, name: string, now: int) {
    match Get(cookies, name, now)
    case Some(v) => v != ""
    case None => false
  }

  /** The record that `close` and `install` write at time `now`: value "true",
      path "/", expiring `days` days later. */
  function Flag(now: int, days: int): Cookie {
    Cookie("true", "/", now + days * DayMs)
  }

  /** A flag written at `now` for `days` days is seen at exactly the times before
      its expiry. */
  lemma FlagLifetime(cookies: map<string, Cookie>, name: string, now: int, days: int, t: int)
    ensures Present(cookies[name := Flag(now, days)], name, t) <==> t < now + days * DayMs
  {
  }

  /** Writing one record leaves what every other name reads unchanged. */
  lemma WriteIsolated(cookies: map<string, Cookie>, name: string, c: Cookie, other: string, t: int)
    requires other != name
    ensures Get(cookies[name := c], other, t) == Get(cookies, other, t)
    ensures Present(cookies[name := c], other, t) == Present(cookies, other, t)
  {
  }

  /** The cookie store shared by every banner instance on the page. */
  class CookieJar {
    var cookies: map<string, Cookie>

    constructor (initial: map<string, Cookie>)
      ensures cookies == initial
    {
      cookies := initial;
    }

    /** `cookie.set(name, value, {path, expires})`: replaces the record of that
        name and no other. */
    method Set(name: string, value: string, path: string, expires: int)
      modifies this
      ensures cookies == old(cookies)[name := Cookie(value, path, expires)]
    {
      cookies := cookies[name := Cookie(value, path, expires)];
    }
  }
}
