/** The suppression chain the constructor evaluates before anything else: the
    first condition that holds keeps the banner from being created. */
module Eligibility {
  import opened Js
  import opened Platform
  import opened Cookies

  /** Why a banner is not shown, in the order the conditions are tested. */
  datatype Reason =
    | NoPlatform     // the type is unset
    | NativeBanner   // Mobile Safari on iOS 6 or later shows its own banner
    | Standalone     // the page runs as a home-screen app
    | ClosedByUser   // this instance's "closed" record is present
    | Installed      // the global "installed" record is present

  predicate Untyped(t: Option<string>) { t.None? || t.value == "" }

  /** `type === 'ios'`, browser "Mobile Safari" and `parseInt(os.version) >= 6`
      (a NaN version compares false). */
  predicate HasNativeBanner(t: Option<string>, agent: Agent) {
    && t == Some("ios")
    && agent.browserName == "Mobile Safari"
    && match ParseInt(agent.osVersion)
       case Some(major) => major >= 6
       case None => false
  }

  /** The first suppression condition that holds, None when the banner may go on. */
  function FirstSuppression(t: Option<string>, agent: Agent, standalone: bool,
                            closed: bool, installed: bool): (r: Option<Reason>)
    ensures r.None? <==> !Untyped(t) && !HasNativeBanner(t, agent) && !standalone && !closed && !installed
    ensures r == Some(NoPlatform) <==> Untyped(t)
    ensures r == Some(NativeBanner) <==> !Untyped(t) && HasNativeBanner(t, agent)
    ensures r == Some(Standalone) <==> !Untyped(t) && !HasNativeBanner(t, agent) && standalone
    ensures r == Some(ClosedByUser) <==> !Untyped(t) && !HasNativeBanner(t, agent) && !standalone && closed
    ensures r == Some(Installed) <==>
              !Untyped(t) && !HasNativeBanner(t, agent) && !standalone && !closed && installed
  {
    if Untyped(t) then Some(NoPlatform)
    else if HasNativeBanner(t, agent) then Some(NativeBanner)
    else if standalone then Some(Standalone)
    else if closed then Some(ClosedByUser)
    else if installed then Some(Installed)
    else None
  }

  /** The chain read against the cookie store at time `now` for instance `instanceId`. */
  function Gate(t: Option<string>, agent: Agent, standalone: bool,
                cookies: map<string, Cookie>, now: int, instanceId: string): Option<Reason> {
    FirstSuppression(t, agent, standalone,
                     Present(cookies, ClosedKey(instanceId), now), Present(cookies, InstalledKey, now))
  }

  /** Another instance's "closed" record does not change the verdict for this one. */
  lemma OtherInstanceClosed(t: Option<string>, agent: Agent, standalone: bool,
                            cookies: map<string, Cookie>, now: int, instanceId: string,
                            other: string, c: Cookie)
    requires other != instanceId
    ensures Gate(t, agent, standalone, cookies[ClosedKey(other) := c], now, instanceId)
         == Gate(t, agent, standalone, cookies, now, instanceId)
  {
    ClosedKeyInjective(other, instanceId);
    ClosedKeyIsNotInstalled(other);
    WriteIsolated(cookies, ClosedKey(other), c, ClosedKey(instanceId), now);
    WriteIsolated(cookies, ClosedKey(other), c, InstalledKey, now);
  }

  /** The "installed" record keeps every instance from showing, whatever its id. */
  lemma InstalledSuppressesEveryInstance(t: Option<string>, agent: Agent, standalone: bool,
                                         cookies: map<string, Cookie>, now: int, instanceId: string)
    requires Present(cookies, InstalledKey, now)
    ensures Gate(t, agent, standalone, cookies, now, instanceId).Some?
  {
  }

  /** The device signals alone decide the iOS native-banner case: Mobile Safari on
      iOS 7.0 is suppressed before any cookie is even looked at. */
  lemma NativeBannerOnIos7(standalone: bool, closed: bool, installed: bool)
    ensures FirstSuppression(Some("ios"), Agent("iOS", "7.0", "Mobile Safari"), standalone, closed, installed)
         == Some(NativeBanner)
  {
    assert "7.0" == "7" + ".0";
    ParseIntLeadingDigits("7", ".0");
  }

  /** Before iOS 6 Mobile Safari has no banner of its own, so it is not a reason. */
  lemma NoNativeBannerOnIos5(agent: Agent)
    requires agent.browserName == "Mobile Safari" && agent.osVersion == "5.1.1"
    ensures !HasNativeBanner(Some("ios"), agent)
  {
    assert "5.1.1" == "5" + ".1.1";
    ParseIntLeadingDigits("5", ".1.1");
  }
}
