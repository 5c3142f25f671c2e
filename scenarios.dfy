/** Whole-decision scenarios: concrete devices, pages and cookie stores, and what
    the constructor and the two actions do with them. */
module Scenarios {
  import opened Js
  import opened Platform
  import opened Mixins
  import Config
  import AppId
  import opened Cookies
  import opened Eligibility
  import opened Icon
  import opened Banner

  const Iphone7 := Agent("iOS", "7.0", "Mobile Safari")
  const Nexus := Agent("Android", "4.4.2", "Chrome")
  const AndroidMeta := map["google-play-app" := "app-id=com.example.app,other=1"]

  /** Options merged over the defaults, with no caller options at all. */
  function DefaultOptions(userLang: string): Config.Options {
    Config.Merge(userLang, Config.NoOverrides)
  }

  /** Mobile Safari on iOS 7 shows its own banner: suppressed even with an
      explicit id and an empty cookie store. */
  lemma NativeBannerWins(userLang: string, metas: map<string, string>, links: map<string, string>)
    ensures var o := Config.Merge(userLang, Config.NoOverrides.(appId := Some(map["ios" := "284882215"])));
      Decide(o, Iphone7, false, map[], 0, metas, links) == Suppressed(NativeBanner)
  {
    NativeBannerOnIos7(false, false, false);
  }

  /** Android without an explicit id and without the metadata entry: no banner. */
  lemma AndroidWithoutId(userLang: string, links: map<string, string>, now: int)
    ensures Decide(DefaultOptions(userLang), Nexus, false, map[], now, map[], links) == NoAppId
  {
    Config.DefaultsWithoutOptions(userLang);
  }

  /** Android with the metadata "app-id=com.example.app,other=1": the banner links
      to that id on Google Play ("http://play.google.com/store/apps/details?id="
      followed by the id) and reads "FREE - In Google Play". The page has no
      icon link, so the corrected parameters carry no icon (as written, the
      template gets the empty `icon` option). */
  lemma AndroidFromMetadata(userLang: string, now: int)
    ensures Decide(DefaultOptions(userLang), Nexus, false, map[], now, AndroidMeta, map[])
         == Rendered(View(None, StoreLink(Android, userLang, "com.example.app"), "FREE - In Google Play", "OPEN"))
  {
    Config.DefaultsWithoutOptions(userLang);
    var o := DefaultOptions(userLang);
    var t := Classify(o.force, Nexus.osName);
    assert t == Some("android");
    assert Gate(t, Nexus, false, map[], now, o.instanceId) == None;
    Config.DefaultDisplayStrings(userLang);
    AppId.ExtractExample(AndroidMeta["google-play-app"]);
    var m := MixinFor("android").value;
    assert AppId.Resolve(o.appId, "android", Some(m), AndroidMeta) == AppId.Found("com.example.app");
    assert IconFor(o.icon, m.iconRels, map[]) == None;
    var link := StoreLink(Android, o.appStoreLanguage, "com.example.app");
    assert RenderView(o, "android", m, "com.example.app", map[])
        == View(None, link, "FREE - In Google Play", "OPEN");
  }

  /** A windows metadata entry with empty content resolves to the empty id, which
      is falsy: no banner. */
  lemma WindowsEmptyContent(userLang: string, links: map<string, string>, now: int)
    ensures Decide(DefaultOptions(userLang), Agent("Windows Phone", "8.0", "IEMobile"), false, map[], now,
                   map["msApplication-ID" := ""], links) == NoAppId
  {
    Config.DefaultsWithoutOptions(userLang);
  }

  /** An ios metadata entry with nothing behind the marker makes the constructor throw. */
  lemma IosMalformedMetadata(userLang: string, links: map<string, string>, now: int)
    ensures Decide(DefaultOptions(userLang), Agent("iOS", "9.3", "Chrome"), false, map[], now,
                   map["apple-itunes-app" := "app-id="], links) == Threw(MalformedMeta)
  {
    Config.DefaultsWithoutOptions(userLang);
    assert AppId.Extract("app-id=") == None;
  }

  /** `force` overrides the device: forced to android, an iPhone's Mobile Safari is
      no reason to stay hidden, and the android metadata is used. */
  lemma ForcedAndroidOnIphone(userLang: string, now: int)
    ensures var o := Config.Merge(userLang, Config.NoOverrides.(force := Some("android")));
      Decide(o, Iphone7, false, map[], now, AndroidMeta, map[]).Rendered?
  {
    var o := Config.Merge(userLang, Config.NoOverrides.(force := Some("android")));
    assert o.appId == map[] && o.force == "android";
    var t := Classify(o.force, Iphone7.osName);
    assert t == Some("android") && !HasNativeBanner(t, Iphone7);
    assert Gate(t, Iphone7, false, map[], now, o.instanceId) == None;
    AppId.ExtractExample(AndroidMeta["google-play-app"]);
    var m := MixinFor("android");
    assert m.Some?;
    assert AppId.Resolve(o.appId, "android", m, AndroidMeta) == AppId.Found("com.example.app");
    assert Create(o, "android", AndroidMeta, map[]).Rendered?;
  }

  /** After `close` at `t0` the defaults keep the banner hidden for the next 15
      days (`daysHidden`) ... */
  lemma HiddenAfterClose(userLang: string, t0: int, t: int)
    requires t < t0 + 15 * DayMs
    ensures Decide(DefaultOptions(userLang), Nexus, false, map[ClosedKey("0") := Flag(t0, 15)], t,
                   AndroidMeta, map[]) == Suppressed(ClosedByUser)
  {
    Config.DefaultsWithoutOptions(userLang);
    var o := DefaultOptions(userLang);
    var after := map[ClosedKey("0") := Flag(t0, 15)];
    FlagLifetime(map[], ClosedKey("0"), t0, 15, t);
    assert Present(after, ClosedKey(o.instanceId), t);
    assert Gate(Some("android"), Nexus, false, after, t, o.instanceId) == Some(ClosedByUser);
  }

  /** ... and show it again on a visit once the record has expired. */
  lemma ShownAgainAfterExpiry(userLang: string, t0: int, t: int)
    requires t >= t0 + 15 * DayMs
    ensures Decide(DefaultOptions(userLang), Nexus, false, map[ClosedKey("0") := Flag(t0, 15)], t,
                   AndroidMeta, map[]).Rendered?
  {
    Config.DefaultsWithoutOptions(userLang);
    var o := DefaultOptions(userLang);
    ClosedExpires(o, Nexus, false, map[], t0, t, AndroidMeta, map[]);
    var empty: map<string, Cookie> := map[];
    assert empty - {ClosedKey("0")} == empty;
    AndroidFromMetadata(userLang, t);
  }

  /** On an iPhone page with an "apple-touch-icon" link and no `icon` option, the
      icon lookup finds "/touch.png", yet the parameters as written carry the
      empty string; with the computed icon kept they carry "/touch.png". */
  lemma PageIconLost(userLang: string)
    ensures var o := DefaultOptions(userLang);
      var rels := MixinFor("ios").value.iconRels;
      var links := map["apple-touch-icon" := "/touch.png"];
      && IconFor(o.icon, rels, links) == Some("/touch.png")
      && ParamsAsWritten(IconFor(o.icon, rels, links), "", "", o).icon == Some("")
      && Params(IconFor(o.icon, rels, links), "", "", o).icon == Some("/touch.png")
  {
    Config.DefaultsWithoutOptions(userLang);
    var rels := MixinFor("ios").value.iconRels;
    var links := map["apple-touch-icon" := "/touch.png"];
    assert rels[0] !in links && rels[1] in links;
    FirstIconAt(rels, links, 1);
  }

  /** The same story told with objects: a banner instance on a page, its close,
      and a second instance on a later visit that stays hidden. */
  method CloseThenReload(languageAttribute: string, now: int) returns (first: SmartBanner, second: SmartBanner)
    ensures first.outcome.Rendered?
    ensures first.jar == second.jar && first.jar.cookies == map[ClosedKey("0") := Flag(now, 15)]
    ensures second.outcome == Suppressed(ClosedByUser) && !second.page.showing
  {
    var jar := new CookieJar(map[]);
    var page := new Page(AndroidMeta, map[]);
    first := ShowAndClose(languageAttribute, now, jar, page);
    second := Reload(languageAttribute, now, now + DayMs, jar, page);
  }

  /** A first visit with an empty cookie store shows the banner; its close hides
      it and leaves exactly the instance's 15-day "closed" record. */
  method ShowAndClose(languageAttribute: string, now: int, jar: CookieJar, page: Page)
    returns (first: SmartBanner)
    requires jar.cookies == map[] && page.metas == AndroidMeta && page.links == map[]
    modifies jar, page
    ensures first.jar == jar && first.page == page && first.outcome.Rendered?
    ensures jar.cookies == map[ClosedKey("0") := Flag(now, 15)] && !page.showing
  {
    AndroidFromMetadata(Config.UserLang(languageAttribute), now);
    first := Visit(languageAttribute, now, jar, page);
    Config.DefaultsWithoutOptions(Config.UserLang(languageAttribute));
    first.Close(now);
  }

  /** A visit whose decision renders: the default instance is created and the
      page shows it. */
  method Visit(languageAttribute: string, now: int, jar: CookieJar, page: Page)
    returns (b: SmartBanner)
    requires Decide(DefaultOptions(Config.UserLang(languageAttribute)), Nexus, false, jar.cookies, now,
                    page.metas, page.links).Rendered?
    modifies page
    ensures b.jar == jar && b.page == page
    ensures b.options == DefaultOptions(Config.UserLang(languageAttribute))
    ensures b.outcome.Rendered? && page.showing
  {
    b := new SmartBanner(Config.NoOverrides, languageAttribute, Nexus, false, now, jar, page);
  }

  /** A later visit within the 15 days: the new instance stays hidden and the
      page does not show it. */
  method Reload(languageAttribute: string, t0: int, t: int, jar: CookieJar, page: Page)
    returns (b: SmartBanner)
    requires t < t0 + 15 * DayMs
    requires jar.cookies == map[ClosedKey("0") := Flag(t0, 15)]
    requires page.metas == AndroidMeta && page.links == map[]
    modifies page
    ensures b.jar == jar && b.page == page
    ensures b.outcome == Suppressed(ClosedByUser) && page.showing == old(page.showing)
  {
    var userLang := Config.UserLang(languageAttribute);
    b := new SmartBanner(Config.NoOverrides, languageAttribute, Nexus, false, t, jar, page);
    ghost var o := DefaultOptions(userLang);
    assert b.options == o;
    assert b.outcome == Decide(o, Nexus, false, map[ClosedKey("0") := Flag(t0, 15)], t, AndroidMeta, map[]);
    HiddenAfterClose(userLang, t0, t);
  }
}
