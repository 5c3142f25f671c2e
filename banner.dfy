/** The banner itself: the decision the constructor takes, the instance state it
    leaves behind, and the two user actions that write suppression records. */
module Banner {
  import opened Js
  import opened Platform
  import opened Mixins
  import Config
  import AppId
  import opened Cookies
  import opened Eligibility
  import opened Icon

  /** Why the constructor throws: the metadata has no usable `app-id=` token,
      or an id resolved for a type without a table entry (its `iconRels` and
      `getStoreLink` are undefined when the banner is created). */
  datatype Fault = MalformedMeta | NoMixin

  /** What constructing a banner amounts to. */
  datatype Outcome =
    | Suppressed(reason: Reason)   // returns early, nothing created
    | NoAppId                      // `parseAppId` is falsy: returns early
    | Threw(fault: Fault)          // the constructor throws a TypeError
    | Rendered(view: View)         // created with these parameters and shown

  /** The key under which `this.type` indexes a record (`undefined` when unset). */
  function TypeKey(t: Option<string>): string {
    if t.Some? then t.value else "undefined"
  }

  /** The value `parseAppId` leaves in a fresh instance's `appId`. */
  function AssignedId(r: AppId.Resolution): Option<string> {
    if r.Found? then Some(r.id) else None
  }

  /** The template parameters of a created banner, with the computed icon kept
      (`Params`); as written, the code hands the template `ParamsAsWritten`. */
  function RenderView(o: Config.Options, t: string, m: Mixin, id: string,
                      links: map<string, string>): View {
    Params(IconFor(o.icon, m.iconRels, links), StoreLink(m.platform, o.appStoreLanguage, id),
           Config.InStore(o, t), o)
  }

  /** The constructor's decision for resolved options `o`, the agent, the
      standalone signal, the cookie store at time `now` and the page's metadata
      and icon links. */
  function Decide(o: Config.Options, agent: Agent, standalone: bool, cookies: map<string, Cookie>,
                  now: int, metas: map<string, string>, links: map<string, string>): Outcome {
    var t := Classify(o.force, agent.osName);
    match Gate(t, agent, standalone, cookies, now, o.instanceId)
    case Some(reason) => Suppressed(reason)
    case None => Create(o, t.value, metas, links)
  }

  /** What follows a passed suppression chain for type `t`: the app id is
      resolved and, when it is non-empty, the banner is created. Malformed
      metadata throws; a missing entry or an empty id ends without a banner; a
      non-empty id for a type without a table entry throws when the banner is
      built. */
  function Create(o: Config.Options, t: string, metas: map<string, string>,
                  links: map<string, string>): (r: Outcome)
    ensures !r.Suppressed?
  {
    var mixin := MixinFor(t);
    match AppId.Resolve(o.appId, t, mixin, metas)
    case Malformed => Threw(MalformedMeta)
    case NoMeta => NoAppId
    case Found(id) =>
      if id == "" then NoAppId
      else if mixin.None? then Threw(NoMixin)
      else Rendered(RenderView(o, t, mixin.value, id, links))
  }

  /** The banner is created exactly when none of the five suppression conditions
      holds, the type has a table entry and a non-empty app id resolves; its
      link is then the platform's store link for that id. */
  lemma RenderedIff(o: Config.Options, agent: Agent, standalone: bool, cookies: map<string, Cookie>,
                    now: int, metas: map<string, string>, links: map<string, string>)
    ensures var t := Classify(o.force, agent.osName);
      Decide(o, agent, standalone, cookies, now, metas, links).Rendered? <==>
        && t.Some?
        && !HasNativeBanner(t, agent)
        && !standalone
        && !Present(cookies, ClosedKey(o.instanceId), now)
        && !Present(cookies, InstalledKey, now)
        && MixinFor(t.value).Some?
        && AppId.Resolve(o.appId, t.value, MixinFor(t.value), metas).Found?
        && AppId.Resolve(o.appId, t.value, MixinFor(t.value), metas).id != ""
    ensures var t := Classify(o.force, agent.osName);
      Decide(o, agent, standalone, cookies, now, metas, links).Rendered? ==>
        Decide(o, agent, standalone, cookies, now, metas, links).view.link
        == StoreLink(MixinFor(t.value).value.platform, o.appStoreLanguage,
                     AppId.Resolve(o.appId, t.value, MixinFor(t.value), metas).id)
  {
  }

  /** Each outcome of creating the banner, tied to the resolution of the app id
      and the table entry of the type. */
  lemma CreateOutcomes(o: Config.Options, t: string, metas: map<string, string>,
                       links: map<string, string>)
    ensures var r := Create(o, t, metas, links);
      var res := AppId.Resolve(o.appId, t, MixinFor(t), metas);
      && (r == Threw(MalformedMeta) <==> res.Malformed?)
      && (r == Threw(NoMixin) <==> res.Found? && res.id != "" && MixinFor(t).None?)
      && (r == NoAppId <==> res.NoMeta? || (res.Found? && res.id == ""))
      && (r.Rendered? <==> res.Found? && res.id != "" && MixinFor(t).Some?)
  {
  }

  /** The decision suppresses exactly when the suppression chain reports a
      reason, and that reason is the outcome; otherwise the outcome is what
      creating the banner for the selected type gives, so it throws for
      malformed metadata and ends without a banner for a missing or empty id. */
  lemma DecideSplits(o: Config.Options, agent: Agent, standalone: bool, cookies: map<string, Cookie>,
                     now: int, metas: map<string, string>, links: map<string, string>)
    ensures var t := Classify(o.force, agent.osName);
      var g := Gate(t, agent, standalone, cookies, now, o.instanceId);
      var d := Decide(o, agent, standalone, cookies, now, metas, links);
      && (d.Suppressed? <==> g.Some?)
      && (g.Some? ==> d == Suppressed(g.value))
      && (g.None? ==> t.Some? && d == Create(o, t.value, metas, links))
      && (g.None? ==>
            (d == Threw(MalformedMeta) <==> AppId.Resolve(o.appId, t.value, MixinFor(t.value), metas).Malformed?))
  {
    var t := Classify(o.force, agent.osName);
    if Gate(t, agent, standalone, cookies, now, o.instanceId).None? {
      CreateOutcomes(o, t.value, metas, links);
    }
  }

  /** Another instance's "closed" record changes nothing about this instance. */
  lemma OtherInstanceCloseIgnored(o: Config.Options, agent: Agent, standalone: bool,
                                  cookies: map<string, Cookie>, now: int,
                                  metas: map<string, string>, links: map<string, string>,
                                  other: string, c: Cookie)
    requires other != o.instanceId
    ensures Decide(o, agent, standalone, cookies[ClosedKey(other) := c], now, metas, links)
         == Decide(o, agent, standalone, cookies, now, metas, links)
  {
    OtherInstanceClosed(Classify(o.force, agent.osName), agent, standalone, cookies, now,
                        o.instanceId, other, c);
  }

  /** A "closed" record written at `t0` keeps its own instance hidden until it
      expires `daysHidden` days later. */
  lemma ClosedSuppressesUntilExpiry(o: Config.Options, agent: Agent, standalone: bool,
                                    cookies: map<string, Cookie>, t0: int, t: int,
                                    metas: map<string, string>, links: map<string, string>)
    requires t < t0 + o.daysHidden * DayMs
    ensures Decide(o, agent, standalone, cookies[ClosedKey(o.instanceId) := Flag(t0, o.daysHidden)],
                   t, metas, links).Suppressed?
  {
    FlagLifetime(cookies, ClosedKey(o.instanceId), t0, o.daysHidden, t);
  }

  /** Once expired, the "closed" record is as good as absent. */
  lemma ClosedExpires(o: Config.Options, agent: Agent, standalone: bool,
                      cookies: map<string, Cookie>, t0: int, t: int,
                      metas: map<string, string>, links: map<string, string>)
    requires t >= t0 + o.daysHidden * DayMs
    ensures Decide(o, agent, standalone, cookies[ClosedKey(o.instanceId) := Flag(t0, o.daysHidden)],
                   t, metas, links)
         == Decide(o, agent, standalone, cookies - {ClosedKey(o.instanceId)}, t, metas, links)
  {
    var key := ClosedKey(o.instanceId);
    ClosedKeyIsNotInstalled(o.instanceId);
    var written := cookies[key := Flag(t0, o.daysHidden)];
    var removed := cookies - {key};
    assert !Present(written, key, t) && !Present(removed, key, t);
    assert Present(written, InstalledKey, t) == Present(removed, InstalledKey, t);
  }

  /** An "installed" record written at `t0` with `days` days hides every
      instance, whatever its options, until it expires. */
  lemma InstalledSuppressesEveryone(o: Config.Options, agent: Agent, standalone: bool,
                                    cookies: map<string, Cookie>, t0: int, days: int, t: int,
                                    metas: map<string, string>, links: map<string, string>)
    requires t < t0 + days * DayMs
    ensures Decide(o, agent, standalone, cookies[InstalledKey := Flag(t0, days)], t, metas, links).Suppressed?
  {
    FlagLifetime(cookies, InstalledKey, t0, days, t);
    InstalledSuppressesEveryInstance(Classify(o.force, agent.osName), agent, standalone,
                                     cookies[InstalledKey := Flag(t0, days)], t, o.instanceId);
  }

  /** The page that hosts the banners: its metadata entries (name to content),
      its icon links (relation to href), and whether the document element
      carries the class that shows a banner. */
  class Page {
    const metas: map<string, string>
    const links: map<string, string>
    var showing: bool

    constructor (metas: map<string, string>, links: map<string, string>)
      ensures this.metas == metas && this.links == links && !showing
    {
      this.metas := metas;
      this.links := links;
      showing := false;
    }
  }

  /** One banner instance. */
  class SmartBanner {
    const jar: CookieJar
    const page: Page
    var options: Config.Options
    var platformType: Option<string>
    var mixin: Option<Mixin>
    var appId: Option<string>
    /** What the constructor did. */
    ghost var outcome: Outcome

    /** `new SmartBanner(options)`: merges the options, selects the type, runs the
        suppression chain, copies the table entry in, resolves the app id and,
        when all of that succeeds, creates and shows the banner. */
    constructor (overrides: Config.Overrides, languageAttribute: string, agent: Agent, standalone: bool,
                 now: int, jar: CookieJar, page: Page)
      modifies page
      ensures this.jar == jar && this.page == page
      ensures options == Config.Merge(Config.UserLang(languageAttribute), overrides)
      ensures platformType == Classify(options.force, agent.osName)
      ensures outcome == Decide(options, agent, standalone, jar.cookies, now, page.metas, page.links)
      ensures outcome.Suppressed? ==> mixin.None? && appId.None?
      ensures !outcome.Suppressed? ==> mixin == MixinFor(TypeKey(platformType))
      ensures !outcome.Suppressed? ==>
                appId == AssignedId(AppId.Resolve(options.appId, TypeKey(platformType), mixin, page.metas))
      ensures page.showing == (old(page.showing) || outcome.Rendered?)
    {
      var o := Config.Merge(Config.UserLang(languageAttribute), overrides);
      this.jar := jar;
      this.page := page;
      options := o;
      platformType := Classify(o.force, agent.osName);
      mixin := None;
      appId := None;
      outcome := NoAppId;
      new;
      Start(agent, standalone, now);
    }

    /** The constructor body after the fields are set: runs the suppression chain
        and, when it passes, mounts the banner. */
    method Start(agent: Agent, standalone: bool, now: int)
      requires platformType == Classify(options.force, agent.osName)
      requires mixin.None? && appId.None?
      modifies this`mixin, this`appId, this`outcome, page
      ensures outcome == Decide(options, agent, standalone, jar.cookies, now, page.metas, page.links)
      ensures outcome.Suppressed? ==> mixin.None? && appId.None?
      ensures !outcome.Suppressed? ==> mixin == MixinFor(TypeKey(platformType))
      ensures !outcome.Suppressed? ==>
                appId == AssignedId(AppId.Resolve(options.appId, TypeKey(platformType), mixin, page.metas))
      ensures page.showing == (old(page.showing) || outcome.Rendered?)
    {
      var t := platformType;
      var reason := Gate(t, agent, standalone, jar.cookies, now, options.instanceId);
      if reason.Some? {
        outcome := Suppressed(reason.value);
      } else {
        assert t.Some?;
        ghost var created := Create(options, t.value, page.metas, page.links);
        assert Decide(options, agent, standalone, jar.cookies, now, page.metas, page.links) == created;
        Mount();
      }
    }

    /** The rest of the constructor once the suppression chain has passed: copies
        the table entry in, resolves the app id and, when it is non-empty, creates
        the banner and shows it. */
    method Mount()
      requires platformType.Some?
      modifies this`mixin, this`appId, this`outcome, page
      ensures mixin == MixinFor(platformType.value)
      ensures appId == (if AppId.Resolve(options.appId, platformType.value, mixin, page.metas).Found?
                        then Some(AppId.Resolve(options.appId, platformType.value, mixin, page.metas).id)
                        else old(appId))
      ensures outcome == Create(options, platformType.value, page.metas, page.links)
      ensures page.showing == (old(page.showing) || outcome.Rendered?)
    {
      mixin := MixinFor(platformType.value);
      var r := ParseAppId();
      if r.Malformed? {
        outcome := Threw(MalformedMeta);
      } else if r.NoMeta? || r.id == "" {
        outcome := NoAppId;
      } else if mixin.None? {
        outcome := Threw(NoMixin);
      } else {
        var icon := FindIcon(options.icon, mixin.value.iconRels, page.links);
        var link := StoreLink(mixin.value.platform, options.appStoreLanguage, r.id);
        outcome := Rendered(Params(icon, link, Config.InStore(options, platformType.value), options));
        page.showing := true;
      }
    }

    /** `parseAppId()`: assigns and returns the resolved id; leaves `appId` as it
        was when no metadata entry exists or when the extraction throws. */
    method ParseAppId() returns (r: AppId.Resolution)
      modifies this`appId
      ensures r == AppId.Resolve(options.appId, TypeKey(platformType), mixin, page.metas)
      ensures appId == (if r.Found? then Some(r.id) else old(appId))
    {
      r := AppId.Resolve(options.appId, TypeKey(platformType), mixin, page.metas);
      if r.Found? {
        appId := Some(r.id);
      }
    }

    /** `close()`: hides the banner and writes this instance's "closed" record,
        valid for `daysHidden` days from `now`; every other record is kept. */
    method Close(now: int)
      modifies page, jar
      ensures !page.showing
      ensures jar.cookies == old(jar.cookies)[ClosedKey(options.instanceId) := Flag(now, options.daysHidden)]
    {
      page.showing := false;
      jar.Set(ClosedKey(options.instanceId), "true", "/", now + options.daysHidden * DayMs);
    }

    /** `install()`: hides the banner and writes the global "installed" record,
        valid for `daysReminder` days from `now`; every other record is kept. */
    method Install(now: int)
      modifies page, jar
      ensures !page.showing
      ensures jar.cookies == old(jar.cookies)[InstalledKey := Flag(now, options.daysReminder)]
    {
      page.showing := false;
      jar.Set(InstalledKey, "true", "/", now + options.daysReminder * DayMs);
    }
  }
}
