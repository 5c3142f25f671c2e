/** The banner's options: the built-in defaults, the caller's overrides and the
    shallow merge that combines them. */
module Config {
  import opened Js

  /** The resolved options the banner reads. The per-platform records `store`,
      `price` and `appId` are dictionaries keyed by platform type; a key that is
      missing reads as undefined. */
  datatype Options = Options(
    daysHidden: int,
    daysReminder: int,
    appStoreLanguage: string,
    button: string,
    store: map<string, string>,
    price: map<string, string>,
    theme: string,
    icon: string,
    force: string,
    instanceId: string,
    appId: map<string, string>)

  /** The caller's options object: None for a key the caller does not supply. */
  datatype Overrides = Overrides(
    daysHidden: Option<int>,
    daysReminder: Option<int>,
    appStoreLanguage: Option<string>,
    button: Option<string>,
    store: Option<map<string, string>>,
    price: Option<map<string, string>>,
    theme: Option<string>,
    icon: Option<string>,
    force: Option<string>,
    instanceId: Option<string>,
    appId: Option<map<string, string>>)

  /** No options object at all (`options || {}`). */
  const NoOverrides := Overrides(None, None, None, None, None, None, None, None, None, None, None)

  /** The language code derived from the browser's language attribute: its last
      two characters, or "us" when that is empty. */
  function UserLang(languageAttribute: string): (lang: string)
    ensures languageAttribute == "" ==> lang == "us"
    ensures languageAttribute != "" ==>
              |lang| == (if |languageAttribute| < 2 then |languageAttribute| else 2)
              && lang == languageAttribute[|languageAttribute| - |lang|..]
  {
    var tail := if |languageAttribute| < 2 then languageAttribute
                else languageAttribute[|languageAttribute| - 2..];
    if tail == "" then "us" else tail
  }

  /** The built-in defaults; `appStoreLanguage` defaults to the user's language. */
  function Defaults(userLang: string): Options {
    Options(
      15,
      90,
      userLang,
      "OPEN",
      map["ios" := "On the App Store", "android" := "In Google Play", "windows" := "In the Windows Store"],
      map["ios" := "FREE", "android" := "FREE", "windows" := "FREE"],
      "",
      "",
      "",
      "0",
      map[])
  }

  /** The shallow merge of the caller's options over the defaults: every key the
      caller supplies replaces the default value whole, nested records included. */
  function Merge(userLang: string, o: Overrides): (r: Options)
    ensures var d := Defaults(userLang);
      && r.daysHidden == (if o.daysHidden.Some? then o.daysHidden.value else d.daysHidden)
      && r.daysReminder == (if o.daysReminder.Some? then o.daysReminder.value else d.daysReminder)
      && r.appStoreLanguage == (if o.appStoreLanguage.Some? then o.appStoreLanguage.value else d.appStoreLanguage)
      && r.button == (if o.button.Some? then o.button.value else d.button)
      && r.store == (if o.store.Some? then o.store.value else d.store)
      && r.price == (if o.price.Some? then o.price.value else d.price)
      && r.theme == (if o.theme.Some? then o.theme.value else d.theme)
      && r.icon == (if o.icon.Some? then o.icon.value else d.icon)
      && r.force == (if o.force.Some? then o.force.value else d.force)
      && r.instanceId == (if o.instanceId.Some? then o.instanceId.value else d.instanceId)
      && r.appId == (if o.appId.Some? then o.appId.value else d.appId)
  {
    var d := Defaults(userLang);
    Options(
      o.daysHidden.GetOr(d.daysHidden),
      o.daysReminder.GetOr(d.daysReminder),
      o.appStoreLanguage.GetOr(d.appStoreLanguage),
      o.button.GetOr(d.button),
      o.store.GetOr(d.store),
      o.price.GetOr(d.price),
      o.theme.GetOr(d.theme),
      o.icon.GetOr(d.icon),
      o.force.GetOr(d.force),
      o.instanceId.GetOr(d.instanceId),
      o.appId.GetOr(d.appId))
  }

  /** The display string `price[type] + ' - ' + store[type]`. */
  function InStore(o: Options, t: string): string {
    Show(o.price, t) + " - " + Show(o.store, t)
  }

  /** Without caller options the banner hides for 15 days after a close, 90 days
      after an install click, is instance "0", labels its button "OPEN", has no
      explicit app id, icon or forced type, and links to the user's language. */
  lemma DefaultsWithoutOptions(userLang: string)
    ensures var r := Merge(userLang, NoOverrides);
      && r == Defaults(userLang)
      && r.daysHidden == 15 && r.daysReminder == 90 && r.instanceId == "0" && r.button == "OPEN"
      && r.appId == map[] && r.icon == "" && r.force == "" && r.appStoreLanguage == userLang
  {
    var r := Merge(userLang, NoOverrides);
    var d := Defaults(userLang);
    assert r.store == d.store && r.price == d.price && r.appId == d.appId;
  }

  /** The stock display string per platform: the price, " - ", the store name. */
  lemma DefaultDisplayStrings(userLang: string)
    ensures InStore(Defaults(userLang), "ios") == "FREE - On the App Store"
    ensures InStore(Defaults(userLang), "android") == "FREE - In Google Play"
    ensures InStore(Defaults(userLang), "windows") == "FREE - In the Windows Store"
  {
    DisplayIos(userLang);
    DisplayAndroid(userLang);
    DisplayWindows(userLang);
  }

  lemma DisplayIos(userLang: string)
    ensures InStore(Defaults(userLang), "ios") == "FREE - On the App Store"
  {
    var d := Defaults(userLang);
    assert Show(d.price, "ios") == "FREE";
    assert Show(d.store, "ios") == "On the App Store";
  }

  lemma DisplayAndroid(userLang: string)
    ensures InStore(Defaults(userLang), "android") == "FREE - In Google Play"
  {
    var d := Defaults(userLang);
    assert Show(d.price, "android") == "FREE";
    assert Show(d.store, "android") == "In Google Play";
  }

  lemma DisplayWindows(userLang: string)
    ensures InStore(Defaults(userLang), "windows") == "FREE - In the Windows Store"
  {
    var d := Defaults(userLang);
    assert Show(d.price, "windows") == "FREE";
    assert Show(d.store, "windows") == "In the Windows Store";
  }

  /** The display string of any platform after the merge: a platform the caller's
      `store` record leaves out reads "undefined" whatever the stock record says,
      and caller records holding the platform give their two entries. */
  lemma InStoreAfterMerge(userLang: string, o: Overrides, t: string)
    ensures o.store.Some? && t !in o.store.value ==>
              InStore(Merge(userLang, o), t) == Show(Merge(userLang, o).price, t) + " - undefined"
    ensures o.store.Some? && t in o.store.value && o.price.Some? && t in o.price.value ==>
              InStore(Merge(userLang, o), t) == o.price.value[t] + " - " + o.store.value[t]
    ensures o.store.None? && o.price.None? ==> InStore(Merge(userLang, o), t) == InStore(Defaults(userLang), t)
  {
  }

  /** The stock display strings: a platform of the stock records reads "FREE - "
      and its store name, any other type "undefined - undefined". */
  lemma InStoreStock(userLang: string, t: string)
    ensures t in Defaults(userLang).store ==>
              InStore(Defaults(userLang), t) == "FREE - " + Defaults(userLang).store[t]
    ensures t !in Defaults(userLang).store ==> InStore(Defaults(userLang), t) == "undefined - undefined"
  {
    var d := Defaults(userLang);
    if t == "ios" {
      DisplayIos(userLang);
    } else if t == "android" {
      DisplayAndroid(userLang);
    } else if t == "windows" {
      DisplayWindows(userLang);
    } else {
      assert t !in d.store && t !in d.price;
    }
  }

  /** The merge is shallow: a caller who supplies `store` only for "ios" loses the
      stock entries of the other platforms, whose display string then reads
      "FREE - undefined". */
  lemma ShallowMergeReplacesRecords(userLang: string, iosStore: string)
    ensures var r := Merge(userLang, NoOverrides.(store := Some(map["ios" := iosStore])));
      && r.store == map["ios" := iosStore]
      && InStore(r, "ios") == "FREE - " + iosStore
      && InStore(r, "android") == "FREE - undefined"
  {
    var r := Merge(userLang, NoOverrides.(store := Some(map["ios" := iosStore])));
    assert "android" !in r.store;
  }
}
