/** The per-platform capability table: the metadata name that carries the app id,
    the ordered icon relations to fall back on, and the store-link template. */
module Mixins {
  import opened Js

  datatype Platform = Ios | Android | Windows

  datatype Mixin = Mixin(platform: Platform, appMeta: string, iconRels: seq<string>)

  /** The table, keyed by platform type. */
  const Table: map<string, Mixin> := map[
    "ios" := Mixin(Ios, "apple-itunes-app", ["apple-touch-icon-precomposed", "apple-touch-icon"]),
    "android" := Mixin(Android, "google-play-app",
                       ["android-touch-icon", "apple-touch-icon-precomposed", "apple-touch-icon"]),
    "windows" := Mixin(Windows, "msApplication-ID",
                       ["windows-touch-icon", "apple-touch-icon-precomposed", "apple-touch-icon"])
  ]

  /** The platform type under which a platform's entry is filed. */
  function Key(p: Platform): string {
    match p
    case Ios => "ios"
    case Android => "android"
    case Windows => "windows"
  }

  /** `mixins[type]`: undefined for a type the table does not know. */
  function MixinFor(t: string): (m: Option<Mixin>)
    ensures m.Some? <==> t == "ios" || t == "android" || t == "windows"
    ensures m.Some? ==> Key(m.value.platform) == t
    ensures m.Some? ==> |m.value.iconRels| >= 2
    ensures m.Some? ==> m.value.iconRels[|m.value.iconRels| - 2..] == ["apple-touch-icon-precomposed", "apple-touch-icon"]
  {
    if t in Table then Some(Table[t]) else None
  }

  /** Every platform's entry is found under its key, and the three metadata names differ. */
  lemma MetaNamesDistinct(p: Platform, q: Platform)
    ensures MixinFor(Key(p)) == Some(Table[Key(p)]) && Table[Key(p)].platform == p
    ensures p != q ==> Table[Key(p)].appMeta != Table[Key(q)].appMeta
  {
  }

  /** The part of the store link in front of the app id. */
  function LinkPrefix(p: Platform, appStoreLanguage: string): string {
    match p
    case Ios => "https://itunes.apple.com/" + appStoreLanguage + "/app/id"
    case Android => "http://play.google.com/store/apps/details?id="
    case Windows => "http://www.windowsphone.com/s?appid="
  }

  /** `getStoreLink()`: the store page of the app for the platform. */
  function StoreLink(p: Platform, appStoreLanguage: string, appId: string): string {
    LinkPrefix(p, appStoreLanguage) + appId
  }

  /** Reads the app id back out of a store link; None for a link of another shape. */
  function AppIdOfLink(p: Platform, appStoreLanguage: string, link: string): (r: Option<string>)
    ensures r.Some? ==> StoreLink(p, appStoreLanguage, r.value) == link
  {
    var prefix := LinkPrefix(p, appStoreLanguage);
    if |prefix| <= |link| && link[..|prefix|] == prefix then Some(link[|prefix|..]) else None
  }

  /** The store link carries the app id unchanged: it can be read back. */
  lemma {:induction false} StoreLinkRoundTrip(p: Platform, appStoreLanguage: string, appId: string)
    ensures AppIdOfLink(p, appStoreLanguage, StoreLink(p, appStoreLanguage, appId)) == Some(appId)
  {
    var prefix := LinkPrefix(p, appStoreLanguage);
    var link := prefix + appId;
    assert link[..|prefix|] == prefix;
    assert link[|prefix|..] == appId;
  }

  /** Links of different platforms never coincide, whatever the ids and language. */
  lemma StoreLinksDistinct(p: Platform, q: Platform, lang: string, a: string, b: string)
    requires p != q
    ensures StoreLink(p, lang, a) != StoreLink(q, lang, b)
  {
    var x, y := StoreLink(p, lang, a), StoreLink(q, lang, b);
    // "https:" against "http:/", and "http://p" against "http://w"
    var i := if p == Ios || q == Ios then 4 else 7;
    assert LinkPrefix(p, lang)[i] != LinkPrefix(q, lang)[i];
    PrefixChar(p, lang, a, i);
    PrefixChar(q, lang, b, i);
  }

  /** The first eight characters of a store link are those of its prefix. */
  lemma PrefixChar(p: Platform, lang: string, a: string, i: nat)
    requires i < 8
    ensures i < |LinkPrefix(p, lang)| && StoreLink(p, lang, a)[i] == LinkPrefix(p, lang)[i]
  {
  }
}
