# smart-app-banner in Dafny

A model of the decision core of the smart-app-banner browser library
(`index.js`). Constructing a banner happens in these steps:

1. Merge the caller's options over the built-in defaults.
2. Pick the platform type (`ios`, `android`, `windows`, or a forced one).
3. Run the suppression chain:
   - no type;
   - Mobile Safari on iOS 6 or later, which has its own banner;
   - standalone mode;
   - this instance's "closed" cookie;
   - the global "installed" cookie.
4. Copy the platform's table entry into the instance.
5. Resolve the app id, either from an explicit option or from the page's
   metadata through the pattern `app-id=([^\s,]+)`.
6. Build the template parameters: icon, store link, display string and
   button label.
7. Show the banner.

The two user actions are modelled too. `close` hides the banner and writes
this instance's "closed" cookie, valid for `daysHidden` days. `install`
hides it and writes the global "installed" cookie, valid for
`daysReminder` days.

Modules:

- `Js` holds the JavaScript built-ins the logic depends on:
  - `undefined` as `Option`;
  - the `\s` class;
  - `parseInt` without a radix: leading white space, one sign, a `0x`
    prefix, the longest digit run, NaN as `None`.
- `Platform` holds the user-agent fields read and the type selection.
- `Mixins` holds the per-platform table and the store links.
- `Config` holds the options, the defaults, the shallow merge and the
  language code.
- `AppId` holds the pattern search and `parseAppId`.
- `Cookies` holds the cookie store (a `CookieJar` class whose map the
  `set` call updates) and the two record names.
- `Eligibility` holds the suppression chain.
- `Icon` holds the icon lookup loop and the template parameters.
- `Banner` holds:
  - the whole decision as a function, `Decide`;
  - the `SmartBanner` class, whose constructor, `parseAppId`, `close` and
    `install` update its fields and the shared `Page` and `CookieJar`
    objects;
  - the lemmas that tie cookies written by `close` and `install` to later
    decisions.
- `Scenarios` holds concrete devices and pages run through the decision.

The environment becomes parameters:

- the user agent becomes an `Agent` value;
- `navigator.standalone` becomes a boolean;
- the clock becomes `now`, in milliseconds;
- the language attribute becomes a string;
- the page's `meta[name]` contents and `link[rel]` hrefs become maps;
- whether the document element carries the "show" class becomes
  `Page.showing`.

A thrown `TypeError` is the outcome `Threw`. This happens when the
metadata does not match the pattern, or when a forced type with no table
entry gets an id.

The model follows the code as written, with one exception (the last bullet):

- The merge is a single shallow `extend`. A caller's `store`, `price` or
  `appId` record replaces the default record whole. It is not merged key
  by key (`Config.ShallowMergeReplacesRecords`).
- `close` and `install` have no guard. Every call hides the banner again
  and rewrites its cookie with a new expiry. There is no "dismissed" state
  besides the cookie itself.
- Malformed ios/android metadata makes the constructor throw. It is not
  treated softly.
- The template parameters as the code builds them carry the `icon` option,
  never the icon found on the page (`Icon.ParamsAsWritten`). This is logged
  under Findings, and the decision (`Banner.Decide`, and the constructor
  through it) is built on the corrected parameters `Icon.Params`; see the
  lines on those members under "Left out".

## Model

| member | source | states |
|---|---|---|
| Js.IsSpace | index.js:85 | no contract; the `\s` class shared by `parseInt`'s trimming and the pattern at index.js:206; see `Js.TrimStart` and `AppId.TokenRun` |
| Js.Show | index.js:150 | no contract; a missing record key converts to "undefined"; see `Config.InStoreAfterMerge` and `Config.ShallowMergeReplacesRecords` |
| Js.ParseInt | index.js:85 | no contract; see `Js.ParseIntLeadingDigits`, `Js.ParseIntUnsigned`, `Js.ParseIntNaN`, `Js.ParseIntSigned` |
| Js.TrimStart | index.js:85 | the result is a suffix of the input, every dropped character is white space, and the result does not start with white space |
| Js.DigitRun | index.js:85 | the result is the longest prefix made only of digits of the radix: it is a prefix, all its characters are digits, and the next character is not one |
| Js.ParseIntLeadingDigits | index.js:85 | `parseInt` of a run of decimal digits followed by a non-digit (such as "7.0.1") is the decimal value of that run, except a lone "0" followed by "x" or "X", which starts a hexadecimal number |
| Js.ParseIntUnsigned | index.js:85 | without leading white space or a sign, `parseInt` is exactly the unsigned digit reading |
| Js.ParseIntNaN | index.js:85 | a string whose first non-space character is neither a digit nor a sign parses to NaN |
| Js.ParseIntSigned | index.js:85 | a leading '-' negates the number the digits denote, '+' keeps it, and a sign without digits is NaN |
| Platform.Classify | index.js:69-77 | a non-empty `force` wins; otherwise the type is windows exactly for "Windows Phone"/"Windows Mobile", ios exactly for "iOS", android exactly for "Android", and unset exactly for every other OS name; the type is never the empty string |
| Mixins.MixinFor | index.js:13-35 | an entry exists exactly for ios, android and windows; it is filed under its own platform's key; its icon relations end with the two apple-touch-icon relations |
| Mixins.Table | index.js:13-35 | no contract; the per-platform table: metadata name, ordered icon relations and platform; see `Mixins.MixinFor` and `Mixins.MetaNamesDistinct` |
| Mixins.MetaNamesDistinct | index.js:15-29 | every platform's entry is found under its key, and the three metadata names differ |
| Mixins.StoreLink | index.js:17-33 | no contract; see `Mixins.StoreLinkRoundTrip` and `Mixins.StoreLinksDistinct` |
| Mixins.AppIdOfLink | index.js:17-33 | whenever an id is read back from a link, the store link of that id is exactly that link |
| Mixins.StoreLinkRoundTrip | index.js:17-33 | the store link built for an id always yields that id back: the id is carried unchanged |
| Mixins.StoreLinksDistinct | index.js:17-33 | store links of two different platforms never coincide, whatever the ids |
| Config.UserLang | index.js:10 | the language code is the last two characters of the language attribute (all of it when shorter), and "us" when the attribute is empty |
| Config.Merge | index.js:39-67 | for every option, a value the caller supplies replaces the default whole, and a key the caller leaves out keeps the default |
| Config.Defaults | index.js:39-67 | no contract; see `Config.DefaultsWithoutOptions` and `Config.DefaultDisplayStrings` |
| Config.InStore | index.js:150 | no contract; see `Config.InStoreAfterMerge`, `Config.InStoreStock`, `Config.DefaultDisplayStrings` and `Config.ShallowMergeReplacesRecords` |
| Config.DefaultsWithoutOptions | index.js:39-67 | without caller options: 15 days hidden, 90 days reminder, instance "0", button "OPEN", no explicit id, no icon, no forced type, store language = user language |
| Config.DefaultDisplayStrings | index.js:44-53 | with the stock records the display strings are "FREE - On the App Store", "FREE - In Google Play" and "FREE - In the Windows Store" |
| Config.InStoreAfterMerge | index.js:39-67 | after the merge, a platform missing from the caller's `store` record reads "undefined"; caller records holding the platform give their two entries joined by " - "; without caller records the stock string is used |
| Config.InStoreStock | index.js:44-53 | with the stock records, ios, android and windows read "FREE - " and their stock store name, and any other type reads "undefined - undefined" |
| Config.ShallowMergeReplacesRecords | index.js:39-67 | a caller `store` record for ios only replaces the whole record, so android's display string becomes "FREE - undefined" |
| AppId.TokenRun | index.js:206 | the capture is the longest prefix of characters other than white space and comma |
| AppId.FirstMatch | index.js:206 | the result is the leftmost position at or after the start where the marker is followed by a token character; None exactly when there is none |
| AppId.Extract | index.js:206 | `exec` yields null exactly when the pattern matches nowhere; otherwise the capture is the token run behind the leftmost match |
| AppId.ExtractedToken | index.js:206 | an extracted id is non-empty, has no white space or comma, stands right behind a marker in the content, and ends at a delimiter or at the end |
| AppId.ExtractLeadingMarker | index.js:206 | content that starts with the marker yields the whole run of token characters behind it, when that run is non-empty |
| AppId.ExtractExample | index.js:206 | "app-id=com.example.app,other=1" yields "com.example.app" |
| AppId.ExtractSearchesOn | index.js:206 | the pattern is searched, not anchored: "app-id=, app-id=xyz" yields "xyz" |
| AppId.MetaName | index.js:198 | no contract; the metadata name of the copied table entry, "undefined" when no entry was copied in; see `AppId.Resolve` |
| AppId.Resolve | index.js:193-210 | an explicit id for the type wins; otherwise no metadata entry gives undefined; windows takes the content verbatim; ios/android throw exactly when the pattern does not match and otherwise take the capture |
| AppId.ExplicitIdIgnoresMetadata | index.js:194-197 | with an explicit id the page's metadata makes no difference |
| AppId.ResolvedTokenNonEmpty | index.js:203-207 | an id taken from ios/android metadata is never empty |
| Cookies.ClosedKey | index.js:87 | no contract; the name "smartbanner-closed-" followed by the instance id; see `Cookies.ClosedKeyInjective` and `Cookies.ClosedKeyIsNotInstalled` |
| Cookies.ClosedKeyInjective | index.js:87 | two instances share a "closed" record only if their ids are equal |
| Cookies.ClosedKeyIsNotInstalled | index.js:87-88 | no instance's "closed" record name is the "installed" record name |
| Cookies.Get | index.js:87-88 | no contract; see `Cookies.FlagLifetime` and `Cookies.WriteIsolated` |
| Cookies.Present | index.js:87-88 | no contract; see `Cookies.FlagLifetime` and `Cookies.WriteIsolated` |
| Cookies.Flag | index.js:181-191 | no contract; see `Cookies.FlagLifetime` |
| Cookies.FlagLifetime | index.js:181-191 | a record written at `now` for `days` days is seen exactly before `now + days * 86400000` |
| Cookies.WriteIsolated | index.js:181-191 | writing one record changes what no other name reads |
| Cookies.CookieJar.Set | index.js:181-184 | the store afterwards is the old store with the named record replaced and nothing else changed |
| Eligibility.HasNativeBanner | index.js:85 | no contract; see `Eligibility.NativeBannerOnIos7` and `Eligibility.NoNativeBannerOnIos5` |
| Eligibility.Gate | index.js:84-88 | no contract; see `Eligibility.OtherInstanceClosed` and `Eligibility.InstalledSuppressesEveryInstance` |
| Eligibility.FirstSuppression | index.js:84-90 | each suppression reason is reported exactly when its condition holds and no earlier condition does; the banner goes on exactly when none holds |
| Eligibility.OtherInstanceClosed | index.js:87 | another instance's "closed" record does not change this instance's verdict |
| Eligibility.InstalledSuppressesEveryInstance | index.js:88 | a live "installed" record suppresses every instance whatever its id |
| Eligibility.NativeBannerOnIos7 | index.js:85 | Mobile Safari on iOS "7.0" is suppressed for its native banner whatever the cookies and standalone mode |
| Eligibility.NoNativeBannerOnIos5 | index.js:85 | Mobile Safari on iOS "5.1.1" has no native banner |
| Icon.FirstIcon | index.js:137-144 | None exactly when no relation of the list is on the page |
| Icon.FirstIconAt | index.js:137-144 | the first relation present on the page gives the icon, whatever follows it |
| Icon.IconFor | index.js:134-145 | no contract; see `Icon.FindIcon` and `Icon.FirstIconAt` |
| Icon.FindIcon | index.js:134-145 | the loop returns the `icon` option when it is non-empty, otherwise the href of the first relation present, otherwise nothing |
| Icon.ParamsAsWritten | index.js:147-151 | no contract; see `Icon.ParamsAsWrittenDropsPageIcon` |
| Icon.Params | index.js:147-151 | no contract; the corrected parameters, see `Icon.ParamsUsePageIcon` |
| Icon.ParamsAsWrittenDropsPageIcon | index.js:147-151 | as written, without an `icon` option the template always gets the empty icon, even when the page provides one |
| Icon.ParamsUsePageIcon | index.js:132-151 | with the computed icon kept, an `icon` option is used as given and without one the page's first icon relation is used |
| Banner.TypeKey | index.js:194 | no contract; `this.type` used as a record key, "undefined" when the type is unset; see `Banner.SmartBanner.ParseAppId` |
| Banner.Decide | index.js:37-101 | no contract; see `Banner.RenderedIff`, `Banner.OtherInstanceCloseIgnored`, `Banner.ClosedSuppressesUntilExpiry`, `Banner.ClosedExpires`, `Banner.InstalledSuppressesEveryone`, `Banner.DecideSplits` |
| Banner.DecideSplits | index.js:84-100 | the decision is a suppression exactly when the chain reports a reason, and then that reason; otherwise it is `Banner.Create` for the selected type, and it throws for malformed metadata exactly when the pattern fails |
| Banner.Create | index.js:92-100 | after a passed suppression chain the outcome is never a suppression; see `Banner.CreateOutcomes` for which outcome each resolution gives |
| Banner.CreateOutcomes | index.js:92-100 | creating the banner throws for malformed metadata exactly when the pattern fails (index.js:206), throws for a missing table entry exactly when a non-empty id resolved for such a type, ends without a banner exactly when no metadata entry exists or the id is empty, and renders exactly when a non-empty id resolved for a type with a table entry |
| Banner.RenderView | index.js:147-151 | no contract; the corrected template parameters (see Left out); see `Banner.RenderedIff` for its link |
| Banner.RenderedIff | index.js:84-100 | a banner is created exactly when no suppression condition holds, the type has a table entry, and a non-empty id resolves; its link is then that platform's store link for that id |
| Banner.OtherInstanceCloseIgnored | index.js:87 | another instance's "closed" record changes nothing about this instance's outcome |
| Banner.ClosedSuppressesUntilExpiry | index.js:177-185 | after `close` at `t0`, the instance stays suppressed at every time before `t0 + daysHidden` days |
| Banner.ClosedExpires | index.js:181-184 | once expired, the "closed" record is as good as absent |
| Banner.InstalledSuppressesEveryone | index.js:186-192 | after `install`, every instance stays suppressed until the record expires |
| Banner.Page.constructor | index.js:171-176 | a page holds the given metadata entries (for the `meta[name]` lookup, index.js:198) and icon links (for the `link[rel]` lookup, index.js:138) and starts without the class that shows a banner |
| Banner.SmartBanner.constructor | index.js:37-101 | the options are the merge over the defaults for the language code `UserLang` derives from the language attribute, the type is the classification, and the outcome is `Decide` of the cookie store and page; a suppressed instance copies no table entry and no id; otherwise the entry is copied in and the id assigned; the banner shows exactly when created |
| Banner.SmartBanner.Start | index.js:84-100 | the suppression chain returns early with its reason or hands on to mounting; the outcome equals `Decide` |
| Banner.SmartBanner.Mount | index.js:92-100 | copies the table entry in, assigns the resolved id, takes the outcome `Create` computes, and shows the banner exactly when rendered |
| Banner.SmartBanner.ParseAppId | index.js:193-210 | returns the resolution and assigns `appId` only when an id was found, leaving it untouched otherwise |
| Banner.SmartBanner.Close | index.js:177-185 | hides the banner and writes this instance's "closed" record for `daysHidden` days; other records are kept |
| Banner.SmartBanner.Install | index.js:186-192 | hides the banner and writes the global "installed" record for `daysReminder` days; other records are kept |
| Scenarios.NativeBannerWins | index.js:84-90 | an iPhone on iOS 7 with Mobile Safari is suppressed even with an explicit id |
| Scenarios.AndroidWithoutId | index.js:193-201 | on Android without an explicit id or metadata entry, no banner is created |
| Scenarios.AndroidFromMetadata | index.js:92-100 | Android with the metadata "app-id=com.example.app,other=1" renders the Google Play link for that id, "FREE - In Google Play" and "OPEN" |
| Scenarios.WindowsEmptyContent | index.js:203-204 | a windows metadata entry with empty content gives a falsy id: no banner |
| Scenarios.IosMalformedMetadata | index.js:206 | ios metadata "app-id=" with nothing behind the marker makes the constructor throw |
| Scenarios.ForcedAndroidOnIphone | index.js:69-90 | `force: 'android'` on an iPhone skips the native-banner case and renders from the android metadata |
| Scenarios.HiddenAfterClose | index.js:181-184 | with default options, a close at `t0` hides the banner on every later visit within 15 days |
| Scenarios.ShownAgainAfterExpiry | index.js:183 | with default options, the banner is shown again on a visit 15 days or more after the close |
| Scenarios.PageIconLost | index.js:134-151 | on an iPhone page with an apple-touch-icon link and no `icon` option, the lookup finds the link, but the parameters as written carry "" |
| Scenarios.CloseThenReload | index.js:37-101 | on a fresh Android page the first default instance renders; after its close the store holds exactly the 15-day "closed" record for instance "0", and a second instance a day later is suppressed by it with the page hidden |
| Scenarios.Visit | index.js:37-101 | when the decision for the default options renders, a new instance is created with those options, its outcome is a rendered banner, and the page shows it |
| Scenarios.ShowAndClose | index.js:177-185 | on an Android page with the metadata and no cookies, the first instance renders, and its close hides it and leaves exactly the "closed" record for instance "0" valid for 15 days |
| Scenarios.Reload | index.js:84-90 | a new default instance created within 15 days of that close is suppressed by the "closed" record, and the page's visibility is not changed |

## Left out

- DOM construction is not modelled: the `div`, `innerHTML`, the append to
  the body, the `DOMContentLoaded` deferral, the click listeners, and
  `className` with `theme` and `addContainerClassName`. A created banner
  is represented by its template parameters (`Icon.View`) and
  `Page.showing`.
- `getDefaultHtml` string templating, and the `title` and `author`
  parameters, are not modelled.
- A custom `getHtml` that returns markup without a button or close
  element (which makes `create` throw) is not modelled.
- The `closeCallback` and `postRender` hooks are not modelled: they call
  caller code that cannot be seen. The `getHtml` option is not modelled
  either.
- ua-parser-js is not part of this model. Its output is the `Agent`
  parameter, and an undefined field is "".
- cookie-cutter is not part of this model. Name and value escaping,
  cookie-string parsing, and duplicate names are left out. The store is a
  map from name to record, and a record is seen while `now` is before its
  expiry.
- The clock and `Date` are not modelled. Times are the integer
  millisecond parameter `now`. Invalid dates and the browser's rounding of
  expiry times are left out.
- Reading `navigator.language`, `userLanguage` and `browserLanguage` is
  not modelled. The constructor takes the attribute's value and derives the language code with `Config.UserLang`. Strings are
  sequences of code points, not UTF-16 code units, so `slice(-2)` on
  astral characters is not modelled.
- JavaScript numbers are not modelled. `daysHidden` and `daysReminder`
  are unbounded integers, so fractional days and NaN are left out.
  `parseInt` is exact, so float rounding beyond 2^53 is left out.
- Options are typed values. An explicit `undefined` or a value of the
  wrong type is not modelled.
- Keys inherited through the prototype are not modelled.
- Option keys unknown to the model (such as `title`) are dropped rather
  than copied into the template parameters.
- A metadata element without a `content` attribute (where `getAttribute`
  returns null) is not modelled, and neither is an icon link without
  `href`.
- Only the first matching metadata or link element counts, as with
  `querySelector`. The maps hold one entry per name.
- Banner.Decide: a rendered outcome carries the corrected parameters
  (`Icon.Params`), so its icon is the `icon` option or else the page's first
  icon relation; the code as written hands the template `options.icon`
  (`""` by default) instead, as `Icon.ParamsAsWrittenDropsPageIcon` states.
- Banner.RenderView: builds the corrected parameters, for the same reason
  as `Banner.Decide`.
- Banner.SmartBanner.Mount: records the corrected parameters in `outcome`,
  for the same reason as `Banner.Decide`; its icon lookup loop is the
  code's.
- Banner.SmartBanner.constructor: its `outcome` is `Banner.Decide`, so it
  carries the corrected icon as well.
- Scenarios.AndroidFromMetadata: expects the icon None, the corrected
  behaviour; the code as written hands the template `""` there.
- `Banner.SmartBanner.constructor`: when created, the banner's DOM node
  and listeners are not modelled. The ghost field `outcome` records what
  was created.

## Findings

| source | as written | input that shows it | evidently intended | confidence | as-written member | corrected member |
|---|---|---|---|---|---|---|
| index.js:147-151 | `extend({icon, link, inStore}, this.options, {})` copies every option over the computed parameters. `options.icon` is always an own key (default `''`), so the icon found on the page is overwritten | an iOS page with `<link rel="apple-touch-icon" href="/touch.png">` and no `icon` option: the lookup finds "/touch.png", but the template gets "" (`Scenarios.PageIconLost`) | the `icon` option is documented as an override for when the site's own icon is not wanted, so without it the page's icon should reach the template | not executed | Icon.ParamsAsWrittenDropsPageIcon | Icon.ParamsUsePageIcon |
