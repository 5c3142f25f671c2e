/** Resolution of the store identifier of the app: an explicit per-platform id,
    else the content of the platform's metadata entry, from which ios and android
    extract the `app-id=` token with the pattern `/app-id=([^\s,]+)/`. */
module AppId {
  import opened Js
  import opened Mixins

  const Marker := "app-id="

  /** A character the capture group `[^\s,]` accepts. */
  predicate IsTokenChar(c: char) { !IsSpace(c) && c != ',' }

  /** The pattern matches at `i`: the marker starts there and at least one token
      character follows it. */
  predicate MatchesAt(s: string, i: nat) {
    i + |Marker| < |s| && s[i..i + |Marker|] == Marker && IsTokenChar(s[i + |Marker|])
  }

  /** The greedy run of token characters at the start of `s`. */
  function TokenRun(s: string): (r: string)
    ensures |r| <= |s| && r == s[..|r|]
    ensures forall k :: 0 <= k < |r| ==> IsTokenChar(r[k])
    ensures |r| < |s| ==> !IsTokenChar(s[|r|])
  {
    if |s| > 0 && IsTokenChar(s[0]) then [s[0]] + TokenRun(s[1..]) else ""
  }

  /** The leftmost position at or after `i` where the pattern matches. */
  function FirstMatch(s: string, i: nat): (r: Option<nat>)
    decreases |s| - i
    ensures r.Some? ==> i <= r.value && MatchesAt(s, r.value)
    ensures r.Some? ==> forall k :: i <= k < r.value ==> !MatchesAt(s, k)
    ensures r.None? ==> forall k :: i <= k ==> !MatchesAt(s, k)
  {
    if |s| <= i then None
    else if MatchesAt(s, i) then Some(i)
    else FirstMatch(s, i + 1)
  }

  /** `/app-id=([^\s,]+)/.exec(content)[1]`; None where `exec` yields null. */
  function Extract(content: string): (r: Option<string>)
    ensures r.None? <==> forall k :: 0 <= k ==> !MatchesAt(content, k)
    ensures r.Some? ==> exists i: nat :: MatchesAt(content, i)
                          && (forall k :: 0 <= k < i ==> !MatchesAt(content, k))
                          && r.value == TokenRun(content[i + |Marker|..])
  {
    match FirstMatch(content, 0)
    case None => None
    case Some(i) => Some(TokenRun(content[i + |Marker|..]))
  }

  /** What an extracted id looks like: non-empty, free of white space and commas,
      and standing in the content right behind the marker at `i`, followed by a
      delimiter or the end of the content. */
  lemma ExtractedToken(content: string) returns (i: nat)
    requires Extract(content).Some?
    ensures var id := Extract(content).value;
      && |id| > 0
      && (forall k :: 0 <= k < |id| ==> IsTokenChar(id[k]))
      && i + |Marker| + |id| <= |content|
      && content[i..i + |Marker|] == Marker
      && content[i + |Marker|..i + |Marker| + |id|] == id
      && (i + |Marker| + |id| < |content| ==> !IsTokenChar(content[i + |Marker| + |id|]))
  {
    i := FirstMatch(content, 0).value;
    var rest := content[i + |Marker|..];
    var id := TokenRun(rest);
    assert rest[0] == content[i + |Marker|];
    assert |id| > 0;
    assert content[i + |Marker|..i + |Marker| + |id|] == rest[..|id|];
    assert i + |Marker| + |id| < |content| ==> content[i + |Marker| + |id|] == rest[|id|];
  }

  /** A run of token characters ends at the first delimiter. */
  lemma {:induction false} TokenRunUpTo(a: string, b: string)
    requires forall k :: 0 <= k < |a| ==> IsTokenChar(a[k])
    requires |b| > 0 ==> !IsTokenChar(b[0])
    ensures TokenRun(a + b) == a
  {
    if a == [] {
      assert a + b == b;
    } else {
      assert (a + b)[1..] == a[1..] + b;
      TokenRunUpTo(a[1..], b);
    }
  }

  /** Content that starts with the marker yields the whole run of token
      characters behind it, up to the first delimiter. */
  lemma ExtractLeadingMarker(id: string, tail: string)
    requires |id| > 0 && forall k :: 0 <= k < |id| ==> IsTokenChar(id[k])
    requires |tail| > 0 ==> !IsTokenChar(tail[0])
    ensures Extract(Marker + id + tail) == Some(id)
  {
    var s := Marker + id + tail;
    assert FirstMatch(s, 0) == Some(0) by {
      assert s[..|Marker|] == Marker;
      assert s[|Marker|] == id[0];
      assert MatchesAt(s, 0);
    }
    assert s[|Marker|..] == id + tail;
    TokenRunUpTo(id, tail);
  }

  /** An id of visible ASCII characters other than the comma, behind a leading
      marker and followed by a comma, is extracted whole. */
  lemma ExtractLeadingVisible(id: string, tail: string)
    requires |id| > 0 && forall k :: 0 <= k < |id| ==> '!' <= id[k] <= '~' && id[k] != ','
    requires |tail| > 0 && tail[0] == ','
    ensures Extract(Marker + id + tail) == Some(id)
  {
    ExtractLeadingMarker(id, tail);
  }

  /** The content "app-id=com.example.app,other=1" yields "com.example.app".
      The content is a parameter fixed by `requires` rather than a literal in the
      `ensures`, so that callers with this literal do not make the verifier
      unfold the search over every position of it. */
  lemma ExtractExample(content: string)
    requires content == "app-id=com.example.app,other=1"
    ensures Extract(content) == Some("com.example.app")
  {
    var id, tail := "com.example.app", ",other=1";
    assert content == Marker + id + tail;
    ExtractLeadingVisible(id, tail);
  }

  /** The pattern is searched for, not anchored at the first marker: a marker
      followed by a delimiter is passed over for a later one. */
  lemma ExtractSearchesOn()
    ensures Extract("app-id=, app-id=xyz") == Some("xyz")
  {
    var s := "app-id=, app-id=xyz";
    assert !MatchesAt(s, 0) by { assert s[7] == ','; }
    forall k | 1 <= k < 9
      ensures !MatchesAt(s, k)
    {
      assert s[k] != 'a';
      assert s[k..k + |Marker|][0] == s[k];
    }
    assert s[9..16] == Marker;
    assert IsTokenChar(s[16]);
    assert MatchesAt(s, 9);
    var m := FirstMatch(s, 0);
    assert m == Some(9);
    assert s[16..] == "xyz" + "";
    TokenRunUpTo("xyz", "");
  }

  /** The outcome of `parseAppId`. */
  datatype Resolution =
    | Found(id: string)     // the id it assigns and returns
    | NoMeta                // no metadata entry: it returns undefined
    | Malformed             // the pattern does not match: `exec(...)[1]` throws

  /** The metadata name the instance looks up: `this.appMeta`, which reads
      "undefined" in the selector when no table entry was copied in. */
  function MetaName(mixin: Option<Mixin>): string {
    if mixin.Some? then mixin.value.appMeta else "undefined"
  }

  /** `parseAppId` for platform type `t`, the explicit ids `appIds` and the page's
      metadata entries `metas` (name to `content` attribute). */
  function Resolve(appIds: map<string, string>, t: string, mixin: Option<Mixin>,
                   metas: map<string, string>): (r: Resolution)
    ensures t in appIds ==> r == Found(appIds[t])
    ensures t !in appIds && MetaName(mixin) !in metas ==> r == NoMeta
    ensures t !in appIds && MetaName(mixin) in metas && t == "windows" ==>
              r == Found(metas[MetaName(mixin)])
    ensures t !in appIds && MetaName(mixin) in metas && t != "windows" ==>
              (r == Malformed <==> Extract(metas[MetaName(mixin)]).None?)
              && (Extract(metas[MetaName(mixin)]).Some? ==> r == Found(Extract(metas[MetaName(mixin)]).value))
  {
    if t in appIds then Found(appIds[t])
    else if MetaName(mixin) !in metas then NoMeta
    else
      var content := metas[MetaName(mixin)];
      if t == "windows" then Found(content)
      else match Extract(content)
        case None => Malformed
        case Some(id) => Found(id)
  }

  /** An explicit id is used verbatim and the metadata is never consulted. */
  lemma ExplicitIdIgnoresMetadata(appIds: map<string, string>, t: string, mixin: Option<Mixin>,
                                  metas: map<string, string>, metas': map<string, string>)
    requires t in appIds
    ensures Resolve(appIds, t, mixin, metas) == Resolve(appIds, t, mixin, metas') == Found(appIds[t])
  {
  }

  /** A metadata-derived id for ios or android is a non-empty token; only windows
      (or an explicit id) can resolve to the empty string. */
  lemma ResolvedTokenNonEmpty(appIds: map<string, string>, t: string, mixin: Option<Mixin>,
                              metas: map<string, string>)
    requires t !in appIds && t != "windows"
    requires Resolve(appIds, t, mixin, metas).Found?
    ensures |Resolve(appIds, t, mixin, metas).id| > 0
  {
    var _ := ExtractedToken(metas[MetaName(mixin)]);
  }
}
