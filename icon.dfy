/** The icon of the banner and the parameters handed to the HTML template. */
module Icon {
  import opened Js
  import opened Config

  /** The href of the first relation in `rels` for which the page has a
      `link[rel=...]` element; `links` maps a relation to that element's href. */
  function FirstIcon(rels: seq<string>, links: map<string, string>): (r: Option<string>)
    ensures r.None? <==> forall k :: 0 <= k < |rels| ==> rels[k] !in links
  {
    if rels == [] then None
    else if rels[0] in links then Some(links[rels[0]])
    else
      assert forall k :: 1 <= k < |rels| ==> rels[k] == rels[1..][k - 1];
      FirstIcon(rels[1..], links)
  }

  /** The first relation present wins, whatever follows it. */
  lemma {:induction false} FirstIconAt(rels: seq<string>, links: map<string, string>, i: nat)
    requires i < |rels| && rels[i] in links
    requires forall k :: 0 <= k < i ==> rels[k] !in links
    ensures FirstIcon(rels, links) == Some(links[rels[i]])
  {
    if i > 0 {
      assert rels[0] !in links;
      assert rels[1..][i - 1] == rels[i];
      FirstIconAt(rels[1..], links, i - 1);
    }
  }

  /** The icon `getHtml` computes: the `icon` option when it is non-empty,
      otherwise the first icon relation the page provides. */
  function IconFor(icon: string, rels: seq<string>, links: map<string, string>): Option<string> {
    if icon != "" then Some(icon) else FirstIcon(rels, links)
  }

  /** The icon lookup of `getHtml`, a loop over the relations that stops at the
      first one present. */
  method FindIcon(icon: string, rels: seq<string>, links: map<string, string>) returns (r: Option<string>)
    ensures r == IconFor(icon, rels, links)
  {
    if icon != "" {
      r := Some(icon);
    } else {
      r := None;
      var i := 0;
      while i < |rels|
        invariant 0 <= i <= |rels|
        invariant r == None
        invariant forall k :: 0 <= k < i ==> rels[k] !in links
      {
        if rels[i] in links {
          r := Some(links[rels[i]]);
          FirstIconAt(rels, links, i);
          break;
        }
        i := i + 1;
      }
    }
  }

  /** The template parameters: icon, store link, display string and button label. */
  datatype View = View(icon: Option<string>, link: string, inStore: string, button: string)

  /** The parameters as `getHtml` builds them: `extend({icon, link, inStore},
      this.options)` copies every option over the computed values, and the
      options always carry their own `icon` key. */
  function ParamsAsWritten(icon: Option<string>, link: string, inStore: string, o: Options): View {
    View(Some(o.icon), link, inStore, o.button)
  }

  /** As written, the icon the page provides never reaches the template: without
      an `icon` option the template always receives the empty string. */
  lemma ParamsAsWrittenDropsPageIcon(o: Options, rels: seq<string>, links: map<string, string>,
                                     link: string, inStore: string)
    requires o.icon == ""
    requires FirstIcon(rels, links).Some? && FirstIcon(rels, links).value != ""
    ensures ParamsAsWritten(IconFor(o.icon, rels, links), link, inStore, o).icon == Some("")
    ensures ParamsAsWritten(IconFor(o.icon, rels, links), link, inStore, o).icon != IconFor(o.icon, rels, links)
  {
  }

  /** The parameters with the computed icon kept: the `icon` option is meant to
      override the website's own icon, not to erase it. */
  function Params(icon: Option<string>, link: string, inStore: string, o: Options): View {
    View(icon, link, inStore, o.button)
  }

  /** With the computed icon kept, an `icon` option is used as given and, without
      one, the href of the first icon relation on the page is used. */
  lemma ParamsUsePageIcon(o: Options, rels: seq<string>, links: map<string, string>,
                          link: string, inStore: string, i: nat)
    requires i < |rels| && rels[i] in links
    requires forall k :: 0 <= k < i ==> rels[k] !in links
    ensures o.icon != "" ==> Params(IconFor(o.icon, rels, links), link, inStore, o).icon == Some(o.icon)
    ensures o.icon == "" ==> Params(IconFor(o.icon, rels, links), link, inStore, o).icon == Some(links[rels[i]])
  {
    FirstIconAt(rels, links, i);
  }
}
