/**
 * The decision rules behind the page's event handlers, as functions of the part of the
 * page each one reads: the class names it toggles, the width test of the menu button,
 * the dismissal record of the banner and the consent cookie.
 */
module Handlers {
  import opened Optional
  import ClassList

  const DarkMode := "dark-mode"
  const LightMode := "light-mode"
  const MenuWideToggled := "menu-wide-toggled"
  const MenuNarrowToggled := "menu-narrow-toggled"
  /** Widths above this many pixels count as a wide viewport. */
  const WideViewport := 768
  /** The local-storage key holding the text of the last dismissed banner. */
  const BannerKey := "banner-contents"
  const CookieKey := "cookie-consent"
  const CookieConsentValue := "true"

  // ---------------------------------------------------------------- theme switch

  /** The body's class list after a click on the theme switcher. */
  function ThemeClick(body: set<string>): (r: set<string>)
    ensures DarkMode in body ==> LightMode in r && DarkMode !in r
    ensures DarkMode !in body ==> DarkMode in r && LightMode !in r
    ensures forall c :: c != DarkMode && c != LightMode ==> (c in r <==> c in body)
  {
    if DarkMode in body then body - {DarkMode} + {LightMode} else body - {LightMode} + {DarkMode}
  }

  /** Exactly one of the two theme markers is present after any click. */
  lemma ThemeClickLeavesOneMarker(body: set<string>)
    ensures (DarkMode in ThemeClick(body)) != (LightMode in ThemeClick(body))
  {
  }

  /** Two clicks from a body holding exactly one marker restore it. */
  lemma ThemeClickTwice(body: set<string>)
    requires (DarkMode in body) != (LightMode in body)
    ensures ThemeClick(ThemeClick(body)) == body
  {
    var r := ThemeClick(ThemeClick(body));
    assert forall c :: c in r <==> c in body;
  }

  /** A body that holds both markers, or neither, is not restored by two clicks. */
  lemma ThemeClickTwiceNormalises(body: set<string>)
    requires (DarkMode in body) == (LightMode in body)
    ensures ThemeClick(ThemeClick(body)) != body
  {
    var once := ThemeClick(body);
    assert DarkMode in body ==> DarkMode !in once && LightMode !in ThemeClick(once);
    assert DarkMode !in body ==> DarkMode in once && LightMode in ThemeClick(once);
  }

  // ---------------------------------------------------------------- menu toggle

  /** The class the menu button toggles at a given body width. */
  function MenuMarker(width: int): string {
    if width > WideViewport then MenuWideToggled else MenuNarrowToggled
  }

  /** The body's class list after a click on the menu button at body width `width`. */
  function MenuClick(body: set<string>, width: int): (r: set<string>)
    ensures width > WideViewport ==> (MenuWideToggled in r <==> MenuWideToggled !in body)
    ensures width <= WideViewport ==> (MenuNarrowToggled in r <==> MenuNarrowToggled !in body)
    ensures forall c :: c != MenuMarker(width) ==> (c in r <==> c in body)
  {
    ClassList.Toggle(body, MenuMarker(width))
  }

  /** Two clicks at the same width are the identity. */
  lemma MenuClickTwice(body: set<string>, width: int)
    ensures MenuClick(MenuClick(body, width), width) == body
  {
    ClassList.ToggleTwice(body, MenuMarker(width));
  }

  /** A click at one width never touches the marker of the other width. */
  lemma MenuMarkersIndependent(body: set<string>, width: int)
    ensures width > WideViewport ==> (MenuNarrowToggled in MenuClick(body, width) <==> MenuNarrowToggled in body)
    ensures width <= WideViewport ==> (MenuWideToggled in MenuClick(body, width) <==> MenuWideToggled in body)
  {
  }

  // ---------------------------------------------------------------- collapsible nav links

  /** The `collapsed` flags of the collapsible nav links after a click on link `i`. */
  function NavClick(collapsed: seq<bool>, i: nat): (r: seq<bool>)
    requires i < |collapsed|
    ensures |r| == |collapsed|
    ensures r[i] == !collapsed[i]
    ensures forall j :: 0 <= j < |r| && j != i ==> r[j] == collapsed[j]
  {
    collapsed[i := !collapsed[i]]
  }

  /** Two clicks on the same link are the identity. */
  lemma NavClickTwice(collapsed: seq<bool>, i: nat)
    requires i < |collapsed|
    ensures NavClick(NavClick(collapsed, i), i) == collapsed
  {
  }

  /** Clicks on two different links commute: each link's state is its own. */
  lemma NavClicksCommute(collapsed: seq<bool>, i: nat, j: nat)
    requires i < |collapsed| && j < |collapsed|
    ensures NavClick(NavClick(collapsed, i), j) == NavClick(NavClick(collapsed, j), i)
  {
  }

  // ---------------------------------------------------------------- inline table of contents

  /**
   * The inline TOC container after a click on any of its toggles: `None` when the
   * page has no container, otherwise whether it carries `toc-collapsed`.
   */
  function TocClick(toc: Option<bool>): (r: Option<bool>)
    ensures r.Some? <==> toc.Some?
    ensures toc.Some? ==> r.value != toc.value
  {
    match toc
    case None => None
    case Some(collapsed) => Some(!collapsed)
  }

  /** Two clicks, from the same toggle or from two different ones, are the identity. */
  lemma TocClickTwice(toc: Option<bool>)
    ensures TocClick(TocClick(toc)) == toc
  {
  }

  // ---------------------------------------------------------------- site banner

  /** The `#site-banner` element: whether it is `hidden`, and the text of its paragraph, if it has one. */
  datatype Banner = Banner(hidden: bool, paragraph: Option<string>)

  /** What `setupBanner` does with the banner at load. */
  datatype BannerAction =
    | Disabled                  // close button or banner missing: nothing happens
    | RemoveBanner              // no text, or the text was dismissed before
    | Reveal(contents: string)  // shown, with a close handler remembering `contents`

  /** `window.localStorage.getItem(key)`. */
  function GetItem(storage: map<string, string>, key: string): (r: Option<string>)
    ensures r.Some? <==> key in storage
    ensures r.Some? ==> r.value == storage[key]
  {
    if key in storage then Some(storage[key]) else None
  }

  /** The load-time decision of `setupBanner`, given the stored text of the last dismissed banner. */
  function BannerDecision(hasCloseButton: bool, banner: Option<Banner>, closedContents: Option<string>): (a: BannerAction)
    ensures a == Disabled <==> !hasCloseButton || banner.None?
    ensures a == RemoveBanner <==>
              hasCloseButton && banner.Some? &&
              (banner.value.paragraph.None? || banner.value.paragraph == closedContents)
    ensures a.Reveal? ==> banner.Some? && banner.value.paragraph == Some(a.contents) != closedContents
  {
    if !hasCloseButton || banner.None? then Disabled
    else match banner.value.paragraph
      case None => RemoveBanner
      case Some(text) => if Some(text) == closedContents then RemoveBanner else Reveal(text)
  }

  /** The storage after the close button is clicked on a banner showing `contents`. */
  function Dismiss(storage: map<string, string>, contents: string): (r: map<string, string>)
    ensures GetItem(r, BannerKey) == Some(contents)
    ensures forall k :: k != BannerKey ==> GetItem(r, k) == GetItem(storage, k)
  {
    storage[BannerKey := contents]
  }

  /** After dismissing a banner, a load of a page with the same banner text removes it. */
  lemma DismissedBannerStaysClosed(storage: map<string, string>, contents: string, hidden: bool)
    ensures BannerDecision(true, Some(Banner(hidden, Some(contents))), GetItem(Dismiss(storage, contents), BannerKey))
            == RemoveBanner
  {
  }

  /** After dismissing a banner, a load of a page whose banner says something else shows it. */
  lemma ChangedBannerReappears(storage: map<string, string>, contents: string, newContents: string, hidden: bool)
    requires newContents != contents
    ensures BannerDecision(true, Some(Banner(hidden, Some(newContents))), GetItem(Dismiss(storage, contents), BannerKey))
            == Reveal(newContents)
  {
  }

  /** Only the last dismissal is remembered: dismissing a second banner forgets the first. */
  lemma OnlyLastDismissalRemembered(storage: map<string, string>, first: string, second: string, hidden: bool)
    requires first != second
    ensures BannerDecision(true, Some(Banner(hidden, Some(first))), GetItem(Dismiss(Dismiss(storage, first), second), BannerKey))
            == Reveal(first)
  {
  }

  // ---------------------------------------------------------------- cookie notice

  /** `Cookies.get('cookie-consent') === 'true'`. */
  predicate ConsentGiven(cookies: map<string, string>) {
    CookieKey in cookies && cookies[CookieKey] == CookieConsentValue
  }

  /** The cookie jar after a click on the agree button. */
  function Agree(cookies: map<string, string>): (r: map<string, string>)
    ensures ConsentGiven(r)
    ensures r.Keys == cookies.Keys + {CookieKey}
    ensures forall k :: k in cookies && k != CookieKey ==> r[k] == cookies[k]
  {
    cookies[CookieKey := CookieConsentValue]
  }

  /** Agreeing is idempotent: a second agreement leaves the jar as it is. */
  lemma AgreeTwice(cookies: map<string, string>)
    ensures Agree(Agree(cookies)) == Agree(cookies)
  {
  }
}
