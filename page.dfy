/**
 * A loaded documentation page as the behaviour script sees it. Each element the setup
 * routines look up is an object of its own, holding whether a click handler has been
 * attached to it; the browser facilities the handlers write to (local storage, the
 * cookie jar, the clipboard, the opened windows) are objects too. Each setup routine
 * and each handler is a method that modifies only the objects it writes; the decisions
 * they take are the functions of `Handlers` and `CodeBlocks`.
 */
module Page {
  import opened Optional
  import opened Handlers
  import opened CodeBlocks
  import TerminalPrompt

  /** Whether a routine returned normally or stopped on a missing element. */
  datatype Outcome = Returned | Threw

  // ---------------------------------------------------------------- browser facilities

  /** `document.body`: its class list and its width in pixels. */
  class Body {
    var classes: set<string>
    var clientWidth: int

    constructor (classes: set<string>, clientWidth: int)
      ensures this.classes == classes && this.clientWidth == clientWidth
    {
      this.classes := classes;
      this.clientWidth := clientWidth;
    }
  }

  /** `window.localStorage`. */
  class LocalStorage {
    var items: map<string, string>

    constructor (items: map<string, string>)
      ensures this.items == items
    {
      this.items := items;
    }
  }

  /** The cookies of the site, as `Cookies.get` sees them. */
  class CookieJar {
    var values: map<string, string>

    constructor (values: map<string, string>)
      ensures this.values == values
    {
      this.values := values;
    }
  }

  /** `navigator.clipboard`: whether it exists, and every text written to it, oldest first. */
  class Clipboard {
    const available: bool
    var writes: seq<string>

    constructor (available: bool)
      ensures this.available == available && writes == []
    {
      this.available := available;
      writes := [];
    }
  }

  /** Every URL passed to `window.open`, oldest first. */
  class BrowserWindow {
    var openedUrls: seq<string>

    constructor ()
      ensures openedUrls == []
    {
      openedUrls := [];
    }
  }

  // ---------------------------------------------------------------- page elements

  /** `#theme-switcher`, when `present`. */
  class ThemeSwitcher {
    const present: bool
    var wired: bool

    constructor (present: bool)
      ensures this.present == present && !wired
    {
      this.present := present;
      wired := false;
    }
  }

  /** `#menu-button button`, when `present`. */
  class MenuButton {
    const present: bool
    var wired: bool

    constructor (present: bool)
      ensures this.present == present && !wired
    {
      this.present := present;
      wired := false;
    }
  }

  /**
   * `#site-banner` while it is in the document, the presence of
   * `#banner-close-button`, and the banner text the close handler remembers once one
   * is attached.
   */
  class SiteBanner {
    const hasCloseButton: bool
    var element: Option<Banner>
    var handler: Option<string>

    constructor (hasCloseButton: bool, element: Option<Banner>)
      ensures this.hasCloseButton == hasCloseButton && this.element == element && handler.None?
    {
      this.hasCloseButton := hasCloseButton;
      this.element := element;
      handler := None;
    }
  }

  /** The `a.nav-link.collapsible` links: whether each carries `collapsed`, and whether it has its handler. */
  class NavLinks {
    var collapsed: seq<bool>
    var wired: seq<bool>

    constructor (collapsed: seq<bool>)
      ensures this.collapsed == collapsed && wired == seq(|collapsed|, _ => false)
    {
      this.collapsed := collapsed;
      wired := seq(|collapsed|, _ => false);
    }
  }

  /**
   * `#site-toc--inline`, if present (whether it carries `toc-collapsed`), and one entry
   * per `.site-toc--inline__toggle` saying whether that toggle has its handler.
   */
  class InlineToc {
    var container: Option<bool>
    var wired: seq<bool>

    constructor (container: Option<bool>, toggles: nat)
      ensures this.container == container && wired == seq(toggles, _ => false)
    {
      this.container := container;
      wired := seq(toggles, _ => false);
    }
  }

  /** `#cookie-notice`, if present (whether it carries `show`), and the agree button `#cookie-consent`. */
  class CookieNotice {
    var notice: Option<bool>
    const hasAgreeButton: bool
    var wired: bool

    constructor (notice: Option<bool>, hasAgreeButton: bool)
      ensures this.notice == notice && this.hasAgreeButton == hasAgreeButton && !wired
    {
      this.notice := notice;
      this.hasAgreeButton := hasAgreeButton;
      wired := false;
    }
  }

  /** The `.code-block-body` elements, in document order. */
  class CodeBlockList {
    var blocks: seq<CodeBlock>

    constructor (blocks: seq<CodeBlock>)
      ensures this.blocks == blocks
    {
      this.blocks := blocks;
    }
  }

  // ---------------------------------------------------------------- the page

  class Page {
    const body: Body
    const storage: LocalStorage
    const jar: CookieJar
    const clipboard: Clipboard
    const window: BrowserWindow
    const themeSwitcher: ThemeSwitcher
    const menuButton: MenuButton
    const siteBanner: SiteBanner
    const navLinks: NavLinks
    const inlineToc: InlineToc
    const cookieNotice: CookieNotice
    const codeBlocks: CodeBlockList

    /** Handlers are attached only to elements that exist, and there is one flag per nav link. */
    predicate Valid()
      reads themeSwitcher, menuButton, siteBanner, navLinks, cookieNotice
    {
      (themeSwitcher.wired ==> themeSwitcher.present) &&
      (menuButton.wired ==> menuButton.present) &&
      (siteBanner.handler.Some? ==> siteBanner.hasCloseButton) &&
      |navLinks.wired| == |navLinks.collapsed| &&
      (cookieNotice.wired ==> cookieNotice.hasAgreeButton && cookieNotice.notice.Some?)
    }

    /**
     * No setup routine has run yet: no handler is attached, and no code block has a
     * button wrapper (a button in a wrapper is one the script created and wired).
     */
    predicate Fresh()
      reads themeSwitcher, menuButton, siteBanner, navLinks, inlineToc, cookieNotice, codeBlocks
    {
      !themeSwitcher.wired && !menuButton.wired && siteBanner.handler.None? && !cookieNotice.wired &&
      (forall i :: 0 <= i < |navLinks.wired| ==> !navLinks.wired[i]) &&
      (forall i :: 0 <= i < |inlineToc.wired| ==> !inlineToc.wired[i]) &&
      (forall b :: 0 <= b < |codeBlocks.blocks| ==> codeBlocks.blocks[b].wrappers == [])
    }

    /** The page as parsed, before the script runs. */
    constructor (body: Body, storage: LocalStorage, jar: CookieJar, clipboard: Clipboard, window: BrowserWindow,
                 themeSwitcher: ThemeSwitcher, menuButton: MenuButton, siteBanner: SiteBanner,
                 navLinks: NavLinks, inlineToc: InlineToc, cookieNotice: CookieNotice, codeBlocks: CodeBlockList)
      requires !themeSwitcher.wired && !menuButton.wired && siteBanner.handler.None? && !cookieNotice.wired
      requires navLinks.wired == seq(|navLinks.collapsed|, _ => false)
      requires forall i :: 0 <= i < |inlineToc.wired| ==> !inlineToc.wired[i]
      requires forall b :: 0 <= b < |codeBlocks.blocks| ==> codeBlocks.blocks[b].wrappers == []
      ensures Valid() && Fresh()
      ensures this.body == body && this.storage == storage && this.jar == jar && this.clipboard == clipboard
      ensures this.window == window && this.themeSwitcher == themeSwitcher && this.menuButton == menuButton
      ensures this.siteBanner == siteBanner && this.navLinks == navLinks && this.inlineToc == inlineToc
      ensures this.cookieNotice == cookieNotice && this.codeBlocks == codeBlocks
    {
      this.body := body;
      this.storage := storage;
      this.jar := jar;
      this.clipboard := clipboard;
      this.window := window;
      this.themeSwitcher := themeSwitcher;
      this.menuButton := menuButton;
      this.siteBanner := siteBanner;
      this.navLinks := navLinks;
      this.inlineToc := inlineToc;
      this.cookieNotice := cookieNotice;
      this.codeBlocks := codeBlocks;
    }

    // ---------------------------------------------------------------- setup routines

    /** `setupTheme`: a handler goes on the theme switcher when there is one. */
    method SetupTheme()
      requires Valid() && !themeSwitcher.wired
      modifies themeSwitcher
      ensures Valid()
      ensures themeSwitcher.wired == themeSwitcher.present
    {
      if themeSwitcher.present {
        themeSwitcher.wired := true;
      }
    }

    /** `setupMenuToggle`: a handler goes on the menu button when there is one. */
    method SetupMenuToggle()
      requires Valid() && !menuButton.wired
      modifies menuButton
      ensures Valid()
      ensures menuButton.wired == menuButton.present
    {
      if !menuButton.present {
        return;
      }
      menuButton.wired := true;
    }

    /**
     * `setupBanner`: with both the close button and the banner present, a banner with no
     * text or with the text dismissed last is removed; any other one gets a close
     * handler and is un-hidden.
     */
    method SetupBanner()
      requires Valid() && siteBanner.handler.None?
      modifies siteBanner
      ensures Valid()
      ensures match BannerDecision(siteBanner.hasCloseButton, old(siteBanner.element), GetItem(storage.items, BannerKey))
              case Disabled => siteBanner.element == old(siteBanner.element) && siteBanner.handler.None?
              case RemoveBanner => siteBanner.element.None? && siteBanner.handler.None?
              case Reveal(contents) =>
                siteBanner.element == Some(old(siteBanner.element).value.(hidden := false)) &&
                siteBanner.handler == Some(contents)
    {
      if !siteBanner.hasCloseButton || siteBanner.element.None? {
        return;
      }
      var bannerContents := siteBanner.element.value.paragraph;
      var closedBannerContents := GetItem(storage.items, BannerKey);
      if bannerContents.None? || bannerContents == closedBannerContents {
        siteBanner.element := None;
        return;
      }
      siteBanner.handler := bannerContents;
      siteBanner.element := Some(siteBanner.element.value.(hidden := false));
    }

    /** `setupNav`: every collapsible nav link gets a handler. */
    method SetupNav()
      requires Valid() && forall i :: 0 <= i < |navLinks.wired| ==> !navLinks.wired[i]
      modifies navLinks
      ensures Valid()
      ensures navLinks.collapsed == old(navLinks.collapsed)
      ensures |navLinks.wired| == |old(navLinks.wired)|
      ensures forall i :: 0 <= i < |navLinks.wired| ==> navLinks.wired[i]
    {
      var i := 0;
      while i < |navLinks.wired|
        invariant 0 <= i <= |navLinks.wired| == |old(navLinks.wired)|
        invariant navLinks.collapsed == old(navLinks.collapsed)
        invariant forall j :: 0 <= j < i ==> navLinks.wired[j]
      {
        navLinks.wired := navLinks.wired[i := true];
        i := i + 1;
      }
    }

    /** `setupInlineToc`: every inline-TOC toggle gets a handler. */
    method SetupInlineToc()
      requires forall i :: 0 <= i < |inlineToc.wired| ==> !inlineToc.wired[i]
      modifies inlineToc
      ensures inlineToc.container == old(inlineToc.container)
      ensures |inlineToc.wired| == |old(inlineToc.wired)|
      ensures forall i :: 0 <= i < |inlineToc.wired| ==> inlineToc.wired[i]
    {
      var i := 0;
      while i < |inlineToc.wired|
        invariant 0 <= i <= |inlineToc.wired| == |old(inlineToc.wired)|
        invariant inlineToc.container == old(inlineToc.container)
        invariant forall j :: 0 <= j < i ==> inlineToc.wired[j]
      {
        inlineToc.wired := inlineToc.wired[i := true];
        i := i + 1;
      }
    }

    /**
     * `initCookieNotice`: nothing happens once consent is stored. Otherwise the notice
     * is shown and the agree button gets a handler; a missing notice or a missing
     * button makes the routine throw, after the notice is shown in the second case.
     */
    method InitCookieNotice() returns (outcome: Outcome)
      requires Valid() && !cookieNotice.wired
      modifies cookieNotice
      ensures Valid()
      ensures outcome == Threw <==>
                !ConsentGiven(jar.values) && (old(cookieNotice.notice).None? || !cookieNotice.hasAgreeButton)
      ensures ConsentGiven(jar.values) || old(cookieNotice.notice).None? ==>
                cookieNotice.notice == old(cookieNotice.notice) && !cookieNotice.wired
      ensures !ConsentGiven(jar.values) && old(cookieNotice.notice).Some? ==>
                cookieNotice.notice == Some(true) && cookieNotice.wired == cookieNotice.hasAgreeButton
    {
      if ConsentGiven(jar.values) {
        return Returned;
      }
      if cookieNotice.notice.None? {
        return Threw;
      }
      cookieNotice.notice := Some(true);
      if !cookieNotice.hasAgreeButton {
        return Threw;
      }
      cookieNotice.wired := true;
      return Returned;
    }

    /**
     * `setUpCodeBlockButtons`: each block with a `<pre>` gets a wrapper holding a
     * DartPad button when its gist id is long enough, then a copy button when the
     * clipboard exists.
     */
    method SetUpCodeBlockButtons()
      modifies codeBlocks
      ensures |codeBlocks.blocks| == |old(codeBlocks.blocks)|
      ensures forall i :: 0 <= i < |codeBlocks.blocks| ==>
                codeBlocks.blocks[i] == Augment(old(codeBlocks.blocks)[i], clipboard.available)
    {
      var canUseClipboard := clipboard.available;
      var i := 0;
      while i < |codeBlocks.blocks|
        invariant 0 <= i <= |codeBlocks.blocks| == |old(codeBlocks.blocks)|
        invariant forall j :: 0 <= j < i ==> codeBlocks.blocks[j] == Augment(old(codeBlocks.blocks)[j], canUseClipboard)
        invariant forall j :: i <= j < |codeBlocks.blocks| ==> codeBlocks.blocks[j] == old(codeBlocks.blocks)[j]
      {
        var codeBlock := codeBlocks.blocks[i];
        if codeBlock.pre.Some? {
          var buttonWrapper: seq<Button> := [];
          var dartPadGistId := codeBlock.pre.value.dartpadId;
          if dartPadGistId.Some? && |dartPadGistId.value| > MinGistIdLength {
            buttonWrapper := buttonWrapper + [DartPadButton(dartPadGistId.value)];
          }
          if canUseClipboard {
            buttonWrapper := buttonWrapper + [CopyButton];
          }
          assert buttonWrapper == ButtonsFor(codeBlock.pre.value, canUseClipboard);
          codeBlocks.blocks := codeBlocks.blocks[i := codeBlock.(wrappers := codeBlock.wrappers + [buttonWrapper])];
        }
        i := i + 1;
      }
    }

    /**
     * The `DOMContentLoaded` handler: the setup routines in order. `setupTabs` is not
     * part of this model and is taken to return normally; when `initCookieNotice`
     * throws, the routines after it do not run.
     */
    method OnDomContentLoaded() returns (outcome: Outcome)
      requires Valid() && Fresh()
      modifies themeSwitcher, siteBanner, navLinks, cookieNotice, codeBlocks, inlineToc, menuButton
      ensures Valid()
      ensures themeSwitcher.wired == themeSwitcher.present
      ensures match BannerDecision(siteBanner.hasCloseButton, old(siteBanner.element), GetItem(storage.items, BannerKey))
              case Disabled => siteBanner.element == old(siteBanner.element) && siteBanner.handler.None?
              case RemoveBanner => siteBanner.element.None? && siteBanner.handler.None?
              case Reveal(contents) =>
                siteBanner.element == Some(old(siteBanner.element).value.(hidden := false)) &&
                siteBanner.handler == Some(contents)
      ensures navLinks.collapsed == old(navLinks.collapsed)
      ensures forall i :: 0 <= i < |navLinks.wired| ==> navLinks.wired[i]
      ensures outcome == Threw <==>
                !ConsentGiven(jar.values) && (old(cookieNotice.notice).None? || !cookieNotice.hasAgreeButton)
      ensures cookieNotice.notice == if ConsentGiven(jar.values) || old(cookieNotice.notice).None?
                                     then old(cookieNotice.notice) else Some(true)
      ensures cookieNotice.wired <==>
                !ConsentGiven(jar.values) && old(cookieNotice.notice).Some? && cookieNotice.hasAgreeButton
      ensures inlineToc.container == old(inlineToc.container)
      ensures |inlineToc.wired| == |old(inlineToc.wired)|
      ensures outcome == Returned ==>
                |codeBlocks.blocks| == |old(codeBlocks.blocks)| &&
                (forall i :: 0 <= i < |codeBlocks.blocks| ==>
                   codeBlocks.blocks[i] == Augment(old(codeBlocks.blocks)[i], clipboard.available)) &&
                (forall i :: 0 <= i < |inlineToc.wired| ==> inlineToc.wired[i]) &&
                menuButton.wired == menuButton.present
      ensures outcome == Threw ==>
                codeBlocks.blocks == old(codeBlocks.blocks) && inlineToc.wired == old(inlineToc.wired) &&
                !menuButton.wired
    {
      SetupTheme();
      SetupBanner();
      SetupNav();
      outcome := InitCookieNotice();
      if outcome == Threw {
        return;
      }
      SetUpCodeBlockButtons();
      SetupInlineToc();
      SetupMenuToggle();
    }

    // ---------------------------------------------------------------- clicks

    /** A click on the theme switcher swaps the theme marker, once its handler is attached. */
    method ClickThemeSwitcher()
      modifies body
      ensures body.classes == if themeSwitcher.wired then ThemeClick(old(body.classes)) else old(body.classes)
      ensures body.clientWidth == old(body.clientWidth)
    {
      if themeSwitcher.wired {
        body.classes := ThemeClick(body.classes);
      }
    }

    /** A click on the menu button toggles the marker for the current body width. */
    method ClickMenuButton()
      modifies body
      ensures body.classes == if menuButton.wired then MenuClick(old(body.classes), body.clientWidth) else old(body.classes)
      ensures body.clientWidth == old(body.clientWidth)
    {
      if menuButton.wired {
        body.classes := MenuClick(body.classes, body.clientWidth);
      }
    }

    /** A click on the banner's close button records its text and removes the banner. */
    method ClickBannerClose()
      requires Valid()
      modifies storage, siteBanner
      ensures Valid()
      ensures siteBanner.handler == old(siteBanner.handler)
      ensures siteBanner.handler.None? ==> storage.items == old(storage.items) && siteBanner.element == old(siteBanner.element)
      ensures siteBanner.handler.Some? ==>
                storage.items == Dismiss(old(storage.items), siteBanner.handler.value) && siteBanner.element.None?
    {
      if siteBanner.handler.Some? {
        storage.items := Dismiss(storage.items, siteBanner.handler.value);
        siteBanner.element := None;
      }
    }

    /** A click on collapsible nav link `i` toggles that link's `collapsed` class. */
    method ClickNavLink(i: nat)
      requires Valid() && i < |navLinks.collapsed|
      modifies navLinks
      ensures Valid()
      ensures navLinks.wired == old(navLinks.wired)
      ensures navLinks.collapsed == if navLinks.wired[i] then NavClick(old(navLinks.collapsed), i) else old(navLinks.collapsed)
    {
      if navLinks.wired[i] {
        navLinks.collapsed := NavClick(navLinks.collapsed, i);
      }
    }

    /** A click on inline-TOC toggle `k` toggles `toc-collapsed` on the container, if there is one. */
    method ClickTocToggle(k: nat)
      requires k < |inlineToc.wired|
      modifies inlineToc
      ensures inlineToc.wired == old(inlineToc.wired)
      ensures inlineToc.container == if inlineToc.wired[k] then TocClick(old(inlineToc.container)) else old(inlineToc.container)
    {
      if inlineToc.wired[k] {
        inlineToc.container := TocClick(inlineToc.container);
      }
    }

    /** A click on the agree button stores consent and hides the notice. */
    method ClickAgree()
      requires Valid()
      modifies jar, cookieNotice
      ensures Valid()
      ensures cookieNotice.wired == old(cookieNotice.wired)
      ensures !cookieNotice.wired ==> jar.values == old(jar.values) && cookieNotice.notice == old(cookieNotice.notice)
      ensures cookieNotice.wired ==> jar.values == Agree(old(jar.values)) && cookieNotice.notice == Some(false)
    {
      if cookieNotice.wired {
        jar.values := Agree(jar.values);
        cookieNotice.notice := Some(false);
      }
    }

    /**
     * A click on button `k` of wrapper `w` of code block `b`: a DartPad button opens its
     * URL, a copy button writes the block's text without prompts, unless that is empty.
     */
    method ClickCodeButton(b: nat, w: nat, k: nat)
      requires b < |codeBlocks.blocks| && w < |codeBlocks.blocks[b].wrappers| && k < |codeBlocks.blocks[b].wrappers[w]|
      modifies window, clipboard
      ensures codeBlocks.blocks[b].wrappers[w][k].DartPadButton? ==>
                window.openedUrls ==
                  old(window.openedUrls) + OptionToSeq(DartPadClick(codeBlocks.blocks[b], codeBlocks.blocks[b].wrappers[w][k].gistId)) &&
                clipboard.writes == old(clipboard.writes)
      ensures codeBlocks.blocks[b].wrappers[w][k].CopyButton? ==>
                clipboard.writes == old(clipboard.writes) + OptionToSeq(CopyClick(codeBlocks.blocks[b])) &&
                window.openedUrls == old(window.openedUrls)
    {
      var codeBlock := codeBlocks.blocks[b];
      match codeBlock.wrappers[w][k]
      case DartPadButton(gistId) =>
        if codeBlock.pre.Some? {
          window.openedUrls := window.openedUrls + [DartPadUrl(gistId)];
        }
      case CopyButton =>
        if codeBlock.pre.Some? {
          var contentToCopy := TerminalPrompt.StripPrompts(codeBlock.pre.value.text);
          if |contentToCopy| != 0 {
            clipboard.writes := clipboard.writes + [contentToCopy];
          }
        }
    }
  }

  /** The empty sequence for `None`, the one value for `Some`. */
  function OptionToSeq<T>(o: Option<T>): (s: seq<T>)
    ensures |s| <= 1
    ensures o.None? ==> s == []
    ensures o.Some? ==> s == [o.value]
  {
    if o.Some? then [o.value] else []
  }
}
