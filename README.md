# A verified model of a documentation site's behaviour script

The script `src/content/assets/js/main.js` gives the pages of a static documentation
site their behaviour:
- a light/dark theme switcher;
- a responsive menu button;
- a dismissible site banner whose dismissal is remembered in local storage;
- collapsible navigation links and a collapsible inline table of contents;
- a cookie-consent footer;
- "Open in DartPad" and "Copy to clipboard" buttons injected into code blocks. The copy button's text passes through a pattern that removes terminal prompts.

It also defines a classifier `getOS` that maps a user-agent string to an operating system.

This project models that script in Dafny and proves properties of the model.

- `getOS` is a pure function (`OsDetect.GetOS`) over the agent string, with five verdicts.
  - `String.prototype.indexOf` is modelled in `Strings`.
  - The proofs cover the precedence of the tests. Among other things, an agent string `(X11; CrOS x86_64)` is classified as Linux, because the `X11` test comes before the `CrOS` test.
- Each handler's decision rule is a pure function in `Handlers`. The rules (theme swap, menu marker, nav and TOC toggles, banner load decision and dismissal, consent) come with lemmas relating several calls: two clicks restore, clicks commute, a dismissed banner stays closed, and agreeing is idempotent.
- The prompt-stripping pattern `/^(\s*\$\s*)|(C:\\(.*)>\s*)/gm` is modelled exactly as JavaScript's global `replace` runs it (`TerminalPrompt`):
  - `^` anchors only the `$` alternative, at the start of a line;
  - `\s` includes line terminators;
  - `.` excludes them, and the greedy `.*` backs off to the last `>` of the line;
  - the replace resumes after each match.
  Lemmas show what it does to prompted commands, that a `$` in the middle of a line is kept, and that a `C:\...>` prompt in the middle of a line is deleted with the text before it kept.
- The buttons of a code block and their clicks are functions in `CodeBlocks`. The DartPad URL comes with its inverse and round-trip lemmas.
- The page itself is a set of objects (module `Page`).
  - Each element the setup routines look up is an object: the theme switcher, the menu button, the banner, the nav links, the inline TOC, the cookie notice and the code blocks. Each of the first six records whether its click handler is attached. A code block records the button wrappers the script appended to it: a button in a wrapper is one the script created and wired, and a parsed page has none.
  - The browser facilities are objects too: body, local storage, cookie jar, clipboard and window.
  - Every setup routine and every click handler is a method that `modifies` only the objects it writes. Its postcondition ties the new state to the decision functions above.
  - The `forEach` loops of `setupNav`, `setupInlineToc` and `setUpCodeBlockButtons` are `while` loops with invariants.
  - `OnDomContentLoaded` runs the setup routines in the source's order.

Inputs the script reads from the browser are fields or parameters: the user agent, `document.body.clientWidth`, whether `navigator.clipboard` exists, and the page's elements. Writes to the clipboard and calls to `window.open` are recorded in order as sequences.

- `initCookieNotice` does not guard against a missing `#cookie-notice` or `#cookie-consent`.
  - Without the consent cookie, a missing notice makes it throw before anything changes.
  - A missing agree button makes it throw after the notice has been shown.
  - `Page.Page.InitCookieNotice` returns `Threw` in both cases.
  - Because the exception leaves the `DOMContentLoaded` handler, the routines after it do not run: `setUpCodeBlockButtons`, `setupInlineToc` and `setupMenuToggle`. `OnDomContentLoaded` states this. So the order of the setup routines matters.
- The model keeps the whole cookie jar, and `Handlers.Agree` changes only the `cookie-consent` key.

## Model

| member | source | states |
|---|---|---|
| Strings.IndexOf | src/content/assets/js/main.js:93 | `indexOf` returns -1 exactly when the needle occurs nowhere; otherwise it returns the first position where it occurs |
| Strings.IndexOfFrom | src/content/assets/js/main.js:93 | a search from a position finds the first occurrence at or after it, or -1 when there is none |
| Strings.Contains | src/content/assets/js/main.js:93 | the test `indexOf(t) !== -1` holds exactly when `t` occurs somewhere in the string |
| Strings.FoundAt | src/content/assets/js/main.js:93 | a needle matching character by character at some position is contained |
| OsDetect.GetOS | src/content/assets/js/main.js:91-116 | any verdict other than `null` is backed by its own token test; `null` only when no system's test succeeds |
| OsDetect.GetOSFollowsPrecedence | src/content/assets/js/main.js:91-116 | the verdict is the first system, in the order macOS, Windows, Linux, ChromeOS, whose test succeeds |
| OsDetect.GetOSIsFirstSignal | src/content/assets/js/main.js:91-116 | a system is the verdict iff its test succeeds and no earlier test does; `null` iff no test succeeds |
| OsDetect.MacAlwaysWins | src/content/assets/js/main.js:93-96 | `macos` iff the agent contains `Mac`, whatever else it contains |
| OsDetect.WindowsIff | src/content/assets/js/main.js:98-101 | `windows` iff the agent contains `Win` and not `Mac` |
| OsDetect.LinuxIff | src/content/assets/js/main.js:103-107 | without `Mac` and `Win`: `linux` iff `Linux` or `X11` is present and `Android` is not |
| OsDetect.AndroidIsNeverLinux | src/content/assets/js/main.js:103-104 | an agent mentioning `Android` is never `linux` |
| OsDetect.ChromeOSIff | src/content/assets/js/main.js:109-112 | `chromeos` iff `CrOS` is present and the macOS, Windows and Linux tests all fail |
| OsDetect.ChromebookAgentIsLinux | src/content/assets/js/main.js:103-112 | an agent carrying both `X11` and `CrOS` is classified `linux`, although it carries the ChromeOS token |
| OsDetect.AndroidAgentIsUnknown | src/content/assets/js/main.js:103-115 | `Linux; Android` contains `Linux` yet gets `null` |
| ClassList.Toggle | src/content/assets/js/main.js:25-27 | `classList.toggle(c)` flips the membership of `c` and leaves every other class as it was |
| ClassList.ToggleTwice | src/content/assets/js/main.js:25-27 | toggling the same class twice restores the list |
| Handlers.ThemeClick | src/content/assets/js/main.js:6-12 | with `dark-mode` present, a click leaves `light-mode` and removes `dark-mode`; otherwise it leaves `dark-mode` and removes `light-mode`; other classes are unchanged |
| Handlers.ThemeClickLeavesOneMarker | src/content/assets/js/main.js:6-12 | after any click exactly one of the two theme markers is present |
| Handlers.ThemeClickTwice | src/content/assets/js/main.js:6-12 | two clicks from a body holding exactly one marker restore the body |
| Handlers.ThemeClickTwiceNormalises | src/content/assets/js/main.js:6-12 | a body holding both markers or neither is not restored by two clicks |
| Handlers.MenuClick | src/content/assets/js/main.js:24-28 | above 768 pixels a click flips `menu-wide-toggled`, otherwise `menu-narrow-toggled`; nothing else changes |
| Handlers.MenuClickTwice | src/content/assets/js/main.js:24-28 | two clicks at the same width are the identity |
| Handlers.MenuMarkersIndependent | src/content/assets/js/main.js:24-28 | a click never touches the marker belonging to the other width |
| Handlers.NavClick | src/content/assets/js/main.js:66-69 | a click flips `collapsed` on the clicked link only |
| Handlers.NavClickTwice | src/content/assets/js/main.js:66-69 | two clicks on one link are the identity |
| Handlers.NavClicksCommute | src/content/assets/js/main.js:64-70 | clicks on two links commute |
| Handlers.TocClick | src/content/assets/js/main.js:77-82 | a toggle click flips `toc-collapsed` on the container when it exists, and does nothing otherwise |
| Handlers.TocClickTwice | src/content/assets/js/main.js:75-83 | two toggle clicks, from the same toggle or from different ones, are the identity |
| Handlers.GetItem | src/content/assets/js/main.js:37 | `getItem` returns the stored value of exactly the keys present, `null` otherwise |
| Handlers.BannerDecision | src/content/assets/js/main.js:35-47 | nothing happens iff the close button or the banner is missing; otherwise the banner is removed iff its text is missing or equals the stored text, and revealed with its own text otherwise |
| Handlers.Dismiss | src/content/assets/js/main.js:44 | dismissing stores the banner text under `banner-contents` and keeps every other key |
| Handlers.DismissedBannerStaysClosed | src/content/assets/js/main.js:37-44 | after a dismissal, a reload with the same banner text removes the banner |
| Handlers.ChangedBannerReappears | src/content/assets/js/main.js:37-47 | after a dismissal, a banner with different text is shown again |
| Handlers.OnlyLastDismissalRemembered | src/content/assets/js/main.js:37-44 | dismissing a second banner forgets the first, which is shown again |
| Handlers.Agree | src/content/assets/js/main.js:136 | agreeing sets `cookie-consent` to `"true"`, adds no other key and keeps every other cookie |
| Handlers.AgreeTwice | src/content/assets/js/main.js:136 | agreeing twice is the same as agreeing once |
| TerminalPrompt.Run | src/content/assets/js/main.js:142 | a greedy `*` takes the longest run of the character class |
| TerminalPrompt.LastGreaterThan | src/content/assets/js/main.js:142 | the backtracking `(.*)>` ends at the last `>` of the run, or fails when the run holds none |
| TerminalPrompt.LastGreaterThanIs | src/content/assets/js/main.js:142 | a `>` followed by no other `>` is the one the pattern stops at |
| TerminalPrompt.ShellPromptMatch | src/content/assets/js/main.js:142 | a match of the `$` alternative is non-empty and stays within the text |
| TerminalPrompt.DrivePromptMatch | src/content/assets/js/main.js:142 | a match of the `C:\` alternative is non-empty and stays within the text |
| TerminalPrompt.MatchAt | src/content/assets/js/main.js:142 | a match of the whole pattern is non-empty and stays within the text |
| TerminalPrompt.StripFrom | src/content/assets/js/main.js:199-200 | the global replace never lengthens the text |
| TerminalPrompt.StripPrompts | src/content/assets/js/main.js:199-200 | the text to copy is never longer than the block's text |
| TerminalPrompt.UnmarkedTextUnchanged | src/content/assets/js/main.js:142 | text with no `$` and no backslash is copied unchanged, on any number of lines |
| TerminalPrompt.StripKeeps | src/content/assets/js/main.js:142 | where no match starts, the replace keeps the character and moves on |
| TerminalPrompt.StripDeletes | src/content/assets/js/main.js:142 | where a match starts, the replace deletes it and resumes after it |
| TerminalPrompt.NoMatchHere | src/content/assets/js/main.js:142 | no match starts at a position unless a line starts there with spaces then `$`, or `C:\` starts there |
| TerminalPrompt.NoShellPromptAtNonSpace | src/content/assets/js/main.js:142 | the `$` alternative cannot start on a character that is neither white space nor `$` |
| TerminalPrompt.PlainSegmentKept | src/content/assets/js/main.js:142 | a line segment with no backslash, not opening its line with a space or `$`, is kept; a `$` later in the line is kept |
| TerminalPrompt.PromptAtLineStart | src/content/assets/js/main.js:142 | `$ ` at the start of a line, before a non-space, is a match of length two |
| TerminalPrompt.DrivePromptAt | src/content/assets/js/main.js:142 | `C:\` on a line whose last `>` is followed by one space matches through that space |
| TerminalPrompt.DriveMatchLength | src/content/assets/js/main.js:142 | the length of the `C:\` alternative's match, up to the last `>` and the space after it |
| TerminalPrompt.ShellPromptRemoved | src/content/assets/js/main.js:142 | `$ command` copies as exactly `command`, even if the command holds a `$` |
| TerminalPrompt.ShellPromptLines | src/content/assets/js/main.js:142 | two prompted lines copy as the two commands joined by the line break |
| TerminalPrompt.DrivePromptRemoved | src/content/assets/js/main.js:142 | `C:\path> command` copies as `command`, whatever the directory path |
| TerminalPrompt.UnmatchedStretchKept | src/content/assets/js/main.js:142 | a stretch where no match starts is copied through unchanged |
| TerminalPrompt.DrivePromptThenText | src/content/assets/js/main.js:142 | from a `C:\` prompt on, the replace deletes the prompt through its last `>` and the space after it, and keeps the rest of the line |
| TerminalPrompt.MidLineDrivePromptRemoved | src/content/assets/js/main.js:142 | the `C:\` alternative is not anchored: `before C:\path> command` in the middle of a line copies as `before command` |
| TerminalPrompt.MidLineDriveExample | src/content/assets/js/main.js:142 | `echo C:\dir> x` copies as `echo x` |
| TerminalPrompt.ShellExample | src/content/assets/js/main.js:142 | `$ echo hi` newline `$ echo bye` copies as `echo hi` newline `echo bye` |
| TerminalPrompt.DriveExample | src/content/assets/js/main.js:142 | `C:\Users\x> dir` copies as `dir` |
| TerminalPrompt.MidLineDollarKept | src/content/assets/js/main.js:142 | `echo $HOME` is copied unchanged, since `^` does not hold in the middle of a line |
| CodeBlocks.DartPadUrl | src/content/assets/js/main.js:175 | the opened URL is `https://dartpad.dev?id=`, the gist id unescaped, then `&run=true` |
| CodeBlocks.GistIdOf | src/content/assets/js/main.js:175 | a URL is read back iff it has the DartPad prefix and suffix |
| CodeBlocks.GistIdRoundTrip | src/content/assets/js/main.js:175 | every gist id is recovered from its URL |
| CodeBlocks.DartPadUrlRoundTrip | src/content/assets/js/main.js:175 | every URL read back is the DartPad URL of the id read |
| CodeBlocks.DartPadUrlInjective | src/content/assets/js/main.js:175 | different gist ids open different URLs |
| CodeBlocks.ButtonsFor | src/content/assets/js/main.js:156-211 | a wrapper has a DartPad button iff the gist id is present and longer than 5 characters, and then for that id; it has a copy button iff the clipboard exists; the DartPad button comes first |
| CodeBlocks.Augment | src/content/assets/js/main.js:151-213 | a block without `<pre>` is untouched; any other block gets exactly one more wrapper, the earlier ones kept |
| CodeBlocks.AugmentAddsOneWrapperPerPre | src/content/assets/js/main.js:150-214 | over the whole page, the number of wrappers grows by the number of blocks that have a `<pre>` |
| CodeBlocks.DartPadClick | src/content/assets/js/main.js:170-178 | a DartPad click opens a URL iff the block still has a `<pre>`, and that URL carries the button's gist id |
| CodeBlocks.CopyClick | src/content/assets/js/main.js:194-207 | a copy click writes iff the block has a `<pre>` and its stripped text is non-empty; it writes that stripped text |
| CodeBlocks.CopyShellCommand | src/content/assets/js/main.js:197-203 | copying a block showing `$ command` writes exactly `command` |
| CodeBlocks.CopyBarePromptWritesNothing | src/content/assets/js/main.js:199-203 | copying a block holding only the prompt `$ ` writes nothing |
| Page.Page.constructor | src/content/assets/js/main.js:50 | the parsed page has no handler attached to anything and no code block carries a button wrapper, and it satisfies the page invariant |
| Page.Page.SetupTheme | src/content/assets/js/main.js:1-15 | the theme switcher has its handler iff it exists |
| Page.Page.SetupMenuToggle | src/content/assets/js/main.js:17-30 | the menu button has its handler iff it exists |
| Page.Page.SetupBanner | src/content/assets/js/main.js:32-48 | the banner is left alone, removed, or un-hidden with a handler remembering its text, as the banner decision says |
| Page.Page.SetupNav | src/content/assets/js/main.js:63-71 | every collapsible nav link ends up with its handler; no `collapsed` flag changes |
| Page.Page.SetupInlineToc | src/content/assets/js/main.js:73-84 | every inline-TOC toggle ends up with its handler; the container is untouched |
| Page.Page.InitCookieNotice | src/content/assets/js/main.js:121-139 | with consent stored nothing changes; otherwise the notice is shown and the agree button wired; it throws iff consent is missing and the notice or the button is missing |
| Page.Page.SetUpCodeBlockButtons | src/content/assets/js/main.js:144-215 | every block becomes as `Augment` says, in place and in order |
| Page.Page.OnDomContentLoaded | src/content/assets/js/main.js:50-61 | the page after the load sequence: the theme switcher wired iff present; the banner left alone, removed, or un-hidden with a handler remembering its text, as the banner decision says; every nav link wired; the cookie notice as `InitCookieNotice` leaves it; and, when that returns, every code block augmented, every TOC toggle and the menu button wired; also that a throwing `initCookieNotice` leaves code blocks, TOC toggles and menu button untouched |
| Page.Page.ClickThemeSwitcher | src/content/assets/js/main.js:5-13 | the body classes become `ThemeClick` of the old ones once the handler is attached; before that a click changes nothing |
| Page.Page.ClickMenuButton | src/content/assets/js/main.js:21-29 | the body classes become `MenuClick` at the current width once the handler is attached |
| Page.Page.ClickBannerClose | src/content/assets/js/main.js:43-46 | with a handler, the storage becomes `Dismiss` of the remembered text and the banner is removed; without one nothing changes |
| Page.Page.ClickNavLink | src/content/assets/js/main.js:66-69 | the link flags become `NavClick` of the old ones when that link has its handler |
| Page.Page.ClickTocToggle | src/content/assets/js/main.js:77-82 | the container becomes `TocClick` of the old one when that toggle has its handler |
| Page.Page.ClickAgree | src/content/assets/js/main.js:134-138 | with the handler attached, the cookies become `Agree` of the old ones and the notice loses `show`, so consent is stored; without the handler nothing changes |
| Page.Page.ClickCodeButton | src/content/assets/js/main.js:170-207 | a DartPad click appends `DartPadClick` to the opened URLs; a copy click appends `CopyClick` to the clipboard writes; nothing else is written |

## Left out

- Event dispatch, `addEventListener`, `querySelector` and `getElementById` are not modelled: a click is a method call on the page. Each element's handler is a flag on that element, except that a code-block button's handler is its presence in a wrapper.
- Element creation and decoration are not modelled: button titles, icon spans, `aria-hidden`, and the `code-inner-buttons` and `material-symbols` classes. They change no state the handlers read.
- `preventDefault` calls are not modelled; they affect only the browser's default navigation.
- `setupTabs` and the commented-out `setupSearch` are not part of this model, because their definitions are not in the script. `OnDomContentLoaded` takes `setupTabs` to return normally.
- The `sameSite: 'strict'` and `expires: 90` attributes of the consent cookie are not modelled. The cookie jar maps names to values, and cookie expiry and time are out of scope.
- `navigator.clipboard.writeText` and `window.open` are asynchronous and can fail. Each is modelled as appending its argument to a record, and a rejected write is not modelled.
- The `e.currentTarget.parentElement` checks in the button handlers are not modelled. A button always sits inside its wrapper, so the check always passes.
- Page.Page.SetupTheme and the other setup methods require that their handlers are not yet attached. Calling a setup routine twice would attach a second listener, so one click would run two handlers, and the model has one flag per element. The load sequence calls each routine once.
- `window.navigator.userAgent` is passed to `OsDetect.GetOS` as a parameter. The script itself never calls `getOS`.
- The body width is a field. Layout and resizing are not modelled, so a click reads whatever width is current.
- DOMTokenList class lists are modelled as sets. Class order and duplicate tokens are not modelled.
- JavaScript string lengths count UTF-16 code units, and the model counts characters. This affects `dartPadGistId.length > 5`, the empty-text test and the pattern's character classes only for characters outside the Basic Multilingual Plane.
- The regular expression's `\s` set is the one in ECMAScript's white-space and line-terminator tables, as the engine in use defines them. Later Unicode additions to the space separators are not tracked.
- OsDetect.ChromebookAgentIsLinux and the other example lemmas use short agent strings such as `(X11; CrOS x86_64)` instead of full browser agents. The general lemmas cover every agent string.
