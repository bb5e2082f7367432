/**
 * The code blocks of a page and the buttons `setUpCodeBlockButtons` adds to them: an
 * "Open in DartPad" button for a block whose `<pre>` names a gist, and a "Copy to
 * clipboard" button when the browser offers a clipboard.
 */
module CodeBlocks {
  import opened Optional
  import TerminalPrompt

  const DartPadPrefix := "https://dartpad.dev?id="
  const DartPadSuffix := "&run=true"
  /** A gist id must be longer than this many characters to get a DartPad button. */
  const MinGistIdLength := 5

  /** The first `<pre>` inside a block: its text and its `data-dartpad-id` attribute. */
  datatype Pre = Pre(text: string, dartpadId: Option<string>)

  /** A button inside a `code-inner-buttons` wrapper; the DartPad button keeps the gist id it was made for. */
  datatype Button = DartPadButton(gistId: string) | CopyButton

  /** A `.code-block-body` element: its `<pre>`, if any, and the button wrappers appended to it. */
  datatype CodeBlock = CodeBlock(pre: Option<Pre>, wrappers: seq<seq<Button>>)

  /** The gist id is present, non-empty and longer than five characters. */
  predicate OpensInDartPad(pre: Pre) {
    pre.dartpadId.Some? && |pre.dartpadId.value| > MinGistIdLength
  }

  // ---------------------------------------------------------------- DartPad URLs

  /** The URL the DartPad button opens: the gist id between the prefix and `&run=true`, unescaped. */
  function DartPadUrl(gistId: string): (url: string)
    ensures |url| == |DartPadPrefix| + |gistId| + |DartPadSuffix|
    ensures url[..|DartPadPrefix|] == DartPadPrefix
    ensures url[|DartPadPrefix|..|DartPadPrefix| + |gistId|] == gistId
    ensures url[|DartPadPrefix| + |gistId|..] == DartPadSuffix
  {
    DartPadPrefix + gistId + DartPadSuffix
  }

  /** Reads the gist id back out of a DartPad URL; `None` for any other string. */
  function GistIdOf(url: string): (r: Option<string>)
    ensures r.Some? <==>
              |url| >= |DartPadPrefix| + |DartPadSuffix| &&
              url[..|DartPadPrefix|] == DartPadPrefix &&
              url[|url| - |DartPadSuffix|..] == DartPadSuffix
    ensures r.Some? ==> |r.value| == |url| - |DartPadPrefix| - |DartPadSuffix|
  {
    if |url| >= |DartPadPrefix| + |DartPadSuffix| &&
       url[..|DartPadPrefix|] == DartPadPrefix &&
       url[|url| - |DartPadSuffix|..] == DartPadSuffix
    then Some(url[|DartPadPrefix|..|url| - |DartPadSuffix|])
    else None
  }

  /** Every gist id is recovered from its URL. */
  lemma GistIdRoundTrip(gistId: string)
    ensures GistIdOf(DartPadUrl(gistId)) == Some(gistId)
  {
    var url := DartPadUrl(gistId);
    assert url[|url| - |DartPadSuffix|..] == DartPadSuffix;
  }

  /** Every URL `GistIdOf` accepts is the DartPad URL of the id it reads. */
  lemma DartPadUrlRoundTrip(url: string)
    requires GistIdOf(url).Some?
    ensures DartPadUrl(GistIdOf(url).value) == url
  {
    var p, n := |DartPadPrefix|, |url| - |DartPadSuffix|;
    assert url == url[..p] + url[p..n] + url[n..];
  }

  /** Different gist ids open different URLs. */
  lemma DartPadUrlInjective(a: string, b: string)
    requires DartPadUrl(a) == DartPadUrl(b)
    ensures a == b
  {
    GistIdRoundTrip(a);
    GistIdRoundTrip(b);
  }

  // ---------------------------------------------------------------- buttons added at load

  /** The buttons of the wrapper made for a block with `<pre>` element `pre`, in order. */
  function ButtonsFor(pre: Pre, canUseClipboard: bool): (bs: seq<Button>)
    ensures |bs| <= 2
    ensures forall id :: DartPadButton(id) in bs <==> OpensInDartPad(pre) && pre.dartpadId == Some(id)
    ensures CopyButton in bs <==> canUseClipboard
    ensures |bs| == 2 ==> bs[0].DartPadButton? && bs[1] == CopyButton
  {
    (if OpensInDartPad(pre) then [DartPadButton(pre.dartpadId.value)] else []) +
    (if canUseClipboard then [CopyButton] else [])
  }

  /**
   * A block after `setUpCodeBlockButtons` has visited it: a block without `<pre>` is
   * left as it is, any other one gets one more wrapper, possibly empty.
   */
  function Augment(block: CodeBlock, canUseClipboard: bool): (r: CodeBlock)
    ensures r.pre == block.pre
    ensures block.pre.None? ==> r == block
    ensures block.pre.Some? ==> |r.wrappers| == |block.wrappers| + 1
    ensures r.wrappers[..|block.wrappers|] == block.wrappers
    ensures block.pre.Some? ==> r.wrappers[|block.wrappers|] == ButtonsFor(block.pre.value, canUseClipboard)
  {
    match block.pre
    case None => block
    case Some(pre) => block.(wrappers := block.wrappers + [ButtonsFor(pre, canUseClipboard)])
  }

  /** The number of blocks holding a `<pre>`. */
  function CountWithPre(blocks: seq<CodeBlock>): nat {
    if blocks == [] then 0
    else (if blocks[0].pre.Some? then 1 else 0) + CountWithPre(blocks[1..])
  }

  /** The number of button wrappers on all blocks together. */
  function TotalWrappers(blocks: seq<CodeBlock>): nat {
    if blocks == [] then 0 else |blocks[0].wrappers| + TotalWrappers(blocks[1..])
  }

  /** Augmenting every block adds exactly one wrapper per block that has a `<pre>`. */
  lemma {:induction false} AugmentAddsOneWrapperPerPre(before: seq<CodeBlock>, after: seq<CodeBlock>, canUseClipboard: bool)
    requires |after| == |before|
    requires forall i :: 0 <= i < |before| ==> after[i] == Augment(before[i], canUseClipboard)
    ensures TotalWrappers(after) == TotalWrappers(before) + CountWithPre(before)
  {
    if before != [] {
      AugmentAddsOneWrapperPerPre(before[1..], after[1..], canUseClipboard);
    }
  }

  // ---------------------------------------------------------------- button clicks

  /**
   * The URL a click on a DartPad button made for `gistId` opens, while the block is
   * `block`: none once the block has lost its `<pre>`.
   */
  function DartPadClick(block: CodeBlock, gistId: string): (r: Option<string>)
    ensures r.Some? <==> block.pre.Some?
    ensures r.Some? ==> GistIdOf(r.value) == Some(gistId)
  {
    GistIdRoundTrip(gistId);
    if block.pre.Some? then Some(DartPadUrl(gistId)) else None
  }

  /**
   * The text a click on the copy button writes to the clipboard: the `<pre>` text with
   * the terminal prompts removed, or nothing when that leaves the empty string.
   */
  function CopyClick(block: CodeBlock): (r: Option<string>)
    ensures r.Some? <==> block.pre.Some? && TerminalPrompt.StripPrompts(block.pre.value.text) != []
    ensures r.Some? ==> r.value == TerminalPrompt.StripPrompts(block.pre.value.text)
    ensures r.Some? ==> 0 < |r.value| <= |block.pre.value.text|
  {
    match block.pre
    case None => None
    case Some(pre) =>
      var content := TerminalPrompt.StripPrompts(pre.text);
      if |content| != 0 then Some(content) else None
  }

  /** Copying a block that shows `$ command` puts exactly `command` on the clipboard. */
  lemma CopyShellCommand(block: CodeBlock, command: string)
    requires block.pre.Some? && block.pre.value.text == "$ " + command
    requires TerminalPrompt.IsPlainCommand(command)
    ensures CopyClick(block) == Some(command)
  {
    TerminalPrompt.ShellPromptRemoved(command);
  }

  /** A block whose text is only a prompt copies nothing. */
  lemma CopyBarePromptWritesNothing(block: CodeBlock)
    requires block.pre.Some? && block.pre.value.text == "$ "
    ensures CopyClick(block) == None
  {
    var s := block.pre.value.text;
    TerminalPrompt.PromptAtLineStart(s, 0);
    TerminalPrompt.StripDeletes(s, 0, 2);
  }
}
