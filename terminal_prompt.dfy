/**
 * `text.replace(terminalReplacementPattern, '')` for the pattern
 * `/^(\s*\$\s*)|(C:\\(.*)>\s*)/gm`, written out as the backtracking matcher of
 * JavaScript regular expressions runs it: the global replace scans the text from left
 * to right, tries the first alternative and then the second at each position, deletes
 * the first match it finds and resumes right after it.
 */
module TerminalPrompt {
  import opened Optional

  /** A JavaScript line terminator: what `.` never matches and what `^` follows under the `m` flag. */
  predicate IsLineTerminator(c: char) {
    c == '\n' || c == '\r' || c == '\U{2028}' || c == '\U{2029}'
  }

  /** JavaScript's `\s`: white space (including the Unicode space separators) and line terminators. */
  predicate IsSpace(c: char) {
    c == '\t' || c == '\U{000B}' || c == '\U{000C}' || c == ' ' || c == '\U{00A0}' || c == '\U{FEFF}' ||
    c == '\U{1680}' || ('\U{2000}' <= c <= '\U{200A}') || c == '\U{202F}' || c == '\U{205F}' ||
    c == '\U{3000}' || IsLineTerminator(c)
  }

  /** `.`: any character but a line terminator. */
  predicate IsDot(c: char) {
    !IsLineTerminator(c)
  }

  /** The length of the longest run of characters of a class starting at `i`: a greedy `*`. */
  function Run(s: string, i: nat, inClass: char -> bool): (n: nat)
    requires i <= |s|
    ensures i + n <= |s|
    ensures forall k :: i <= k < i + n ==> inClass(s[k])
    ensures i + n == |s| || !inClass(s[i + n])
    decreases |s| - i
  {
    if i < |s| && inClass(s[i]) then 1 + Run(s, i + 1, inClass) else 0
  }

  /** `^` under the `m` flag. */
  predicate AtLineStart(s: string, i: nat)
    requires i <= |s|
  {
    i == 0 || IsLineTerminator(s[i - 1])
  }

  /**
   * The length of the match of the first alternative, `^(\s*\$\s*)`, at `i`. The greedy
   * `\s*` can give nothing back that would let `\$` match, since `$` is not a space.
   */
  function ShellPromptMatch(s: string, i: nat): (m: Option<nat>)
    requires i <= |s|
    ensures m.Some? ==> 0 < m.value <= |s| - i
  {
    if !AtLineStart(s, i) then None
    else
      var dollar := i + Run(s, i, IsSpace);
      if dollar < |s| && s[dollar] == '$' then Some(dollar + 1 + Run(s, dollar + 1, IsSpace) - i)
      else None
  }

  /** The index of the last `>` in `s[lo..hi]`, if there is one. */
  function LastGreaterThan(s: string, lo: nat, hi: nat): (r: Option<nat>)
    requires lo <= hi <= |s|
    ensures r.Some? ==> lo <= r.value < hi && s[r.value] == '>'
    ensures r.Some? ==> forall k :: r.value < k < hi ==> s[k] != '>'
    ensures r.None? ==> forall k :: lo <= k < hi ==> s[k] != '>'
    decreases hi - lo
  {
    if lo == hi then None
    else if s[hi - 1] == '>' then Some(hi - 1)
    else LastGreaterThan(s, lo, hi - 1)
  }

  /**
   * The length of the match of the second alternative, `(C:\\(.*)>\s*)`, at `i`: the
   * greedy `.*` backs off to the last `>` of the line, then `\s*` takes every space after it.
   */
  function DrivePromptMatch(s: string, i: nat): (m: Option<nat>)
    requires i <= |s|
    ensures m.Some? ==> 0 < m.value <= |s| - i
  {
    if i + 3 <= |s| && s[i..i + 3] == "C:\\" then
      match LastGreaterThan(s, i + 3, i + 3 + Run(s, i + 3, IsDot))
      case Some(gt) => Some(gt + 1 + Run(s, gt + 1, IsSpace) - i)
      case None => None
    else None
  }

  /** The length of the match of the whole pattern at `i`: the first alternative wins. */
  function MatchAt(s: string, i: nat): (m: Option<nat>)
    requires i <= |s|
    ensures m.Some? ==> 0 < m.value <= |s| - i
  {
    match ShellPromptMatch(s, i)
    case Some(n) => Some(n)
    case None => DrivePromptMatch(s, i)
  }

  /** The global replace by the empty string of every match at or after `i`. */
  function StripFrom(s: string, i: nat): (r: string)
    requires i <= |s|
    ensures |r| <= |s| - i
    decreases |s| - i
  {
    if i == |s| then []
    else
      var m := MatchAt(s, i);
      if m.Some? then StripFrom(s, i + m.value) else [s[i]] + StripFrom(s, i + 1)
  }

  /** `text.replace(terminalReplacementPattern, '')`. */
  function StripPrompts(text: string): (r: string)
    ensures |r| <= |text|
  {
    StripFrom(text, 0)
  }

  /** There is no `$` and no `C:\` at or after `i`. */
  predicate NoMarkersFrom(s: string, i: nat) {
    forall k :: i <= k < |s| ==> s[k] != '$' && s[k] != '\\'
  }

  /** Text without a `$` and without a backslash is copied unchanged. */
  lemma {:induction false} UnmarkedTextUnchanged(s: string, i: nat)
    requires i <= |s| && NoMarkersFrom(s, i)
    ensures StripFrom(s, i) == s[i..]
    decreases |s| - i
  {
    if i < |s| {
      assert MatchAt(s, i).None? by {
        var dollar := i + Run(s, i, IsSpace);
        assert dollar < |s| ==> s[dollar] != '$';
        assert i + 3 <= |s| ==> s[i..i + 3][2] != '\\';
      }
      UnmarkedTextUnchanged(s, i + 1);
      assert s[i..] == [s[i]] + s[i + 1..];
    }
  }

  /** The text holds no line terminator. */
  predicate IsSingleLine(t: string) {
    '\n' !in t && '\r' !in t && '\U{2028}' !in t && '\U{2029}' !in t
  }

  /**
   * A command as typed after a prompt: one line that does not start with a space and
   * holds no backslash, so that nothing in it matches the pattern once it follows a prompt.
   */
  predicate IsPlainCommand(command: string) {
    |command| > 0 && !IsSpace(command[0]) && '\\' !in command && IsSingleLine(command)
  }

  /** One step of the replace where no match starts: the character is kept. */
  lemma StripKeeps(s: string, i: nat)
    requires i < |s| && MatchAt(s, i).None?
    ensures StripFrom(s, i) == [s[i]] + StripFrom(s, i + 1)
  {
  }

  /** One step of the replace where a match starts: it is deleted. */
  lemma StripDeletes(s: string, i: nat, n: nat)
    requires i < |s| && MatchAt(s, i) == Some(n)
    ensures StripFrom(s, i) == StripFrom(s, i + n)
  {
  }

  /**
   * No match starts at `i` unless `i` starts a line holding spaces then `$`, or unless
   * `C:\\` starts at `i`.
   */
  lemma NoMatchHere(s: string, i: nat)
    requires i < |s|
    requires AtLineStart(s, i) ==> !IsSpace(s[i]) && s[i] != '$'
    requires i + 2 < |s| ==> s[i + 1] != ':' || s[i + 2] != '\\'
    ensures MatchAt(s, i).None?
  {
    if AtLineStart(s, i) {
      assert Run(s, i, IsSpace) == 0;
    }
  }

  /**
   * Within one line, characters that no alternative can start a match on are kept: there
   * is no backslash, and the line does not begin with a space or a `$`. A `$` later in
   * the line is kept, since `^` does not hold there.
   */
  lemma {:induction false} PlainSegmentKept(s: string, i: nat, j: nat)
    requires i <= j <= |s|
    requires forall k :: i <= k < j ==> s[k] != '\\' && !IsLineTerminator(s[k])
    requires i < j && AtLineStart(s, i) ==> !IsSpace(s[i]) && s[i] != '$'
    requires j == |s| || IsLineTerminator(s[j])
    ensures StripFrom(s, i) == s[i..j] + StripFrom(s, j)
    decreases j - i
  {
    if i < j {
      NoMatchHere(s, i);
      StripKeeps(s, i);
      PlainSegmentKept(s, i + 1, j);
      ConsSlice(s, i, j, StripFrom(s, j));
    }
  }

  /** `s[i..j]` is `s[i]` followed by `s[i + 1..j]`, whatever follows. */
  lemma ConsSlice(s: string, i: nat, j: nat, rest: string)
    requires i < j <= |s|
    ensures [s[i]] + (s[i + 1..j] + rest) == s[i..j] + rest
  {
    assert s[i..j] == [s[i]] + s[i + 1..j];
  }

  /** A `$ ` at the start of a line, followed by a non-space, is a match of length 2. */
  lemma PromptAtLineStart(s: string, i: nat)
    requires i + 1 < |s| && AtLineStart(s, i) && s[i] == '$' && s[i + 1] == ' '
    requires i + 2 == |s| || !IsSpace(s[i + 2])
    ensures MatchAt(s, i) == Some(2)
  {
    assert Run(s, i, IsSpace) == 0;
    assert Run(s, i + 2, IsSpace) == 0;
    assert Run(s, i + 1, IsSpace) == 1;
  }

  /** The layout of two prompt lines, character by character. */
  lemma PromptLinesLayout(first: string, second: string, s: string)
    requires IsPlainCommand(first) && IsPlainCommand(second)
    requires s == "$ " + first + "\n" + "$ " + second
    ensures |s| == |first| + |second| + 5
    ensures s[0] == '$' && s[1] == ' ' && s[2] == first[0] && s[5 + |first|] == second[0]
    ensures s[1 + |first|] == first[|first| - 1]
    ensures s[2 + |first|] == '\n' && s[3 + |first|] == '$' && s[4 + |first|] == ' '
    ensures s[2..2 + |first|] == first && s[5 + |first|..] == second
    ensures forall k :: 2 <= k < 2 + |first| ==> s[k] != '\\' && !IsLineTerminator(s[k])
    ensures forall k :: 5 + |first| <= k < |s| ==> s[k] != '\\' && !IsLineTerminator(s[k])
  {
    var n := |first|;
    forall k | 2 <= k < 2 + n ensures s[k] != '\\' && !IsLineTerminator(s[k]) {
      assert s[k] == first[k - 2];
      assert first[k - 2] in first;
    }
    forall k | 5 + n <= k < |s| ensures s[k] != '\\' && !IsLineTerminator(s[k]) {
      assert s[k] == second[k - 5 - n];
      assert second[k - 5 - n] in second;
    }
  }

  /** Two shell-prompt lines lose their prompts and keep the line break between them. */
  lemma ShellPromptLines(first: string, second: string)
    requires IsPlainCommand(first) && IsPlainCommand(second)
    ensures StripPrompts("$ " + first + "\n" + "$ " + second) == first + "\n" + second
  {
    var s := "$ " + first + "\n" + "$ " + second;
    var n := |first|;
    PromptLinesLayout(first, second, s);
    SecondPromptLine(first, second, s);
    PromptAtLineStart(s, 0);
    StripDeletes(s, 0, 2);
    PlainSegmentKept(s, 2, 2 + n);
    JoinLines(first, second, StripFrom(s, 2), StripFrom(s, 2 + n), StripFrom(s, 5 + n));
  }

  /** From the line break on, the break is kept and the second prompt deleted. */
  lemma SecondPromptLine(first: string, second: string, s: string)
    requires IsPlainCommand(first) && IsPlainCommand(second)
    requires s == "$ " + first + "\n" + "$ " + second
    ensures StripFrom(s, 2 + |first|) == "\n" + StripFrom(s, 5 + |first|)
    ensures StripFrom(s, 5 + |first|) == second + []
  {
    var n := |first|;
    PromptLinesLayout(first, second, s);
    NoMatchHere(s, 2 + n);
    StripKeeps(s, 2 + n);
    PromptAtLineStart(s, 3 + n);
    StripDeletes(s, 3 + n, 2);
    PlainSegmentKept(s, 5 + n, |s|);
  }

  /** The sequence algebra that assembles the stripped lines. */
  lemma JoinLines(first: string, second: string, whole: string, fromBreak: string, last: string)
    requires whole == first + fromBreak
    requires fromBreak == "\n" + last
    requires last == second + []
    ensures whole == first + "\n" + second
  {
  }

  /**
   * A `C:\` at `i` whose line runs to the end of the text matches up to its last `>`
   * and the single space after it.
   */
  lemma DrivePromptAt(s: string, i: nat, gt: nat)
    requires i + 3 <= gt && gt + 1 < |s|
    requires s[i] == 'C' && s[i + 1] == ':' && s[i + 2] == '\\'
    requires forall k :: i + 3 <= k < |s| ==> !IsLineTerminator(s[k])
    requires s[gt] == '>' && forall k :: gt < k < |s| ==> s[k] != '>'
    requires s[gt + 1] == ' ' && (gt + 2 == |s| || !IsSpace(s[gt + 2]))
    ensures MatchAt(s, i) == Some(gt + 2 - i)
  {
    NoShellPromptAtNonSpace(s, i);
    DriveMatchLength(s, i, gt);
  }

  /** The first alternative cannot match at a character that is neither a space nor `$`. */
  lemma NoShellPromptAtNonSpace(s: string, i: nat)
    requires i < |s| && !IsSpace(s[i]) && s[i] != '$'
    ensures ShellPromptMatch(s, i).None?
  {
    if AtLineStart(s, i) {
      assert Run(s, i, IsSpace) == 0;
    }
  }

  /** The length of the second alternative's match in the setting of `DrivePromptAt`. */
  lemma DriveMatchLength(s: string, i: nat, gt: nat)
    requires i + 3 <= gt && gt + 1 < |s|
    requires s[i] == 'C' && s[i + 1] == ':' && s[i + 2] == '\\'
    requires forall k :: i + 3 <= k < |s| ==> !IsLineTerminator(s[k])
    requires s[gt] == '>' && forall k :: gt < k < |s| ==> s[k] != '>'
    requires s[gt + 1] == ' ' && (gt + 2 == |s| || !IsSpace(s[gt + 2]))
    ensures DrivePromptMatch(s, i) == Some(gt + 2 - i)
  {
    assert s[i..i + 3] == "C:\\";
    assert Run(s, i + 3, IsDot) == |s| - i - 3;
    LastGreaterThanIs(s, i + 3, |s|, gt);
    assert Run(s, gt + 2, IsSpace) == 0;
    assert Run(s, gt + 1, IsSpace) == 1;
  }

  /** The layout of a drive prompt line, character by character. */
  lemma DriveLineLayout(path: string, command: string, s: string)
    requires IsSingleLine(path)
    requires IsPlainCommand(command) && '>' !in command
    requires s == "C:\\" + path + "> " + command
    ensures |s| == |path| + |command| + 5
    ensures s[0] == 'C' && s[1] == ':' && s[2] == '\\'
    ensures s[3 + |path|] == '>' && s[4 + |path|] == ' ' && s[5 + |path|] == command[0]
    ensures s[5 + |path|..] == command
    ensures forall k :: 3 <= k < |s| ==> !IsLineTerminator(s[k])
    ensures forall k :: 3 + |path| < k < |s| ==> s[k] != '>'
    ensures forall k :: 5 + |path| <= k < |s| ==> s[k] != '\\'
  {
    var gt := 3 + |path|;
    forall k | 3 <= k < |s| ensures !IsLineTerminator(s[k]) {
      if k < gt {
        assert s[k] == path[k - 3];
        assert path[k - 3] in path;
      } else if k > gt + 1 {
        assert s[k] == command[k - gt - 2];
        assert command[k - gt - 2] in command;
      }
    }
    forall k | gt + 2 <= k < |s| ensures s[k] != '>' && s[k] != '\\' {
      assert s[k] == command[k - gt - 2];
      assert command[k - gt - 2] in command;
    }
  }

  /** A `C:\...>` prompt in front of a command is deleted, directory and all. */
  lemma DrivePromptRemoved(path: string, command: string)
    requires IsSingleLine(path)
    requires IsPlainCommand(command) && '>' !in command
    ensures StripPrompts("C:\\" + path + "> " + command) == command
  {
    var s := "C:\\" + path + "> " + command;
    var gt := 3 + |path|;
    DriveLineLayout(path, command, s);
    DrivePromptAt(s, 0, gt);
    StripDeletes(s, 0, gt + 2);
    PlainSegmentKept(s, gt + 2, |s|);
  }

  /** Where no match starts anywhere in `[i, j)`, the replace copies `s[i..j]` through. */
  lemma {:induction false} UnmatchedStretchKept(s: string, i: nat, j: nat)
    requires i <= j <= |s|
    requires forall k :: i <= k < j ==> MatchAt(s, k).None?
    ensures StripFrom(s, i) == s[i..j] + StripFrom(s, j)
    decreases j - i
  {
    if i < j {
      StripKeeps(s, i);
      UnmatchedStretchKept(s, i + 1, j);
      ConsSlice(s, i, j, StripFrom(s, j));
    }
  }

  /**
   * The layout of `before C:\path> command`: the drive prompt's characters sit after
   * `before`, and no match starts inside `before`.
   */
  lemma MidLineLayout(before: string, path: string, command: string, s: string)
    requires IsPlainCommand(before) && before[0] != '$'
    requires IsSingleLine(path)
    requires IsPlainCommand(command) && '>' !in command
    requires s == before + ("C:\\" + path + "> " + command)
    ensures |s| == |before| + |path| + |command| + 5 && s[..|before|] == before
    ensures s[|before|] == 'C' && s[|before| + 1] == ':' && s[|before| + 2] == '\\'
    ensures s[|before| + 3 + |path|] == '>' && s[|before| + 4 + |path|] == ' '
    ensures s[|before| + 5 + |path|] == command[0] && s[|before| + 5 + |path|..] == command
    ensures forall k :: |before| + 3 <= k < |s| ==> !IsLineTerminator(s[k])
    ensures forall k :: |before| + 3 + |path| < k < |s| ==> s[k] != '>'
    ensures forall k :: |before| + 5 + |path| <= k < |s| ==> s[k] != '\\'
    ensures forall k :: 0 <= k < |before| ==> MatchAt(s, k).None?
  {
    var d := "C:\\" + path + "> " + command;
    var b := |before|;
    DriveLineLayout(path, command, d);
    assert s[b..] == d;
    forall k | 0 <= k < b ensures MatchAt(s, k).None? {
      assert s[k] == before[k];
      if k + 2 < b {
        assert s[k + 2] == before[k + 2] && before[k + 2] in before;
      }
      NoMatchHere(s, k);
    }
  }

  /**
   * The second alternative is not anchored: a `C:\...>` prompt in the middle of a line
   * is deleted too, and the text in front of it is kept, so `before C:\path> command`
   * copies as `before command`.
   */
  lemma MidLineDrivePromptRemoved(before: string, path: string, command: string)
    requires IsPlainCommand(before) && before[0] != '$'
    requires IsSingleLine(path)
    requires IsPlainCommand(command) && '>' !in command
    ensures StripPrompts(before + "C:\\" + path + "> " + command) == before + command
  {
    var s := before + ("C:\\" + path + "> " + command);
    assert s == before + "C:\\" + path + "> " + command;
    var b := |before|;
    var gt := b + 3 + |path|;
    MidLineLayout(before, path, command, s);
    UnmatchedStretchKept(s, 0, b);
    DrivePromptThenText(s, b, gt);
  }

  /** From a drive prompt on, the replace deletes the prompt and keeps the backslash-free rest of the line. */
  lemma DrivePromptThenText(s: string, i: nat, gt: nat)
    requires i + 3 <= gt && gt + 1 < |s|
    requires s[i] == 'C' && s[i + 1] == ':' && s[i + 2] == '\\'
    requires forall k :: i + 3 <= k < |s| ==> !IsLineTerminator(s[k])
    requires s[gt] == '>' && forall k :: gt < k < |s| ==> s[k] != '>'
    requires s[gt + 1] == ' ' && (gt + 2 == |s| || !IsSpace(s[gt + 2]))
    requires forall k :: gt + 2 <= k < |s| ==> s[k] != '\\'
    ensures StripFrom(s, i) == s[gt + 2..]
  {
    DrivePromptAt(s, i, gt);
    StripDeletes(s, i, gt + 2 - i);
    PlainSegmentKept(s, gt + 2, |s|);
  }

  /** `echo C:\dir> x` copies as `echo x`: the text before a mid-line drive prompt stays. */
  lemma MidLineDriveExample(text: string)
    requires text == "echo C:\\dir> x"
    ensures StripPrompts(text) == "echo x"
  {
    MidLineExamplePlain();
    MidLineDrivePromptRemoved("echo ", "dir", "x");
    assert text == "echo " + "C:\\" + "dir" + "> " + "x";
  }

  /** The `>` after which no other `>` follows is the last one. */
  lemma LastGreaterThanIs(s: string, lo: nat, hi: nat, gt: nat)
    requires lo <= gt < hi <= |s|
    requires s[gt] == '>' && forall k :: gt < k < hi ==> s[k] != '>'
    ensures LastGreaterThan(s, lo, hi) == Some(gt)
  {
    var r := LastGreaterThan(s, lo, hi);
    assert r.Some? && r.value >= gt;
  }

  /** The commands of the examples below are plain. */
  lemma ExampleCommandsPlain()
    ensures IsPlainCommand("echo hi") && IsPlainCommand("echo bye")
    ensures IsPlainCommand("dir") && '>' !in "dir" && IsSingleLine("Users\\x")
  {
  }

  /** The pieces of the mid-line example below are plain. */
  lemma MidLineExamplePlain()
    ensures IsPlainCommand("echo ") && "echo "[0] != '$' && IsSingleLine("dir")
    ensures IsPlainCommand("x") && '>' !in "x"
  {
  }

  /** The two-line shell example: `$ echo hi` and `$ echo bye` copy as `echo hi` and `echo bye`. */
  lemma ShellExample(text: string)
    requires text == "$ echo hi\n$ echo bye"
    ensures StripPrompts(text) == "echo hi\necho bye"
  {
    ExampleCommandsPlain();
    ShellPromptLines("echo hi", "echo bye");
    assert text == "$ " + "echo hi" + "\n" + "$ " + "echo bye";
  }

  /** The Windows example: `C:\Users\x> dir` copies as `dir`. */
  lemma DriveExample(text: string)
    requires text == "C:\\Users\\x> dir"
    ensures StripPrompts(text) == "dir"
  {
    ExampleCommandsPlain();
    DrivePromptRemoved("Users\\x", "dir");
    assert text == "C:\\" + "Users\\x" + "> " + "dir";
  }

  /** A single `$ ` prompt in front of a command is deleted, and only it. */
  lemma ShellPromptRemoved(command: string)
    requires IsPlainCommand(command)
    ensures StripPrompts("$ " + command) == command
  {
    var s := "$ " + command;
    assert s[2..] == command && s[2] == command[0];
    forall k | 2 <= k < |s| ensures s[k] != '\\' && !IsLineTerminator(s[k]) {
      assert s[k] == command[k - 2];
      assert command[k - 2] in command;
    }
    PromptAtLineStart(s, 0);
    StripDeletes(s, 0, 2);
    PlainSegmentKept(s, 2, |s|);
  }

  /** A `$` that does not start its line is not a prompt: `echo $HOME` copies unchanged. */
  lemma MidLineDollarKept(text: string)
    requires text == "echo $HOME"
    ensures StripPrompts(text) == text
  {
    assert '\\' !in text && IsSingleLine(text);
    forall k | 0 <= k < |text| ensures text[k] != '\\' && !IsLineTerminator(text[k]) {
      assert text[k] in text;
    }
    PlainSegmentKept(text, 0, |text|);
  }
}
