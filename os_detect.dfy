/**
 * The operating-system classifier of the site script: a user-agent string is mapped to
 * one of four known systems, or to no system at all, by substring tests taken in a
 * fixed order.
 */
module OsDetect {
  import opened Strings

  /** The result of the classifier; `Unknown` stands for the script's `null`. */
  datatype OS = MacOS | Windows | Linux | ChromeOS | Unknown

  /** The substring evidence for each system, tested in isolation from the others. */
  predicate Signals(userAgent: string, os: OS) {
    match os
    case MacOS => Contains(userAgent, "Mac")
    case Windows => Contains(userAgent, "Win")
    case Linux => (Contains(userAgent, "Linux") || Contains(userAgent, "X11")) && !Contains(userAgent, "Android")
    case ChromeOS => Contains(userAgent, "CrOS")
    case Unknown => false
  }

  /** Position of a system in the order in which the classifier tests it. */
  function Rank(os: OS): nat {
    match os
    case MacOS => 0
    case Windows => 1
    case Linux => 2
    case ChromeOS => 3
    case Unknown => 4
  }

  /** The order of the tests, as a list: the reference against which `GetOS` is proved. */
  const Precedence: seq<OS> := [MacOS, Windows, Linux, ChromeOS]

  /** The first system of `candidates` that the agent signals, or `Unknown`. */
  function FirstSignalled(userAgent: string, candidates: seq<OS>): OS {
    if candidates == [] then Unknown
    else if Signals(userAgent, candidates[0]) then candidates[0]
    else FirstSignalled(userAgent, candidates[1..])
  }

  /** `getOS()`, with `window.navigator.userAgent` passed in. */
  function GetOS(userAgent: string): (os: OS)
    ensures os != Unknown ==> Signals(userAgent, os)
    ensures os == Unknown ==> forall o :: !Signals(userAgent, o)
  {
    if Contains(userAgent, "Mac") then MacOS
    else if Contains(userAgent, "Win") then Windows
    else if (Contains(userAgent, "Linux") || Contains(userAgent, "X11")) && !Contains(userAgent, "Android") then Linux
    else if Contains(userAgent, "CrOS") then ChromeOS
    else Unknown
  }

  /** The classifier returns the first system, in test order, whose evidence is present. */
  lemma GetOSFollowsPrecedence(userAgent: string)
    ensures GetOS(userAgent) == FirstSignalled(userAgent, Precedence)
  {
    var ua := userAgent;
    assert [ChromeOS][1..] == [];
    assert FirstSignalled(ua, [ChromeOS]) == if Signals(ua, ChromeOS) then ChromeOS else Unknown;
    assert [Linux, ChromeOS][1..] == [ChromeOS];
    assert FirstSignalled(ua, [Linux, ChromeOS]) == if Signals(ua, Linux) then Linux else FirstSignalled(ua, [ChromeOS]);
    assert [Windows, Linux, ChromeOS][1..] == [Linux, ChromeOS];
    assert FirstSignalled(ua, [Windows, Linux, ChromeOS]) ==
           if Signals(ua, Windows) then Windows else FirstSignalled(ua, [Linux, ChromeOS]);
    assert Precedence[1..] == [Windows, Linux, ChromeOS];
  }

  /**
   * A system is the verdict exactly when its evidence is present and no system tested
   * before it has evidence; `Unknown` is the verdict exactly when no system has any.
   */
  lemma GetOSIsFirstSignal(userAgent: string, os: OS)
    ensures GetOS(userAgent) == os <==>
              (os == Unknown || Signals(userAgent, os)) &&
              forall o :: Rank(o) < Rank(os) ==> !Signals(userAgent, o)
  {
    var r := GetOS(userAgent);
    if r == os {
      forall o | Rank(o) < Rank(os) ensures !Signals(userAgent, o) {
        match o
        case MacOS =>
        case Windows =>
        case Linux =>
        case ChromeOS =>
        case Unknown =>
      }
    } else if os == Unknown || Signals(userAgent, os) {
      assert r != Unknown;
      assert Rank(r) < Rank(os) && Signals(userAgent, r) by {
        match r
        case MacOS =>
        case Windows =>
        case Linux =>
        case ChromeOS =>
      }
    }
  }

  /** `Mac` anywhere makes the verdict `MacOS`, whatever else the agent contains. */
  lemma MacAlwaysWins(userAgent: string)
    ensures GetOS(userAgent) == MacOS <==> Contains(userAgent, "Mac")
  {
  }

  /** `Windows` exactly when `Win` is present and `Mac` is not. */
  lemma WindowsIff(userAgent: string)
    ensures GetOS(userAgent) == Windows <==> Contains(userAgent, "Win") && !Contains(userAgent, "Mac")
  {
  }

  /** Without `Mac` and `Win`: `Linux` exactly when `Linux` or `X11` is present and `Android` is not. */
  lemma LinuxIff(userAgent: string)
    requires !Contains(userAgent, "Mac") && !Contains(userAgent, "Win")
    ensures GetOS(userAgent) == Linux <==>
              (Contains(userAgent, "Linux") || Contains(userAgent, "X11")) && !Contains(userAgent, "Android")
  {
  }

  /** An agent that mentions `Android` is never classified as `Linux`. */
  lemma AndroidIsNeverLinux(userAgent: string)
    requires Contains(userAgent, "Android")
    ensures GetOS(userAgent) != Linux
  {
  }

  /** `ChromeOS` only when `CrOS` is present and every earlier test failed. */
  lemma ChromeOSIff(userAgent: string)
    ensures GetOS(userAgent) == ChromeOS <==>
              Contains(userAgent, "CrOS") && !Signals(userAgent, MacOS) &&
              !Signals(userAgent, Windows) && !Signals(userAgent, Linux)
  {
  }

  /** The tokens a ChromeOS agent string carries. */
  lemma ChromebookAgentHas(userAgent: string)
    requires userAgent == "(X11; CrOS x86_64)"
    ensures Contains(userAgent, "X11") && Contains(userAgent, "CrOS")
  {
    FoundAt(userAgent, "X11", 1);
    FoundAt(userAgent, "CrOS", 6);
  }

  /** A ChromeOS agent string carries `X11`, so the `Linux` test claims it before `CrOS` is looked at. */
  lemma ChromebookAgentIsLinux(userAgent: string)
    requires userAgent == "(X11; CrOS x86_64)"
    ensures Signals(userAgent, ChromeOS)
    ensures GetOS(userAgent) == Linux
  {
    ChromebookAgentHas(userAgent);
    AbsentFirstChar(userAgent, "Mac");
    AbsentFirstChar(userAgent, "Win");
    AbsentFirstChar(userAgent, "Android");
  }

  /** The tokens `Linux; Android` carries. */
  lemma AndroidAgentHas(userAgent: string)
    requires userAgent == "Linux; Android"
    ensures Contains(userAgent, "Linux") && Contains(userAgent, "Android")
  {
    FoundAt(userAgent, "Linux", 0);
    FoundAt(userAgent, "Android", 7);
  }

  /** `Linux; Android` alone matches no test: the `Linux` test is vetoed and nothing follows. */
  lemma AndroidAgentIsUnknown(userAgent: string)
    requires userAgent == "Linux; Android"
    ensures Contains(userAgent, "Linux")
    ensures GetOS(userAgent) == Unknown
  {
    AndroidAgentHas(userAgent);
    AbsentFirstChar(userAgent, "Mac");
    AbsentFirstChar(userAgent, "Win");
    AbsentFirstChar(userAgent, "CrOS");
  }
}
