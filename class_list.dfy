/** An element's class list (`DOMTokenList`) as a set of class names. */
module ClassList {

  /** `classList.toggle(c)`: remove `c` if present, add it otherwise. */
  function Toggle(classes: set<string>, c: string): (r: set<string>)
    ensures c in r <==> c !in classes
    ensures forall d :: d != c ==> (d in r <==> d in classes)
  {
    if c in classes then classes - {c} else classes + {c}
  }

  /** Toggling the same class twice gives back the original list. */
  lemma ToggleTwice(classes: set<string>, c: string)
    ensures Toggle(Toggle(classes, c), c) == classes
  {
    var r := Toggle(Toggle(classes, c), c);
    assert forall d :: d in r <==> d in classes;
  }
}
