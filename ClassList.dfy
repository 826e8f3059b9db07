/**
 * How a string of class names becomes the set of classes an element carries.
 * Both `className = "p-badge p-component"` and an `ngClass` key such as
 * `'p-badge p-component'` name several classes at once, separated by white space.
 */
module ClassList {

  /** The ASCII white space that separates class names. */
  predicate IsSpace(c: char) {
    c == ' ' || c == '\t' || c == '\n' || c == '\r' || c == '\U{000C}'
  }

  /** A single class name: non-empty and free of white space. */
  predicate IsName(s: string) {
    s != [] && forall i :: 0 <= i < |s| ==> !IsSpace(s[i])
  }

  /** Length of the name at the start of `s` (zero when `s` starts with white space). */
  function NameLength(s: string): (n: nat)
    ensures n <= |s|
    ensures forall i :: 0 <= i < n ==> !IsSpace(s[i])
    ensures n < |s| ==> IsSpace(s[n])
  {
    if s == [] || IsSpace(s[0]) then 0 else 1 + NameLength(s[1..])
  }

  /** The class names of `s`, in order, with the white space between them dropped. */
  function Names(s: string): (r: seq<string>)
    ensures forall k :: 0 <= k < |r| ==> IsName(r[k])
    decreases |s|
  {
    if s == [] then []
    else if IsSpace(s[0]) then Names(s[1..])
    else
      var n := NameLength(s);
      [s[..n]] + Names(s[n..])
  }

  /** The set of classes that a class attribute `s` gives an element. */
  function Classes(s: string): (r: set<string>)
    ensures forall c :: c in r ==> IsName(c)
  {
    set c | c in Names(s)
  }

  lemma {:induction false} NameLengthOfName(s: string)
    requires forall i :: 0 <= i < |s| ==> !IsSpace(s[i])
    ensures NameLength(s) == |s|
  {
    if s != [] {
      NameLengthOfName(s[1..]);
    }
  }

  lemma {:induction false} NameLengthBeforeSpace(a: string, b: string)
    requires forall i :: 0 <= i < |a| ==> !IsSpace(a[i])
    ensures NameLength(a + [' '] + b) == |a|
  {
    if a != [] {
      assert (a + [' '] + b)[1..] == a[1..] + [' '] + b;
      NameLengthBeforeSpace(a[1..], b);
    }
  }

  /** A single name is its own class list. */
  lemma OneName(a: string)
    requires IsName(a)
    ensures Names(a) == [a]
    ensures Classes(a) == {a}
  {
    NameLengthOfName(a);
    assert a[..|a|] == a;
    assert a[|a|..] == [];
  }

  /** Two names separated by one space give exactly those two classes. */
  lemma TwoNames(a: string, b: string)
    requires IsName(a) && IsName(b)
    ensures Names(a + [' '] + b) == [a, b]
    ensures Classes(a + [' '] + b) == {a, b}
  {
    var s := a + [' '] + b;
    NameLengthBeforeSpace(a, b);
    assert s[..|a|] == a;
    assert s[|a|..] == [' '] + b;
    assert ([' '] + b)[1..] == b;
    OneName(b);
    assert Names(s) == [a] + Names(b);
  }
}
