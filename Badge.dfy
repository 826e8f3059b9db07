/**
 * The `p-badge` widget: a span whose classes are a function of its inputs
 * (`containerClass()`), rendered only while `badgeDisabled` is false.
 */
module Badge {
  import opened Wrappers
  import ClassList

  const BaseClassKey := "p-badge p-component"
  const NoGutterClass := "p-badge-no-gutter"
  const LargeClass := "p-badge-lg"
  const XLargeClass := "p-badge-xl"
  const InfoClass := "p-badge-info"
  const SuccessClass := "p-badge-success"
  const WarningClass := "p-badge-warning"
  const DangerClass := "p-badge-danger"

  /** The classes every rendered badge carries. */
  const BaseClasses: set<string> := {"p-badge", "p-component"}
  const SizeClasses: set<string> := {LargeClass, XLargeClass}
  const SeverityClasses: set<string> := {InfoClass, SuccessClass, WarningClass, DangerClass}

  /** The object literal `containerClass()` returns: each key with its flag, in source order. */
  function ClassFlags(value: Option<string>, size: Option<string>, severity: Option<string>): (r: seq<(string, bool)>)
    ensures |r| == 8 && r[0] == (BaseClassKey, true)
    ensures !(r[2].1 && r[3].1)
    ensures forall j, k :: 4 <= j < k < 8 ==> !(r[j].1 && r[k].1)
  {
    DistinctInputs();
    [ (BaseClassKey, true),
      (NoGutterClass, value.Some? && |value.value| == 1),
      (LargeClass, size == Some("large")),
      (XLargeClass, size == Some("xlarge")),
      (InfoClass, severity == Some("info")),
      (SuccessClass, severity == Some("success")),
      (WarningClass, severity == Some("warning")),
      (DangerClass, severity == Some("danger")) ]
  }

  /** The classes one entry of such an object contributes. */
  function Entry(flag: (string, bool)): (r: set<string>)
    ensures !flag.1 ==> r == {}
    ensures forall c :: c in r ==> ClassList.IsName(c)
  {
    if flag.1 then ClassList.Classes(flag.0) else {}
  }

  /** The classes `ngClass` gives an element for such an object: every class named by a key whose flag is true. */
  function Applied(flags: seq<(string, bool)>): (r: set<string>)
    ensures forall k :: 0 <= k < |flags| ==> Entry(flags[k]) <= r
  {
    if flags == [] then {}
    else
      var rest := Applied(flags[1..]);
      assert forall k :: 1 <= k < |flags| ==> flags[k] == flags[1..][k - 1];
      Entry(flags[0]) + rest
  }

  lemma AppliedFrom(f: seq<(string, bool)>, i: nat)
    requires i < |f|
    ensures Applied(f[i..]) == Entry(f[i]) + Applied(f[i + 1..])
  {
    assert f[i..][1..] == f[i + 1..];
  }

  /** An object of eight entries applies the union of what its entries contribute. */
  lemma AppliedEight(f: seq<(string, bool)>)
    requires |f| == 8
    ensures Applied(f) == Entry(f[0]) + Entry(f[1]) + Entry(f[2]) + Entry(f[3])
                        + Entry(f[4]) + Entry(f[5]) + Entry(f[6]) + Entry(f[7])
  {
    assert f[0..] == f;
    assert f[8..] == [];
    AppliedFrom(f, 0); AppliedFrom(f, 1); AppliedFrom(f, 2); AppliedFrom(f, 3);
    AppliedFrom(f, 4); AppliedFrom(f, 5); AppliedFrom(f, 6); AppliedFrom(f, 7);
  }

  /** What each entry of `containerClass()` contributes, written out: the classes the span is meant to get. */
  lemma ClassFlagsApplied(value: Option<string>, size: Option<string>, severity: Option<string>)
    ensures Applied(ClassFlags(value, size, severity)) ==
      BaseClasses
      + (if value.Some? && |value.value| == 1 then {NoGutterClass} else {})
      + (if size == Some("large") then {LargeClass} else {})
      + (if size == Some("xlarge") then {XLargeClass} else {})
      + (if severity == Some("info") then {InfoClass} else {})
      + (if severity == Some("success") then {SuccessClass} else {})
      + (if severity == Some("warning") then {WarningClass} else {})
      + (if severity == Some("danger") then {DangerClass} else {})
  {
    var f := ClassFlags(value, size, severity);
    AppliedEight(f);
    BaseEntry();
    LiteralNames();
    OneEntry(NoGutterClass, f[1].1);
    OneEntry(LargeClass, f[2].1);
    OneEntry(XLargeClass, f[3].1);
    OneEntry(InfoClass, f[4].1);
    OneEntry(SuccessClass, f[5].1);
    OneEntry(WarningClass, f[6].1);
    OneEntry(DangerClass, f[7].1);
  }

  /** Every modifier key of `containerClass()` names a single class. */
  lemma LiteralNames()
    ensures ClassList.IsName(NoGutterClass) && ClassList.IsName(LargeClass) && ClassList.IsName(XLargeClass)
    ensures ClassList.IsName(InfoClass) && ClassList.IsName(SuccessClass)
    ensures ClassList.IsName(WarningClass) && ClassList.IsName(DangerClass)
  {
  }

  /** The nine class names `containerClass()` can produce are pairwise distinct. */
  lemma DistinctNames()
    ensures "p-badge" != "p-component" && "p-badge" != NoGutterClass && "p-badge" != LargeClass
    ensures "p-badge" != XLargeClass && "p-badge" != InfoClass && "p-badge" != SuccessClass
    ensures "p-badge" != WarningClass && "p-badge" != DangerClass && "p-component" != NoGutterClass
    ensures "p-component" != LargeClass && "p-component" != XLargeClass && "p-component" != InfoClass
    ensures "p-component" != SuccessClass && "p-component" != WarningClass && "p-component" != DangerClass
    ensures NoGutterClass != LargeClass && NoGutterClass != XLargeClass && NoGutterClass != InfoClass
    ensures NoGutterClass != SuccessClass && NoGutterClass != WarningClass && NoGutterClass != DangerClass
    ensures LargeClass != XLargeClass && LargeClass != InfoClass && LargeClass != SuccessClass
    ensures LargeClass != WarningClass && LargeClass != DangerClass && XLargeClass != InfoClass
    ensures XLargeClass != SuccessClass && XLargeClass != WarningClass && XLargeClass != DangerClass
    ensures InfoClass != SuccessClass && InfoClass != WarningClass && InfoClass != DangerClass
    ensures SuccessClass != WarningClass && SuccessClass != DangerClass && WarningClass != DangerClass
  {
  }

  /** The recognised sizes, and the recognised severities, are pairwise distinct. */
  lemma DistinctInputs()
    ensures "large" != "xlarge"
    ensures "info" != "success" && "info" != "warning" && "info" != "danger"
    ensures "success" != "warning" && "success" != "danger" && "warning" != "danger"
  {
  }

  lemma BaseEntry()
    ensures Entry((BaseClassKey, true)) == BaseClasses
  {
    assert BaseClassKey == "p-badge" + [' '] + "p-component";
    ClassList.TwoNames("p-badge", "p-component");
  }

  lemma OneEntry(name: string, flag: bool)
    requires ClassList.IsName(name)
    ensures Entry((name, flag)) == if flag then {name} else {}
  {
    ClassList.OneName(name);
  }

  /** `containerClass()`: the classes the span is given. */
  function ContainerClass(value: Option<string>, size: Option<string>, severity: Option<string>): set<string>
  {
    Applied(ClassFlags(value, size, severity))
  }

  /** The base classes `p-badge` and `p-component` are always there, and no class outside the nine names ever is. */
  lemma ContainerClassBounds(value: Option<string>, size: Option<string>, severity: Option<string>)
    ensures BaseClasses <= ContainerClass(value, size, severity)
    ensures ContainerClass(value, size, severity) <= BaseClasses + {NoGutterClass} + SizeClasses + SeverityClasses
  {
    ClassFlagsApplied(value, size, severity);
  }

  /** `p-badge-no-gutter` exactly when a value is given and it is one character long. */
  lemma NoGutterIff(value: Option<string>, size: Option<string>, severity: Option<string>)
    ensures NoGutterClass in ContainerClass(value, size, severity) <==> value.Some? && |value.value| == 1
  {
    DistinctNames();
    Membership(value, size, severity, NoGutterClass);
  }

  /** `p-badge-lg` exactly for size `"large"`, `p-badge-xl` exactly for `"xlarge"`: at most one size class. */
  lemma SizeClassIff(value: Option<string>, size: Option<string>, severity: Option<string>)
    ensures LargeClass in ContainerClass(value, size, severity) <==> size == Some("large")
    ensures XLargeClass in ContainerClass(value, size, severity) <==> size == Some("xlarge")
    ensures |ContainerClass(value, size, severity) * SizeClasses| <= 1
  {
    LargeIff(value, size, severity);
    XLargeIff(value, size, severity);
    DistinctNames();
    DistinctInputs();
    AtMostOneOfTwo(ContainerClass(value, size, severity), LargeClass, XLargeClass,
      size == Some("large"), size == Some("xlarge"));
  }

  /** Two distinct names, each present exactly under a flag, and not both flags: at most one is present. */
  lemma AtMostOneOfTwo(r: set<string>, a: string, b: string, pa: bool, pb: bool)
    requires a != b && (a in r <==> pa) && (b in r <==> pb) && !(pa && pb)
    ensures |r * {a, b}| <= 1
  {
    if pa {
      assert r * {a, b} == {a};
    } else if pb {
      assert r * {a, b} == {b};
    } else {
      assert r * {a, b} == {};
    }
  }

  /** Each severity class exactly for its own literal. */
  lemma SeverityClassIff(value: Option<string>, size: Option<string>, severity: Option<string>)
    ensures InfoClass in ContainerClass(value, size, severity) <==> severity == Some("info")
    ensures SuccessClass in ContainerClass(value, size, severity) <==> severity == Some("success")
    ensures WarningClass in ContainerClass(value, size, severity) <==> severity == Some("warning")
    ensures DangerClass in ContainerClass(value, size, severity) <==> severity == Some("danger")
  {
    InfoIff(value, size, severity);
    SuccessIff(value, size, severity);
    WarningIff(value, size, severity);
    DangerIff(value, size, severity);
  }

  /** Membership in a base set extended by seven flagged singletons. */
  lemma UnionMembership<T>(b: set<T>, n1: T, n2: T, n3: T, n4: T, n5: T, n6: T, n7: T,
                           p1: bool, p2: bool, p3: bool, p4: bool, p5: bool, p6: bool, p7: bool, x: T)
    ensures x in b + (if p1 then {n1} else {}) + (if p2 then {n2} else {}) + (if p3 then {n3} else {})
               + (if p4 then {n4} else {}) + (if p5 then {n5} else {}) + (if p6 then {n6} else {})
               + (if p7 then {n7} else {})
         <==> x in b || (p1 && x == n1) || (p2 && x == n2) || (p3 && x == n3) || (p4 && x == n4)
              || (p5 && x == n5) || (p6 && x == n6) || (p7 && x == n7)
  {
  }

  // One membership per lemma: the solver handles each alone far more cheaply than all at once.

  lemma LargeIff(value: Option<string>, size: Option<string>, severity: Option<string>)
    ensures LargeClass in ContainerClass(value, size, severity) <==> size == Some("large")
  {
    DistinctNames();
    Membership(value, size, severity, LargeClass);
  }

  lemma XLargeIff(value: Option<string>, size: Option<string>, severity: Option<string>)
    ensures XLargeClass in ContainerClass(value, size, severity) <==> size == Some("xlarge")
  {
    DistinctNames();
    Membership(value, size, severity, XLargeClass);
  }

  lemma InfoIff(value: Option<string>, size: Option<string>, severity: Option<string>)
    ensures InfoClass in ContainerClass(value, size, severity) <==> severity == Some("info")
  {
    DistinctNames();
    Membership(value, size, severity, InfoClass);
  }

  lemma SuccessIff(value: Option<string>, size: Option<string>, severity: Option<string>)
    ensures SuccessClass in ContainerClass(value, size, severity) <==> severity == Some("success")
  {
    DistinctNames();
    Membership(value, size, severity, SuccessClass);
  }

  lemma WarningIff(value: Option<string>, size: Option<string>, severity: Option<string>)
    ensures WarningClass in ContainerClass(value, size, severity) <==> severity == Some("warning")
  {
    DistinctNames();
    Membership(value, size, severity, WarningClass);
  }

  lemma DangerIff(value: Option<string>, size: Option<string>, severity: Option<string>)
    ensures DangerClass in ContainerClass(value, size, severity) <==> severity == Some("danger")
  {
    DistinctNames();
    Membership(value, size, severity, DangerClass);
  }

  lemma Membership(value: Option<string>, size: Option<string>, severity: Option<string>, x: string)
    ensures x in Applied(ClassFlags(value, size, severity)) <==>
      x in BaseClasses
      || (value.Some? && |value.value| == 1 && x == NoGutterClass)
      || (size == Some("large") && x == LargeClass) || (size == Some("xlarge") && x == XLargeClass)
      || (severity == Some("info") && x == InfoClass) || (severity == Some("success") && x == SuccessClass)
      || (severity == Some("warning") && x == WarningClass) || (severity == Some("danger") && x == DangerClass)
  {
    ClassFlagsApplied(value, size, severity);
    UnionMembership(BaseClasses, NoGutterClass, LargeClass, XLargeClass, InfoClass, SuccessClass, WarningClass, DangerClass,
      value.Some? && |value.value| == 1, size == Some("large"), size == Some("xlarge"), severity == Some("info"),
      severity == Some("success"), severity == Some("warning"), severity == Some("danger"), x);
  }

  /** At most one severity class, and none for a severity outside the four literals. */
  lemma OneSeverityClass(value: Option<string>, size: Option<string>, severity: Option<string>)
    ensures |ContainerClass(value, size, severity) * SeverityClasses| <= 1
    ensures severity !in {Some("info"), Some("success"), Some("warning"), Some("danger")} ==>
      ContainerClass(value, size, severity) * SeverityClasses == {}
  {
    SeverityClassIff(value, size, severity);
    SeverityIntersection(ContainerClass(value, size, severity), severity);
  }

  /** A class set that holds each severity class exactly for its literal holds at most that one. */
  lemma SeverityIntersection(r: set<string>, severity: Option<string>)
    requires InfoClass in r <==> severity == Some("info")
    requires SuccessClass in r <==> severity == Some("success")
    requires WarningClass in r <==> severity == Some("warning")
    requires DangerClass in r <==> severity == Some("danger")
    ensures r * SeverityClasses ==
      if severity == Some("info") then {InfoClass}
      else if severity == Some("success") then {SuccessClass}
      else if severity == Some("warning") then {WarningClass}
      else if severity == Some("danger") then {DangerClass}
      else {}
  {
    DistinctNames();
  }


  /** The span the template produces: its classes and the interpolated `{{ value }}` text. */
  datatype Span = Span(classes: set<string>, text: string)

  /** The template: `*ngIf="!badgeDisabled"` renders nothing at all while disabled. */
  function Render(badgeDisabled: bool, value: Option<string>, size: Option<string>, severity: Option<string>): (r: Option<Span>)
    ensures r.None? <==> badgeDisabled
    ensures r.Some? ==> r.value.classes == ContainerClass(value, size, severity)
    ensures r.Some? ==> r.value.text == value.GetOr("")
  {
    if badgeDisabled then None
    else Some(Span(ContainerClass(value, size, severity), value.GetOr("")))
  }
}
