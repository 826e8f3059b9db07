/**
 * The `pBadge` attribute directive. On `ngAfterViewInit` it builds a marker span
 * (the badge) and appends it to the host, or to the host's first child when the
 * host is itself a custom element; later changes of `value` patch that span's
 * classes and text in place; `ngOnDestroy` only clears `initialized`.
 *
 * The first half of the module is the directive as a state machine over values
 * (`DirectiveState`); the second half is the directive as an object whose
 * methods are proved to perform exactly those transitions.
 */
module Directive {
  import opened Wrappers
  import opened Js
  import ClassList
  import Dom
  import Badge

  /** The class string `className` is given: the widget's base key. */
  const BaseClassName := Badge.BaseClassKey
  const DotClass := "p-badge-dot"
  const NoGutterClass := Badge.NoGutterClass
  const OverlayClass := "p-overlay-badge"

  /** The class a severity adds at activation: `'p-badge-' + severity`. */
  function SeverityClass(severity: string): string {
    "p-badge-" + severity
  }

  // ---------------------------------------------------------------------------
  // The marker span and the directive as values
  // ---------------------------------------------------------------------------

  /** The marker span: its id, its classes and the text nodes it holds, in order. */
  datatype MarkerState = MarkerState(id: nat, classes: set<string>, text: seq<JsString>)

  /**
   * Everything the directive reads or writes. `marker` is the span that
   * `getElementById(id)` finds; `anchorClasses` are the classes of the attachment
   * point; `nextId` is the state of the shared id generator.
   */
  datatype DirectiveState = DirectiveState(
    disabled: bool,
    value: JsString,
    severity: JsString,
    initialized: bool,
    id: Option<nat>,
    marker: Option<MarkerState>,
    anchorClasses: set<string>,
    nextId: nat)

  /** A freshly constructed directive: no input set yet, `_disabled` false. */
  function Initial(anchorClasses: set<string>, nextId: nat): (r: DirectiveState)
    ensures !r.disabled && !r.initialized && r.marker.None? && r.id.None?
    ensures r.value == Undefined && r.severity == Undefined
  {
    DirectiveState(false, Undefined, Undefined, false, None, None, anchorClasses, nextId)
  }

  /** While `initialized`, looking the marker up by `id` succeeds. */
  predicate MarkerFound(st: DirectiveState) {
    st.initialized ==> st.marker.Some? && st.id == Some(st.marker.value.id)
  }

  /** The directive's invariant: the marker can be found, and every id it holds was issued before `nextId`. */
  predicate Valid(st: DirectiveState) {
    && MarkerFound(st)
    && (st.id.Some? ==> st.id.value < st.nextId)
    && (st.marker.Some? ==> st.marker.value.id < st.nextId)
  }

  /** The classes that depend on the value at activation: a dot without a value, no gutter for one character. */
  function ValueClasses(value: JsString): (r: set<string>)
    ensures DotClass in r <==> IsNullish(value)
    ensures NoGutterClass in r <==> value.Str? && |value.s| == 1
    ensures r <= {DotClass, NoGutterClass}
  {
    if IsNullish(value) then {DotClass}
    else if |value.s| == 1 then {NoGutterClass}
    else {}
  }

  /** The class a truthy severity adds at activation. */
  function ActivationSeverityClasses(severity: JsString): set<string> {
    if IsTruthy(severity) then {SeverityClass(severity.s)} else {}
  }

  /** The classes of the marker `ngAfterViewInit` builds. */
  function InitialClasses(severity: JsString, value: JsString): set<string> {
    ClassList.Classes(BaseClassName) + ActivationSeverityClasses(severity) + ValueClasses(value)
  }

  /**
   * The marker built at activation carries the base classes, the severity class
   * for a truthy severity, the dot exactly without a value and no gutter for a
   * one-character value; and no class besides.
   */
  lemma InitialClassesContents(severity: JsString, value: JsString)
    ensures var r := InitialClasses(severity, value);
      && Badge.BaseClasses <= r
      && (IsTruthy(severity) ==> SeverityClass(severity.s) in r)
      && (IsNullish(value) ==> DotClass in r)
      && (value.Str? && |value.s| == 1 ==> NoGutterClass in r)
      && forall c :: c in r ==>
        || c in Badge.BaseClasses
        || (IsTruthy(severity) && c == SeverityClass(severity.s))
        || (c == DotClass && IsNullish(value))
        || (c == NoGutterClass && value.Str? && |value.s| == 1)
  {
    BaseClassNames();
  }

  /** `className = 'p-badge p-component'` gives exactly the two base classes. */
  lemma BaseClassNames()
    ensures ClassList.Classes(BaseClassName) == Badge.BaseClasses
  {
    assert BaseClassName == "p-badge" + [' '] + "p-component";
    ClassList.TwoNames("p-badge", "p-component");
  }

  /** The text nodes `ngAfterViewInit` appends: the value when it is not null, else none. */
  function InitialText(value: JsString): (r: seq<JsString>)
    ensures IsNullish(value) <==> r == []
    ensures !IsNullish(value) ==> r == [value]
  {
    if IsNullish(value) then [] else [value]
  }

  /**
   * `ngAfterViewInit`: an id is drawn first, whatever `disabled` is; a disabled
   * directive stops there. Otherwise a marker is built from the current severity
   * and value, the attachment point gets `p-overlay-badge` and `initialized` is set.
   */
  function AfterViewInit(st: DirectiveState): (r: DirectiveState)
    ensures r.id == Some(st.nextId) && r.nextId == st.nextId + 1
    ensures r.disabled == st.disabled && r.value == st.value && r.severity == st.severity
    ensures st.disabled ==>
      r.initialized == st.initialized && r.marker == st.marker && r.anchorClasses == st.anchorClasses
    ensures !st.disabled ==>
      && r.initialized
      && r.anchorClasses == st.anchorClasses + {OverlayClass}
      && r.marker == Some(MarkerState(st.nextId, InitialClasses(st.severity, st.value), InitialText(st.value)))
    ensures Valid(st) && !(st.initialized && st.disabled) ==> Valid(r)
  {
    var drawn := st.(id := Some(st.nextId), nextId := st.nextId + 1);
    if st.disabled then drawn
    else
      var m := MarkerState(st.nextId, InitialClasses(st.severity, st.value), InitialText(st.value));
      drawn.(marker := Some(m), anchorClasses := st.anchorClasses + {OverlayClass}, initialized := true)
  }

  /**
   * How the `value` setter patches the marker's classes: a truthy value drops the
   * dot and sets no-gutter exactly for one character; a falsy one makes sure the
   * dot is there and leaves no-gutter alone. No other class is touched.
   */
  function UpdatedClasses(classes: set<string>, v: JsString): (r: set<string>)
    ensures DotClass in r <==> !IsTruthy(v)
    ensures IsTruthy(v) ==> (NoGutterClass in r <==> |v.s| == 1)
    ensures !IsTruthy(v) ==> (NoGutterClass in r <==> NoGutterClass in classes)
    ensures r - {DotClass, NoGutterClass} == classes - {DotClass, NoGutterClass}
  {
    if IsTruthy(v) then
      var noDot := classes - {DotClass};
      if |v.s| == 1 then noDot + {NoGutterClass} else noDot - {NoGutterClass}
    else
      classes + {DotClass}
  }

  /** The marker after the setter: same id, patched classes, and one text node holding the new value. */
  function UpdatedMarker(m: MarkerState, v: JsString): (r: MarkerState)
    ensures r.id == m.id
    ensures r.classes == UpdatedClasses(m.classes, v)
    ensures r.text == [v]
  {
    MarkerState(m.id, UpdatedClasses(m.classes, v), [v])
  }

  /**
   * The `value` setter: a value strictly equal to the stored one changes nothing;
   * otherwise it is stored, and the marker is patched only while `initialized`.
   */
  function ValueSet(st: DirectiveState, v: JsString): (r: DirectiveState)
    requires MarkerFound(st)
    ensures v == st.value ==> r == st
    ensures v != st.value && !st.initialized ==> r == st.(value := v)
    ensures v != st.value && st.initialized ==>
      r == st.(value := v, marker := Some(UpdatedMarker(st.marker.value, v)))
    ensures Valid(st) ==> Valid(r)
  {
    if v == st.value then st
    else if !st.initialized then st.(value := v)
    else st.(value := v, marker := Some(UpdatedMarker(st.marker.value, v)))
  }

  /** The `disabled` setter (`badgeDisabled` input): it only stores the flag. */
  function DisabledSet(st: DirectiveState, b: bool): (r: DirectiveState)
    ensures r.disabled == b && r.(disabled := st.disabled) == st
  {
    st.(disabled := b)
  }

  /** The `severity` input: it only stores the string; the marker is not touched. */
  function SeveritySet(st: DirectiveState, s: JsString): (r: DirectiveState)
    ensures r.severity == s && r.(severity := st.severity) == st
  {
    st.(severity := s)
  }

  /** `ngOnDestroy`: `initialized` becomes false; the marker, its classes, its text and the id stay. */
  function Destroyed(st: DirectiveState): (r: DirectiveState)
    ensures !r.initialized && r.(initialized := st.initialized) == st
  {
    st.(initialized := false)
  }

  // ---------------------------------------------------------------------------
  // Runs of inputs after activation
  // ---------------------------------------------------------------------------

  /** What can happen to the directive after `ngAfterViewInit`, which Angular calls once. */
  datatype Event = ValueChange(v: JsString) | DisabledChange(b: bool) | SeverityChange(s: JsString) | Destroy

  function Step(st: DirectiveState, e: Event): (r: DirectiveState)
    requires Valid(st)
    ensures Valid(r)
  {
    match e
    case ValueChange(v) => ValueSet(st, v)
    case DisabledChange(b) => DisabledSet(st, b)
    case SeverityChange(s) => SeveritySet(st, s)
    case Destroy => Destroyed(st)
  }

  /**
   * The state after a run of events. Every value change in it finds its marker,
   * and none of them draws an id, moves the marker or touches the attachment point.
   */
  function Run(st: DirectiveState, events: seq<Event>): (r: DirectiveState)
    requires Valid(st)
    ensures Valid(r)
    ensures r.id == st.id && r.nextId == st.nextId && r.anchorClasses == st.anchorClasses
    ensures r.marker.Some? <==> st.marker.Some?
    ensures r.marker.Some? ==> r.marker.value.id == st.marker.value.id
    ensures r.initialized ==> st.initialized
    decreases |events|
  {
    if events == [] then st else Run(Step(st, events[0]), events[1..])
  }

  /**
   * Severity is applied only at activation: no run of events adds or removes any
   * class of the marker other than the dot and the no-gutter class, whatever
   * severity changes it holds.
   */
  lemma {:induction false} OnlyDotAndNoGutterChange(st: DirectiveState, events: seq<Event>)
    requires Valid(st) && st.marker.Some?
    ensures Run(st, events).marker.Some?
    ensures Run(st, events).marker.value.classes - {DotClass, NoGutterClass}
         == st.marker.value.classes - {DotClass, NoGutterClass}
    decreases |events|
  {
    if events != [] {
      OnlyDotAndNoGutterChange(Step(st, events[0]), events[1..]);
    }
  }

  /** Once `initialized` is false, no run of events changes the marker at all. */
  lemma {:induction false} UninitializedMarkerFrozen(st: DirectiveState, events: seq<Event>)
    requires Valid(st) && !st.initialized
    ensures Run(st, events).marker == st.marker
    decreases |events|
  {
    if events != [] {
      UninitializedMarkerFrozen(Step(st, events[0]), events[1..]);
    }
  }

  /** The marker's text shows the stored value: no text node for a null value, else one node with it. */
  predicate TextShowsValue(st: DirectiveState) {
    st.marker.Some? && (st.marker.value.text == [st.value] || (st.marker.value.text == [] && IsNullish(st.value)))
  }

  /** Activation leaves the text showing the value, and the setter keeps it so until `ngOnDestroy`. */
  lemma {:induction false} TextFollowsValue(st: DirectiveState, events: seq<Event>)
    requires Valid(st) && st.initialized && TextShowsValue(st)
    requires forall k :: 0 <= k < |events| ==> !events[k].Destroy?
    ensures TextShowsValue(Run(st, events))
    decreases |events|
  {
    if events != [] {
      TextFollowsValue(Step(st, events[0]), events[1..]);
    }
  }

  /** A directive activated with a marker shows its value in that marker's text. */
  lemma ActivationShowsValue(st: DirectiveState)
    requires !st.disabled
    ensures TextShowsValue(AfterViewInit(st))
  {
  }

  /** Activation without a value: the marker shows the dot and holds no text. */
  lemma ActivationWithoutValue(anchorClasses: set<string>, nextId: nat)
    ensures var m := AfterViewInit(Initial(anchorClasses, nextId)).marker.value;
      DotClass in m.classes && m.text == []
  {
    InitialClassesContents(Undefined, Undefined);
  }

  /** Activation with `"5"`: no dot, no gutter, and the text `"5"`. */
  lemma ActivationWithOneCharacter(anchorClasses: set<string>, nextId: nat)
    ensures var m := AfterViewInit(Initial(anchorClasses, nextId).(value := Str("5"))).marker.value;
      DotClass !in m.classes && NoGutterClass in m.classes && m.text == [Str("5")]
  {
    InitialClassesContents(Undefined, Str("5"));
    DotIsSeparate();
  }

  /** Activation with `"12"`, then `"3"`: the no-gutter class appears only after the change, and the dot never. */
  lemma ActivationThenOneCharacter(anchorClasses: set<string>, nextId: nat)
    ensures var a := AfterViewInit(Initial(anchorClasses, nextId).(value := Str("12")));
      var b := ValueSet(a, Str("3"));
      && DotClass !in a.marker.value.classes && NoGutterClass !in a.marker.value.classes
      && a.marker.value.text == [Str("12")]
      && DotClass !in b.marker.value.classes && NoGutterClass in b.marker.value.classes
      && b.marker.value.text == [Str("3")]
  {
    InitialClassesContents(Undefined, Str("12"));
    DotIsSeparate();
  }

  /** A second activation, after any run of events, never reuses the first activation's id. */
  lemma ReactivationDrawsFreshId(st: DirectiveState, events: seq<Event>)
    requires Valid(st) && !(st.initialized && st.disabled)
    ensures Valid(AfterViewInit(st))
    ensures AfterViewInit(Run(AfterViewInit(st), events)).id != AfterViewInit(st).id
  {
  }

  /**
   * The lifecycle Angular drives: inputs are set, `ngAfterViewInit` runs once, then
   * inputs change and the directive may be destroyed. Every value change in it
   * finds the marker it patches.
   */
  lemma LifecycleFindsMarker(anchorClasses: set<string>, nextId: nat, before: seq<Event>, after: seq<Event>)
    ensures Valid(AfterViewInit(Run(Initial(anchorClasses, nextId), before)))
    ensures Valid(Run(AfterViewInit(Run(Initial(anchorClasses, nextId), before)), after))
  {
  }

  /** Distinct severities give distinct classes; only severity `"dot"` gives the dot class. */
  lemma SeverityClassInjective(a: string, b: string)
    ensures SeverityClass(a) == SeverityClass(b) <==> a == b
    ensures SeverityClass(a) == DotClass <==> a == "dot"
  {
    var p := "p-badge-";
    assert SeverityClass(a)[|p|..] == a;
    assert SeverityClass(b)[|p|..] == b;
    assert DotClass == SeverityClass("dot");
    assert SeverityClass("dot")[|p|..] == "dot";
  }

  /**
   * Activation and the setter read an empty string differently: `value != null`
   * holds of it, so activation shows it without a dot, while the setter finds it
   * falsy: after a truthy value has taken the dot off, setting it puts the dot back.
   */
  lemma EmptyStringAtActivationAndInSetter(st: DirectiveState)
    requires Valid(st) && !st.initialized && !st.disabled && st.value == Str("")
    requires st.severity != Str("dot")
    ensures var a := AfterViewInit(st);
      && DotClass !in a.marker.value.classes
      && a.marker.value.text == [Str("")]
      && var t := ValueSet(a, Str("12"));
      && DotClass !in t.marker.value.classes
      && DotClass in ValueSet(t, Str("")).marker.value.classes
  {
    InitialClassesContents(st.severity, st.value);
    if st.severity.Str? {
      SeverityClassInjective(st.severity.s, "dot");
    }
    DotIsSeparate();
  }

  // ---------------------------------------------------------------------------
  // The directive against the widget
  // ---------------------------------------------------------------------------

  /** A string input as the widget reads it: null and undefined alike mean "not given". */
  function AsOption(v: JsString): (r: Option<string>)
    ensures r.Some? <==> v.Str?
    ensures v.Str? ==> r.value == v.s
  {
    if v.Str? then Some(v.s) else None
  }

  /** The marker's classes apart from the dot, written out; it needs a severity other than `"dot"`. */
  lemma InitialClassesWithoutDot(severity: JsString, value: JsString)
    requires severity != Str("dot")
    ensures InitialClasses(severity, value) - {DotClass}
         == Badge.BaseClasses + ActivationSeverityClasses(severity)
            + (if value.Str? && |value.s| == 1 then {NoGutterClass} else {})
  {
    BaseClassNames();
    DotIsSeparate();
    if severity.Str? {
      SeverityClassInjective(severity.s, "dot");
    }
    var ng := if value.Str? && |value.s| == 1 then {NoGutterClass} else {};
    assert ValueClasses(value) - {DotClass} == ng;
    RemoveAbsent(Badge.BaseClasses, ActivationSeverityClasses(severity), ValueClasses(value), ng, DotClass);
  }

  /** Removing an element that only the last part of a union can hold. */
  lemma RemoveAbsent<T>(b: set<T>, sv: set<T>, v: set<T>, ng: set<T>, d: T)
    requires d !in b && d !in sv && v - {d} == ng
    ensures (b + sv + v) - {d} == b + sv + ng
  {
  }

  /** The dot class is neither a base class nor the no-gutter class. */
  lemma DotIsSeparate()
    ensures DotClass !in Badge.BaseClasses && DotClass != NoGutterClass
  {
  }

  /**
   * For the four severities the widget knows, the marker the directive builds
   * carries the same classes as the widget without a size, apart from the dot.
   */
  lemma MarkerAgreesWithWidget(severity: JsString, value: JsString)
    requires !IsTruthy(severity) || severity.s in {"info", "success", "warning", "danger"}
    ensures InitialClasses(severity, value) - {DotClass}
         == Badge.ContainerClass(AsOption(value), None, AsOption(severity))
  {
    var v, sv, none: Option<string> := AsOption(value), AsOption(severity), None;
    InitialClassesWithoutDot(severity, value);
    Badge.ClassFlagsApplied(v, none, sv);
    KnownSeverityClasses(severity);
    assert none != Some("large") && none != Some("xlarge");
    Regroup(InitialClasses(severity, value) - {DotClass}, Badge.ContainerClass(v, none, sv),
      Badge.BaseClasses, ActivationSeverityClasses(severity),
      if value.Str? && |value.s| == 1 then {NoGutterClass} else {},
      if v.Some? && |v.value| == 1 then {Badge.NoGutterClass} else {},
      if none == Some("large") then {Badge.LargeClass} else {},
      if none == Some("xlarge") then {Badge.XLargeClass} else {},
      if sv == Some("info") then {Badge.InfoClass} else {},
      if sv == Some("success") then {Badge.SuccessClass} else {},
      if sv == Some("warning") then {Badge.WarningClass} else {},
      if sv == Some("danger") then {Badge.DangerClass} else {});
  }

  /** The severity class of a severity the widget knows is the widget's class for it. */
  lemma KnownSeverityClasses(severity: JsString)
    requires !IsTruthy(severity) || severity.s in {"info", "success", "warning", "danger"}
    ensures ActivationSeverityClasses(severity)
         == (if AsOption(severity) == Some("info") then {Badge.InfoClass} else {})
          + (if AsOption(severity) == Some("success") then {Badge.SuccessClass} else {})
          + (if AsOption(severity) == Some("warning") then {Badge.WarningClass} else {})
          + (if AsOption(severity) == Some("danger") then {Badge.DangerClass} else {})
  {
    if severity == Str("info") {
      assert SeverityClass("info") == Badge.InfoClass;
    } else if severity == Str("success") {
      assert SeverityClass("success") == Badge.SuccessClass;
    } else if severity == Str("warning") {
      assert SeverityClass("warning") == Badge.WarningClass;
    } else if severity == Str("danger") {
      assert SeverityClass("danger") == Badge.DangerClass;
    }
  }

  /** The two class sets are the same union, taken in another order and with empty size parts. */
  lemma Regroup<T>(x: set<T>, y: set<T>, base: set<T>, sev: set<T>, ng: set<T>, ng2: set<T>,
                   lg: set<T>, xl: set<T>, i: set<T>, s: set<T>, w: set<T>, d: set<T>)
    requires x == base + sev + ng && y == base + ng2 + lg + xl + i + s + w + d
    requires sev == i + s + w + d && ng == ng2 && lg == {} && xl == {}
    ensures x == y
  {
  }

  // ---------------------------------------------------------------------------
  // The directive as an object
  // ---------------------------------------------------------------------------

  /** Lines 43-59 of `ngAfterViewInit`: the span is created and its classes and text are set step by step. */
  method CreateMarker(id: nat, severity: JsString, value: JsString) returns (badge: Dom.Marker)
    ensures fresh(badge)
    ensures badge.id == id && badge.classes == InitialClasses(severity, value) && badge.text == InitialText(value)
  {
    badge := new Dom.Marker(id);
    badge.SetClassName(BaseClassName);
    ghost var base := badge.classes;

    if IsTruthy(severity) {
      badge.AddClass(SeverityClass(severity.s));
    }
    assert badge.classes == base + ActivationSeverityClasses(severity);

    if !IsNullish(value) {
      badge.AppendText(value);
      if |value.s| == 1 {
        badge.AddClass(NoGutterClass);
      }
    } else {
      badge.AddClass(DotClass);
    }
  }

  /**
   * `BadgeDirective`. The host is given by its node name and, for a custom
   * element, its first child; `marker` is the span `getElementById(id)` returns.
   */
  class BadgeDirective {
    const host: Dom.Element
    const hostNodeName: string
    const hostFirstChild: Dom.Element
    const ids: Dom.IdCounter

    var disabled: bool
    var value: JsString
    var severity: JsString
    var initialized: bool
    var id: Option<nat>
    var marker: Dom.Marker?

    constructor (host: Dom.Element, hostNodeName: string, hostFirstChild: Dom.Element, ids: Dom.IdCounter)
      ensures this.host == host && this.hostNodeName == hostNodeName
      ensures this.hostFirstChild == hostFirstChild && this.ids == ids
      ensures marker == null
      ensures View() == Initial(AttachmentPoint().classes, ids.next)
    {
      this.host := host;
      this.hostNodeName := hostNodeName;
      this.hostFirstChild := hostFirstChild;
      this.ids := ids;
      disabled := false;
      value := Undefined;
      severity := Undefined;
      initialized := false;
      id := None;
      marker := null;
    }

    /** Where the marker goes: the first child of a host whose tag contains `-`, else the host. */
    function AttachmentPoint(): (el: Dom.Element)
      ensures '-' in hostNodeName ==> el == hostFirstChild
      ensures '-' !in hostNodeName ==> el == host
    {
      if '-' in hostNodeName then hostFirstChild else host
    }

    /** The directive's state as a value. */
    ghost function View(): DirectiveState
      reads this, ids, AttachmentPoint(), marker
    {
      DirectiveState(
        disabled, value, severity, initialized, id,
        if marker == null then None else Some(MarkerState(marker.id, marker.classes, marker.text)),
        AttachmentPoint().classes, ids.next)
    }

    /** The `disabled` getter. */
    function Disabled(): (b: bool)
      reads this
      ensures b == View().disabled
    {
      disabled
    }

    /** The `value` getter. */
    function Value(): (v: JsString)
      reads this
      ensures v == View().value
    {
      value
    }

    /** `ngAfterViewInit`: draws an id and, unless disabled, attaches a freshly built marker. */
    method NgAfterViewInit()
      modifies this, ids, AttachmentPoint()
      // Field by field first: the solver finds these far more cheaply than the whole state at once.
      ensures View().disabled == AfterViewInit(old(View())).disabled
      ensures View().value == AfterViewInit(old(View())).value
      ensures View().severity == AfterViewInit(old(View())).severity
      ensures View().initialized == AfterViewInit(old(View())).initialized
      ensures View().id == AfterViewInit(old(View())).id
      ensures View().marker == AfterViewInit(old(View())).marker
      ensures View().anchorClasses == AfterViewInit(old(View())).anchorClasses
      ensures View().nextId == AfterViewInit(old(View())).nextId
      ensures View() == AfterViewInit(old(View()))
      ensures old(disabled) ==> marker == old(marker) && AttachmentPoint().children == old(AttachmentPoint().children)
      ensures !old(disabled) ==> fresh(marker) && AttachmentPoint().children == old(AttachmentPoint().children) + [marker]
    {
      var newId := ids.Fresh();
      id := Some(newId);
      var el := AttachmentPoint();

      if disabled {
        return;
      }

      var badge := CreateMarker(newId, severity, value);
      el.AddClass(OverlayClass);
      el.AppendChild(badge);
      marker := badge;

      initialized := true;
    }

    /** The `value` setter. While `initialized`, the marker must still be in the document. */
    method SetValue(val: JsString)
      requires initialized ==> marker != null && id == Some(marker.id)
      modifies this, marker
      ensures marker == old(marker)
      ensures View() == ValueSet(old(View()), val)
    {
      if val != value {
        value := val;

        if initialized {
          var badge := marker;
          ghost var before := badge.classes;

          if IsTruthy(value) {
            if badge.HasClass(DotClass) {
              badge.RemoveClass(DotClass);
            }
            if |value.s| == 1 {
              badge.AddClass(NoGutterClass);
            } else {
              badge.RemoveClass(NoGutterClass);
            }
          } else if !IsTruthy(value) && !badge.HasClass(DotClass) {
            badge.AddClass(DotClass);
          }

          assert badge.classes == UpdatedClasses(before, val);

          badge.ClearContent();
          badge.AppendText(value);
          assert old(View()).marker == Some(MarkerState(badge.id, before, old(badge.text)));
          assert badge.text == [val];
          assert View().marker == Some(MarkerState(badge.id, badge.classes, badge.text));
          assert View().marker == Some(UpdatedMarker(old(View()).marker.value, val));
        }
      }
    }

    /** The `disabled` setter, bound to the `badgeDisabled` input. */
    method SetDisabled(val: bool)
      modifies this
      ensures marker == old(marker)
      ensures View() == DisabledSet(old(View()), val)
    {
      disabled := val;
    }

    /** The `severity` input. */
    method SetSeverity(val: JsString)
      modifies this
      ensures marker == old(marker)
      ensures View() == SeveritySet(old(View()), val)
    {
      severity := val;
    }

    method NgOnDestroy()
      modifies this
      ensures marker == old(marker)
      ensures View() == Destroyed(old(View()))
    {
      initialized := false;
    }
  }
}
