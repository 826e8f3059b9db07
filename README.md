# PrimeNG badge, modelled in Dafny

This project models the badge of PrimeNG (`src/app/components/badge/badge.ts`). The file has two parts.

- **`Badge`**, the `p-badge` widget. `containerClass()` builds an object of eight class keys, each with a boolean flag, and `[ngClass]` applies it to a span that the template renders only while `badgeDisabled` is false. The model computes the resulting class set and proves which classes it holds:
  - always `p-badge` and `p-component`;
  - `p-badge-no-gutter` exactly for a one-character value;
  - at most one size class, each exactly for its literal;
  - at most one severity class, each exactly for its literal;
  - nothing else.
- **`BadgeDirective`**, the `pBadge` attribute directive, which keeps state. `ngAfterViewInit` draws an id. Unless the directive is disabled, it then builds a marker span, marks the attachment point with `p-overlay-badge` and appends the span to it. The attachment point is the host, or the host's first child when the host's tag contains `-`. After that, the `value` setter patches the span's classes and text in place. `ngOnDestroy` only clears `initialized`.

  The directive is modelled twice:
  - as a state machine over values (`DirectiveState`, with one function per operation and `Run` over sequences of input events);
  - as the class `BadgeDirective`, whose fields stand for the source's fields, plus `marker` for the span the id finds and `ids` for the id generator. Each of its methods is proved to perform exactly the matching transition on `View()`.

  Lemmas then prove what the directive does over whole runs:
  - the marker can always be found;
  - severity changes never reach the marker;
  - the text keeps showing the value;
  - a second activation draws a new id;
  - an empty string is read two different ways at activation and in the setter;
  - for the four known severities, the marker's classes agree with those of a widget given no size, apart from the dot.

Modules:
- `Wrappers`: `Option`.
- `ClassList`: how a class attribute string splits into class names. Both `className` and `ngClass` keys use it.
- `Js`: JavaScript's `undefined`/`null`/string inputs, loose `!= null`, and truthiness.
- `Dom`: the id generator, the marker span, and the attachment element.
- `Badge`: the widget.
- `Directive`: the directive.

Three details of the code are easy to misread; the model follows the code in each:
- The code draws the id (line 36) before it tests `_disabled`, so a disabled activation consumes an id too.
- The setter tests truthiness (line 78), not `!= null`. The empty string therefore takes the dot branch in the setter, but counts as a value at activation (line 51).
- The class names are the literals written in the code (`p-badge-dot`, `p-badge-no-gutter`, `p-overlay-badge`, `p-badge-` + severity).

## Model

| member | source | states |
|---|---|---|
| ClassList.TwoNames | src/app/components/badge/badge.ts:45 | a class string of two space-separated names yields exactly those two classes, in order |
| ClassList.Names | src/app/components/badge/badge.ts:128 | every class produced by splitting a class string is a non-empty name without whitespace |
| Js.TruthyAndNullish | src/app/components/badge/badge.ts:51-86 | a truthy input is never null; the empty string is the only non-null input that is not truthy |
| Dom.IdCounter.Fresh | src/app/components/badge/badge.ts:36 | the id handed out is the counter's value, and the counter then moves past it |
| Dom.Marker.SetClassName | src/app/components/badge/badge.ts:45 | assigning `className` replaces the class list with the names of the string and leaves the text alone |
| Dom.Marker.ClearContent | src/app/components/badge/badge.ts:90 | `innerHTML = ''` removes every text node and keeps the classes |
| Dom.Marker.AppendText | src/app/components/badge/badge.ts:91 | appending a text node adds it after the others and keeps the classes |
| ClassList.Classes | src/app/components/badge/badge.ts:45 | the classes a class string gives are the names it splits into, each a non-empty name without whitespace |
| Js.IsNullish | src/app/components/badge/badge.ts:51 | the loose `!= null` test fails exactly for `undefined` and `null` |
| Js.IsTruthy | src/app/components/badge/badge.ts:78 | JavaScript truthiness of a string input: only a non-empty string is truthy (also the test at line 47) |
| Dom.Marker.constructor | src/app/components/badge/badge.ts:43-44 | a new span carries the given id, no class and no text |
| Dom.Marker.HasClass | src/app/components/badge/badge.ts:79 | `hasClass` is membership in the span's class list |
| Dom.Marker.AddClass | src/app/components/badge/badge.ts:55 | adding a class puts it in the class list, keeps the others and leaves the text (also lines 48, 58, 82, 87) |
| Dom.Marker.RemoveClass | src/app/components/badge/badge.ts:84 | removing a class takes it out of the class list, keeps the others and leaves the text (also line 79) |
| Dom.Element.AddClass | src/app/components/badge/badge.ts:61 | the attachment point gains the class and keeps its children |
| Dom.Element.AppendChild | src/app/components/badge/badge.ts:62 | the span becomes the attachment point's last child, and its classes stay |
| Badge.ClassFlags | src/app/components/badge/badge.ts:127-136 | the eight keys with their flags in source order: the base key always on, at most one size flag and at most one severity flag on, since `===` against distinct literals |
| Badge.Entry | src/app/components/badge/badge.ts:105 | one key of the `ngClass` object contributes nothing when its flag is false, and only class names otherwise |
| Badge.ContainerClass | src/app/components/badge/badge.ts:126-137 | the classes `ngClass` applies for `containerClass()`; what they are is stated by ClassFlagsApplied, ContainerClassBounds and the Iff lemmas below |
| Directive.SeverityClass | src/app/components/badge/badge.ts:48 | the severity class is `p-badge-` followed by the severity; SeverityClassInjective states it is one-to-one |
| Directive.ActivationSeverityClasses | src/app/components/badge/badge.ts:47-49 | the severity class for a truthy severity, none otherwise |
| Directive.InitialClasses | src/app/components/badge/badge.ts:45-59 | the classes of the built span; InitialClassesContents states exactly which they are |
| Badge.Applied | src/app/components/badge/badge.ts:105 | `ngClass` applies every class named by a key whose flag is true |
| Badge.ClassFlagsApplied | src/app/components/badge/badge.ts:126-137 | the span's classes are the two base classes plus, for each modifier key, its class exactly when its flag holds |
| Badge.ContainerClassBounds | src/app/components/badge/badge.ts:126-137 | the base classes are always present, and no class outside the nine names ever is |
| Badge.NoGutterIff | src/app/components/badge/badge.ts:129 | `p-badge-no-gutter` is present if and only if a value is given and it is one character long |
| Badge.SizeClassIff | src/app/components/badge/badge.ts:130-131 | `p-badge-lg` iff size `"large"`, `p-badge-xl` iff size `"xlarge"`, so at most one size class |
| Badge.SeverityClassIff | src/app/components/badge/badge.ts:132-135 | each severity class is present if and only if the severity is exactly its literal |
| Badge.OneSeverityClass | src/app/components/badge/badge.ts:132-135 | at most one severity class, and none for a severity outside the four literals |
| Badge.Render | src/app/components/badge/badge.ts:105 | nothing is rendered exactly while `badgeDisabled`; otherwise the span has `containerClass()` as its classes and the value, or the empty string, as its text |
| Directive.Initial | src/app/components/badge/badge.ts:25-33 | a new directive is not disabled, not initialized, has no id, no marker and no inputs |
| Directive.ValueClasses | src/app/components/badge/badge.ts:51-59 | at activation the dot appears exactly for a null or undefined value, and no-gutter exactly for a one-character string |
| Directive.InitialClassesContents | src/app/components/badge/badge.ts:43-59 | the built marker carries the base classes, the severity class for a truthy severity, the dot and no-gutter as above, and no other class |
| Directive.InitialText | src/app/components/badge/badge.ts:51-52 | the marker gets no text node for a null value and one node holding the value otherwise |
| Directive.SeverityClassInjective | src/app/components/badge/badge.ts:48 | distinct severities give distinct classes, and only severity `"dot"` gives the dot class |
| Directive.AfterViewInit | src/app/components/badge/badge.ts:35-65 | a fresh id is always drawn; when disabled, nothing else changes; otherwise the marker is built with its id, classes and text, the attachment point gains `p-overlay-badge`, and `initialized` is set; the invariant is kept unless a disabled directive is activated twice |
| Directive.UpdatedClasses | src/app/components/badge/badge.ts:78-88 | the dot is present iff the value is falsy; for a truthy value, no-gutter iff one character; for a falsy one, no-gutter is unchanged; no other class changes |
| Directive.UpdatedMarker | src/app/components/badge/badge.ts:76-91 | the patched marker keeps its id, has patched classes, and holds exactly one text node with the new value |
| Directive.ValueSet | src/app/components/badge/badge.ts:71-94 | a strictly equal value changes nothing; otherwise the value is stored, and the marker is patched only while initialized; the invariant is kept |
| Directive.DisabledSet | src/app/components/badge/badge.ts:18-23 | the setter stores the flag and changes nothing else |
| Directive.SeveritySet | src/app/components/badge/badge.ts:96 | a severity change stores the string and changes nothing else, the marker included |
| Directive.Destroyed | src/app/components/badge/badge.ts:98-100 | `ngOnDestroy` clears `initialized` and leaves the marker, its classes, its text and the id as they were |
| Directive.Step | src/app/components/badge/badge.ts:67-100 | every input change and destruction keeps the invariant that the marker can be found by its id |
| Directive.Run | src/app/components/badge/badge.ts:67-100 | after any run of events the invariant holds, and the id, the id generator, the attachment point's classes and the marker's identity are unchanged, and `initialized` can only have been cleared |
| Directive.OnlyDotAndNoGutterChange | src/app/components/badge/badge.ts:71-96 | no run of events, severity changes included, adds or removes any marker class other than the dot and no-gutter |
| Directive.UninitializedMarkerFrozen | src/app/components/badge/badge.ts:75 | once `initialized` is false, no run of events changes the marker |
| Directive.TextFollowsValue | src/app/components/badge/badge.ts:71-92 | while the directive is not destroyed, the marker's text keeps showing the stored value |
| Directive.ActivationShowsValue | src/app/components/badge/badge.ts:51-52 | an enabled activation leaves the marker's text showing the value |
| Directive.ActivationWithoutValue | src/app/components/badge/badge.ts:57-59 | activation without a value gives a marker with the dot and no text |
| Directive.ActivationWithOneCharacter | src/app/components/badge/badge.ts:51-56 | activation with `"5"` gives no dot, the no-gutter class and the text `"5"` |
| Directive.ActivationThenOneCharacter | src/app/components/badge/badge.ts:71-91 | activation with `"12"` gives neither dot nor no-gutter; changing to `"3"` then adds no-gutter, keeps the dot off and shows `"3"` |
| Directive.ReactivationDrawsFreshId | src/app/components/badge/badge.ts:36 | a second activation after any run of events never reuses the first activation's id |
| Directive.LifecycleFindsMarker | src/app/components/badge/badge.ts:35-100 | inputs, one activation, then inputs and destruction: every value change finds its marker |
| Directive.EmptyStringAtActivationAndInSetter | src/app/components/badge/badge.ts:51-88 | the empty string at activation gives no dot and an empty text node; set after a truthy value such as `"12"`, which has no dot, it brings the dot |
| Directive.AsOption | src/app/components/badge/badge.ts:129 | the widget treats null and undefined alike as "not given" |
| Directive.MarkerAgreesWithWidget | src/app/components/badge/badge.ts:43-59 | for the four known severities (or none), the marker's classes apart from the dot equal the widget's classes without a size |
| Directive.CreateMarker | src/app/components/badge/badge.ts:43-59 | building the span step by step gives a fresh marker with the given id, the activation classes and the activation text |
| Directive.BadgeDirective.constructor | src/app/components/badge/badge.ts:31-33 | a new directive's state is the initial state over the attachment point's classes and the id generator |
| Directive.BadgeDirective.AttachmentPoint | src/app/components/badge/badge.ts:37 | the first child for a host whose tag contains `-`, the host otherwise |
| Directive.BadgeDirective.Disabled | src/app/components/badge/badge.ts:18-20 | the getter returns the stored flag |
| Directive.BadgeDirective.Value | src/app/components/badge/badge.ts:67-69 | the getter returns the stored value |
| Directive.BadgeDirective.NgAfterViewInit | src/app/components/badge/badge.ts:35-65 | the new state is `AfterViewInit` of the old one; when enabled, the fresh marker is the attachment point's last child |
| Directive.BadgeDirective.SetValue | src/app/components/badge/badge.ts:71-94 | the new state is `ValueSet` of the old one, and the marker object is the same |
| Directive.BadgeDirective.SetDisabled | src/app/components/badge/badge.ts:21-23 | the new state is `DisabledSet` of the old one |
| Directive.BadgeDirective.SetSeverity | src/app/components/badge/badge.ts:96 | the new state is `SeveritySet` of the old one |
| Directive.BadgeDirective.NgOnDestroy | src/app/components/badge/badge.ts:98-100 | the new state is `Destroyed` of the old one |

## Left out

- Angular itself is not modelled: the decorators, change detection, `NgModule` and the `p-element` host class. The lifecycle is a sequence of events. `ngAfterViewInit` runs once, between the initial inputs and the later changes, as Angular guarantees.
- `styleClass`, `style` and `iconPos` are not modelled. `styleClass` and `style` are opaque bindings, and `iconPos` is stored but never read.
- The document is an abstract model: class sets, children and text nodes. `getElementById(this.id)` is the directive's `marker` field, found while the invariant `MarkerFound` holds.
- Directive.BadgeDirective.SetValue: requires that the marker can be found while `initialized`. In the source, a missing element makes the setter throw, and that failure is not modelled.
- Dom.IdCounter.Fresh: `UniqueComponentId()` is a counter of natural numbers. The `'_badge'` suffix and the string form of ids are dropped, because only their distinctness matters.
- Text nodes hold the input as given. The string conversion `createTextNode` applies (`null` becomes `"null"`) is not modelled.
- String length is counted in characters. JavaScript's `length` counts UTF-16 code units, which differ for characters outside the Basic Multilingual Plane.
- A custom-element host without a first child is not modelled, because the attachment element is never null.
- A custom-element host whose first child is a text or comment node is not modelled. There `el.appendChild(badge)` (line 62) throws, but `Dom.Element` stands only for elements, so the model always attaches the marker.
- Dom.Marker.AddClass: accepts any string. A severity containing whitespace makes `'p-badge-' + severity` (line 48) no single class token: the DOM's `classList.add` would throw, or a splitting helper would add several classes. The model instead gives the marker that one string as a class, so `InitialClassesContents` describes a class list no document could hold. `DomHandler.addClass` is not part of this model, which is why its behaviour here is not decided.
- A disabled directive activated a second time while still initialized draws a new id without a marker, which breaks the lookup. Angular never does this. `AfterViewInit` keeps the invariant only outside that case, and `Run` holds no activation events.
- Nothing is removed from the document on destroy, exactly as in the source. Severity is not reactive after activation, also as in the source (`Directive.OnlyDotAndNoGutterChange`).
- DOM style, CSS and rendering are not modelled.
