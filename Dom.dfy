/**
 * The parts of the document the directive touches, reduced to what it reads and
 * writes: class lists, appended children and text nodes, and a generator of
 * fresh ids standing for `UniqueComponentId()`.
 */
module Dom {
  import opened Js
  import ClassList

  /** The shared source of component ids: every id it hands out is new. */
  class IdCounter {
    var next: nat

    constructor ()
      ensures next == 0
    {
      next := 0;
    }

    /** A fresh id: the counter's value, after which the counter moves on. */
    method Fresh() returns (id: nat)
      modifies this
      ensures id == old(next) && next == old(next) + 1
    {
      id := next;
      next := next + 1;
    }
  }

  /** The marker span the directive creates: its id, its class list and its text nodes. */
  class Marker {
    const id: nat
    var classes: set<string>
    var text: seq<JsString>

    /** `document.createElement('span')` followed by `badge.id = id`. */
    constructor (id: nat)
      ensures this.id == id && classes == {} && text == []
    {
      this.id := id;
      classes := {};
      text := [];
    }

    /** `className = s`: the class list becomes the names in `s`. */
    method SetClassName(s: string)
      modifies this
      ensures classes == ClassList.Classes(s) && text == old(text)
    {
      classes := ClassList.Classes(s);
    }

    predicate HasClass(name: string)
      reads this
    {
      name in classes
    }

    method AddClass(name: string)
      modifies this
      ensures classes == old(classes) + {name} && text == old(text)
    {
      classes := classes + {name};
    }

    method RemoveClass(name: string)
      modifies this
      ensures classes == old(classes) - {name} && text == old(text)
    {
      classes := classes - {name};
    }

    /** `appendChild(document.createTextNode(t))`: one more text node, after the others. */
    method AppendText(t: JsString)
      modifies this
      ensures text == old(text) + [t] && classes == old(classes)
    {
      text := text + [t];
    }

    /** `innerHTML = ''`: every child is removed. */
    method ClearContent()
      modifies this
      ensures text == [] && classes == old(classes)
    {
      text := [];
    }
  }

  /** An element the marker can be attached to: its class list and the markers appended to it. */
  class Element {
    var classes: set<string>
    var children: seq<Marker>

    constructor (classes: set<string>)
      ensures this.classes == classes && children == []
    {
      this.classes := classes;
      children := [];
    }

    method AddClass(name: string)
      modifies this
      ensures classes == old(classes) + {name} && children == old(children)
    {
      classes := classes + {name};
    }

    /** `appendChild(m)`: `m` becomes the last child. */
    method AppendChild(m: Marker)
      modifies this
      ensures children == old(children) + [m] && classes == old(classes)
    {
      children := children + [m];
    }
  }
}
