/** The two pieces of browser state the stores write: `localStorage` (a string-to-string map)
    and the class list of the document's root element. */
module Browser {
  import opened Wrappers

  class Storage {
    var items: map<string, string>

    constructor (initial: map<string, string>)
      ensures items == initial
    {
      items := initial;
    }

    /** `getItem`: the stored string, or null when the key is absent. */
    function GetItem(key: string): (v: Option<string>)
      reads this
      ensures v.Some? <==> key in items
      ensures v.Some? ==> v.value == items[key]
    {
      if key in items then Some(items[key]) else None
    }

    method SetItem(key: string, value: string)
      modifies this
      ensures items == old(items)[key := value]
    {
      items := items[key := value];
    }

    method RemoveItem(key: string)
      modifies this
      ensures items == old(items) - {key}
    {
      items := items - {key};
    }
  }

  class DocumentElement {
    var classes: set<string>

    constructor (initial: set<string>)
      ensures classes == initial
    {
      classes := initial;
    }

    /** `classList.toggle(name, force)`: present afterwards iff `force`; other classes untouched. */
    method ToggleClass(name: string, force: bool)
      modifies this
      ensures name in classes <==> force
      ensures classes - {name} == old(classes) - {name}
    {
      if force {
        classes := classes + {name};
      } else {
        classes := classes - {name};
      }
    }
  }
}
