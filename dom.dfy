/**
  The parts of the browser the page reads and writes: the class lists of the
  root element and of the body, and the per-browser key-value storage.
 */
module Dom {

  /** The class that marks dark mode on the root element and on the body. */
  const DarkClass := "dark"

  /** The storage key that holds the chosen theme. */
  const ThemeKey := "theme"

  /**
    A class list after `add(name)` (when `present`) or `remove(name)`
    (otherwise): `name` is there exactly when asked for, nothing else moves.
   */
  function WithClass(classes: set<string>, name: string, present: bool): (r: set<string>)
    ensures name in r <==> present
    ensures r - {name} == classes - {name}
  {
    if present then classes + {name} else classes - {name}
  }

  /** The shared document: `document.documentElement.classList`, `document.body.classList`, `localStorage`. */
  class Document {
    var rootClasses: set<string>
    var bodyClasses: set<string>
    var storage: map<string, string>

    constructor (rootClasses: set<string>, bodyClasses: set<string>, storage: map<string, string>)
      ensures this.rootClasses == rootClasses && this.bodyClasses == bodyClasses
      ensures this.storage == storage
    {
      this.rootClasses := rootClasses;
      this.bodyClasses := bodyClasses;
      this.storage := storage;
    }
  }
}
