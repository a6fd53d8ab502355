/** Taking elements out of sets. */
module Sets {

  /** Rows come back from a query in no particular order. */
  method NextOf<T>(rest: set<T>) returns (next: T)
    requires rest != {}
    ensures next in rest
  {
    next :| next in rest;
  }

  ghost function AnyOf<T>(choices: set<T>): (choice: T)
    requires choices != {}
    ensures choice in choices
  {
    var choice :| choice in choices;
    choice
  }
}
