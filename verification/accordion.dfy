/** The category accordion both sidebars use: clicking the open header closes it, clicking
    any other header opens that one instead. */
module Accordion {
  import opened Wrappers

  function ToggleOpen<C(==)>(active: Option<C>, c: C): (r: Option<C>)
    ensures r == None <==> active == Some(c)
    ensures r != None ==> r == Some(c)
  {
    if active == Some(c) then None else Some(c)
  }

  /** Clicking the same header twice from any state other than "that header open" closes it
      again; from the closed accordion it is a round trip. */
  lemma ToggleTwice<C>(active: Option<C>, c: C)
    ensures active != Some(c) ==> ToggleOpen(ToggleOpen(active, c), c) == None
    ensures ToggleOpen(ToggleOpen(None, c), c) == None
    ensures active == Some(c) ==> ToggleOpen(ToggleOpen(active, c), c) == active
  {
  }

  /** A header is open when it is the active one; at most one is open at any time. */
  predicate IsOpen<C(==)>(active: Option<C>, c: C) {
    active == Some(c)
  }

  lemma AtMostOneOpen<C>(active: Option<C>, c: C, d: C)
    requires IsOpen(active, c) && IsOpen(active, d)
    ensures c == d
  {
  }
}
