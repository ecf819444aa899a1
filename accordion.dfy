/**
 * The single-open accordion rule shared by the services list and the two FAQ
 * lists: clicking an item closes it when it is the open one and otherwise
 * opens it, closing whichever was open.
 */
module Accordion {
  import opened Optional

  /** `setOpen(open === item ? null : item)`. */
  function Toggle<T(==)>(open: Option<T>, item: T): (r: Option<T>)
    ensures r == Some(item) <==> open != Some(item)
    ensures r.Some? ==> r.value == item
  {
    if open == Some(item) then None else Some(item)
  }

  /** The positions of `items` shown expanded: those whose key equals the open key. */
  function OpenItems<T(==)>(open: Option<T>, items: seq<T>): set<nat> {
    set k: nat | k < |items| && open == Some(items[k])
  }

  /** Some item is expanded exactly when the open key is one of the listed keys. */
  lemma SomeOpenIffKeyListed<T>(open: Option<T>, items: seq<T>)
    ensures OpenItems(open, items) != {} <==> open.Some? && open.value in items
  {
    if open.Some? && open.value in items {
      var k :| 0 <= k < |items| && items[k] == open.value;
      assert k in OpenItems(open, items);
    }
  }

  /** No key occurs twice. */
  predicate Distinct<T(==)>(items: seq<T>) {
    forall j, k :: 0 <= j < k < |items| ==> items[j] != items[k]
  }

  /** With distinct keys at most one item is expanded, whatever the state. */
  lemma AtMostOneOpen<T>(open: Option<T>, items: seq<T>)
    requires Distinct(items)
    ensures |OpenItems(open, items)| <= 1
  {
    var r := OpenItems(open, items);
    if r != {} {
      var k :| k in r;
      assert r == {k} by {
        forall j | j in r ensures j == k {
        }
      }
    }
  }

  /** Toggling the same item twice restores a state in which it was open or nothing was. */
  lemma ToggleTwiceRestores<T>(open: Option<T>, item: T)
    requires open == None || open == Some(item)
    ensures Toggle(Toggle(open, item), item) == open
  {
  }

  /** From a state with another item open, toggling twice leaves nothing open. */
  lemma ToggleTwiceFromOther<T>(open: Option<T>, item: T)
    requires open.Some? && open.value != item
    ensures Toggle(Toggle(open, item), item) == None
  {
  }
}
