/** The property-management services list: one card expanded at a time, the first one to begin with. */
module ServicesOffered {
  import opened Optional
  import opened Accordion

  /** The number of service cards rendered. */
  const ServiceCount := 5

  /** The card positions, which are the keys the cards are toggled by. */
  function Cards(): (r: seq<int>)
    ensures |r| == ServiceCount && forall k :: 0 <= k < |r| ==> r[k] == k
  {
    [0, 1, 2, 3, 4]
  }

  class ServicesList {
    /** `expandedService`: the index of the expanded card, or none. */
    var expandedService: Option<int>

    constructor ()
      ensures expandedService == Some(0)
    {
      expandedService := Some(0);
    }

    /** `isExpanded` for card `index`. */
    predicate IsExpanded(index: int)
      reads this
    {
      expandedService == Some(index)
    }

    /** The cards currently expanded. */
    function ExpandedCards(): (r: set<nat>)
      reads this
      ensures |r| <= 1
      ensures forall k: nat :: k in r <==> k < ServiceCount && IsExpanded(k)
    {
      AtMostOneOpen(expandedService, Cards());
      OpenItems(expandedService, Cards())
    }

    /** `toggleService(index)`. */
    method ToggleService(index: int)
      modifies this
      ensures expandedService == Toggle(old(expandedService), index)
      ensures old(IsExpanded(index)) ==> expandedService == None
      ensures !old(IsExpanded(index)) ==> IsExpanded(index) && forall j :: IsExpanded(j) ==> j == index
    {
      expandedService := Toggle(expandedService, index);
    }
  }

  /** On a fresh list the first card is the one expanded; toggling it closes the list, toggling again reopens it. */
  method FirstCardScenario() returns (initially: set<nat>, afterClose: set<nat>, afterReopen: set<nat>)
    ensures initially == {0} && afterClose == {} && afterReopen == {0}
  {
    var list := new ServicesList();
    initially := list.ExpandedCards();
    list.ToggleService(0);
    afterClose := list.ExpandedCards();
    list.ToggleService(0);
    afterReopen := list.ExpandedCards();
    assert 0 in afterReopen;
  }
}
