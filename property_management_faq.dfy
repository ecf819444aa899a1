/** The property-management FAQ: at most one answer open, none to begin with. */
module PropertyManagementFaq {
  import opened Optional
  import opened Accordion

  /** The number of questions rendered. */
  const FaqCount := 9

  /** The question positions, which are the keys the questions are toggled by. */
  function Questions(): (r: seq<int>)
    ensures |r| == FaqCount && forall k :: 0 <= k < |r| ==> r[k] == k
  {
    [0, 1, 2, 3, 4, 5, 6, 7, 8]
  }

  class FaqList {
    /** `activeIndex`: the index of the open question, or none. */
    var activeIndex: Option<int>

    constructor ()
      ensures activeIndex == None
    {
      activeIndex := None;
    }

    /** `isActive` for question `index`: its answer is shown and its icon is the minus sign. */
    predicate IsActive(index: int)
      reads this
    {
      activeIndex == Some(index)
    }

    /** The questions whose answers are currently shown. */
    function OpenAnswers(): (r: set<nat>)
      reads this
      ensures |r| <= 1
      ensures forall k: nat :: k in r <==> k < FaqCount && IsActive(k)
    {
      AtMostOneOpen(activeIndex, Questions());
      OpenItems(activeIndex, Questions())
    }

    /** `toggleFAQ(index)`. */
    method ToggleFaq(index: int)
      modifies this
      ensures activeIndex == Toggle(old(activeIndex), index)
      ensures old(IsActive(index)) ==> activeIndex == None
      ensures !old(IsActive(index)) ==> IsActive(index) && forall j :: IsActive(j) ==> j == index
    {
      activeIndex := Toggle(activeIndex, index);
    }
  }

  /** From the initial state, opening and then closing one question returns to the initial state. */
  method OpenThenCloseScenario(index: int) returns (afterOpen: Option<int>, afterClose: Option<int>)
    ensures afterOpen == Some(index) && afterClose == None
  {
    var faq := new FaqList();
    faq.ToggleFaq(index);
    afterOpen := faq.activeIndex;
    faq.ToggleFaq(index);
    afterClose := faq.activeIndex;
  }
}
