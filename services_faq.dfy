/** The services FAQ: questions keyed by id, at most one answer open, question 1 to begin with. */
module ServicesFaq {
  import opened Optional
  import opened Accordion

  /** The ids of the questions, in the order they are rendered. */
  const FaqIds: seq<int> := [1, 2, 3, 4, 5]

  /** The ids are pairwise distinct. */
  lemma FaqIdsDistinct()
    ensures Distinct(FaqIds)
  {
  }

  class FaqList {
    /** `openId`: the id of the open question, or none. */
    var openId: Option<int>

    constructor ()
      ensures openId == Some(1)
    {
      openId := Some(1);
    }

    /** The answer of question `id` is expanded and its chevron rotated. */
    predicate IsOpen(id: int)
      reads this
    {
      openId == Some(id)
    }

    /** The positions of the questions whose answers are currently expanded. */
    function OpenAnswers(): (r: set<nat>)
      reads this
      ensures |r| <= 1
      ensures forall k: nat :: k in r <==> k < |FaqIds| && IsOpen(FaqIds[k])
    {
      FaqIdsDistinct();
      AtMostOneOpen(openId, FaqIds);
      OpenItems(openId, FaqIds)
    }

    /** `toggleFAQ(id)`. */
    method ToggleFaq(id: int)
      modifies this
      ensures openId == Toggle(old(openId), id)
      ensures old(IsOpen(id)) ==> openId == None
      ensures !old(IsOpen(id)) ==> openId == Some(id)
    {
      openId := Toggle(openId, id);
    }
  }

  /** Toggling question 1 from the initial state closes every answer; toggling it again reopens it. */
  method FirstQuestionScenario() returns (initially: set<nat>, afterClose: set<nat>, afterReopen: Option<int>)
    ensures initially == {0} && afterClose == {} && afterReopen == Some(1)
  {
    var faq := new FaqList();
    initially := faq.OpenAnswers();
    faq.ToggleFaq(1);
    afterClose := faq.OpenAnswers();
    faq.ToggleFaq(1);
    afterReopen := faq.openId;
  }
}
