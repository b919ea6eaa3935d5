/** The FAQ accordion: `FAQList` keeps the id of the one open answer, or none, and
    `toggleFAQ` flips the clicked item. */
module FAQAccordion {
  import opened Wrappers

  /** One entry of the list; the id is React's key, so the ids of a list are distinct. */
  datatype FAQ = FAQ(id: string, question: string, answer: string)

  /** `toggleFAQ(id)`'s next state: clicking the open item closes it, clicking any
      other opens that one. */
  function Toggle(openId: Option<string>, id: string): Option<string> {
    if openId == Some(id) then None else Some(id)
  }

  /** The `isOpen` prop of the item with id `id`. */
  predicate IsOpen(openId: Option<string>, id: string) {
    openId == Some(id)
  }

  /** After a toggle exactly one item is open or none is: the clicked item is open
      iff it was closed, and every other item is closed. */
  lemma ToggleOpens(openId: Option<string>, id: string, other: string)
    ensures IsOpen(Toggle(openId, id), id) <==> !IsOpen(openId, id)
    ensures other != id ==> !IsOpen(Toggle(openId, id), other)
    ensures IsOpen(openId, id) ==> Toggle(openId, id) == None
  {
  }

  /** One `openId` opens at most one id. */
  lemma AtMostOneOpen(openId: Option<string>, a: string, b: string)
    requires IsOpen(openId, a) && IsOpen(openId, b)
    ensures a == b
  {
  }

  /** Toggling the same item twice restores the previous state exactly when nothing or
      that item was open before; from another open item it ends all-closed. */
  lemma ToggleTwice(openId: Option<string>, id: string)
    ensures Toggle(Toggle(openId, id), id) == openId <==> (openId == None || openId == Some(id))
    ensures Toggle(Toggle(openId, id), id) != openId ==> Toggle(Toggle(openId, id), id) == None
  {
  }

  /** The ids of the list are pairwise distinct. */
  predicate DistinctIds(faqs: seq<FAQ>) {
    forall i, j :: 0 <= i < j < |faqs| ==> faqs[i].id != faqs[j].id
  }

  /** The `isOpen` flags the list renders, one per item in order. */
  function OpenFlags(faqs: seq<FAQ>, openId: Option<string>): (flags: seq<bool>)
    ensures |flags| == |faqs|
    ensures forall i :: 0 <= i < |faqs| ==> (flags[i] <==> IsOpen(openId, faqs[i].id))
    decreases |faqs|
  {
    if |faqs| == 0 then []
    else [IsOpen(openId, faqs[0].id)] + OpenFlags(faqs[1..], openId)
  }

  /** With distinct ids, at most one rendered item is open, and none is when
      `openId` is null. */
  lemma AtMostOneFlag(faqs: seq<FAQ>, openId: Option<string>, i: nat, j: nat)
    requires DistinctIds(faqs) && i < |faqs| && j < |faqs|
    ensures OpenFlags(faqs, openId)[i] && OpenFlags(faqs, openId)[j] ==> i == j
    ensures openId == None ==> !OpenFlags(faqs, openId)[i]
  {
  }

  /** `FAQList`'s state. */
  class FAQList {
    const faqs: seq<FAQ>
    var openId: Option<string>

    /** No item is open at first. */
    constructor (faqs: seq<FAQ>)
      ensures this.faqs == faqs && openId == None
    {
      this.faqs := faqs;
      openId := None;
    }

    /** `toggleFAQ(id)`. */
    method ToggleFAQ(id: string)
      modifies this
      ensures openId == Toggle(old(openId), id)
    {
      openId := if openId == Some(id) then None else Some(id);
    }

    /** The flags rendered for the current state: item `i` shows its answer exactly
        when its id is the open one. */
    function Rendered(): (flags: seq<bool>)
      reads this
      ensures |flags| == |faqs|
      ensures forall i :: 0 <= i < |faqs| ==> (flags[i] <==> openId == Some(faqs[i].id))
    {
      OpenFlags(faqs, openId)
    }
  }
}
