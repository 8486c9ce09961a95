/**
  The FAQ accordion: `openIndex` is null or the index of the one open
  question; clicking a question opens it and closes any other, and clicking
  the open question closes it.
 */
module FaqAccordion {
  import opened Wrappers

  /** The number of questions on the page. */
  const FaqCount: nat := 6

  /** An answer is rendered when its index is the open one. */
  predicate AnswerShown(open: Option<nat>, i: nat)
  {
    open == Some(i)
  }

  /** `useState<number | null>(null)`: every answer starts closed. */
  function Initial(): (open: Option<nat>)
    ensures forall i :: !AnswerShown(open, i)
  {
    None
  }

  /** `setOpenIndex(openIndex === index ? null : index)` */
  function Click(open: Option<nat>, i: nat): (r: Option<nat>)
    ensures AnswerShown(r, i) <==> !AnswerShown(open, i)
    ensures forall j :: j != i ==> !AnswerShown(r, j)
  {
    if open == Some(i) then None else Some(i)
  }

  /** At most one answer is ever visible. */
  lemma AtMostOneShown(open: Option<nat>, i: nat, j: nat)
    requires AnswerShown(open, i) && AnswerShown(open, j)
    ensures i == j
  {
  }

  /** Two clicks on the same question restore the accordion exactly when nothing else was open. */
  lemma ClickTwice(open: Option<nat>, i: nat)
    ensures Click(Click(open, i), i) == open <==> (open == None || open == Some(i))
  {
  }

  /** The accordion after a sequence of clicks on question indices. */
  function Run(open: Option<nat>, clicks: seq<nat>): Option<nat>
    decreases |clicks|
  {
    if |clicks| == 0 then open else Run(Click(open, clicks[0]), clicks[1..])
  }

  /** The open index is always one of the questions on the page. */
  ghost predicate InRange(open: Option<nat>)
  {
    open == None || open.value < FaqCount
  }

  /**
    Clicks on rendered questions keep the open index on the page, and the
    open question afterwards is the last one clicked or none.
   */
  lemma {:induction false} RunInRange(open: Option<nat>, clicks: seq<nat>)
    requires InRange(open)
    requires forall k :: 0 <= k < |clicks| ==> clicks[k] < FaqCount
    ensures InRange(Run(open, clicks))
    ensures |clicks| > 0 ==> Run(open, clicks) == None || Run(open, clicks) == Some(clicks[|clicks| - 1])
    decreases |clicks|
  {
    if |clicks| > 0 {
      RunInRange(Click(open, clicks[0]), clicks[1..]);
    }
  }
}
