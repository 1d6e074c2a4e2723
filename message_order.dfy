/**
 * The `messages` selector: a reversed copy of the stored messages. Storage
 * is newest first (history pages are appended, live messages are put in
 * front); the view is oldest first, as a transcript is read.
 */
module MessageOrder {
  import opened ChatTypes

  /** The `messages` selector on a stored list. */
  function OldestFirst(raw: seq<Message>): (view: seq<Message>)
    ensures |view| == |raw|
    ensures forall i :: 0 <= i < |raw| ==> view[i] == raw[|raw| - 1 - i]
  {
    if raw == [] then [] else OldestFirst(raw[1..]) + [raw[0]]
  }

  /** Reversing the view gives back the stored list. */
  lemma {:induction false} OldestFirstRoundTrip(raw: seq<Message>)
    ensures OldestFirst(OldestFirst(raw)) == raw
  {
  }

  /** A message put in front of storage shows at the bottom of the view. */
  lemma {:induction false} FrontMessageShowsLast(raw: seq<Message>, m: Message)
    ensures OldestFirst([m] + raw) == OldestFirst(raw) + [m]
  {
  }

  /** A page appended to storage shows above everything already in the view. */
  lemma {:induction false} AppendedPageShowsFirst(raw: seq<Message>, page: seq<Message>)
    ensures OldestFirst(raw + page) == OldestFirst(page) + OldestFirst(raw)
  {
  }
}
