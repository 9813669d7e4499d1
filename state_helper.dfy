/** StateHelper: the state predicates a node answers from the nil checks of
    its three attributes. */
module StateHelper {

  /** What the predicates observe of a node: whether `back`, `data` and
      `front` are nil. */
  datatype NilState = NilState(backNil: bool, dataNil: bool, frontNil: bool)

  /** back_attached: back refers to a Node. */
  predicate BackAttached(s: NilState)
  {
    !s.backNil
  }

  /** front_attached: front refers to a Node. */
  predicate FrontAttached(s: NilState)
  {
    !s.frontNil
  }

  /** no_attachments: back and front are nil. */
  predicate NoAttachments(s: NilState)
  {
    !BackAttached(s) && !FrontAttached(s)
  }

  /** empty: data is nil. */
  predicate Empty(s: NilState)
  {
    s.dataNil
  }

  /** base: back is nil and front refers to a Node. */
  predicate Base(s: NilState)
  {
    !BackAttached(s) && FrontAttached(s)
  }

  /** pioneer: back refers to a Node and front is nil. */
  predicate Pioneer(s: NilState)
  {
    BackAttached(s) && !FrontAttached(s)
  }

  /** no_attachments, base and pioneer exclude one another, and when none of
      them holds both sides are attached. */
  lemma ShapesExclusive(s: NilState)
    ensures !(NoAttachments(s) && Base(s))
    ensures !(NoAttachments(s) && Pioneer(s))
    ensures !(Base(s) && Pioneer(s))
    ensures !NoAttachments(s) && !Base(s) && !Pioneer(s) <==> BackAttached(s) && FrontAttached(s)
  {
  }

  /** The attachment predicates do not look at data, and empty looks only at
      data. */
  lemma AttachmentIndependentOfData(s: NilState, dataNil: bool)
    ensures var t := s.(dataNil := dataNil);
      && BackAttached(t) == BackAttached(s)
      && FrontAttached(t) == FrontAttached(s)
      && NoAttachments(t) == NoAttachments(s)
      && Base(t) == Base(s)
      && Pioneer(t) == Pioneer(s)
      && Empty(t) == dataNil
  {
  }
}
