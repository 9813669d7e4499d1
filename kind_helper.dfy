/** KindHelper: a node's kind, derived from its attachments. */
module KindHelper {
  import SH = StateHelper
  import opened Outcomes

  /** lone: no attachments. */
  predicate Lone(s: SH.NilState)
  {
    SH.NoAttachments(s)
  }

  /** common: both back and front refer to Nodes. */
  predicate Common(s: SH.NilState)
  {
    SH.BackAttached(s) && SH.FrontAttached(s)
  }

  /** base: no back attachment and a front attachment. */
  predicate Base(s: SH.NilState)
  {
    !SH.BackAttached(s) && SH.FrontAttached(s)
  }

  /** pioneer: a back attachment and no front attachment. */
  predicate Pioneer(s: SH.NilState)
  {
    SH.BackAttached(s) && !SH.FrontAttached(s)
  }

  /** Number of kind predicates that hold. */
  function KindCount(s: SH.NilState): nat
  {
    (if Lone(s) then 1 else 0) + (if Common(s) then 1 else 0) +
    (if Base(s) then 1 else 0) + (if Pioneer(s) then 1 else 0)
  }

  /** kind: the first of lone, common, base, pioneer that holds, as a String;
      `None` stands for the nil a Ruby `case` with no matching branch yields.
      It never falls through, and names exactly the predicate that holds. */
  function Kind(s: SH.NilState): (k: Option<string>)
    ensures k.Some?
    ensures k.value == "lone" <==> Lone(s)
    ensures k.value == "common" <==> Common(s)
    ensures k.value == "base" <==> Base(s)
    ensures k.value == "pioneer" <==> Pioneer(s)
  {
    if Lone(s) then Some("lone")
    else if Common(s) then Some("common")
    else if Base(s) then Some("base")
    else if Pioneer(s) then Some("pioneer")
    else None
  }

  /** Every node state has exactly one kind. */
  lemma ExactlyOneKind(s: SH.NilState)
    ensures KindCount(s) == 1
  {
  }

  /** lone is no_attachments, and KindHelper's base and pioneer agree with
      StateHelper's. */
  lemma AgreesWithStateHelper(s: SH.NilState)
    ensures Lone(s) == SH.NoAttachments(s)
    ensures Base(s) == SH.Base(s)
    ensures Pioneer(s) == SH.Pioneer(s)
  {
  }

  /** The kind depends on the nullity of back and front only. */
  lemma KindIgnoresData(s: SH.NilState, dataNil: bool)
    ensures Kind(s.(dataNil := dataNil)) == Kind(s)
  {
  }

  /** The four attachment combinations and the kind each one has. */
  lemma KindTable(s: SH.NilState)
    ensures Kind(s) == Some(
      if s.backNil && s.frontNil then "lone"
      else if s.backNil then "base"
      else if s.frontNil then "pioneer"
      else "common")
  {
  }
}
