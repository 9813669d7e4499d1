/** The doubly-linked Node: a back reference, a payload and a front
    reference, with validated setters, attribute and identity equality, two
    cloning strategies and a two-row diagram. */
module NodeImpl {
  import opened Outcomes
  import opened Payload
  import SH = StateHelper
  import KH = KindHelper
  import IH = InspectHelper

  /** Any Ruby object an operation may be handed: a Node or a non-Node value
      (nil is `VData(Nil)`). */
  datatype Value = VNode(node: Node) | VData(data: Data)

  /** `n.instance_of?(Node) || n.nil?()`: what back= and front= accept. */
  predicate IsNodeOrNil(v: Value)
  {
    v.VNode? || v == VData(Nil)
  }

  /** The reference a Node-or-nil value denotes. */
  function AsRef(v: Value): Node?
    requires IsNodeOrNil(v)
  {
    if v.VNode? then v.node else null
  }

  /** The value a reference denotes. */
  function OfRef(n: Node?): Value
  {
    if n == null then VData(Nil) else VNode(n)
  }

  /** `DataType.instance?(v)`: a Node is never a payload. */
  predicate IsDataTypeValue(v: Value)
  {
    v.VData? && IsDataType(v.data)
  }

  /** The objects a value refers to. */
  function Objects(v: Value): set<object>
  {
    if v.VNode? then {v.node} else {}
  }

  /** The nodes a nullable reference refers to. */
  function Refs(n: Node?): set<Node>
  {
    if n == null then {} else {n}
  }

  class Node {
    var back: Node?
    var data: DataType
    var front: Node?
    /** Set by Object#freeze; a frozen node raises FrozenError on every
        instance variable assignment. */
    var frozen: bool

    /** Ruby's allocation, before initialize runs: all instance variables
        nil, not frozen. */
    constructor Allocate()
      ensures back == null && data == Nil && front == null && !frozen
    {
      back, data, front, frozen := null, Nil, null, false;
    }

    /** initialize(b_n, dti, f_n): assigns back, data and front through their
        validating setters, in that order; the first rejected argument
        raises. */
    static method New(bN: Value := VData(Nil), dti: Value := VData(Nil), fN: Value := VData(Nil)) returns (r: Result<Node>)
      ensures r.Err? <==> !IsNodeOrNil(bN) || !IsDataTypeValue(dti) || !IsNodeOrNil(fN)
      ensures r.Err? ==> r.error == (if !IsNodeOrNil(bN) then NodeError
                                     else if !IsDataTypeValue(dti) then DataError
                                     else NodeError)
      ensures r.Ok? ==> && fresh(r.value) && !r.value.frozen
                        && r.value.back == AsRef(bN)
                        && r.value.data == dti.data
                        && r.value.front == AsRef(fN)
    {
      var n := new Node.Allocate();
      var o := n.SetBack(bN);
      if o.Fail? { return Err(o.error); }
      o := n.SetData(dti);
      if o.Fail? { return Err(o.error); }
      o := n.SetFront(fN);
      if o.Fail? { return Err(o.error); }
      r := Ok(n);
    }

    /** back=(n): accepts a Node or nil, raises NodeError otherwise; the
        assignment itself raises FrozenError on a frozen node. */
    method SetBack(n: Value := VData(Nil)) returns (o: Outcome)
      modifies this
      ensures o == (if !IsNodeOrNil(n) then Fail(NodeError)
                    else if old(frozen) then Fail(FrozenError)
                    else Pass)
      ensures back == (if o.Pass? then AsRef(n) else old(back))
      ensures data == old(data) && front == old(front) && frozen == old(frozen)
    {
      if !IsNodeOrNil(n) {
        o := Fail(NodeError);
      } else if frozen {
        o := Fail(FrozenError);
      } else {
        back := AsRef(n);
        o := Pass;
      }
    }

    /** data=(dti): accepts what DataType.instance? accepts (nil included),
        raises DataError otherwise; FrozenError on a frozen node. */
    method SetData(dti: Value := VData(Nil)) returns (o: Outcome)
      modifies this
      ensures o == (if !IsDataTypeValue(dti) then Fail(DataError)
                    else if old(frozen) then Fail(FrozenError)
                    else Pass)
      ensures data == (if o.Pass? then dti.data else old(data))
      ensures back == old(back) && front == old(front) && frozen == old(frozen)
    {
      if !IsDataTypeValue(dti) {
        o := Fail(DataError);
      } else if frozen {
        o := Fail(FrozenError);
      } else {
        data := dti.data;
        o := Pass;
      }
    }

    /** front=(n): accepts a Node or nil, raises NodeError otherwise;
        FrozenError on a frozen node. */
    method SetFront(n: Value := VData(Nil)) returns (o: Outcome)
      modifies this
      ensures o == (if !IsNodeOrNil(n) then Fail(NodeError)
                    else if old(frozen) then Fail(FrozenError)
                    else Pass)
      ensures front == (if o.Pass? then AsRef(n) else old(front))
      ensures back == old(back) && data == old(data) && frozen == old(frozen)
    {
      if !IsNodeOrNil(n) {
        o := Fail(NodeError);
      } else if frozen {
        o := Fail(FrozenError);
      } else {
        front := AsRef(n);
        o := Pass;
      }
    }

    /** attach_back(n): only a Node is accepted (nil raises ArgumentError
        too); on success back becomes n, nothing else changes, and the call
        yields n (the value of the assignment `self.back = n`). */
    method AttachBack(n: Value := VData(Nil)) returns (r: Result<Node>)
      modifies this
      ensures r == (if !n.VNode? then Err(ArgumentError)
                    else if old(frozen) then Err(FrozenError)
                    else Ok(n.node))
      ensures back == (if r.Ok? then n.node else old(back))
      ensures data == old(data) && front == old(front) && frozen == old(frozen)
    {
      if !n.VNode? {
        r := Err(ArgumentError);
      } else {
        var o := SetBack(n);
        r := if o.Pass? then Ok(n.node) else Err(o.error);
      }
    }

    /** attach_front(n): only a Node is accepted; on success front becomes
        n, nothing else changes, and the call yields n (the value of the
        assignment `self.front = n`). */
    method AttachFront(n: Value := VData(Nil)) returns (r: Result<Node>)
      modifies this
      ensures r == (if !n.VNode? then Err(ArgumentError)
                    else if old(frozen) then Err(FrozenError)
                    else Ok(n.node))
      ensures front == (if r.Ok? then n.node else old(front))
      ensures back == old(back) && data == old(data) && frozen == old(frozen)
    {
      if !n.VNode? {
        r := Err(ArgumentError);
      } else {
        var o := SetFront(n);
        r := if o.Pass? then Ok(n.node) else Err(o.error);
      }
    }

    /** detach_back: back becomes nil; fails only on a frozen node. */
    method DetachBack() returns (o: Outcome)
      modifies this
      ensures o == (if old(frozen) then Fail(FrozenError) else Pass)
      ensures back == (if o.Pass? then null else old(back))
      ensures data == old(data) && front == old(front) && frozen == old(frozen)
    {
      o := SetBack(VData(Nil));
    }

    /** detach_front: front becomes nil; fails only on a frozen node. */
    method DetachFront() returns (o: Outcome)
      modifies this
      ensures o == (if old(frozen) then Fail(FrozenError) else Pass)
      ensures front == (if o.Pass? then null else old(front))
      ensures back == old(back) && data == old(data) && frozen == old(frozen)
    {
      o := SetFront(VData(Nil));
    }

    /** substitute(dti): replaces data only and returns its argument. */
    method Substitute(dti: Value := VData(Nil)) returns (r: Result<Value>)
      modifies this
      ensures r == (if !IsDataTypeValue(dti) then Err(DataError)
                    else if old(frozen) then Err(FrozenError)
                    else Ok(dti))
      ensures data == (if r.Ok? then dti.data else old(data))
      ensures back == old(back) && front == old(front) && frozen == old(frozen)
    {
      var o := SetData(dti);
      if o.Fail? {
        r := Err(o.error);
      } else {
        r := Ok(dti);
      }
    }

    /** b(): the back reference, frozen (freezing nil is a no-op). */
    method B() returns (r: Node?)
      modifies Refs(back)`frozen
      ensures r == back
      ensures r != null ==> r.frozen
    {
      r := back;
      if r != null {
        r.frozen := true;
      }
    }

    /** f(): the front reference, frozen. */
    method F() returns (r: Node?)
      modifies Refs(front)`frozen
      ensures r == front
      ensures r != null ==> r.frozen
    {
      r := front;
      if r != null {
        r.frozen := true;
      }
    }

    /** Object#clone on a Node or nil: nil clones to nil; a Node clones to a
        new Node with the same instance variables and the same frozen
        state. */
    static method CloneRef(n: Node?) returns (c: Node?)
      ensures n == null ==> c == null
      ensures n != null ==> && c != null && fresh(c)
                            && c.back == n.back && c.data == n.data
                            && c.front == n.front && c.frozen == n.frozen
    {
      if n == null {
        c := null;
      } else {
        c := new Node.Allocate();
        c.back, c.data, c.front, c.frozen := n.back, n.data, n.front, n.frozen;
      }
    }

    /** shallow_clone(): a new node whose attached neighbours are fresh
        copies of self's (so they differ from self's references), and whose
        data is self's data. It is attribute-equal to self exactly when self
        has no attachments. */
    method ShallowClone() returns (n: Node)
      ensures fresh(n) && !n.frozen && n.data == data
      ensures back == null ==> n.back == null
      ensures front == null ==> n.front == null
      ensures back != null ==> && n.back != null && fresh(n.back)
                               && n.back.back == back.back && n.back.data == back.data
                               && n.back.front == back.front && n.back.frozen == back.frozen
      ensures front != null ==> && n.front != null && fresh(n.front)
                                && n.front.back == front.back && n.front.data == front.data
                                && n.front.front == front.front && n.front.frozen == front.frozen
      ensures back != null && front != null ==> n.back != n.front
      ensures n.Equals(VNode(this)) <==> back == null && front == null
      ensures !n.Identical(VNode(this))
    {
      var b := CloneRef(back);
      var f := CloneRef(front);
      var r := New(OfRef(b), VData(data), OfRef(f));
      n := r.value;
    }

    /** clone_df(): a new node holding self's very back, data and front
        references, after freezing the referenced nodes. */
    method CloneDf() returns (n: Node)
      modifies Refs(back)`frozen, Refs(front)`frozen
      ensures fresh(n) && !n.frozen
      ensures n.back == back && n.data == data && n.front == front
      ensures back != null ==> back.frozen
      ensures front != null ==> front.frozen
      ensures n.Equals(VNode(this)) && !n.Identical(VNode(this))
    {
      var b := B();
      var f := F();
      var r := New(OfRef(b), VData(data), OfRef(f));
      n := r.value;
    }

    /** ==(n): false for a non-Node; otherwise back and front compared by
        identity (nil equal to nil) and data by value. */
    predicate Equals(n: Value := VData(Nil))
      reads this, Objects(n)
    {
      n.VNode? && back == n.node.back && data == n.node.data && front == n.node.front
    }

    /** ===(n): the very same object. */
    predicate Identical(n: Value := VData(Nil))
    {
      n.VNode? && n.node == this
    }

    /** What StateHelper's and KindHelper's predicates observe. */
    function State(): SH.NilState
      reads this
    {
      SH.NilState(back == null, data == Nil, front == null)
    }

    /** The `lines` inspect() picks by attachment state. The dispatch
        names lone_insp, pioneer_insp, base_insp and common_insp stand for
        the layouts InspectHelper defines for those states: only_data_insp,
        nil_front_insp, nil_back_insp and doubly_linked_insp. */
    function Lines(title: string, text: string): (r: Result<IH.Rows>)
      reads this
      ensures r.Ok? <==> IH.Fits(text)
      ensures r.Err? ==> r.error == ArgumentError
      ensures r.Ok? ==> && |r.value.upper| == |title| + IH.P_AND_P_LENGTH + ArrowWidth(back) + ArrowWidth(front)
                        && |r.value.lower| == IH.ARROWLESS_LENGTH + ArrowWidth(back) + ArrowWidth(front)
    {
      if SH.NoAttachments(State()) then IH.OnlyDataInsp(title, text)
      else if SH.Pioneer(State()) then IH.NilFrontInsp(title, text)
      else if SH.Base(State()) then IH.NilBackInsp(title, text)
      else IH.DoublyLinkedInsp(title, text)
    }

    /** inspect(): the upper row, a newline and the lower row, given the
        node's label (`to_s`) and its data's text. */
    function Inspect(title: string, text: string): (r: Result<string>)
      reads this
      ensures r.Ok? <==> IH.Fits(text)
      ensures r.Err? ==> r.error == ArgumentError
      ensures r.Ok? ==> |r.value| == |title| + 35 + 2 * (ArrowWidth(back) + ArrowWidth(front))
    {
      match Lines(title, text)
      case Err(e) => Err(e)
      case Ok(rows) => Ok(rows.upper + "\n" + rows.lower)
    }
  }

  /** Width an attachment adds to each row: an arrow or its padding. */
  function ArrowWidth(n: Node?): nat
  {
    if n == null then 0 else 3
  }

  /** The upper row ends in a front arrow exactly when front is attached,
      and the lower row starts with a back arrow exactly when back is
      attached. */
  lemma LinesArrows(n: Node, title: string, text: string)
    requires IH.Fits(text)
    ensures var rows := n.Lines(title, text).value;
      && (rows.upper[|rows.upper| - 3..] == IH.FRONT_ARROW <==> n.front != null)
      && (rows.lower[..3] == IH.BACK_ARROW <==> n.back != null)
  {
    var rows := n.Lines(title, text).value;
    var up := IH.UpperRow(title);
    var low := IH.LowerRow(text).value;
    var k := |rows.upper|;
    if n.front == null {
      assert rows.upper[k - 1] == up[|up| - 1] == '|';
    } else {
      assert rows.upper[k - 3..] == IH.FRONT_ARROW;
    }
    if n.back == null {
      assert rows.lower[0] == low[0] == '|';
    } else {
      assert rows.lower[..3] == IH.BACK_ARROW;
    }
  }

  /** The diagram is the upper row, a newline and the lower row; the upper
      row is as wide as the label plus the pipes and one block per
      attachment, and ends in a front arrow exactly when front is attached;
      the lower row starts with a back arrow exactly when back is attached
      and is 30, 33 or 36 characters wide by the number of attachments. */
  lemma InspectLayout(n: Node, title: string, text: string)
    requires IH.Fits(text)
    ensures var r := n.Inspect(title, text);
      var k := |title| + IH.P_AND_P_LENGTH + ArrowWidth(n.back) + ArrowWidth(n.front);
      && r.Ok? && k < |r.value|
      && r.value[k] == '\n'
      && |r.value| - k - 1 == IH.ARROWLESS_LENGTH + ArrowWidth(n.back) + ArrowWidth(n.front)
      && (r.value[k - 3..k] == IH.FRONT_ARROW <==> n.front != null)
      && (r.value[k + 1..k + 4] == IH.BACK_ARROW <==> n.back != null)
  {
    var rows := n.Lines(title, text).value;
    var r := n.Inspect(title, text).value;
    var k := |rows.upper|;
    assert r == rows.upper + "\n" + rows.lower;
    assert r[k - 3..k] == rows.upper[k - 3..];
    assert r[k + 1..k + 4] == rows.lower[..3];
    LinesArrows(n, title, text);
  }

  /** The block an attachment puts at one end of a row: its arrow or
      blanks, or nothing when that side is nil. */
  function Block(n: Node?, s: string): string
  {
    if n == null then "" else s
  }

  /** The diagram's content, independent of the four-way dispatch: the
      upper row is the label between pipes, preceded by blanks when back
      is attached and followed by a front arrow when front is attached; the
      lower row is the centred data text between pipes, preceded by a back
      arrow when back is attached and followed by blanks when front is
      attached. */
  lemma {:induction false} InspectContent(n: Node, title: string, text: string)
    requires IH.Fits(text)
    ensures var upper := Block(n.back, IH.ARROW_PADDING) + IH.UpperRow(title) + Block(n.front, IH.FRONT_ARROW);
      var lower := Block(n.back, IH.BACK_ARROW) + IH.LowerRow(text).value + Block(n.front, IH.ARROW_PADDING);
      && n.Lines(title, text) == Ok(IH.Rows(upper, lower))
      && n.Inspect(title, text) == Ok(upper + "\n" + lower)
  {
    var up := IH.UpperRow(title);
    var low := IH.LowerRow(text).value;
    var pu, fu := Block(n.back, IH.ARROW_PADDING), Block(n.front, IH.FRONT_ARROW);
    var bl, fl := Block(n.back, IH.BACK_ARROW), Block(n.front, IH.ARROW_PADDING);
    var rows := n.Lines(title, text).value;
    assert rows.upper == pu + up + fu;
    assert rows.lower == bl + low + fl;
  }

  /** StateHelper's predicates, read on a node: back_attached iff back is
      non-nil, front_attached iff front is non-nil, empty iff data is nil,
      and base/pioneer/no_attachments by the two nil checks. */
  lemma NodeState(n: Node)
    ensures SH.BackAttached(n.State()) <==> n.back != null
    ensures SH.FrontAttached(n.State()) <==> n.front != null
    ensures SH.NoAttachments(n.State()) <==> n.back == null && n.front == null
    ensures SH.Empty(n.State()) <==> n.data == Nil
    ensures SH.Base(n.State()) <==> n.back == null && n.front != null
    ensures SH.Pioneer(n.State()) <==> n.back != null && n.front == null
  {
  }

  /** The kind of a node, by its attachments only. */
  lemma NodeKind(n: Node)
    ensures KH.Kind(n.State()) == Some(
      if n.back == null && n.front == null then "lone"
      else if n.back == null then "base"
      else if n.front == null then "pioneer"
      else "common")
  {
    KH.KindTable(n.State());
  }

  /** == is false for every non-Node argument. */
  lemma EqualsOnlyNodes(n: Node, v: Value)
    requires !v.VNode?
    ensures !n.Equals(v)
  {
  }

  /** == is reflexive, symmetric and transitive. */
  lemma EqualsIsEquivalence(a: Node, b: Node, c: Node)
    ensures a.Equals(VNode(a))
    ensures a.Equals(VNode(b)) <==> b.Equals(VNode(a))
    ensures a.Equals(VNode(b)) && b.Equals(VNode(c)) ==> a.Equals(VNode(c))
  {
  }

  /** === holds exactly for the node itself, and implies ==. */
  lemma IdenticalIsIdentity(a: Node, v: Value)
    ensures a.Identical(v) <==> v == VNode(a)
    ensures a.Identical(v) ==> a.Equals(v)
  {
  }
}
