/** Client scenarios: the fixtures of the state and kind tests, and the
    freezing done by clone_df, checked against the Node contracts alone. */
module NodeScenarios {
  import opened Outcomes
  import opened Payload
  import opened NodeImpl
  import SH = StateHelper
  import KH = KindHelper

  /** The kind test fixtures: a lone node, a base, a common and a pioneer. */
  method KindScenarios()
  {
    var symbol := VData(Sym("test_symbol"));
    var r1 := Node.New(VData(Nil), symbol, VData(Nil));
    var r2 := Node.New(VData(Nil), VData(Num(3.14)), VData(Nil));
    var node1, node2 := r1.value, r2.value;

    var lone := Node.New(VData(Nil), symbol, VData(Nil));
    var base := Node.New(VData(Nil), symbol, VNode(node1));
    var common := Node.New(VNode(node1), symbol, VNode(node2));
    var pioneer := Node.New(VNode(node1), symbol, VData(Nil));
    assert KH.Kind(lone.value.State()) == Some("lone");
    assert KH.Kind(base.value.State()) == Some("base");
    assert KH.Kind(common.value.State()) == Some("common");
    assert KH.Kind(pioneer.value.State()) == Some("pioneer");
    assert !KH.Lone(base.value.State()) && !KH.Common(pioneer.value.State());
  }

  /** The state test fixtures: substituting nil empties a node, and a node
      given as another's back or front attaches it. */
  method StateScenarios()
  {
    var r := Node.New(VData(Nil), VData(Num(5.0)), VData(Nil));
    var node := r.value;
    assert !SH.Empty(node.State()) && SH.NoAttachments(node.State());
    var s := node.Substitute(VData(Nil));
    assert s == Ok(VData(Nil)) && SH.Empty(node.State());

    var withBack := Node.New(VNode(node), VData(Nil), VData(Nil));
    assert SH.Pioneer(withBack.value.State()) && !SH.Base(withBack.value.State());
    var withFront := Node.New(VData(Nil), VData(Text("test")), VNode(node));
    assert SH.Base(withFront.value.State()) && !SH.NoAttachments(withFront.value.State());
  }

  /** Rejected arguments: a non-Node attachment, nil given to attach_back, a
      Node given as data. */
  method ErrorScenarios()
  {
    var r := Node.New(VData(Nil), VData(Bool(true)), VData(Nil));
    var node := r.value;
    var bad := Node.New(VData(Num(1.0)), VData(Nil), VData(Nil));
    assert bad == Err(NodeError);
    var o := node.AttachBack();
    assert o == Err(ArgumentError) && node.back == null;
    var plain := Node.New();
    assert plain.Ok? && plain.value.back == null && plain.value.data == Nil && plain.value.front == null;
    assert !node.Equals();
    var s := node.Substitute(VNode(node));
    assert s == Err(DataError) && node.data == Bool(true);
  }

  /** clone_df freezes the neighbours it shares with its clone, so they
      reject later mutation; the clone itself stays mutable. */
  method CloneDfScenario()
  {
    var r1 := Node.New(VData(Nil), VData(Sym("a")), VData(Nil));
    var r2 := Node.New(VData(Nil), VData(Sym("b")), VData(Nil));
    var a, b := r1.value, r2.value;
    var o := a.AttachFront(VNode(b));
    assert o == Ok(b);
    var c := a.CloneDf();
    assert c.front == b && b.frozen && c.Equals(VNode(a));
    var d := b.DetachBack();
    assert d == Fail(FrozenError);
    var e := c.DetachFront();
    assert e == Pass && c.front == null && a.front == b;
  }
}
