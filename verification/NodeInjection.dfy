/** Injecting a stack of nodes into a workflow graph at named edges. */
module NodeInjection {
  import opened Wrappers
  import Decimal

  datatype Wire = Wire(node: string, output: int)

  datatype Input = Unset | Plain(text: string) | Wired(wire: Wire)

  datatype Node = Node(classType: string, inputs: map<string, Input>)

  type Workflow = map<string, Node>

  datatype Consumer = Consumer(node: string, key: string)

  datatype Edge = Edge(source: Wire, consumers: seq<Consumer>)

  datatype Consume = Consume(edge: string, node: int, key: string)

  datatype Produce = Produce(edge: string, node: int, output: int)

  datatype Internal = Internal(source: int, output: int, target: int, key: string)

  datatype Stack = Stack(nodes: seq<Node>, consumes: seq<Consume>, produces: seq<Produce>, wires: seq<Internal>)

  datatype Error = UnknownEdge(name: string) | BadIndex(index: int) | MissingNode(id: string) | EmptyStack

  // ---- fresh node ids ----

  predicate IsNumber(id: string) {
    id != "" && Decimal.AllDigits(id)
  }

  function Numbers(w: Workflow): set<nat> {
    set id | id in w && IsNumber(id) :: Decimal.Value(id)
  }

  predicate IsMax(ns: set<nat>, m: nat) {
    m in ns && forall n :: n in ns ==> n <= m
  }

  lemma {:induction false} MaxExists(ns: set<nat>)
    requires ns != {}
    ensures exists m :: IsMax(ns, m)
  {
    var n :| n in ns;
    if ns == {n} {
      assert IsMax(ns, n);
    } else {
      MaxExists(ns - {n});
      assert forall x :: x in ns ==> x == n || x in ns - {n};
      var m :| IsMax(ns - {n}, m);
      if m < n {
        assert IsMax(ns, n);
      } else {
        assert IsMax(ns, m);
      }
    }
  }

  ghost function Max(ns: set<nat>): (m: nat)
    requires ns != {}
    ensures IsMax(ns, m)
  {
    MaxExists(ns);
    var m :| IsMax(ns, m);
    m
  }

  /** `_next_node_id`. */
  ghost function NextId(w: Workflow): string {
    if Numbers(w) == {} then "10" else Decimal.Numeral(Max(Numbers(w)) + 1)
  }

  /** The next id is not in use. */
  lemma NextIdIsFresh(w: Workflow)
    ensures NextId(w) !in w && IsNumber(NextId(w))
  {
    assert Decimal.AllDigits("10");
    assert forall id :: id in w && IsNumber(id) ==> Decimal.Value(id) in Numbers(w);
  }

  method NextNodeId(w: Workflow) returns (id: string)
    ensures id == NextId(w)
  {
    var todo := w.Keys;
    var found, max := false, 0;
    while todo != {}
      invariant todo <= w.Keys
      invariant !found ==> forall k :: k in w && k !in todo ==> !IsNumber(k)
      invariant found ==> max in Numbers(w)
      invariant found ==> forall k :: k in w && k !in todo && IsNumber(k) ==> Decimal.Value(k) <= max
      decreases |todo|
    {
      var k :| k in todo;
      if IsNumber(k) {
        assert Decimal.Value(k) in Numbers(w);
        if !found || Decimal.Value(k) > max {
          found, max := true, Decimal.Value(k);
        }
      }
      todo := todo - {k};
    }
    if !found {
      return "10";
    }
    assert IsMax(Numbers(w), max);
    id := Decimal.Numeral(max + 1);
  }

  // ---- the graph after a list of wirings ----

  datatype Wiring = Wiring(node: string, key: string, wire: Wire)

  function SetInput(w: Workflow, a: Wiring): Workflow {
    if a.node in w then w[a.node := w[a.node].(inputs := w[a.node].inputs[a.key := Wired(a.wire)])] else w
  }

  /** The first `n` wirings in order; later ones overwrite earlier ones. */
  function Apply(w: Workflow, wirings: seq<Wiring>, n: nat): Workflow
    requires n <= |wirings|
  {
    if n == 0 then w else SetInput(Apply(w, wirings, n - 1), wirings[n - 1])
  }

  datatype Added = Added(workflow: Workflow, ids: seq<string>)

  /** The stack's first `n` nodes under fresh ids. */
  ghost function AddNodes(w: Workflow, nodes: seq<Node>, n: nat): (added: Added)
    requires n <= |nodes|
    ensures |added.ids| == n
  {
    if n == 0 then Added(w, [])
    else
      var before := AddNodes(w, nodes, n - 1);
      var id := NextId(before.workflow);
      Added(before.workflow[id := nodes[n - 1]], before.ids + [id])
  }

  predicate InRange(i: int, n: nat) {
    0 <= i < n
  }

  function InternalWirings(ids: seq<string>, wires: seq<Internal>, n: nat): seq<Wiring>
    requires n <= |wires|
    requires forall i :: 0 <= i < n ==> InRange(wires[i].source, |ids|) && InRange(wires[i].target, |ids|)
  {
    if n == 0 then []
    else
      var x := wires[n - 1];
      assert InRange(x.source, |ids|) && InRange(x.target, |ids|);
      InternalWirings(ids, wires, n - 1) + [Wiring(ids[x.target], x.key, Wire(ids[x.source], x.output))]
  }

  function ConsumeWirings(ids: seq<string>, edges: map<string, Edge>, consumes: seq<Consume>, n: nat): seq<Wiring>
    requires n <= |consumes|
    requires forall i :: 0 <= i < n ==> InRange(consumes[i].node, |ids|) && consumes[i].edge in edges
  {
    if n == 0 then []
    else
      var c := consumes[n - 1];
      assert InRange(c.node, |ids|);
      ConsumeWirings(ids, edges, consumes, n - 1) + [Wiring(ids[c.node], c.key, edges[c.edge].source)]
  }

  function ConsumerWirings(consumers: seq<Consumer>, wire: Wire, n: nat): (wirings: seq<Wiring>)
    requires n <= |consumers|
    ensures |wirings| == n
    ensures forall i :: 0 <= i < n ==> wirings[i] == Wiring(consumers[i].node, consumers[i].key, wire)
  {
    if n == 0 then []
    else ConsumerWirings(consumers, wire, n - 1) + [Wiring(consumers[n - 1].node, consumers[n - 1].key, wire)]
  }

  function ProduceWirings(ids: seq<string>, edges: map<string, Edge>, produces: seq<Produce>, n: nat): seq<Wiring>
    requires n <= |produces|
    requires forall i :: 0 <= i < n ==> InRange(produces[i].node, |ids|) && produces[i].edge in edges
  {
    if n == 0 then []
    else
      var p := produces[n - 1];
      assert InRange(p.node, |ids|);
      var consumers := edges[p.edge].consumers;
      ProduceWirings(ids, edges, produces, n - 1) +
      ConsumerWirings(consumers, Wire(ids[p.node], p.output), |consumers|)
  }

  // ---- validation, in the order of the code ----

  function BadConsume(edges: map<string, Edge>, consumes: seq<Consume>): Option<Error> {
    if consumes == [] then None
    else if consumes[0].edge !in edges then Some(UnknownEdge(consumes[0].edge))
    else BadConsume(edges, consumes[1..])
  }

  function BadProduce(edges: map<string, Edge>, produces: seq<Produce>): Option<Error> {
    if produces == [] then None
    else if produces[0].edge !in edges then Some(UnknownEdge(produces[0].edge))
    else BadProduce(edges, produces[1..])
  }

  function BadConsumeIndex(consumes: seq<Consume>, n: nat): Option<Error> {
    if consumes == [] then None
    else if !InRange(consumes[0].node, n) then Some(BadIndex(consumes[0].node))
    else BadConsumeIndex(consumes[1..], n)
  }

  function BadProduceIndex(produces: seq<Produce>, n: nat): Option<Error> {
    if produces == [] then None
    else if !InRange(produces[0].node, n) then Some(BadIndex(produces[0].node))
    else BadProduceIndex(produces[1..], n)
  }

  function BadWire(wires: seq<Internal>, n: nat): Option<Error> {
    if wires == [] then None
    else if !InRange(wires[0].source, n) then Some(BadIndex(wires[0].source))
    else if !InRange(wires[0].target, n) then Some(BadIndex(wires[0].target))
    else BadWire(wires[1..], n)
  }

  /** The first consumer that names no node: looking it up raises. */
  function MissingConsumer(nodes: set<string>, wirings: seq<Wiring>): Option<Error> {
    if wirings == [] then None
    else if wirings[0].node !in nodes then Some(MissingNode(wirings[0].node))
    else MissingConsumer(nodes, wirings[1..])
  }

  /** The first bad name or index of a consumed or produced edge. */
  function EdgeError(edges: map<string, Edge>, stack: Stack): Option<Error> {
    var a := BadConsume(edges, stack.consumes);
    if a.Some? then a else
    var b := BadProduce(edges, stack.produces);
    if b.Some? then b else
    var c := BadConsumeIndex(stack.consumes, |stack.nodes|);
    if c.Some? then c else BadProduceIndex(stack.produces, |stack.nodes|)
  }

  function FirstError(edges: map<string, Edge>, stack: Stack): Option<Error> {
    var a := EdgeError(edges, stack);
    if a.Some? then a else BadWire(stack.wires, |stack.nodes|)
  }

  lemma {:induction false} ConsumesValid(edges: map<string, Edge>, consumes: seq<Consume>, n: nat)
    ensures BadConsume(edges, consumes).None? <==> forall i :: 0 <= i < |consumes| ==> consumes[i].edge in edges
    ensures BadConsumeIndex(consumes, n).None? <==> forall i :: 0 <= i < |consumes| ==> InRange(consumes[i].node, n)
  {
    if consumes != [] {
      ConsumesValid(edges, consumes[1..], n);
      assert forall i :: 0 < i < |consumes| ==> consumes[i] == consumes[1..][i - 1];
    }
  }

  lemma {:induction false} ProducesValid(edges: map<string, Edge>, produces: seq<Produce>, n: nat)
    ensures BadProduce(edges, produces).None? <==> forall i :: 0 <= i < |produces| ==> produces[i].edge in edges
    ensures BadProduceIndex(produces, n).None? <==> forall i :: 0 <= i < |produces| ==> InRange(produces[i].node, n)
  {
    if produces != [] {
      ProducesValid(edges, produces[1..], n);
      assert forall i :: 0 < i < |produces| ==> produces[i] == produces[1..][i - 1];
    }
  }

  lemma {:induction false} WiresValid(wires: seq<Internal>, n: nat)
    ensures BadWire(wires, n).None? <==>
      forall i :: 0 <= i < |wires| ==> InRange(wires[i].source, n) && InRange(wires[i].target, n)
  {
    if wires != [] {
      WiresValid(wires[1..], n);
      assert forall i :: 0 < i < |wires| ==> wires[i] == wires[1..][i - 1];
    }
  }

  lemma {:induction false} ConsumersValid(nodes: set<string>, wirings: seq<Wiring>)
    ensures MissingConsumer(nodes, wirings).None? <==> forall i :: 0 <= i < |wirings| ==> wirings[i].node in nodes
  {
    if wirings != [] {
      ConsumersValid(nodes, wirings[1..]);
      assert forall i :: 0 < i < |wirings| ==> wirings[i] == wirings[1..][i - 1];
    }
  }

  /** Every edge and every index the stack names exists. */
  predicate WellFormed(edges: map<string, Edge>, stack: Stack) {
    && (forall i :: 0 <= i < |stack.consumes| ==>
          stack.consumes[i].edge in edges && InRange(stack.consumes[i].node, |stack.nodes|))
    && (forall i :: 0 <= i < |stack.produces| ==>
          stack.produces[i].edge in edges && InRange(stack.produces[i].node, |stack.nodes|))
    && (forall i :: 0 <= i < |stack.wires| ==>
          InRange(stack.wires[i].source, |stack.nodes|) && InRange(stack.wires[i].target, |stack.nodes|))
  }

  lemma ErrorIffMalformed(edges: map<string, Edge>, stack: Stack)
    ensures FirstError(edges, stack).None? <==> WellFormed(edges, stack)
  {
    ConsumesValid(edges, stack.consumes, |stack.nodes|);
    ProducesValid(edges, stack.produces, |stack.nodes|);
    WiresValid(stack.wires, |stack.nodes|);
  }

  // ---- which error is reported ----

  /** The first place that fails a test. */
  predicate FirstAt(i: int, fine: seq<bool>) {
    0 <= i < |fine| && !fine[i] && forall j :: 0 <= j < i ==> fine[j]
  }

  predicate AllFine(fine: seq<bool>) {
    forall j :: 0 <= j < |fine| ==> fine[j]
  }

  function ConsumesNamed(edges: map<string, Edge>, consumes: seq<Consume>): seq<bool> {
    seq(|consumes|, i requires 0 <= i < |consumes| => consumes[i].edge in edges)
  }

  function ProducesNamed(edges: map<string, Edge>, produces: seq<Produce>): seq<bool> {
    seq(|produces|, i requires 0 <= i < |produces| => produces[i].edge in edges)
  }

  function ConsumesPlaced(consumes: seq<Consume>, n: nat): seq<bool> {
    seq(|consumes|, i requires 0 <= i < |consumes| => 0 <= consumes[i].node < n)
  }

  function ProducesPlaced(produces: seq<Produce>, n: nat): seq<bool> {
    seq(|produces|, i requires 0 <= i < |produces| => 0 <= produces[i].node < n)
  }

  function WiresPlaced(wires: seq<Internal>, n: nat): seq<bool> {
    seq(|wires|, i requires 0 <= i < |wires| => 0 <= wires[i].source < n && 0 <= wires[i].target < n)
  }

  lemma FirstIsHere(fine: seq<bool>)
    requires fine != [] && !fine[0]
    ensures FirstAt(0, fine)
  {
  }

  lemma FirstIsLater(fine: seq<bool>, rest: seq<bool>, i: nat)
    requires fine != [] && fine[0] && rest == fine[1..] && FirstAt(i, rest)
    ensures FirstAt(i + 1, fine)
  {
    assert forall j :: 0 < j < |fine| ==> fine[j] == rest[j - 1];
  }

  lemma {:induction false} BadConsumeIsFirst(edges: map<string, Edge>, consumes: seq<Consume>) returns (i: nat)
    requires BadConsume(edges, consumes).Some?
    ensures FirstAt(i, ConsumesNamed(edges, consumes)) && i < |consumes|
    ensures BadConsume(edges, consumes).value == UnknownEdge(consumes[i].edge)
  {
    if consumes[0].edge !in edges {
      i := 0;
      FirstIsHere(ConsumesNamed(edges, consumes));
    } else {
      var j := BadConsumeIsFirst(edges, consumes[1..]);
      FirstIsLater(ConsumesNamed(edges, consumes), ConsumesNamed(edges, consumes[1..]), j);
      i := j + 1;
    }
  }

  lemma {:induction false} BadProduceIsFirst(edges: map<string, Edge>, produces: seq<Produce>) returns (i: nat)
    requires BadProduce(edges, produces).Some?
    ensures FirstAt(i, ProducesNamed(edges, produces)) && i < |produces|
    ensures BadProduce(edges, produces).value == UnknownEdge(produces[i].edge)
  {
    if produces[0].edge !in edges {
      i := 0;
      FirstIsHere(ProducesNamed(edges, produces));
    } else {
      var j := BadProduceIsFirst(edges, produces[1..]);
      FirstIsLater(ProducesNamed(edges, produces), ProducesNamed(edges, produces[1..]), j);
      i := j + 1;
    }
  }

  lemma {:induction false} BadConsumeIndexIsFirst(consumes: seq<Consume>, n: nat) returns (i: nat)
    requires BadConsumeIndex(consumes, n).Some?
    ensures FirstAt(i, ConsumesPlaced(consumes, n)) && i < |consumes|
    ensures BadConsumeIndex(consumes, n).value == BadIndex(consumes[i].node)
  {
    if !InRange(consumes[0].node, n) {
      i := 0;
      FirstIsHere(ConsumesPlaced(consumes, n));
    } else {
      var j := BadConsumeIndexIsFirst(consumes[1..], n);
      FirstIsLater(ConsumesPlaced(consumes, n), ConsumesPlaced(consumes[1..], n), j);
      i := j + 1;
    }
  }

  lemma {:induction false} BadProduceIndexIsFirst(produces: seq<Produce>, n: nat) returns (i: nat)
    requires BadProduceIndex(produces, n).Some?
    ensures FirstAt(i, ProducesPlaced(produces, n)) && i < |produces|
    ensures BadProduceIndex(produces, n).value == BadIndex(produces[i].node)
  {
    if !InRange(produces[0].node, n) {
      i := 0;
      FirstIsHere(ProducesPlaced(produces, n));
    } else {
      var j := BadProduceIndexIsFirst(produces[1..], n);
      FirstIsLater(ProducesPlaced(produces, n), ProducesPlaced(produces[1..], n), j);
      i := j + 1;
    }
  }

  lemma {:induction false} BadWireIsFirst(wires: seq<Internal>, n: nat) returns (i: nat)
    requires BadWire(wires, n).Some?
    ensures FirstAt(i, WiresPlaced(wires, n)) && i < |wires|
    ensures BadWire(wires, n).value ==
      BadIndex(if 0 <= wires[i].source < n then wires[i].target else wires[i].source)
  {
    if !InRange(wires[0].source, n) || !InRange(wires[0].target, n) {
      i := 0;
      FirstIsHere(WiresPlaced(wires, n));
    } else {
      var j := BadWireIsFirst(wires[1..], n);
      FirstIsLater(WiresPlaced(wires, n), WiresPlaced(wires[1..], n), j);
      i := j + 1;
    }
  }

  /** The error reported is the first: unknown edges before bad indices, consumed edges before produced ones, the
      wires inside the stack last and their source before their target. */
  ghost predicate IsFirstError(edges: map<string, Edge>, stack: Stack, error: Error) {
    var n := |stack.nodes|;
    var consumed, produced := ConsumesNamed(edges, stack.consumes), ProducesNamed(edges, stack.produces);
    var from, to := ConsumesPlaced(stack.consumes, n), ProducesPlaced(stack.produces, n);
    var inside := WiresPlaced(stack.wires, n);
    match error
    case UnknownEdge(name) =>
      if !AllFine(consumed) then exists i :: FirstAt(i, consumed) && name == stack.consumes[i].edge
      else exists i :: FirstAt(i, produced) && name == stack.produces[i].edge
    case BadIndex(index) =>
      && AllFine(consumed) && AllFine(produced)
      && if !AllFine(from) then exists i :: FirstAt(i, from) && index == stack.consumes[i].node
         else if !AllFine(to) then exists i :: FirstAt(i, to) && index == stack.produces[i].node
         else
           exists i ::
             && FirstAt(i, inside)
             && index == if 0 <= stack.wires[i].source < n then stack.wires[i].target else stack.wires[i].source
    case _ => false
  }

  lemma ErrorIsFirst(edges: map<string, Edge>, stack: Stack)
    requires FirstError(edges, stack).Some?
    ensures IsFirstError(edges, stack, FirstError(edges, stack).value)
  {
    var n := |stack.nodes|;
    ConsumesValid(edges, stack.consumes, n);
    ProducesValid(edges, stack.produces, n);
    if BadConsume(edges, stack.consumes).Some? {
      var i := BadConsumeIsFirst(edges, stack.consumes);
    } else if BadProduce(edges, stack.produces).Some? {
      var i := BadProduceIsFirst(edges, stack.produces);
    } else if BadConsumeIndex(stack.consumes, n).Some? {
      var i := BadConsumeIndexIsFirst(stack.consumes, n);
    } else if BadProduceIndex(stack.produces, n).Some? {
      var i := BadProduceIndexIsFirst(stack.produces, n);
    } else {
      var i := BadWireIsFirst(stack.wires, n);
    }
  }

  function OwnWirings(ids: seq<string>, edges: map<string, Edge>, stack: Stack): seq<Wiring>
    requires WellFormed(edges, stack) && |ids| == |stack.nodes|
  {
    InternalWirings(ids, stack.wires, |stack.wires|) +
    ConsumeWirings(ids, edges, stack.consumes, |stack.consumes|)
  }

  /** All wirings of an injection, in the order they are made. */
  function Wirings(ids: seq<string>, edges: map<string, Edge>, stack: Stack): seq<Wiring>
    requires WellFormed(edges, stack) && |ids| == |stack.nodes|
  {
    OwnWirings(ids, edges, stack) + ProduceWirings(ids, edges, stack.produces, |stack.produces|)
  }

  /** `inject`. */
  ghost function Injection(w: Workflow, edges: map<string, Edge>, stack: Stack): Result<Workflow, Error> {
    ErrorIffMalformed(edges, stack);
    var error := FirstError(edges, stack);
    if error.Some? then Failure(error.value)
    else
      var added := AddNodes(w, stack.nodes, |stack.nodes|);
      var missing := MissingConsumer(added.workflow.Keys,
                                     ProduceWirings(added.ids, edges, stack.produces, |stack.produces|));
      if missing.Some? then Failure(missing.value)
      else
        var wirings := Wirings(added.ids, edges, stack);
        Success(Apply(added.workflow, wirings, |wirings|))
  }

  lemma {:induction false} ApplyPrefix(w: Workflow, a: seq<Wiring>, b: seq<Wiring>, n: nat)
    requires n <= |a| && n <= |b| && forall i :: 0 <= i < n ==> a[i] == b[i]
    ensures Apply(w, a, n) == Apply(w, b, n)
    decreases n
  {
    if n > 0 {
      ApplyPrefix(w, a, b, n - 1);
    }
  }

  lemma ApplyOneMore(w: Workflow, done: seq<Wiring>, a: Wiring)
    ensures Apply(w, done + [a], |done| + 1) == SetInput(Apply(w, done, |done|), a)
  {
    ApplyPrefix(w, done + [a], done, |done|);
  }

  lemma {:induction false} ApplyKeepsNodes(w: Workflow, wirings: seq<Wiring>, n: nat)
    requires n <= |wirings|
    ensures Apply(w, wirings, n).Keys == w.Keys
    ensures forall id :: id in w ==> Apply(w, wirings, n)[id].classType == w[id].classType
    decreases n
  {
    if n > 0 {
      ApplyKeepsNodes(w, wirings, n - 1);
    }
  }

  // ---- injection as it runs ----

  method AddStackNodes(w: Workflow, nodes: seq<Node>) returns (result: Workflow, ids: seq<string>)
    ensures Added(result, ids) == AddNodes(w, nodes, |nodes|)
  {
    result, ids := w, [];
    var i := 0;
    while i < |nodes|
      invariant 0 <= i <= |nodes| && Added(result, ids) == AddNodes(w, nodes, i)
    {
      var id := NextNodeId(result);
      ids := ids + [id];
      result := result[id := nodes[i]];
      i := i + 1;
    }
  }

  /** The checks before anything is added, in order. */
  method CheckEdges(edges: map<string, Edge>, stack: Stack) returns (error: Option<Error>)
    ensures error == EdgeError(edges, stack)
  {
    var consumes, produces, n := stack.consumes, stack.produces, |stack.nodes|;
    var i := 0;
    while i < |consumes|
      invariant 0 <= i <= |consumes| && BadConsume(edges, consumes) == BadConsume(edges, consumes[i..])
    {
      if consumes[i].edge !in edges {
        return Some(UnknownEdge(consumes[i].edge));
      }
      i := i + 1;
    }
    i := 0;
    while i < |produces|
      invariant 0 <= i <= |produces| && BadProduce(edges, produces) == BadProduce(edges, produces[i..])
    {
      if produces[i].edge !in edges {
        return Some(UnknownEdge(produces[i].edge));
      }
      i := i + 1;
    }
    i := 0;
    while i < |consumes|
      invariant 0 <= i <= |consumes| && BadConsumeIndex(consumes, n) == BadConsumeIndex(consumes[i..], n)
    {
      if consumes[i].node < 0 || consumes[i].node >= n {
        return Some(BadIndex(consumes[i].node));
      }
      i := i + 1;
    }
    i := 0;
    while i < |produces|
      invariant 0 <= i <= |produces| && BadProduceIndex(produces, n) == BadProduceIndex(produces[i..], n)
    {
      if produces[i].node < 0 || produces[i].node >= n {
        return Some(BadIndex(produces[i].node));
      }
      i := i + 1;
    }
    error := None;
  }

  /** The wires inside the stack; their indices are checked as they are reached. */
  method WireInside(w: Workflow, ids: seq<string>, wires: seq<Internal>)
      returns (result: Workflow, error: Option<Error>)
    ensures error == BadWire(wires, |ids|)
    ensures error.None? ==> forall i :: 0 <= i < |wires| ==>
      InRange(wires[i].source, |ids|) && InRange(wires[i].target, |ids|)
    ensures error.None? ==> var own := InternalWirings(ids, wires, |wires|); result == Apply(w, own, |own|)
  {
    result, error := w, None;
    ghost var done := [];
    var i := 0;
    while i < |wires|
      invariant 0 <= i <= |wires| && BadWire(wires, |ids|) == BadWire(wires[i..], |ids|)
      invariant forall j :: 0 <= j < i ==> InRange(wires[j].source, |ids|) && InRange(wires[j].target, |ids|)
      invariant done == InternalWirings(ids, wires, i) && result == Apply(w, done, |done|)
    {
      var x := wires[i];
      if x.source < 0 || x.source >= |ids| {
        error := Some(BadIndex(x.source));
        return;
      }
      if x.target < 0 || x.target >= |ids| {
        error := Some(BadIndex(x.target));
        return;
      }
      var wiring := Wiring(ids[x.target], x.key, Wire(ids[x.source], x.output));
      ApplyOneMore(w, done, wiring);
      result := SetInput(result, wiring);
      done := done + [wiring];
      i := i + 1;
    }
  }

  /** The sources of the consumed edges, wired after what is in `done`. */
  method WireConsumed(w: Workflow, ghost done: seq<Wiring>, start: Workflow, ids: seq<string>,
                      edges: map<string, Edge>, consumes: seq<Consume>)
      returns (result: Workflow)
    requires forall i :: 0 <= i < |consumes| ==> InRange(consumes[i].node, |ids|) && consumes[i].edge in edges
    requires start == Apply(w, done, |done|)
    ensures var own := done + ConsumeWirings(ids, edges, consumes, |consumes|); result == Apply(w, own, |own|)
  {
    result := start;
    ghost var own := done;
    var i := 0;
    while i < |consumes|
      invariant 0 <= i <= |consumes|
      invariant own == done + ConsumeWirings(ids, edges, consumes, i) && result == Apply(w, own, |own|)
    {
      var c := consumes[i];
      assert InRange(c.node, |ids|);
      var wiring := Wiring(ids[c.node], c.key, edges[c.edge].source);
      ApplyOneMore(w, own, wiring);
      result := SetInput(result, wiring);
      ghost var consumed := ConsumeWirings(ids, edges, consumes, i);
      assert done + (consumed + [wiring]) == done + consumed + [wiring];
      own := own + [wiring];
      i := i + 1;
    }
  }

  lemma {:induction false} FirstMissing(nodes: set<string>, a: seq<Wiring>, b: seq<Wiring>)
    ensures MissingConsumer(nodes, a + b) ==
      if MissingConsumer(nodes, a).Some? then MissingConsumer(nodes, a) else MissingConsumer(nodes, b)
  {
    if a == [] {
      assert a + b == b;
    } else {
      FirstMissing(nodes, a[1..], b);
      assert (a + b)[1..] == a[1..] + b;
    }
  }

  lemma {:induction false} ConsumersMissing(nodes: set<string>, consumers: seq<Consumer>, wire: Wire, i: nat, n: nat)
    requires i <= n <= |consumers| && MissingConsumer(nodes, ConsumerWirings(consumers, wire, i)).Some?
    ensures MissingConsumer(nodes, ConsumerWirings(consumers, wire, n)) ==
      MissingConsumer(nodes, ConsumerWirings(consumers, wire, i))
    decreases n
  {
    if i < n {
      ConsumersMissing(nodes, consumers, wire, i, n - 1);
      hide MissingConsumer;
      FirstMissing(nodes, ConsumerWirings(consumers, wire, n - 1),
                   [Wiring(consumers[n - 1].node, consumers[n - 1].key, wire)]);
    }
  }

  lemma {:induction false} ProducesMissing(nodes: set<string>, ids: seq<string>, edges: map<string, Edge>,
                                           produces: seq<Produce>, i: nat, n: nat)
    requires i <= n <= |produces|
    requires forall k :: 0 <= k < |produces| ==> InRange(produces[k].node, |ids|) && produces[k].edge in edges
    requires MissingConsumer(nodes, ProduceWirings(ids, edges, produces, i)).Some?
    ensures MissingConsumer(nodes, ProduceWirings(ids, edges, produces, n)) ==
      MissingConsumer(nodes, ProduceWirings(ids, edges, produces, i))
    decreases n
  {
    if i < n {
      ProducesMissing(nodes, ids, edges, produces, i, n - 1);
      var p := produces[n - 1];
      assert InRange(p.node, |ids|);
      var consumers := edges[p.edge].consumers;
      var wired := ConsumerWirings(consumers, Wire(ids[p.node], p.output), |consumers|);
      FirstMissing(nodes, ProduceWirings(ids, edges, produces, n - 1), wired);
      hide MissingConsumer;
    }
  }

  lemma OneMissing(nodes: set<string>, a: Wiring)
    ensures MissingConsumer(nodes, [a]) == if a.node !in nodes then Some(MissingNode(a.node)) else None
  {
  }

  /** The consumers of one produced edge, one after the other, wired after what is in `done`. */
  method RewireEdge(w: Workflow, ghost done: seq<Wiring>, start: Workflow, consumers: seq<Consumer>, wire: Wire)
      returns (result: Workflow, error: Option<Error>)
    requires start == Apply(w, done, |done|)
    ensures error == MissingConsumer(w.Keys, ConsumerWirings(consumers, wire, |consumers|))
    ensures error.None? ==>
      var all := done + ConsumerWirings(consumers, wire, |consumers|); result == Apply(w, all, |all|)
  {
    result, error := start, None;
    ghost var all := done;
    assert ConsumerWirings(consumers, wire, 0) == [] && MissingConsumer(w.Keys, []).None?;
    hide Apply, MissingConsumer, ConsumerWirings, SetInput;
    var i := 0;
    while i < |consumers|
      invariant 0 <= i <= |consumers| && all == done + ConsumerWirings(consumers, wire, i)
      invariant result == Apply(w, all, |all|)
      invariant MissingConsumer(w.Keys, ConsumerWirings(consumers, wire, i)).None?
    {
      var c := consumers[i];
      ghost var before, wiring := ConsumerWirings(consumers, wire, i), Wiring(c.node, c.key, wire);
      assert ConsumerWirings(consumers, wire, i + 1) == before + [wiring];
      OneMissing(w.Keys, wiring);
      ApplyKeepsNodes(w, all, |all|);
      FirstMissing(w.Keys, before, [wiring]);
      if c.node !in result {
        ConsumersMissing(w.Keys, consumers, wire, i + 1, |consumers|);
        error := Some(MissingNode(c.node));
        return;
      }
      ApplyOneMore(w, all, wiring);
      result := SetInput(result, Wiring(c.node, c.key, wire));
      assert done + (before + [wiring]) == done + before + [wiring];
      all := all + [wiring];
      i := i + 1;
    }
  }

  lemma NothingWired(w: Workflow, ids: seq<string>, edges: map<string, Edge>, produces: seq<Produce>)
    ensures ProduceWirings(ids, edges, produces, 0) == [] && Apply(w, [], 0) == w
    ensures MissingConsumer(w.Keys, []).None?
  {
  }

  lemma OneMoreProduce(ids: seq<string>, edges: map<string, Edge>, produces: seq<Produce>, i: nat)
    requires i < |produces|
    requires forall k :: 0 <= k < |produces| ==> InRange(produces[k].node, |ids|) && produces[k].edge in edges
    ensures InRange(produces[i].node, |ids|)
    ensures var p := produces[i];
      var consumers := edges[p.edge].consumers;
      ProduceWirings(ids, edges, produces, i + 1) ==
        ProduceWirings(ids, edges, produces, i) +
        ConsumerWirings(consumers, Wire(ids[p.node], p.output), |consumers|)
  {
  }

  /** The consumers of the produced edges. */
  method Rewire(w: Workflow, ids: seq<string>, edges: map<string, Edge>, produces: seq<Produce>)
      returns (result: Workflow, error: Option<Error>)
    requires forall i :: 0 <= i < |produces| ==> InRange(produces[i].node, |ids|) && produces[i].edge in edges
    ensures var wirings := ProduceWirings(ids, edges, produces, |produces|);
      && error == MissingConsumer(w.Keys, wirings)
      && (error.None? ==> result == Apply(w, wirings, |wirings|))
  {
    result, error := w, None;
    ghost var done := [];
    NothingWired(w, ids, edges, produces);
    hide Apply, MissingConsumer, ConsumerWirings, ProduceWirings;
    var i := 0;
    while i < |produces|
      invariant 0 <= i <= |produces| && done == ProduceWirings(ids, edges, produces, i)
      invariant error.None? && result == Apply(w, done, |done|) && MissingConsumer(w.Keys, done).None?
    {
      var p := produces[i];
      assert InRange(p.node, |ids|);
      var consumers, wire := edges[p.edge].consumers, Wire(ids[p.node], p.output);
      ghost var wired := ConsumerWirings(consumers, wire, |consumers|);
      OneMoreProduce(ids, edges, produces, i);
      FirstMissing(w.Keys, done, wired);
      result, error := RewireEdge(w, done, result, consumers, wire);
      if error.Some? {
        ProducesMissing(w.Keys, ids, edges, produces, i + 1, |produces|);
        return;
      }
      done := done + wired;
      i := i + 1;
    }
  }

  lemma {:induction false} ApplyMore(w: Workflow, a: seq<Wiring>, b: seq<Wiring>, n: nat)
    requires n <= |b|
    ensures Apply(w, a + b, |a| + n) == Apply(Apply(w, a, |a|), b, n)
    decreases n
  {
    if n == 0 {
      ApplyPrefix(w, a + b, a, |a|);
    } else {
      ApplyMore(w, a, b, n - 1);
      assert (a + b)[|a| + n - 1] == b[n - 1];
    }
  }

  lemma EdgesValid(edges: map<string, Edge>, stack: Stack)
    requires EdgeError(edges, stack).None?
    ensures forall i :: 0 <= i < |stack.consumes| ==>
      stack.consumes[i].edge in edges && InRange(stack.consumes[i].node, |stack.nodes|)
    ensures forall i :: 0 <= i < |stack.produces| ==>
      stack.produces[i].edge in edges && InRange(stack.produces[i].node, |stack.nodes|)
  {
    ConsumesValid(edges, stack.consumes, |stack.nodes|);
    ProducesValid(edges, stack.produces, |stack.nodes|);
  }

  /** The wires inside the stack, then the consumed edges. */
  method WireStack(w: Workflow, ids: seq<string>, edges: map<string, Edge>, stack: Stack)
      returns (result: Workflow, error: Option<Error>)
    requires EdgeError(edges, stack).None? && |ids| == |stack.nodes|
    ensures error == BadWire(stack.wires, |ids|) && (error.None? ==> WellFormed(edges, stack))
    ensures error.None? ==> var own := OwnWirings(ids, edges, stack); result == Apply(w, own, |own|)
  {
    EdgesValid(edges, stack);
    hide BadWire, Apply, InternalWirings, ConsumeWirings, EdgeError;
    result, error := WireInside(w, ids, stack.wires);
    if error.None? {
      result := WireConsumed(w, InternalWirings(ids, stack.wires, |stack.wires|), result, ids, edges, stack.consumes);
    }
  }

  method Inject(w: Workflow, edges: map<string, Edge>, stack: Stack) returns (r: Result<Workflow, Error>)
    ensures r == Injection(w, edges, stack)
  {
    ErrorIffMalformed(edges, stack);
    hide AddNodes, Apply, EdgeError, MissingConsumer, ProduceWirings, OwnWirings;
    var error := CheckEdges(edges, stack);
    if error.Some? {
      return Failure(error.value);
    }
    var added, ids := AddStackNodes(w, stack.nodes);
    var result;
    result, error := WireStack(added, ids, edges, stack);
    if error.Some? {
      return Failure(error.value);
    }
    ghost var own := OwnWirings(ids, edges, stack);
    ApplyKeepsNodes(added, own, |own|);
    ghost var consumers := ProduceWirings(ids, edges, stack.produces, |stack.produces|);
    ApplyMore(added, own, consumers, |consumers|);
    assert Wirings(ids, edges, stack) == own + consumers;
    assert Added(added, ids) == AddNodes(w, stack.nodes, |stack.nodes|) && result.Keys == added.Keys;
    result, error := Rewire(result, ids, edges, stack.produces);
    if error.Some? {
      return Failure(error.value);
    }
    r := Success(result);
  }
}
