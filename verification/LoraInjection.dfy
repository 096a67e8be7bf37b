/** Chains of LoRA loaders injected between source nodes and their consumers: exactly when the graph stays acyclic,
    that only the listed inputs change, and that walking back from a consumer meets every loader. */
module LoraInjection {
  import opened Wrappers
  import opened NodeInjection
  import Decimal

  datatype Lora = Lora(file: string, strength: string, clipStrength: Option<string>)

  /** The input keys of a loader that a caller can choose. */
  datatype Keys = Keys(name: string, strength: string, clipStrength: string)

  const MODEL := "model"
  const CLIP := "clip"

  /** Of equal keys the last one counts. */
  function LoaderNode(keys: Keys, l: Lora): Node {
    Node("LoraLoader",
         map[keys.name := Plain(l.file)][keys.strength := Plain(l.strength)]
         [keys.clipStrength := Plain(if l.clipStrength.Some? then l.clipStrength.value else l.strength)]
         [MODEL := Unset][CLIP := Unset])
  }

  /** The key of the file name is not used for anything else. */
  predicate NameApart(keys: Keys) {
    keys.name !in {keys.strength, keys.clipStrength, MODEL, CLIP}
  }

  function LoaderNodes(keys: Keys, loras: seq<Lora>): (nodes: seq<Node>)
    ensures |nodes| == |loras| && forall i :: 0 <= i < |loras| ==> nodes[i] == LoaderNode(keys, loras[i])
  {
    seq(|loras|, i requires 0 <= i < |loras| => LoaderNode(keys, loras[i]))
  }

  /** Loader `i` - 1 feeds loader `i`, model and clip. */
  function ChainWires(n: nat): (wires: seq<Internal>)
    ensures |wires| == if n < 2 then 0 else 2 * (n - 1)
    ensures forall i :: 0 <= i < |wires| ==> InRange(wires[i].source, n) && InRange(wires[i].target, n)
  {
    if n < 2 then [] else ChainWires(n - 1) + [Internal(n - 2, 0, n - 1, MODEL), Internal(n - 2, 1, n - 1, CLIP)]
  }

  /** `build_lora_stack` of a non-empty list. */
  function LoraStack(keys: Keys, loras: seq<Lora>): Stack
    requires loras != []
  {
    Stack(LoaderNodes(keys, loras), [Consume(MODEL, 0, MODEL), Consume(CLIP, 0, CLIP)],
          [Produce(MODEL, |loras| - 1, 0), Produce(CLIP, |loras| - 1, 1)], ChainWires(|loras|))
  }

  method BuildLoraStack(keys: Keys, loras: seq<Lora>) returns (r: Result<Stack, Error>)
    ensures r == if loras == [] then Failure(EmptyStack) else Success(LoraStack(keys, loras))
  {
    if loras == [] {
      return Failure(EmptyStack);
    }
    var nodes: seq<Node>, consumes, wires := [], [], [];
    var i := 0;
    while i < |loras|
      invariant 0 <= i <= |loras| && nodes == LoaderNodes(keys, loras)[..i] && wires == ChainWires(i)
      invariant consumes == if i == 0 then [] else [Consume(MODEL, 0, MODEL), Consume(CLIP, 0, CLIP)]
    {
      nodes := nodes + [LoaderNode(keys, loras[i])];
      if i == 0 {
        consumes := [Consume(MODEL, 0, MODEL), Consume(CLIP, 0, CLIP)];
      } else {
        wires := wires + [Internal(i - 1, 0, i, MODEL), Internal(i - 1, 1, i, CLIP)];
      }
      i := i + 1;
    }
    assert LoaderNodes(keys, loras)[..|loras|] == LoaderNodes(keys, loras);
    var last := |nodes| - 1;
    r := Success(Stack(nodes, consumes, [Produce(MODEL, last, 0), Produce(CLIP, last, 1)], wires));
  }

  // ---- reading the graph ----

  /** The input of a node under a key, if there is one. */
  function Get(w: Workflow, id: string, key: string): Option<Input> {
    if id in w && key in w[id].inputs then Some(w[id].inputs[key]) else None
  }

  /** The last of the first `n` wirings of an input. */
  function LastWiring(wirings: seq<Wiring>, id: string, key: string, n: nat): Option<Wire>
    requires n <= |wirings|
  {
    if n == 0 then None
    else if wirings[n - 1].node == id && wirings[n - 1].key == key then Some(wirings[n - 1].wire)
    else LastWiring(wirings, id, key, n - 1)
  }

  lemma {:induction false} GetAfterWiring(w: Workflow, wirings: seq<Wiring>, n: nat, id: string, key: string)
    requires n <= |wirings| && id in w
    ensures Get(Apply(w, wirings, n), id, key) ==
      var last := LastWiring(wirings, id, key, n); if last.Some? then Some(Wired(last.value)) else Get(w, id, key)
    decreases n
  {
    if n > 0 {
      GetAfterWiring(w, wirings, n - 1, id, key);
      ApplyKeepsNodes(w, wirings, n - 1);
    }
  }

  lemma {:induction false} LastOfConcat(a: seq<Wiring>, b: seq<Wiring>, id: string, key: string, n: nat)
    requires n <= |b|
    ensures LastWiring(a + b, id, key, |a| + n) ==
      if LastWiring(b, id, key, n).Some? then LastWiring(b, id, key, n) else LastWiring(a, id, key, |a|)
    decreases n
  {
    if n == 0 {
      LastOfPrefix(a + b, a, id, key, |a|);
    } else {
      LastOfConcat(a, b, id, key, n - 1);
      assert (a + b)[|a| + n - 1] == b[n - 1];
    }
  }

  lemma {:induction false} LastOfPrefix(a: seq<Wiring>, b: seq<Wiring>, id: string, key: string, n: nat)
    requires n <= |a| && n <= |b| && forall i :: 0 <= i < n ==> a[i] == b[i]
    ensures LastWiring(a, id, key, n) == LastWiring(b, id, key, n)
    decreases n
  {
    if n > 0 {
      LastOfPrefix(a, b, id, key, n - 1);
    }
  }

  lemma {:induction false} NoWiring(wirings: seq<Wiring>, id: string, key: string, n: nat)
    requires n <= |wirings| && forall i :: 0 <= i < n ==> wirings[i].node != id || wirings[i].key != key
    ensures LastWiring(wirings, id, key, n) == None
    decreases n
  {
    if n > 0 {
      NoWiring(wirings, id, key, n - 1);
    }
  }

  // ---- the new nodes ----

  predicate DistinctIds(ids: seq<string>) {
    forall i, j :: 0 <= i < j < |ids| ==> ids[i] != ids[j]
  }

  ghost predicate AddedOk(w: Workflow, nodes: seq<Node>, n: nat, added: Added)
    requires n <= |nodes|
  {
    && |added.ids| == n && DistinctIds(added.ids)
    && (forall i :: 0 <= i < n ==> added.ids[i] !in w)
    && (forall i :: 0 <= i < n ==> added.ids[i] in added.workflow && added.workflow[added.ids[i]] == nodes[i])
    && (forall id :: id in w ==> id in added.workflow && added.workflow[id] == w[id])
    && (forall id :: id in added.workflow ==> id in w || id in added.ids)
  }

  lemma OneMoreNode(w: Workflow, nodes: seq<Node>, n: nat, before: Added, id: string)
    requires n < |nodes| && AddedOk(w, nodes, n, before) && id !in before.workflow
    ensures AddedOk(w, nodes, n + 1, Added(before.workflow[id := nodes[n]], before.ids + [id]))
  {
    assert forall i :: 0 <= i < n ==> before.ids[i] in before.workflow;
    var after := Added(before.workflow[id := nodes[n]], before.ids + [id]);
    forall i | 0 <= i < n + 1
      ensures after.ids[i] !in w && after.ids[i] in after.workflow && after.workflow[after.ids[i]] == nodes[i]
      ensures after.ids[i] == if i < n then before.ids[i] else id
    {
    }
    forall x | x in after.workflow
      ensures x in w || x in after.ids
    {
      if x != id && x !in w {
        var i :| 0 <= i < n && before.ids[i] == x;
        assert after.ids[i] == x;
      } else if x == id {
        assert after.ids[n] == x;
      }
    }
  }

  lemma AddStep(w: Workflow, nodes: seq<Node>, n: nat)
    requires n < |nodes|
    ensures var before := AddNodes(w, nodes, n);
      AddNodes(w, nodes, n + 1) ==
        Added(before.workflow[NextId(before.workflow) := nodes[n]], before.ids + [NextId(before.workflow)])
  {
    hide NextId;
  }

  /** New ids are distinct and unused, old nodes are untouched, and each stack node is under its id. */
  lemma {:induction false} AddedNodes(w: Workflow, nodes: seq<Node>, n: nat)
    requires n <= |nodes|
    ensures AddedOk(w, nodes, n, AddNodes(w, nodes, n))
    decreases n
  {
    hide AddedOk, NextId, AddNodes, IsNumber;
    if n > 0 {
      AddedNodes(w, nodes, n - 1);
      AddStep(w, nodes, n - 1);
      NextIdIsFresh(AddNodes(w, nodes, n - 1).workflow);
      OneMoreNode(w, nodes, n - 1, AddNodes(w, nodes, n - 1), NextId(AddNodes(w, nodes, n - 1).workflow));
    } else {
      NoNodesAdded(w, nodes);
    }
  }

  lemma NoNodesAdded(w: Workflow, nodes: seq<Node>)
    ensures AddedOk(w, nodes, 0, AddNodes(w, nodes, 0))
  {
  }

  // ---- injecting a chain between a source and its consumers ----

  /** The model and clip edges are real wires: their sources exist and their consumers read them. */
  ghost predicate RealEdge(w: Workflow, e: Edge) {
    && e.source.node in w
    && forall i :: 0 <= i < |e.consumers| ==>
         Get(w, e.consumers[i].node, e.consumers[i].key) == Some(Wired(e.source))
  }

  ghost predicate Setting(w: Workflow, edges: map<string, Edge>, loras: seq<Lora>) {
    loras != [] && MODEL in edges && CLIP in edges && RealEdge(w, edges[MODEL]) && RealEdge(w, edges[CLIP])
  }

  predicate Listed(e: Edge, id: string, key: string) {
    Consumer(id, key) in e.consumers
  }

  ghost function NewIds(w: Workflow, keys: Keys, loras: seq<Lora>): (ids: seq<string>)
    ensures |ids| == |loras|
  {
    AddNodes(w, LoaderNodes(keys, loras), |loras|).ids
  }

  function ModelWire(ids: seq<string>, edges: map<string, Edge>, key: string, i: nat): Wire
    requires i <= |ids| && key in edges
  {
    if i == 0 then edges[key].source else Wire(ids[i - 1], if key == MODEL then 0 else 1)
  }

  lemma StackWellFormed(w: Workflow, edges: map<string, Edge>, keys: Keys, loras: seq<Lora>)
    requires Setting(w, edges, loras)
    ensures WellFormed(edges, LoraStack(keys, loras))
  {
  }

  /** The wirings into the loaders: each reads its model and clip from the loader before it, the first one
      from the edges' source. */
  lemma {:induction false} ChainWirings(ids: seq<string>, n: nat, i: nat, key: string)
    requires DistinctIds(ids) && 1 <= n <= |ids| && i < |ids| && (key == MODEL || key == CLIP)
    ensures var wirings := InternalWirings(ids, ChainWires(n), |ChainWires(n)|);
      LastWiring(wirings, ids[i], key, |wirings|) ==
        if 0 < i < n then Some(Wire(ids[i - 1], if key == MODEL then 0 else 1)) else None
    decreases n
  {
    if n >= 2 {
      ChainWirings(ids, n - 1, i, key);
      LastTwoWirings(ids, n);
      hide InternalWirings, LastWiring, ChainWires;
      LoaderTwo(ids, n, i, key, InternalWirings(ids, ChainWires(n - 1), |ChainWires(n - 1)|));
    } else {
      assert ChainWires(n) == [];
    }
  }

  lemma LoaderTwo(ids: seq<string>, n: nat, i: nat, key: string, before: seq<Wiring>)
    requires DistinctIds(ids) && 2 <= n <= |ids| && i < |ids| && (key == MODEL || key == CLIP)
    ensures var two := [Wiring(ids[n - 1], MODEL, Wire(ids[n - 2], 0)), Wiring(ids[n - 1], CLIP, Wire(ids[n - 2], 1))];
      LastWiring(before + two, ids[i], key, |before + two|) ==
        if i == n - 1 then Some(Wire(ids[n - 2], if key == MODEL then 0 else 1))
        else LastWiring(before, ids[i], key, |before|)
  {
    var two := [Wiring(ids[n - 1], MODEL, Wire(ids[n - 2], 0)), Wiring(ids[n - 1], CLIP, Wire(ids[n - 2], 1))];
    assert ids[i] == ids[n - 1] <==> i == n - 1;
    hide LastWiring, DistinctIds;
    assert |before + two| == |before| + 2;
    LastOfConcat(before, two, ids[i], key, 2);
    TwoWirings(ids[n - 1], Wire(ids[n - 2], 0), Wire(ids[n - 2], 1), ids[i], key);
  }

  lemma {:induction false} InternalPrefix(ids: seq<string>, a: seq<Internal>, b: seq<Internal>, n: nat)
    requires n <= |a| && n <= |b| && forall i :: 0 <= i < n ==> a[i] == b[i]
    requires forall i :: 0 <= i < n ==> InRange(a[i].source, |ids|) && InRange(a[i].target, |ids|)
    ensures InternalWirings(ids, a, n) == InternalWirings(ids, b, n)
    decreases n
  {
    if n > 0 {
      InternalPrefix(ids, a, b, n - 1);
    }
  }

  lemma LastTwoWirings(ids: seq<string>, n: nat)
    requires 2 <= n <= |ids|
    ensures InternalWirings(ids, ChainWires(n), |ChainWires(n)|) ==
      InternalWirings(ids, ChainWires(n - 1), |ChainWires(n - 1)|) +
      [Wiring(ids[n - 1], MODEL, Wire(ids[n - 2], 0)), Wiring(ids[n - 1], CLIP, Wire(ids[n - 2], 1))]
  {
    var m := |ChainWires(n - 1)|;
    InternalPrefix(ids, ChainWires(n), ChainWires(n - 1), m);
    assert ChainWires(n)[m] == Internal(n - 2, 0, n - 1, MODEL);
    assert ChainWires(n)[m + 1] == Internal(n - 2, 1, n - 1, CLIP);
    assert InternalWirings(ids, ChainWires(n), m + 1) ==
      InternalWirings(ids, ChainWires(n), m) + [Wiring(ids[n - 1], MODEL, Wire(ids[n - 2], 0))];
  }

  lemma TwoWirings(id: string, model: Wire, clip: Wire, node: string, key: string)
    requires key == MODEL || key == CLIP
    ensures LastWiring([Wiring(id, MODEL, model), Wiring(id, CLIP, clip)], node, key, 2) ==
      if node == id then Some(if key == MODEL then model else clip) else None
  {
    var two := [Wiring(id, MODEL, model), Wiring(id, CLIP, clip)];
    assert LastWiring(two, node, key, 0) == None;
    assert LastWiring(two, node, key, 1) == if node == id && key == MODEL then Some(model) else None;
  }

  // ---- what each input of the result reads ----

  lemma {:induction false} ConsumersLast(consumers: seq<Consumer>, wire: Wire, id: string, key: string, n: nat)
    requires n <= |consumers|
    ensures LastWiring(ConsumerWirings(consumers, wire, n), id, key, n) ==
      if exists i :: 0 <= i < n && consumers[i] == Consumer(id, key) then Some(wire) else None
    decreases n
  {
    if n > 0 {
      ConsumersLast(consumers, wire, id, key, n - 1);
      var before := ConsumerWirings(consumers, wire, n - 1);
      LastOfPrefix(ConsumerWirings(consumers, wire, n), before, id, key, n - 1);
    }
  }

  /** The wirings of the two produced edges. */
  lemma ProducedWirings(ids: seq<string>, edges: map<string, Edge>, id: string, key: string)
    requires ids != [] && MODEL in edges && CLIP in edges
    ensures var last := |ids| - 1;
      var produces := [Produce(MODEL, last, 0), Produce(CLIP, last, 1)];
      var wirings := ProduceWirings(ids, edges, produces, 2);
      && (forall i :: 0 <= i < |wirings| ==>
            Consumer(wirings[i].node, wirings[i].key) in edges[MODEL].consumers + edges[CLIP].consumers)
      && LastWiring(wirings, id, key, |wirings|) ==
           (if Listed(edges[CLIP], id, key) then Some(Wire(ids[last], 1))
            else if Listed(edges[MODEL], id, key) then Some(Wire(ids[last], 0))
            else None)
  {
    var last := |ids| - 1;
    var produces := [Produce(MODEL, last, 0), Produce(CLIP, last, 1)];
    var m, c := edges[MODEL].consumers, edges[CLIP].consumers;
    var a, b := ConsumerWirings(m, Wire(ids[last], 0), |m|), ConsumerWirings(c, Wire(ids[last], 1), |c|);
    assert ProduceWirings(ids, edges, produces, 1) == [] + a;
    assert ProduceWirings(ids, edges, produces, 2) == a + b;
    ConsumersLast(m, Wire(ids[last], 0), id, key, |m|);
    ConsumersLast(c, Wire(ids[last], 1), id, key, |c|);
    LastOfConcat(a, b, id, key, |b|);
  }

  /** The wirings into the loaders come from the chain and the edges' sources, and touch nothing else. */
  lemma LoaderWirings(w: Workflow, ids: seq<string>, edges: map<string, Edge>, keys: Keys, loras: seq<Lora>, id: string,
                      key: string)
    requires Setting(w, edges, loras) && DistinctIds(ids) && |ids| == |loras|
    requires WellFormed(edges, LoraStack(keys, loras))
    ensures var own := OwnWirings(ids, edges, LoraStack(keys, loras));
      && (forall i :: 0 <= i < |own| ==> own[i].node in ids && (own[i].key == MODEL || own[i].key == CLIP))
      && (forall i :: 0 <= i < |ids| && id == ids[i] && (key == MODEL || key == CLIP) ==>
            LastWiring(own, id, key, |own|) == Some(ModelWire(ids, edges, key, i)))
  {
    var stack := LoraStack(keys, loras);
    var chain := InternalWirings(ids, stack.wires, |stack.wires|);
    var first := [Wiring(ids[0], MODEL, edges[MODEL].source), Wiring(ids[0], CLIP, edges[CLIP].source)];
    ConsumedWirings(ids, edges, stack);
    ChainTargets(ids, |loras|);
    assert OwnWirings(ids, edges, stack) == chain + first;
    hide InternalWirings, OwnWirings, RealEdge, LastWiring;
    forall i | 0 <= i < |ids| && id == ids[i] && (key == MODEL || key == CLIP)
      ensures LastWiring(chain + first, id, key, |chain + first|) == Some(ModelWire(ids, edges, key, i))
    {
      LoaderReads(ids, edges, i, key, chain, first);
    }
  }

  lemma LoaderReads(ids: seq<string>, edges: map<string, Edge>, i: nat, key: string, chain: seq<Wiring>,
                    first: seq<Wiring>)
    requires DistinctIds(ids) && i < |ids| && (key == MODEL || key == CLIP) && MODEL in edges && CLIP in edges
    requires chain == InternalWirings(ids, ChainWires(|ids|), |ChainWires(|ids|)|)
    requires first == [Wiring(ids[0], MODEL, edges[MODEL].source), Wiring(ids[0], CLIP, edges[CLIP].source)]
    ensures LastWiring(chain + first, ids[i], key, |chain + first|) == Some(ModelWire(ids, edges, key, i))
  {
    ChainWirings(ids, |ids|, i, key);
    hide InternalWirings, LastWiring;
    LastOfConcat(chain, first, ids[i], key, 2);
    TwoWirings(ids[0], edges[MODEL].source, edges[CLIP].source, ids[i], key);
    assert i > 0 ==> ids[0] != ids[i];
  }

  lemma ConsumedWirings(ids: seq<string>, edges: map<string, Edge>, stack: Stack)
    requires WellFormed(edges, stack) && |ids| == |stack.nodes| && ids != [] && MODEL in edges && CLIP in edges
    requires stack.consumes == [Consume(MODEL, 0, MODEL), Consume(CLIP, 0, CLIP)]
    ensures ConsumeWirings(ids, edges, stack.consumes, |stack.consumes|) ==
      [Wiring(ids[0], MODEL, edges[MODEL].source), Wiring(ids[0], CLIP, edges[CLIP].source)]
  {
    assert ConsumeWirings(ids, edges, stack.consumes, 1) == [Wiring(ids[0], MODEL, edges[MODEL].source)];
  }

  lemma {:induction false} ChainTargets(ids: seq<string>, n: nat)
    requires n <= |ids|
    ensures var wirings := InternalWirings(ids, ChainWires(n), |ChainWires(n)|);
      forall i :: 0 <= i < |wirings| ==> wirings[i].node in ids && (wirings[i].key == MODEL || wirings[i].key == CLIP)
    decreases n
  {
    if n >= 2 {
      ChainTargets(ids, n - 1);
      LastTwoWirings(ids, n);
    }
  }

  /** The workflow after injecting the chain. */
  ghost function Injected(w: Workflow, edges: map<string, Edge>, keys: Keys, loras: seq<Lora>): (r: Workflow)
    requires Setting(w, edges, loras)
  {
    StackWellFormed(w, edges, keys, loras);
    var stack := LoraStack(keys, loras);
    var added := AddNodes(w, stack.nodes, |stack.nodes|);
    var wirings := Wirings(added.ids, edges, stack);
    Apply(added.workflow, wirings, |wirings|)
  }

  /** Injecting a chain at real edges succeeds. */
  lemma InjectionSucceeds(w: Workflow, edges: map<string, Edge>, keys: Keys, loras: seq<Lora>)
    requires Setting(w, edges, loras)
    ensures Injection(w, edges, LoraStack(keys, loras)) == Success(Injected(w, edges, keys, loras))
  {
    StackWellFormed(w, edges, keys, loras);
    ErrorIffMalformed(edges, LoraStack(keys, loras));
    var stack := LoraStack(keys, loras);
    var added := AddNodes(w, stack.nodes, |stack.nodes|);
    AddedNodes(w, stack.nodes, |stack.nodes|);
    ProducedWirings(added.ids, edges, "", "");
    var wirings := ProduceWirings(added.ids, edges, stack.produces, |stack.produces|);
    ConsumersValid(added.workflow.Keys, wirings);
    hide AddNodes, ProduceWirings, Get;
    forall i | 0 <= i < |wirings|
      ensures wirings[i].node in added.workflow
    {
      ListedIsReal(w, edges, wirings[i].node, wirings[i].key);
    }
  }

  lemma ListedIsReal(w: Workflow, edges: map<string, Edge>, id: string, key: string)
    requires MODEL in edges && CLIP in edges && RealEdge(w, edges[MODEL]) && RealEdge(w, edges[CLIP])
    requires Consumer(id, key) in edges[MODEL].consumers + edges[CLIP].consumers
    ensures id in w
    ensures Listed(edges[MODEL], id, key) ==> Get(w, id, key) == Some(Wired(edges[MODEL].source))
    ensures Listed(edges[CLIP], id, key) ==> Get(w, id, key) == Some(Wired(edges[CLIP].source))
  {
  }

  ghost function StackAdded(w: Workflow, keys: Keys, loras: seq<Lora>): (added: Added)
    ensures |added.ids| == |loras| && added.ids == NewIds(w, keys, loras)
  {
    AddNodes(w, LoaderNodes(keys, loras), |loras|)
  }

  /** An input after the injection: the last produced wiring of it, or else the last one inside the stack, or
      else what was there. */
  lemma InputAfter(w: Workflow, edges: map<string, Edge>, keys: Keys, loras: seq<Lora>, id: string, key: string)
    requires Setting(w, edges, loras) && WellFormed(edges, LoraStack(keys, loras))
    requires id in StackAdded(w, keys, loras).workflow
    ensures var stack, added := LoraStack(keys, loras), StackAdded(w, keys, loras);
      var own := OwnWirings(added.ids, edges, stack);
      var produced := ProduceWirings(added.ids, edges, stack.produces, |stack.produces|);
      var a, b := LastWiring(own, id, key, |own|), LastWiring(produced, id, key, |produced|);
      Get(Injected(w, edges, keys, loras), id, key) ==
        if b.Some? then Some(Wired(b.value)) else if a.Some? then Some(Wired(a.value)) else Get(added.workflow, id, key)
  {
    var stack, added := LoraStack(keys, loras), StackAdded(w, keys, loras);
    var own := OwnWirings(added.ids, edges, stack);
    var produced := ProduceWirings(added.ids, edges, stack.produces, |stack.produces|);
    assert Wirings(added.ids, edges, stack) == own + produced;
    hide AddNodes, OwnWirings, ProduceWirings, RealEdge, LastWiring, Apply;
    LastOfConcat(own, produced, id, key, |produced|);
    GetAfterWiring(added.workflow, own + produced, |own + produced|, id, key);
  }

  /** What an input of an old node reads after the injection. */
  lemma OldInputs(w: Workflow, edges: map<string, Edge>, keys: Keys, loras: seq<Lora>, id: string, key: string)
    requires Setting(w, edges, loras) && id in w
    ensures var ids := NewIds(w, keys, loras);
      Get(Injected(w, edges, keys, loras), id, key) ==
        if Listed(edges[CLIP], id, key) then Some(Wired(Wire(ids[|ids| - 1], 1)))
        else if Listed(edges[MODEL], id, key) then Some(Wired(Wire(ids[|ids| - 1], 0)))
        else Get(w, id, key)
  {
    StackWellFormed(w, edges, keys, loras);
    AddedNodes(w, LoaderNodes(keys, loras), |loras|);
    var stack, added := LoraStack(keys, loras), StackAdded(w, keys, loras);
    var own := OwnWirings(added.ids, edges, stack);
    LoaderWirings(w, added.ids, edges, keys, loras, id, key);
    ProducedWirings(added.ids, edges, id, key);
    InputAfter(w, edges, keys, loras, id, key);
    hide AddNodes, OwnWirings, ProduceWirings, RealEdge, LastWiring, Injected;
    NoWiring(own, id, key, |own|);
  }

  lemma LoaderAdded(w: Workflow, keys: Keys, loras: seq<Lora>, i: nat)
    requires i < |loras|
    ensures var ids := NewIds(w, keys, loras);
      && DistinctIds(ids) && ids[i] !in w && ids[i] in StackAdded(w, keys, loras).workflow
      && StackAdded(w, keys, loras).workflow[ids[i]] == LoaderNode(keys, loras[i])
  {
    AddedNodes(w, LoaderNodes(keys, loras), |loras|);
    hide AddNodes;
  }

  /** Nothing outside the stack wires a loader. */
  lemma LoaderNotProduced(w: Workflow, edges: map<string, Edge>, keys: Keys, loras: seq<Lora>, i: nat, key: string)
    requires Setting(w, edges, loras) && i < |loras|
    ensures WellFormed(edges, LoraStack(keys, loras))
    ensures var ids := NewIds(w, keys, loras);
      var produced := ProduceWirings(ids, edges, LoraStack(keys, loras).produces, 2);
      LastWiring(produced, ids[i], key, |produced|) == None
  {
    StackWellFormed(w, edges, keys, loras);
    LoaderAdded(w, keys, loras, i);
    hide NewIds;
    ProducedWirings(NewIds(w, keys, loras), edges, NewIds(w, keys, loras)[i], key);
    NotListed(w, edges, NewIds(w, keys, loras)[i], key);
    hide AddNodes, ProduceWirings, RealEdge, LastWiring;
  }

  /** The model and clip inputs of a loader after the injection. */
  lemma LoaderInputs(w: Workflow, edges: map<string, Edge>, keys: Keys, loras: seq<Lora>, i: nat, key: string)
    requires Setting(w, edges, loras) && i < |loras| && (key == MODEL || key == CLIP)
    ensures var ids := NewIds(w, keys, loras);
      Get(Injected(w, edges, keys, loras), ids[i], key) == Some(Wired(ModelWire(ids, edges, key, i)))
  {
    LoaderNotProduced(w, edges, keys, loras, i, key);
    LoaderAdded(w, keys, loras, i);
    var ids := NewIds(w, keys, loras);
    LoaderWirings(w, ids, edges, keys, loras, ids[i], key);
    InputAfter(w, edges, keys, loras, ids[i], key);
    hide AddNodes, OwnWirings, ProduceWirings, RealEdge, LastWiring, Injected, NewIds, LoaderNode;
  }

  /** The other inputs of a loader are those it was built with. */
  lemma LoaderValues(w: Workflow, edges: map<string, Edge>, keys: Keys, loras: seq<Lora>, i: nat, key: string)
    requires Setting(w, edges, loras) && i < |loras| && key != MODEL && key != CLIP
    ensures Get(Injected(w, edges, keys, loras), NewIds(w, keys, loras)[i], key) ==
      if key in LoaderNode(keys, loras[i]).inputs then Some(LoaderNode(keys, loras[i]).inputs[key]) else None
  {
    LoaderNotProduced(w, edges, keys, loras, i, key);
    LoaderAdded(w, keys, loras, i);
    var ids := NewIds(w, keys, loras);
    var own := OwnWirings(ids, edges, LoraStack(keys, loras));
    LoaderWirings(w, ids, edges, keys, loras, ids[i], key);
    InputAfter(w, edges, keys, loras, ids[i], key);
    hide AddNodes, OwnWirings, ProduceWirings, RealEdge, LastWiring, Injected, NewIds, LoaderNode;
    NoWiring(own, ids[i], key, |own|);
  }

  /** A loader is a node of the loader's class. */
  lemma LoaderClass(w: Workflow, edges: map<string, Edge>, keys: Keys, loras: seq<Lora>, i: nat)
    requires Setting(w, edges, loras) && i < |loras|
    ensures var r, id := Injected(w, edges, keys, loras), NewIds(w, keys, loras)[i];
      id in r && r[id].classType == "LoraLoader"
  {
    LoaderAdded(w, keys, loras, i);
    StackWellFormed(w, edges, keys, loras);
    var added := StackAdded(w, keys, loras);
    var wirings := Wirings(added.ids, edges, LoraStack(keys, loras));
    hide Wirings, AddNodes, RealEdge;
    ApplyKeepsNodes(added.workflow, wirings, |wirings|);
  }

  lemma NotListed(w: Workflow, edges: map<string, Edge>, id: string, key: string)
    requires MODEL in edges && CLIP in edges && RealEdge(w, edges[MODEL]) && RealEdge(w, edges[CLIP]) && id !in w
    ensures !Listed(edges[MODEL], id, key) && !Listed(edges[CLIP], id, key)
  {
  }

  // ---- fresh ids, and only the listed inputs change ----

  /** New ids are distinct and were not in use; every other node keeps its type and every input that is not a
      listed consumer; listed consumers read the last loader. */
  lemma OnlyListedInputsChange(w: Workflow, edges: map<string, Edge>, keys: Keys, loras: seq<Lora>, id: string,
                               key: string)
    requires Setting(w, edges, loras)
    ensures var r, ids := Injected(w, edges, keys, loras), NewIds(w, keys, loras);
      && DistinctIds(ids) && (forall i :: 0 <= i < |ids| ==> ids[i] !in w)
      && (id in r <==> id in w || id in ids)
      && (id in w ==> r[id].classType == w[id].classType)
      && (id in w && !Listed(edges[MODEL], id, key) && !Listed(edges[CLIP], id, key) ==>
            Get(r, id, key) == Get(w, id, key))
      && (Listed(edges[CLIP], id, key) ==> Get(r, id, key) == Some(Wired(Wire(ids[|ids| - 1], 1))))
      && (Listed(edges[MODEL], id, key) && !Listed(edges[CLIP], id, key) ==>
            Get(r, id, key) == Some(Wired(Wire(ids[|ids| - 1], 0))))
  {
    AddedNodes(w, LoaderNodes(keys, loras), |loras|);
    KeptNodes(w, edges, keys, loras, id);
    if Listed(edges[MODEL], id, key) || Listed(edges[CLIP], id, key) {
      ListedIsReal(w, edges, id, key);
    }
    if id in w {
      OldInputs(w, edges, keys, loras, id, key);
    }
  }

  lemma KeptNodes(w: Workflow, edges: map<string, Edge>, keys: Keys, loras: seq<Lora>, id: string)
    requires Setting(w, edges, loras)
    ensures var r, ids := Injected(w, edges, keys, loras), NewIds(w, keys, loras);
      && (id in r <==> id in w || id in ids)
      && (id in w ==> r[id].classType == w[id].classType)
  {
    StackWellFormed(w, edges, keys, loras);
    AddedNodes(w, LoaderNodes(keys, loras), |loras|);
    var added := StackAdded(w, keys, loras);
    var wirings := Wirings(added.ids, edges, LoraStack(keys, loras));
    hide Wirings, AddNodes, RealEdge;
    ApplyKeepsNodes(added.workflow, wirings, |wirings|);
  }

  // ---- walking back from a consumer ----

  /** Following the inputs under `key` back from a wire, `n` times. */
  function WalkBack(w: Workflow, start: Wire, key: string, n: nat): Option<Wire> {
    if n == 0 then Some(start)
    else
      var before := WalkBack(w, start, key, n - 1);
      if before.None? then None
      else
        var input := Get(w, before.value.node, key);
        if input.Some? && input.value.Wired? then Some(input.value.wire) else None
  }

  lemma {:induction false} WalkMeetsLoaders(w: Workflow, edges: map<string, Edge>, keys: Keys, loras: seq<Lora>,
                                            key: string, n: nat)
    requires Setting(w, edges, loras) && (key == MODEL || key == CLIP) && n <= |loras|
    ensures var ids := NewIds(w, keys, loras);
      WalkBack(Injected(w, edges, keys, loras), ModelWire(ids, edges, key, |ids|), key, n) ==
        Some(ModelWire(ids, edges, key, |ids| - n))
    decreases n
  {
    if n > 0 {
      hide *;
      WalkMeetsLoaders(w, edges, keys, loras, key, n - 1);
      LoaderInputs(w, edges, keys, loras, |loras| - n, key);
      WalkStep(Injected(w, edges, keys, loras), NewIds(w, keys, loras), edges, key, n);
    } else {
      hide Injected, NewIds;
    }
  }

  /** One step back, from a loader to what it reads. */
  lemma WalkStep(r: Workflow, ids: seq<string>, edges: map<string, Edge>, key: string, n: nat)
    requires 0 < n <= |ids| && key in edges && (key == MODEL || key == CLIP)
    requires WalkBack(r, ModelWire(ids, edges, key, |ids|), key, n - 1) ==
      Some(ModelWire(ids, edges, key, |ids| - (n - 1)))
    requires Get(r, ids[|ids| - n], key) == Some(Wired(ModelWire(ids, edges, key, |ids| - n)))
    ensures WalkBack(r, ModelWire(ids, edges, key, |ids|), key, n) == Some(ModelWire(ids, edges, key, |ids| - n))
  {
    hide Get;
  }

  /** From a consumer of either edge, walking back meets every loader once, in reverse list order, each holding
      its LoRA's file, and then ends at the edge's original source. */
  lemma WalkBackToSource(w: Workflow, edges: map<string, Edge>, keys: Keys, loras: seq<Lora>, key: string, c: Consumer,
                         n: nat)
    requires Setting(w, edges, loras) && (key == MODEL || key == CLIP) && n < |loras|
    requires c in edges[key].consumers && (key == MODEL ==> !Listed(edges[CLIP], c.node, c.key))
    ensures var r, ids := Injected(w, edges, keys, loras), NewIds(w, keys, loras);
      && Get(r, c.node, c.key) == Some(Wired(ModelWire(ids, edges, key, |ids|)))
      && var start := ModelWire(ids, edges, key, |ids|);
         && WalkBack(r, start, key, n).Some?
         && WalkBack(r, start, key, n).value.node == ids[|ids| - 1 - n]
         && (NameApart(keys) ==>
               Get(r, ids[|ids| - 1 - n], keys.name) == Some(Plain(loras[|ids| - 1 - n].file)))
         && WalkBack(r, start, key, |ids|) == Some(edges[key].source)
  {
    OnlyListedInputsChange(w, edges, keys, loras, c.node, c.key);
    WalkMeetsLoaders(w, edges, keys, loras, key, n);
    WalkMeetsLoaders(w, edges, keys, loras, key, |loras|);
    if NameApart(keys) {
      LoaderValues(w, edges, keys, loras, |loras| - 1 - n, keys.name);
    }
    hide Injected, NewIds, RealEdge, Get, WalkBack;
  }

  // ---- the graph stays acyclic ----

  function RankOf(rank: map<string, nat>, id: string): nat {
    if id in rank then rank[id] else 0
  }

  /** Every wire leads to a node of lower rank. */
  ghost predicate Ranks(w: Workflow, rank: map<string, nat>) {
    forall id, key :: id in w && Reads(w, id, key) ==> RankOf(rank, w[id].inputs[key].wire.node) < RankOf(rank, id)
  }

  predicate Reads(w: Workflow, id: string, key: string) {
    id in w && key in w[id].inputs && w[id].inputs[key].Wired?
  }

  ghost predicate Acyclic(w: Workflow) {
    exists rank: map<string, nat> :: Ranks(w, rank)
  }

  // ---- what a node reaches ----

  /** Some input of node `a` is wired to `b`. */
  ghost predicate ReadsNode(w: Workflow, a: string, b: string) {
    exists key :: Reads(w, a, key) && w[a].inputs[key].wire.node == b
  }

  /** Each node of the path reads the next one. */
  ghost predicate Path(w: Workflow, path: seq<string>) {
    path != [] && forall i :: 0 <= i < |path| - 1 ==> ReadsNode(w, path[i], path[i + 1])
  }

  ghost predicate Reaches(w: Workflow, a: string, b: string) {
    exists path :: Path(w, path) && path[0] == a && path[|path| - 1] == b
  }

  lemma ReachesItself(w: Workflow, a: string)
    ensures Reaches(w, a, a)
  {
    assert Path(w, [a]) && [a][0] == a;
  }

  lemma ReachesOnward(w: Workflow, a: string, b: string, c: string)
    requires Reaches(w, a, b) && ReadsNode(w, b, c)
    ensures Reaches(w, a, c)
  {
    var path :| Path(w, path) && path[0] == a && path[|path| - 1] == b;
    var longer := path + [c];
    forall i | 0 <= i < |longer| - 1
      ensures ReadsNode(w, longer[i], longer[i + 1])
    {
      if i < |path| - 1 {
        assert longer[i] == path[i] && longer[i + 1] == path[i + 1];
      }
    }
    assert Path(w, longer) && longer[0] == a && longer[|longer| - 1] == c;
  }

  lemma {:induction false} PathFalls(w: Workflow, rank: map<string, nat>, path: seq<string>, n: nat)
    requires Ranks(w, rank) && Path(w, path) && n < |path|
    ensures RankOf(rank, path[n]) + n <= RankOf(rank, path[0])
    decreases n
  {
    if n > 0 {
      PathFalls(w, rank, path, n - 1);
      assert ReadsNode(w, path[n - 1], path[n]);
    }
  }

  lemma ReachedIsBelow(w: Workflow, rank: map<string, nat>, a: string, b: string)
    requires Ranks(w, rank) && Reaches(w, a, b)
    ensures RankOf(rank, b) <= RankOf(rank, a)
  {
    var path :| Path(w, path) && path[0] == a && path[|path| - 1] == b;
    PathFalls(w, rank, path, |path| - 1);
  }

  /** A node that the model's or the clip's source reaches. */
  ghost predicate Upstream(w: Workflow, edges: map<string, Edge>, id: string)
    requires MODEL in edges && CLIP in edges
  {
    Reaches(w, edges[MODEL].source.node, id) || Reaches(w, edges[CLIP].source.node, id)
  }

  /** A node with a listed input. */
  ghost predicate Consumes(edges: map<string, Edge>, id: string)
    requires MODEL in edges && CLIP in edges
  {
    exists key :: Listed(edges[MODEL], id, key) || Listed(edges[CLIP], id, key)
  }

  /** One of the sources already reaches a consumer or, by a wire to a node that does not exist, one of the ids
      the loaders will get. */
  ghost predicate Closes(w: Workflow, edges: map<string, Edge>, ids: seq<string>)
    requires MODEL in edges && CLIP in edges
  {
    exists id :: Upstream(w, edges, id) && (id in ids || Consumes(edges, id))
  }

  // ---- from a rank of the old graph to one of the new ----

  function Max2(a: nat, b: nat): nat {
    if a < b then b else a
  }

  function SourceRank(rank: map<string, nat>, edges: map<string, Edge>): nat
    requires MODEL in edges && CLIP in edges
  {
    Max2(RankOf(rank, edges[MODEL].source.node), RankOf(rank, edges[CLIP].source.node))
  }

  /** What the sources reach keeps its rank, the loaders come next, and everything else is lifted above them. */
  ghost function NewRank(w: Workflow, rank: map<string, nat>, ids: seq<string>, edges: map<string, Edge>)
      : map<string, nat>
    requires MODEL in edges && CLIP in edges
  {
    map id | id in w.Keys + (set x | x in ids) ::
      if id in ids then SourceRank(rank, edges) + Position(ids, id)
      else if Upstream(w, edges, id) then RankOf(rank, id)
      else RankOf(rank, id) + SourceRank(rank, edges) + |ids| + 1
  }

  /** One past the index of an id. */
  function Position(ids: seq<string>, id: string): (n: nat)
    ensures n <= |ids| && (n > 0 ==> ids[n - 1] == id) && (n == 0 ==> id !in ids)
  {
    if ids == [] then 0
    else if ids[|ids| - 1] == id then |ids|
    else
      assert ids == ids[..|ids| - 1] + [ids[|ids| - 1]];
      Position(ids[..|ids| - 1], id)
  }

  lemma LoaderRank(w: Workflow, rank: map<string, nat>, ids: seq<string>, edges: map<string, Edge>, i: nat)
    requires DistinctIds(ids) && i < |ids| && MODEL in edges && CLIP in edges
    ensures RankOf(NewRank(w, rank, ids, edges), ids[i]) == SourceRank(rank, edges) + i + 1
  {
    hide SourceRank, Upstream;
    assert Position(ids, ids[i]) == i + 1;
  }

  lemma UpstreamRank(w: Workflow, rank: map<string, nat>, ids: seq<string>, edges: map<string, Edge>, id: string)
    requires MODEL in edges && CLIP in edges && Upstream(w, edges, id) && id !in ids
    ensures RankOf(NewRank(w, rank, ids, edges), id) <= RankOf(rank, id)
    ensures id in w ==> RankOf(NewRank(w, rank, ids, edges), id) == RankOf(rank, id)
  {
    hide SourceRank, Upstream;
  }

  lemma LiftedRank(w: Workflow, rank: map<string, nat>, ids: seq<string>, edges: map<string, Edge>, id: string)
    requires MODEL in edges && CLIP in edges && id in w && id !in ids && !Upstream(w, edges, id)
    ensures RankOf(NewRank(w, rank, ids, edges), id) == RankOf(rank, id) + SourceRank(rank, edges) + |ids| + 1
  {
    hide SourceRank, Upstream;
  }

  /** No rank is lifted further than that. */
  lemma RankBound(w: Workflow, rank: map<string, nat>, ids: seq<string>, edges: map<string, Edge>, id: string)
    requires MODEL in edges && CLIP in edges
    ensures RankOf(NewRank(w, rank, ids, edges), id) <= RankOf(rank, id) + SourceRank(rank, edges) + |ids| + 1
    ensures id in ids ==> RankOf(NewRank(w, rank, ids, edges), id) <= SourceRank(rank, edges) + |ids|
  {
    hide SourceRank, Upstream;
  }

  lemma UpstreamOnward(w: Workflow, edges: map<string, Edge>, id: string, from: string)
    requires MODEL in edges && CLIP in edges && Upstream(w, edges, id) && ReadsNode(w, id, from)
    ensures Upstream(w, edges, from)
  {
    hide Reaches, ReadsNode;
    if Reaches(w, edges[MODEL].source.node, id) {
      ReachesOnward(w, edges[MODEL].source.node, id, from);
    } else {
      ReachesOnward(w, edges[CLIP].source.node, id, from);
    }
  }

  /** An unchanged wire, ranked. */
  lemma KeptWireRanked(w: Workflow, edges: map<string, Edge>, ids: seq<string>, rank: map<string, nat>, id: string,
                       from: string)
    requires MODEL in edges && CLIP in edges && !Closes(w, edges, ids) && id in w && id !in ids
    requires ReadsNode(w, id, from) && RankOf(rank, from) < RankOf(rank, id)
    ensures var rank' := NewRank(w, rank, ids, edges);
      RankOf(rank', from) < RankOf(rank', id)
  {
    if Upstream(w, edges, id) {
      UpstreamOnward(w, edges, id, from);
      UpstreamRank(w, rank, ids, edges, id);
      UpstreamRank(w, rank, ids, edges, from);
    } else {
      hide NewRank, RankOf;
      LiftedRank(w, rank, ids, edges, id);
      RankBound(w, rank, ids, edges, from);
    }
  }

  /** An input of an old node, ranked. */
  lemma OldInputRanked(w: Workflow, edges: map<string, Edge>, keys: Keys, loras: seq<Lora>, rank: map<string, nat>,
                       id: string, key: string)
    requires Setting(w, edges, loras) && Ranks(w, rank) && !Closes(w, edges, NewIds(w, keys, loras))
    requires id in w && Reads(Injected(w, edges, keys, loras), id, key)
    ensures var r := Injected(w, edges, keys, loras);
      var rank' := NewRank(w, rank, NewIds(w, keys, loras), edges);
      RankOf(rank', r[id].inputs[key].wire.node) < RankOf(rank', id)
  {
    var ids := NewIds(w, keys, loras);
    OnlyListedInputsChange(w, edges, keys, loras, id, key);
    hide Injected, NewIds, NewRank, Upstream, RealEdge;
    if Listed(edges[MODEL], id, key) || Listed(edges[CLIP], id, key) {
      assert Consumes(edges, id);
      LiftedRank(w, rank, ids, edges, id);
      RankBound(w, rank, ids, edges, ids[|ids| - 1]);
    } else {
      assert Reads(w, id, key);
      KeptWireRanked(w, edges, ids, rank, id, w[id].inputs[key].wire.node);
    }
  }

  lemma LoaderKeys(keys: Keys, l: Lora, key: string)
    ensures key in LoaderNode(keys, l).inputs ==> !LoaderNode(keys, l).inputs[key].Wired?
  {
  }

  /** Only a loader's model and clip inputs are wires. */
  lemma LoaderWires(w: Workflow, edges: map<string, Edge>, keys: Keys, loras: seq<Lora>, i: nat, key: string)
    requires Setting(w, edges, loras) && i < |loras|
    requires Reads(Injected(w, edges, keys, loras), NewIds(w, keys, loras)[i], key)
    ensures key == MODEL || key == CLIP
    ensures Injected(w, edges, keys, loras)[NewIds(w, keys, loras)[i]].inputs[key].wire ==
      ModelWire(NewIds(w, keys, loras), edges, key, i)
  {
    hide Injected, NewIds, RealEdge, LoaderNode, ModelWire;
    if key == MODEL || key == CLIP {
      LoaderInputs(w, edges, keys, loras, i, key);
    } else {
      LoaderValues(w, edges, keys, loras, i, key);
      LoaderKeys(keys, loras[i], key);
    }
  }

  /** What a loader reads lies below it. */
  lemma ChainRanked(w: Workflow, rank: map<string, nat>, ids: seq<string>, edges: map<string, Edge>, key: string,
                    i: nat)
    requires DistinctIds(ids) && i < |ids| && MODEL in edges && CLIP in edges && (key == MODEL || key == CLIP)
    requires edges[key].source.node in w && edges[key].source.node !in ids
    ensures var rank' := NewRank(w, rank, ids, edges);
      RankOf(rank', ModelWire(ids, edges, key, i).node) < RankOf(rank', ids[i])
  {
    LoaderRank(w, rank, ids, edges, i);
    if i == 0 {
      var source := edges[key].source.node;
      ReachesItself(w, source);
      UpstreamRank(w, rank, ids, edges, source);
    } else {
      LoaderRank(w, rank, ids, edges, i - 1);
    }
    hide NewRank, RankOf;
  }

  /** An input of a loader, ranked. */
  lemma LoaderInputRanked(w: Workflow, edges: map<string, Edge>, keys: Keys, loras: seq<Lora>, rank: map<string, nat>,
                          i: nat, key: string)
    requires Setting(w, edges, loras) && i < |loras|
    requires Reads(Injected(w, edges, keys, loras), NewIds(w, keys, loras)[i], key)
    ensures var r, id := Injected(w, edges, keys, loras), NewIds(w, keys, loras)[i];
      var rank' := NewRank(w, rank, NewIds(w, keys, loras), edges);
      RankOf(rank', r[id].inputs[key].wire.node) < RankOf(rank', id)
  {
    LoaderWires(w, edges, keys, loras, i, key);
    LoadersNew(w, keys, loras);
    hide Injected, NewIds, NewRank, RankOf, ModelWire, Get;
    ChainRanked(w, rank, NewIds(w, keys, loras), edges, key, i);
  }

  lemma LoadersNew(w: Workflow, keys: Keys, loras: seq<Lora>)
    ensures DistinctIds(NewIds(w, keys, loras)) && forall j :: 0 <= j < |loras| ==> NewIds(w, keys, loras)[j] !in w
  {
    AddedNodes(w, LoaderNodes(keys, loras), |loras|);
    hide AddNodes;
  }

  lemma StaysAcyclic(w: Workflow, edges: map<string, Edge>, keys: Keys, loras: seq<Lora>, rank: map<string, nat>)
    requires Setting(w, edges, loras) && Ranks(w, rank) && !Closes(w, edges, NewIds(w, keys, loras))
    ensures Acyclic(Injected(w, edges, keys, loras))
  {
    var r, ids := Injected(w, edges, keys, loras), NewIds(w, keys, loras);
    var rank' := NewRank(w, rank, ids, edges);
    hide Injected, NewIds, RealEdge, NewRank, Ranks, Reads, Closes;
    forall id, key | id in r && Reads(r, id, key)
      ensures Reads(r, id, key) && key in r[id].inputs && r[id].inputs[key].Wired?
      ensures RankOf(rank', r[id].inputs[key].wire.node) < RankOf(rank', id)
    {
      ReadsMeans(r, id, key);
      OnlyListedInputsChange(w, edges, keys, loras, id, key);
      if id in w {
        OldInputRanked(w, edges, keys, loras, rank, id, key);
      } else {
        var i :| 0 <= i < |ids| && ids[i] == id;
        LoaderInputRanked(w, edges, keys, loras, rank, i, key);
      }
    }
    RanksMeans(r, rank');
  }

  // ---- from a rank of the new graph to one of the old ----

  /** Every loader lies above both sources. */
  lemma {:induction false} LoaderAboveSource(w: Workflow, edges: map<string, Edge>, keys: Keys, loras: seq<Lora>,
                                             rank: map<string, nat>, key: string, i: nat)
    requires Setting(w, edges, loras) && Ranks(Injected(w, edges, keys, loras), rank) && i < |loras|
    requires key == MODEL || key == CLIP
    ensures RankOf(rank, edges[key].source.node) < RankOf(rank, NewIds(w, keys, loras)[i])
    decreases i
  {
    LoaderInputs(w, edges, keys, loras, i, key);
    if i > 0 {
      LoaderAboveSource(w, edges, keys, loras, rank, key, i - 1);
    }
    hide Injected, NewIds, RankOf, RealEdge;
    assert Reads(Injected(w, edges, keys, loras), NewIds(w, keys, loras)[i], key);
  }

  /** A consumer lies above the last loader. */
  lemma ConsumerAboveLoaders(w: Workflow, edges: map<string, Edge>, keys: Keys, loras: seq<Lora>,
                             rank: map<string, nat>, id: string, key: string)
    requires Setting(w, edges, loras) && Ranks(Injected(w, edges, keys, loras), rank)
    requires Listed(edges[MODEL], id, key) || Listed(edges[CLIP], id, key)
    ensures RankOf(rank, NewIds(w, keys, loras)[|loras| - 1]) < RankOf(rank, id)
  {
    OnlyListedInputsChange(w, edges, keys, loras, id, key);
    hide Injected, NewIds, RankOf, RealEdge;
    assert Reads(Injected(w, edges, keys, loras), id, key);
  }

  /** A rank of the new graph ranks the old one. */
  lemma RanksBefore(w: Workflow, edges: map<string, Edge>, keys: Keys, loras: seq<Lora>, rank: map<string, nat>)
    requires Setting(w, edges, loras) && Ranks(Injected(w, edges, keys, loras), rank)
    ensures Ranks(w, rank)
  {
    var r := Injected(w, edges, keys, loras);
    forall id, key | id in w && Reads(w, id, key)
      ensures RankOf(rank, w[id].inputs[key].wire.node) < RankOf(rank, id)
    {
      OnlyListedInputsChange(w, edges, keys, loras, id, key);
      if Listed(edges[MODEL], id, key) || Listed(edges[CLIP], id, key) {
        ListedIsReal(w, edges, id, key);
        ConsumerAboveLoaders(w, edges, keys, loras, rank, id, key);
        var edge := if Listed(edges[MODEL], id, key) then MODEL else CLIP;
        LoaderAboveSource(w, edges, keys, loras, rank, edge, |loras| - 1);
      } else {
        hide Injected, NewIds, RankOf, RealEdge;
        assert Reads(r, id, key);
      }
    }
  }

  lemma NothingCloses(w: Workflow, edges: map<string, Edge>, keys: Keys, loras: seq<Lora>, rank: map<string, nat>)
    requires Setting(w, edges, loras) && Ranks(Injected(w, edges, keys, loras), rank)
    ensures !Closes(w, edges, NewIds(w, keys, loras))
  {
    RanksBefore(w, edges, keys, loras, rank);
    var ids := NewIds(w, keys, loras);
    hide Injected, NewIds, RankOf, RealEdge, Reaches, Ranks, Listed;
    if id :| Upstream(w, edges, id) && (id in ids || Consumes(edges, id)) {
      var from := if Reaches(w, edges[MODEL].source.node, id) then MODEL else CLIP;
      ReachedIsBelow(w, rank, edges[from].source.node, id);
      if id in ids {
        var i :| 0 <= i < |ids| && ids[i] == id;
        LoaderAboveSource(w, edges, keys, loras, rank, from, i);
      } else {
        var key :| Listed(edges[MODEL], id, key) || Listed(edges[CLIP], id, key);
        ConsumerAboveLoaders(w, edges, keys, loras, rank, id, key);
        LoaderAboveSource(w, edges, keys, loras, rank, from, |loras| - 1);
      }
    }
  }

  /** The graph with the chain is acyclic exactly when it was acyclic before and neither source reaches a
      consumer or, through a dangling wire, an id that a loader takes. */
  lemma InjectionKeepsAcyclic(w: Workflow, edges: map<string, Edge>, keys: Keys, loras: seq<Lora>)
    requires Setting(w, edges, loras)
    ensures Acyclic(Injected(w, edges, keys, loras)) <==> Acyclic(w) && !Closes(w, edges, NewIds(w, keys, loras))
  {
    hide Injected, NewIds, Ranks, Closes;
    if Acyclic(w) && !Closes(w, edges, NewIds(w, keys, loras)) {
      var rank: map<string, nat> :| Ranks(w, rank);
      StaysAcyclic(w, edges, keys, loras, rank);
    }
    if Acyclic(Injected(w, edges, keys, loras)) {
      var rank: map<string, nat> :| Ranks(Injected(w, edges, keys, loras), rank);
      RanksBefore(w, edges, keys, loras, rank);
      NothingCloses(w, edges, keys, loras, rank);
    }
  }

  /** Every wire comes from a node of the workflow. */
  ghost predicate NoDanglingWire(w: Workflow) {
    forall id, key :: Reads(w, id, key) ==> w[id].inputs[key].wire.node in w
  }

  lemma {:induction false} PathStaysInside(w: Workflow, path: seq<string>, n: nat)
    requires NoDanglingWire(w) && Path(w, path) && path[0] in w && n < |path|
    ensures path[n] in w
    decreases n
  {
    if n > 0 {
      PathStaysInside(w, path, n - 1);
      assert ReadsNode(w, path[n - 1], path[n]);
    }
  }

  /** Between the outputs of one source node and their consumers, and with no dangling wire, a chain keeps an
      acyclic graph acyclic. */
  lemma OneSourceKeepsAcyclic(w: Workflow, edges: map<string, Edge>, keys: Keys, loras: seq<Lora>)
    requires Setting(w, edges, loras) && edges[MODEL].source.node == edges[CLIP].source.node
    requires Acyclic(w) && NoDanglingWire(w)
    ensures Acyclic(Injected(w, edges, keys, loras))
  {
    var ids, source := NewIds(w, keys, loras), edges[MODEL].source.node;
    InjectionKeepsAcyclic(w, edges, keys, loras);
    LoadersNew(w, keys, loras);
    hide Injected, NewIds;
    var rank: map<string, nat> :| Ranks(w, rank);
    forall id | Upstream(w, edges, id)
      ensures id !in ids && !Consumes(edges, id)
    {
      var path :| Path(w, path) && path[0] == source && path[|path| - 1] == id;
      PathStaysInside(w, path, |path| - 1);
      ReachedIsBelow(w, rank, source, id);
      if Consumes(edges, id) {
        ConsumerAboveSource(w, edges, rank, id);
      }
    }
  }

  lemma ConsumerAboveSource(w: Workflow, edges: map<string, Edge>, rank: map<string, nat>, id: string)
    requires MODEL in edges && CLIP in edges && RealEdge(w, edges[MODEL]) && RealEdge(w, edges[CLIP])
    requires edges[MODEL].source.node == edges[CLIP].source.node && Ranks(w, rank) && Consumes(edges, id)
    ensures RankOf(rank, edges[MODEL].source.node) < RankOf(rank, id)
  {
    var key :| Listed(edges[MODEL], id, key) || Listed(edges[CLIP], id, key);
    ListedIsReal(w, edges, id, key);
    assert Reads(w, id, key);
  }

  lemma ReadsMeans(w: Workflow, id: string, key: string)
    requires Reads(w, id, key)
    ensures id in w && key in w[id].inputs && w[id].inputs[key].Wired?
  {
  }

  lemma RanksMeans(w: Workflow, rank: map<string, nat>)
    requires forall id, key :: id in w && Reads(w, id, key) ==>
      RankOf(rank, w[id].inputs[key].wire.node) < RankOf(rank, id)
    ensures Acyclic(w)
  {
    assert Ranks(w, rank);
  }

  // ---- a dangling wire can be captured ----

  /** Node 4 reads a node 6 that does not exist; node 5 consumes node 4. */
  const DANGLING: Workflow :=
    map["4" := Node("Source", map["up" := Wired(Wire("6", 0))]),
        "5" := Node("Sampler", map[MODEL := Wired(Wire("4", 0))])]

  const EDGES: map<string, Edge> :=
    map[MODEL := Edge(Wire("4", 0), [Consumer("5", MODEL)]), CLIP := Edge(Wire("4", 1), [])]

  lemma SixIsNext()
    ensures NextId(DANGLING) == "6"
  {
    assert Decimal.Value("4"[..0]) == 0 && Decimal.Value("5"[..0]) == 0;
    assert IsNumber("4") && Decimal.Value("4") == 4;
    assert IsNumber("5") && Decimal.Value("5") == 5;
    assert Numbers(DANGLING) == {4, 5} by {
      assert 4 in Numbers(DANGLING) && 5 in Numbers(DANGLING);
    }
    assert Max(Numbers(DANGLING)) == 5;
  }

  lemma OneStep(w: Workflow, a: string, b: string, key: string)
    requires Reads(w, a, key) && w[a].inputs[key].wire.node == b
    ensures Reaches(w, a, b)
  {
    ReachesItself(w, a);
    assert ReadsNode(w, a, b);
    ReachesOnward(w, a, a, b);
  }

  lemma DanglingCloses(keys: Keys, l: Lora)
    ensures Closes(DANGLING, EDGES, NewIds(DANGLING, keys, [l]))
  {
    SixIsNext();
    OneId(DANGLING, keys, [l]);
    OneStep(DANGLING, "4", "6", "up");
    hide NewIds, Reaches, Consumes, NextId;
    assert Upstream(DANGLING, EDGES, "6");
    assert "6" in NewIds(DANGLING, keys, [l]);
  }

  lemma DanglingSetting(keys: Keys, l: Lora)
    ensures Setting(DANGLING, EDGES, [l]) && EDGES[MODEL].source.node == EDGES[CLIP].source.node
    ensures Acyclic(DANGLING)
  {
    assert Ranks(DANGLING, map["4" := 1, "5" := 2]);
  }

  /** With a dangling wire, injecting one loader can close a cycle: its fresh id is the one the source was
      already wired to. */
  lemma DanglingWireCanCycle(keys: Keys, l: Lora)
    ensures Setting(DANGLING, EDGES, [l]) && EDGES[MODEL].source.node == EDGES[CLIP].source.node
    ensures Acyclic(DANGLING) && !Acyclic(Injected(DANGLING, EDGES, keys, [l]))
  {
    DanglingSetting(keys, l);
    DanglingCloses(keys, l);
    hide Injected, NewIds, Closes, Acyclic, Setting;
    InjectionKeepsAcyclic(DANGLING, EDGES, keys, [l]);
  }

  /** Node 5 reads the model of node 4 and is the source of the clip edge. */
  const CROSSED: Workflow :=
    map["4" := Node("Source", map[]), "5" := Node("Patch", map[MODEL := Wired(Wire("4", 0))])]

  const CROSSED_EDGES: map<string, Edge> :=
    map[MODEL := Edge(Wire("4", 0), [Consumer("5", MODEL)]), CLIP := Edge(Wire("5", 1), [])]

  lemma CrossedCloses(ids: seq<string>)
    ensures Closes(CROSSED, CROSSED_EDGES, ids)
  {
    ReachesItself(CROSSED, "5");
    hide Reaches;
    assert Listed(CROSSED_EDGES[MODEL], "5", MODEL);
    assert Upstream(CROSSED, CROSSED_EDGES, "5") && Consumes(CROSSED_EDGES, "5");
  }

  lemma CrossedSetting(keys: Keys, l: Lora)
    ensures Setting(CROSSED, CROSSED_EDGES, [l]) && NoDanglingWire(CROSSED) && Acyclic(CROSSED)
  {
    assert Ranks(CROSSED, map["4" := 0, "5" := 1]);
  }

  /** So can two source nodes, without any dangling wire, when one of them consumes the other's output. */
  lemma CrossedSourcesCanCycle(keys: Keys, l: Lora)
    ensures Setting(CROSSED, CROSSED_EDGES, [l]) && NoDanglingWire(CROSSED)
    ensures Acyclic(CROSSED) && !Acyclic(Injected(CROSSED, CROSSED_EDGES, keys, [l]))
  {
    CrossedSetting(keys, l);
    CrossedCloses(NewIds(CROSSED, keys, [l]));
    hide Injected, NewIds, Closes, Acyclic, Setting, NoDanglingWire;
    InjectionKeepsAcyclic(CROSSED, CROSSED_EDGES, keys, [l]);
  }

  lemma OneId(w: Workflow, keys: Keys, loras: seq<Lora>)
    requires |loras| == 1
    ensures NewIds(w, keys, loras) == [NextId(w)]
  {
    AddStep(w, LoaderNodes(keys, loras), 0);
  }

  // ---- what a loader loads ----

  /** The keys of a loader's three settings are different from each other and from its two inputs. */
  predicate KeysApart(keys: Keys) {
    && NameApart(keys) && keys.strength != keys.clipStrength
    && keys.strength !in {MODEL, CLIP} && keys.clipStrength !in {MODEL, CLIP}
  }

  /** Each loader has its LoRA's file and strength, and its clip strength or, without one, its strength. */
  lemma LoadersLoad(w: Workflow, edges: map<string, Edge>, keys: Keys, loras: seq<Lora>, i: nat)
    requires Setting(w, edges, loras) && i < |loras| && KeysApart(keys)
    ensures var r, id, l := Injected(w, edges, keys, loras), NewIds(w, keys, loras)[i], loras[i];
      && Get(r, id, keys.name) == Some(Plain(l.file)) && Get(r, id, keys.strength) == Some(Plain(l.strength))
      && (l.clipStrength.Some? ==> Get(r, id, keys.clipStrength) == Some(Plain(l.clipStrength.value)))
      && (l.clipStrength.None? ==> Get(r, id, keys.clipStrength) == Some(Plain(l.strength)))
      && id in r && r[id].classType == "LoraLoader"
  {
    LoaderClass(w, edges, keys, loras, i);
    LoaderValues(w, edges, keys, loras, i, keys.name);
    LoaderValues(w, edges, keys, loras, i, keys.strength);
    LoaderValues(w, edges, keys, loras, i, keys.clipStrength);
    hide Injected, NewIds, RealEdge;
  }
}
