/** Tier loading over `extends` chains is one flat left fold over all the files, in order, and a key's
    provenance is the last file that declares it. */
module ConfigFold {
  import opened Wrappers
  import opened ConfigMerge
  import opened ConfigLaws
  import opened ConfigTiers
  import opened Sequences

  /** What one file declares. */
  datatype Layer = Layer(config: Fields, source: string)

  /** The files of one `extends` chain, root first. */
  function ChainLayers(w: World, config: Fields, file: Path, source: string, chain: seq<Path>): seq<Layer>
    requires Exists(w, file)
    decreases w.files.Keys - Elements(chain)
  {
    var declaring := w.resolve(file);
    if declaring in chain then []
    else
      var own := [Layer(WithoutExtends(config), source)];
      if !Extends(config) then own
      else
        var parent := w.target(config[EXTENDS], declaring);
        if !Exists(w, parent) then []
        else
          assert declaring in (w.files.Keys - Elements(chain)) - (w.files.Keys - Elements(chain + [declaring]));
          ChainLayers(w, Content(w, parent), parent, ExtendsSource(parent), chain + [declaring]) + own
  }

  function TierLayersFrom(w: World, paths: seq<Path>, i: nat, seen: set<Path>): seq<Layer>
    requires i <= |paths|
    decreases |paths| - i
  {
    if i == |paths| then []
    else if !Exists(w, paths[i]) || w.resolve(paths[i]) in seen then TierLayersFrom(w, paths, i + 1, seen)
    else
      ChainLayers(w, Content(w, paths[i]), paths[i], w.tierLabel(paths[i]), []) +
      TierLayersFrom(w, paths, i + 1, seen + {w.resolve(paths[i])})
  }

  /** All files a load reads, lowest priority first. */
  function TierLayers(w: World, paths: seq<Path>): seq<Layer> {
    TierLayersFrom(w, paths, 0, {})
  }

  function Declared(layer: Layer): Value {
    Obj(layer.config)
  }

  /** The flat left fold. */
  function FoldConfig(layers: seq<Layer>): (v: Value)
    ensures v.Obj?
  {
    if layers == [] then Obj(map[])
    else Merged(FoldConfig(layers[..|layers| - 1]), Declared(layers[|layers| - 1]))
  }

  function FoldProvenance(layers: seq<Layer>): map<string, Provenance> {
    if layers == [] then map[]
    else
      var last := layers[|layers| - 1];
      FoldProvenance(layers[..|layers| - 1]) + BuiltProvenance(last.config, last.source)
  }

  function Folded(layers: seq<Layer>): Loaded {
    Loaded(FoldConfig(layers).fields, FoldProvenance(layers))
  }

  // ---- the files share a shape ----

  ghost predicate AllAlike(layers: seq<Layer>) {
    forall i, j :: 0 <= i < j < |layers| ==> SameShape(Declared(layers[i]), Declared(layers[j]))
  }

  lemma AlikeParts(xs: seq<Layer>, ys: seq<Layer>)
    requires AllAlike(xs + ys)
    ensures AllAlike(xs) && AllAlike(ys)
    ensures forall i, j :: 0 <= i < |xs| && 0 <= j < |ys| ==> SameShape(Declared(xs[i]), Declared(ys[j]))
  {
    hide SameShape, Declared;
    var all := xs + ys;
    assert forall i :: 0 <= i < |xs| ==> all[i] == xs[i];
    assert forall j :: 0 <= j < |ys| ==> all[|xs| + j] == ys[j];
    forall i, j | 0 <= i < |xs| && 0 <= j < |ys|
      ensures SameShape(Declared(xs[i]), Declared(ys[j]))
    {
      assert SameShape(Declared(all[i]), Declared(all[|xs| + j]));
    }
    forall i, j | 0 <= i < j < |ys|
      ensures SameShape(Declared(ys[i]), Declared(ys[j]))
    {
      assert SameShape(Declared(all[|xs| + i]), Declared(all[|xs| + j]));
    }
  }

  lemma {:induction false} FoldShape(layers: seq<Layer>, v: Value)
    requires AllAlike(layers) && v.Obj?
    requires forall i :: 0 <= i < |layers| ==> SameShape(Declared(layers[i]), v)
    ensures SameShape(FoldConfig(layers), v)
    decreases |layers|
  {
    if layers != [] {
      hide SameShape, Merged, Declared;
      var before, last := layers[..|layers| - 1], layers[|layers| - 1];
      assert layers == before + [last];
      AlikeParts(before, [last]);
      LastAlike(before, last);
      FoldShape(before, v);
      FoldShape(before, Declared(last));
      MergeKeepsShape(FoldConfig(before), Declared(last), v);
    }
  }

  lemma LastAlike(before: seq<Layer>, last: Layer)
    requires forall i, j :: 0 <= i < |before| && 0 <= j < |[last]| ==>
      SameShape(Declared(before[i]), Declared([last][j]))
    ensures Declared(last).Obj? && forall i :: 0 <= i < |before| ==> SameShape(Declared(before[i]), Declared(last))
  {
    hide SameShape;
    forall i | 0 <= i < |before|
      ensures SameShape(Declared(before[i]), Declared(last))
    {
      assert SameShape(Declared(before[i]), Declared([last][0]));
    }
  }

  /** Two stacks of files whose members share a shape do so as wholes. */
  lemma {:induction false} FoldsAlike(xs: seq<Layer>, ys: seq<Layer>)
    requires AllAlike(xs + ys)
    ensures SameShape(FoldConfig(xs), FoldConfig(ys))
    decreases |ys|
  {
    AlikeParts(xs, ys);
    if ys != [] {
      hide SameShape, Merged, Declared;
      var before, last := ys[..|ys| - 1], ys[|ys| - 1];
      assert ys == before + [last] && xs + ys == xs + before + [last];
      AlikeParts(before, [last]);
      LastAlike(before, last);
      AlikeParts(xs + before, [last]);
      FoldsAlike(xs, before);
      FoldShape(before, Declared(last));
      LastOfBoth(xs, ys);
      FoldShape(xs, Declared(last));
      MergeKeepsShape(FoldConfig(xs), FoldConfig(before), Declared(last));
    }
  }

  lemma LastOfBoth(xs: seq<Layer>, ys: seq<Layer>)
    requires ys != []
    requires forall i, j :: 0 <= i < |xs| && 0 <= j < |ys| ==> SameShape(Declared(xs[i]), Declared(ys[j]))
    ensures Declared(ys[|ys| - 1]).Obj?
    ensures forall i :: 0 <= i < |xs| ==> SameShape(Declared(xs[i]), Declared(ys[|ys| - 1]))
  {
    hide SameShape;
  }

  /** Folding two stacks one after the other is merging their folds. */
  lemma {:induction false} FoldConcat(xs: seq<Layer>, ys: seq<Layer>)
    requires AllAlike(xs + ys)
    ensures FoldConfig(xs + ys) == Merged(FoldConfig(xs), FoldConfig(ys))
    decreases |ys|
  {
    AlikeParts(xs, ys);
    if ys == [] {
      assert xs + ys == xs;
      EmptyObjectIsIdentity(FoldConfig(xs));
    } else {
      hide SameShape, Merged, Declared, FoldConfig, FoldProvenance;
      var before, last := ys[..|ys| - 1], ys[|ys| - 1];
      LastApart(xs, ys);
      FoldOneMore(xs + before, last);
      FoldOneMore(before, last);
      AlikeParts(before, [last]);
      LastAlike(before, last);
      AlikeParts(xs + before, [last]);
      FoldConcat(xs, before);
      FoldsAlike(xs, before);
      FoldShape(before, Declared(last));
      LastOfBoth(xs, ys);
      FoldShape(xs, Declared(last));
      MergeAssociative(FoldConfig(xs), FoldConfig(before), Declared(last));
    }
  }

  // ---- provenance ----

  lemma {:induction false} FoldKeys(layers: seq<Layer>)
    ensures FoldConfig(layers).fields.Keys == FoldProvenance(layers).Keys
    decreases |layers|
  {
    if layers != [] {
      var before, last := layers[..|layers| - 1], layers[|layers| - 1];
      FoldKeys(before);
      hide Merged;
      forall k
        ensures k in Merged(FoldConfig(before), Declared(last)).fields <==>
                k in FoldConfig(before).fields || k in last.config
      {
        MergedField(FoldConfig(before), Declared(last), k);
      }
    }
  }

  lemma TrackedMerge(parent: map<string, Provenance>, child: map<string, Provenance>, config: Fields)
    requires config.Keys == child.Keys
    ensures MergedProvenance(parent, child, config) == parent + child
  {
  }

  lemma MapRegroup(a: map<string, Provenance>, b: map<string, Provenance>, c: map<string, Provenance>)
    ensures a + (b + c) == a + b + c
  {
  }

  lemma FoldOneMore(xs: seq<Layer>, layer: Layer)
    ensures FoldConfig(xs + [layer]) == Merged(FoldConfig(xs), Declared(layer))
    ensures FoldProvenance(xs + [layer]) == FoldProvenance(xs) + BuiltProvenance(layer.config, layer.source)
  {
    hide Merged, BuiltProvenance;
    assert (xs + [layer])[..|xs|] == xs && (xs + [layer])[|xs|] == layer;
  }

  lemma LastApart(xs: seq<Layer>, ys: seq<Layer>)
    requires ys != []
    ensures var before, last := ys[..|ys| - 1], ys[|ys| - 1];
      ys == before + [last] && xs + ys == xs + before + [last]
  {
  }

  lemma {:induction false} ProvenanceConcat(xs: seq<Layer>, ys: seq<Layer>)
    ensures FoldProvenance(xs + ys) == FoldProvenance(xs) + FoldProvenance(ys)
    decreases |ys|
  {
    if ys == [] {
      assert xs + ys == xs;
    } else {
      hide FoldProvenance, BuiltProvenance;
      var before, last := ys[..|ys| - 1], ys[|ys| - 1];
      LastApart(xs, ys);
      ProvenanceConcat(xs, before);
      FoldOneMore(xs + before, last);
      FoldOneMore(before, last);
      MapRegroup(FoldProvenance(xs), FoldProvenance(before), BuiltProvenance(last.config, last.source));
    }
  }

  /** One past the index of the last file that declares the key, 0 without one. */
  function LastDeclaring(layers: seq<Layer>, key: string): (n: nat)
    ensures n <= |layers| && (n > 0 ==> key in layers[n - 1].config)
    ensures forall i :: n <= i < |layers| ==> key !in layers[i].config
  {
    if layers == [] then 0
    else if key in layers[|layers| - 1].config then |layers|
    else
      var n := LastDeclaring(layers[..|layers| - 1], key);
      assert forall i :: 0 <= i < |layers| - 1 ==> layers[..|layers| - 1][i] == layers[i];
      n
  }

  lemma {:induction false} ProvenanceIsLast(layers: seq<Layer>, key: string)
    ensures var n := LastDeclaring(layers, key);
      && (key in FoldProvenance(layers) <==> n > 0)
      && (n > 0 ==> FoldProvenance(layers)[key] == Provenance(layers[n - 1].config[key], layers[n - 1].source))
    decreases |layers|
  {
    if layers != [] {
      ProvenanceIsLast(layers[..|layers| - 1], key);
    }
  }

  // ---- loading is the fold ----

  lemma BuiltKeys(config: Fields, source: string)
    ensures BuiltProvenance(config, source).Keys == config.Keys
  {
  }

  lemma OneFile(layer: Layer)
    ensures Folded([layer]) == Loaded(layer.config, BuiltProvenance(layer.config, layer.source))
  {
    assert [] + [layer] == [layer];
    FoldOneMore([], layer);
    EmptyObjectIsIdentity(Declared(layer));
    assert map[] + BuiltProvenance(layer.config, layer.source) == BuiltProvenance(layer.config, layer.source);
  }

  lemma OverFold(xs: seq<Layer>, layer: Layer)
    ensures var own := Loaded(layer.config, BuiltProvenance(layer.config, layer.source));
      && own.config.Keys <= own.provenance.Keys
      && (Over(Folded(xs), own).Success? ==> Over(Folded(xs), own).value == Folded(xs + [layer]))
  {
    hide Merged, Mergeable;
    BuiltKeys(layer.config, layer.source);
    TrackedMerge(FoldProvenance(xs), BuiltProvenance(layer.config, layer.source), layer.config);
    FoldOneMore(xs, layer);
    assert Obj(FoldConfig(xs).fields) == FoldConfig(xs);
  }

  /** Resolving an `extends` chain folds its files from the root down. */
  lemma {:induction false} ExtendsIsFold(w: World, config: Fields, file: Path, source: string, chain: seq<Path>)
    requires Exists(w, file) && Resolved(w, config, file, source, chain).Success?
    ensures Resolved(w, config, file, source, chain).value == Folded(ChainLayers(w, config, file, source, chain))
    decreases w.files.Keys - Elements(chain)
  {
    var declaring := w.resolve(file);
    var own := Layer(WithoutExtends(config), source);
    if !Extends(config) {
      OneFile(own);
    } else {
      var parent := w.target(config[EXTENDS], declaring);
      assert declaring in (w.files.Keys - Elements(chain)) - (w.files.Keys - Elements(chain + [declaring]));
      ExtendsIsFold(w, Content(w, parent), parent, ExtendsSource(parent), chain + [declaring]);
      OverFold(ChainLayers(w, Content(w, parent), parent, ExtendsSource(parent), chain + [declaring]), own);
    }
  }

  lemma OverStacks(xs: seq<Layer>, ys: seq<Layer>)
    requires AllAlike(xs + ys)
    ensures Folded(ys).config.Keys <= Folded(ys).provenance.Keys
    ensures Over(Folded(xs), Folded(ys)) == Success(Folded(xs + ys))
  {
    hide Merged, Mergeable, SameShape, FoldConfig, FoldProvenance;
    FoldKeys(ys);
    FoldsAlike(xs, ys);
    SameShapeMerges(FoldConfig(xs), FoldConfig(ys));
    FoldConcat(xs, ys);
    ProvenanceConcat(xs, ys);
    TrackedMerge(FoldProvenance(xs), FoldProvenance(ys), FoldConfig(ys).fields);
  }

  lemma {:induction false} TiersFoldFrom(w: World, paths: seq<Path>, i: nat, requireLast: bool, seen: set<Path>,
                                         before: seq<Layer>)
    requires i <= |paths| && AllAlike(before + TierLayersFrom(w, paths, i, seen))
    ensures Folded(before).config.Keys <= Folded(before).provenance.Keys
    ensures var r := TiersFrom(w, paths, i, requireLast, seen, Folded(before));
      r.Success? ==> r.value == Folded(before + TierLayersFrom(w, paths, i, seen))
    decreases |paths| - i
  {
    FoldKeys(before);
    var rest := TierLayersFrom(w, paths, i, seen);
    if i == |paths| {
      assert before + rest == before;
    } else if !Exists(w, paths[i]) || w.resolve(paths[i]) in seen {
      if TiersFrom(w, paths, i, requireLast, seen, Folded(before)).Success? {
        TiersFoldFrom(w, paths, i + 1, requireLast, seen, before);
      }
    } else {
      var tier := Resolved(w, Content(w, paths[i]), paths[i], w.tierLabel(paths[i]), []);
      if tier.Success? {
        var layers := ChainLayers(w, Content(w, paths[i]), paths[i], w.tierLabel(paths[i]), []);
        var seen' := seen + {w.resolve(paths[i])};
        ExtendsIsFold(w, Content(w, paths[i]), paths[i], w.tierLabel(paths[i]), []);
        var more := TierLayersFrom(w, paths, i + 1, seen');
        assert before + rest == before + layers + more;
        hide Folded, AllAlike, Resolved, ChainLayers;
        StackParts(before + layers, more);
        OverStacks(before, layers);
        TiersFoldFrom(w, paths, i + 1, requireLast, seen', before + layers);
      }
    }
  }

  lemma StackParts(xs: seq<Layer>, ys: seq<Layer>)
    requires AllAlike(xs + ys)
    ensures AllAlike(xs)
  {
    AlikeParts(xs, ys);
  }

  /** A successful load of files that share a shape is the flat fold over all of them, and the provenance of
      a key is its last declaring file with the value that file declares. */
  lemma TiersAreOneFold(w: World, paths: seq<Path>, requireLast: bool, key: string)
    requires AllAlike(TierLayers(w, paths)) && Tiers(w, paths, requireLast).Success?
    ensures var layers := TierLayers(w, paths);
      var loaded := Tiers(w, paths, requireLast).value;
      && loaded == Folded(layers)
      && (key in loaded.config <==> LastDeclaring(layers, key) > 0)
      && (key in loaded.config ==>
            var last := layers[LastDeclaring(layers, key) - 1];
            key in loaded.provenance && loaded.provenance[key] == Provenance(last.config[key], last.source))
  {
    var layers := TierLayers(w, paths);
    assert [] + layers == layers;
    assert Folded([]) == EMPTY;
    TiersFoldFrom(w, paths, 0, requireLast, {}, []);
    FoldKeys(layers);
    ProvenanceIsLast(layers, key);
  }

  // ---- files of one shape always merge ----

  lemma {:induction false} ExtendsMerges(w: World, config: Fields, file: Path, source: string, chain: seq<Path>)
    requires Exists(w, file) && AllAlike(ChainLayers(w, config, file, source, chain))
    ensures Resolved(w, config, file, source, chain) != Failure(Unmergeable)
    decreases w.files.Keys - Elements(chain)
  {
    var declaring := w.resolve(file);
    var parent := w.target(if Extends(config) then config[EXTENDS] else Null, declaring);
    if declaring !in chain && Extends(config) && Exists(w, parent) {
      assert declaring in (w.files.Keys - Elements(chain)) - (w.files.Keys - Elements(chain + [declaring]));
      var below := ChainLayers(w, Content(w, parent), parent, ExtendsSource(parent), chain + [declaring]);
      var own := Layer(WithoutExtends(config), source);
      StackParts(below, [own]);
      ExtendsMerges(w, Content(w, parent), parent, ExtendsSource(parent), chain + [declaring]);
      var base := Resolved(w, Content(w, parent), parent, ExtendsSource(parent), chain + [declaring]);
      if base.Success? {
        ExtendsIsFold(w, Content(w, parent), parent, ExtendsSource(parent), chain + [declaring]);
        OneFile(own);
        OverStacks(below, [own]);
      }
    }
  }

  lemma {:induction false} TiersMergeFrom(w: World, paths: seq<Path>, i: nat, requireLast: bool, seen: set<Path>,
                                          before: seq<Layer>)
    requires i <= |paths| && AllAlike(before + TierLayersFrom(w, paths, i, seen))
    ensures Folded(before).config.Keys <= Folded(before).provenance.Keys
    ensures TiersFrom(w, paths, i, requireLast, seen, Folded(before)) != Failure(Unmergeable)
    decreases |paths| - i
  {
    FoldKeys(before);
    var rest := TierLayersFrom(w, paths, i, seen);
    if i < |paths| {
      if !Exists(w, paths[i]) || w.resolve(paths[i]) in seen {
        TiersMergeFrom(w, paths, i + 1, requireLast, seen, before);
      } else {
        var layers := ChainLayers(w, Content(w, paths[i]), paths[i], w.tierLabel(paths[i]), []);
        var seen' := seen + {w.resolve(paths[i])};
        var more := TierLayersFrom(w, paths, i + 1, seen');
        assert before + rest == before + layers + more;
        hide Folded, AllAlike, Resolved, ChainLayers;
        StackParts(before + layers, more);
        TailAlike(before, layers);
        ExtendsMerges(w, Content(w, paths[i]), paths[i], w.tierLabel(paths[i]), []);
        if Resolved(w, Content(w, paths[i]), paths[i], w.tierLabel(paths[i]), []).Success? {
          ExtendsIsFold(w, Content(w, paths[i]), paths[i], w.tierLabel(paths[i]), []);
          OverStacks(before, layers);
          TiersMergeFrom(w, paths, i + 1, requireLast, seen', before + layers);
        }
      }
    }
  }

  lemma TailAlike(xs: seq<Layer>, ys: seq<Layer>)
    requires AllAlike(xs + ys)
    ensures AllAlike(ys)
  {
    AlikeParts(xs, ys);
  }

  /** Loading files that share a shape fails only for a circular `extends` or a missing file. */
  lemma OnlyChainsFail(w: World, paths: seq<Path>, requireLast: bool)
    requires AllAlike(TierLayers(w, paths))
    ensures Tiers(w, paths, requireLast).Failure? ==>
      Tiers(w, paths, requireLast).error.CircularExtends? || Tiers(w, paths, requireLast).error.NotFound?
  {
    var layers := TierLayers(w, paths);
    assert [] + layers == layers;
    assert Folded([]) == EMPTY;
    TiersMergeFrom(w, paths, 0, requireLast, {}, []);
  }
}
