/** What `extends` chains and lists of tiers come to: which files a load folds and under which labels, what a failed
    load reports, and which tiers may be missing. */
module ConfigChains {
  import opened Wrappers
  import opened ConfigMerge
  import opened ConfigTiers
  import opened ConfigFold
  import opened Sequences

  /** The file at canonical path `child` extends the one at `parent`. */
  predicate Linked(w: World, child: Path, parent: Path) {
    && child in w.files && parent in w.files
    && "extends" in w.files[child] && w.files[child]["extends"] != Null
    && w.resolve(w.target(w.files[child]["extends"], child)) == parent
  }

  /** Each file of a list, root first, is extended by the next. */
  predicate Chained(w: World, files: seq<Path>) {
    forall j :: 0 < j < |files| ==> Linked(w, files[j], files[j - 1])
  }

  /** Not an extending file. */
  predicate Root(w: World, file: Path) {
    file in w.files && ("extends" in w.files[file] ==> w.files[file]["extends"] == Null)
  }

  /** What a file declares itself. */
  ghost predicate Declares(w: World, file: Path, layer: Layer) {
    && file in w.files
    && (forall k :: k in layer.config <==> k in w.files[file] && k != "extends")
    && (forall k :: k in layer.config ==> layer.config[k] == w.files[file][k])
  }

  predicate NoRepeats(files: seq<Path>) {
    forall i, j :: 0 <= i < j < |files| ==> files[i] != files[j]
  }

  /** The label of an extended file: its path as resolved from the one that extends it. */
  predicate Labelled(w: World, layer: Layer, child: Path) {
    && child in w.files && "extends" in w.files[child]
    && layer.source == w.target(w.files[child]["extends"], child) + " (extends)"
  }

  /** The layers of a chain are those of its files: root first, the file itself last under its own label. */
  ghost predicate LayersOf(w: World, layers: seq<Layer>, files: seq<Path>, source: string) {
    && |layers| == |files| > 0 && layers[|layers| - 1].source == source
    && (forall j :: 0 <= j < |files| ==> Declares(w, files[j], layers[j]))
    && (forall j :: 0 < j < |files| ==> Labelled(w, layers[j - 1], files[j]))
  }

  lemma OwnLayer(w: World, file: Path, source: string)
    requires Exists(w, file)
    ensures Declares(w, w.resolve(file), Layer(WithoutExtends(Content(w, file)), source))
  {
  }

  lemma ParentLinked(w: World, file: Path)
    requires Exists(w, file) && Extends(Content(w, file))
    requires Exists(w, w.target(Content(w, file)[EXTENDS], w.resolve(file)))
    ensures Linked(w, w.resolve(file), w.resolve(w.target(Content(w, file)[EXTENDS], w.resolve(file))))
  {
  }

  lemma Shrinks(w: World, declaring: Path, chain: seq<Path>)
    requires declaring in w.files && declaring !in chain
    ensures w.files.Keys - Elements(chain + [declaring]) < w.files.Keys - Elements(chain)
  {
    assert declaring in (w.files.Keys - Elements(chain)) - (w.files.Keys - Elements(chain + [declaring]));
  }

  /** A chain that resolves is what its name says: the files from the root to the one asked for, each extended by the
      next, no file twice and none of those already visited, and what is folded is what they declare themselves. */
  lemma {:induction false} ChainIsLinked(w: World, file: Path, source: string, chain: seq<Path>)
    returns (files: seq<Path>)
    requires Exists(w, file) && Resolved(w, Content(w, file), file, source, chain).Success?
    ensures LayersOf(w, ChainLayers(w, Content(w, file), file, source, chain), files, source)
    ensures Chained(w, files) && Root(w, files[0]) && files[|files| - 1] == w.resolve(file)
    ensures NoRepeats(files) && forall j :: 0 <= j < |files| ==> files[j] !in chain
    decreases w.files.Keys - Elements(chain)
  {
    var declaring, config := w.resolve(file), Content(w, file);
    OwnLayer(w, file, source);
    if !Extends(config) {
      files := [declaring];
    } else {
      var parent := w.target(config[EXTENDS], declaring);
      ParentLinked(w, file);
      Shrinks(w, declaring, chain);
      var below := ChainIsLinked(w, parent, ExtendsSource(parent), chain + [declaring]);
      files := below + [declaring];
      ChainStep(w, file, source, chain, below);
    }
  }

  lemma ChainStep(w: World, file: Path, source: string, chain: seq<Path>, below: seq<Path>)
    requires Exists(w, file) && Extends(Content(w, file)) && w.resolve(file) !in chain
    requires Exists(w, w.target(Content(w, file)[EXTENDS], w.resolve(file)))
    requires var declaring := w.resolve(file);
      var parent := w.target(Content(w, file)[EXTENDS], declaring);
      && LayersOf(w, ChainLayers(w, Content(w, parent), parent, ExtendsSource(parent), chain + [declaring]), below,
                  ExtendsSource(parent))
      && Chained(w, below) && below[|below| - 1] == w.resolve(parent)
      && NoRepeats(below) && forall j :: 0 <= j < |below| ==> below[j] !in chain + [declaring]
    ensures var declaring := w.resolve(file);
      && LayersOf(w, ChainLayers(w, Content(w, file), file, source, chain), below + [declaring], source)
      && Chained(w, below + [declaring]) && NoRepeats(below + [declaring])
      && forall j :: 0 <= j < |below + [declaring]| ==> (below + [declaring])[j] !in chain
  {
    hide Declares;
    var declaring := w.resolve(file);
    OwnLayer(w, file, source);
    ParentLinked(w, file);
    hide Exists;
    assert forall j :: 0 <= j < |below| ==> below[j] != declaring;
  }

  // ---- what a failed load reports ----

  /** Each file of a list extends the next, from place `from` on. */
  predicate Follows(w: World, visited: seq<Path>, from: nat) {
    forall j :: from < j < |visited| ==> Linked(w, visited[j - 1], visited[j])
  }

  /** A chain reported as circular is one: it begins with the files visited, each then extends the next, and the last
      is one that was met before. */
  lemma {:induction false} CycleIsReal(w: World, file: Path, source: string, chain: seq<Path>)
    requires Exists(w, file)
    ensures var r := Resolved(w, Content(w, file), file, source, chain);
      r.Failure? && r.error.CircularExtends? ==>
        var c := r.error.chain;
        && |c| > |chain| && c[..|chain|] == chain && c[|chain|] == w.resolve(file)
        && Follows(w, c, |chain|) && c[|c| - 1] in c[..|c| - 1]
    decreases w.files.Keys - Elements(chain)
  {
    var declaring, config := w.resolve(file), Content(w, file);
    var r := Resolved(w, config, file, source, chain);
    if declaring in chain {
      assert (chain + [declaring])[..|chain|] == chain;
    } else if Extends(config) && Exists(w, w.target(config[EXTENDS], declaring)) {
      var parent := w.target(config[EXTENDS], declaring);
      ParentLinked(w, file);
      Shrinks(w, declaring, chain);
      CycleIsReal(w, parent, ExtendsSource(parent), chain + [declaring]);
      var base := Resolved(w, Content(w, parent), parent, ExtendsSource(parent), chain + [declaring]);
      if base.Failure? && base.error.CircularExtends? {
        var c := base.error.chain;
        assert c[..|chain|] == c[..|chain| + 1][..|chain|] == chain && c[|chain|] == declaring;
      }
    }
  }

  /** A file reported as missing is missing, and some file extends it. */
  lemma {:induction false} MissingIsReal(w: World, file: Path, source: string, chain: seq<Path>)
    requires Exists(w, file)
    ensures var r := Resolved(w, Content(w, file), file, source, chain);
      r.Failure? && r.error.NotFound? ==>
        && w.resolve(r.error.path) !in w.files
        && exists child :: child in w.files && "extends" in w.files[child]
                           && w.target(w.files[child]["extends"], child) == r.error.path
    decreases w.files.Keys - Elements(chain)
  {
    var declaring, config := w.resolve(file), Content(w, file);
    if declaring !in chain && Extends(config) && Exists(w, w.target(config[EXTENDS], declaring)) {
      var parent := w.target(config[EXTENDS], declaring);
      Shrinks(w, declaring, chain);
      MissingIsReal(w, parent, ExtendsSource(parent), chain + [declaring]);
    } else if declaring !in chain && Extends(config) {
      assert "extends" in w.files[declaring];
    }
  }

  // ---- tiers ----

  /** No result declares what it extends. */
  predicate Plain(r: Result<Loaded, Error>) {
    r.Success? ==> "extends" !in r.value.config
  }

  lemma OverPlain(parent: Loaded, child: Loaded)
    requires child.config.Keys <= child.provenance.Keys
    requires "extends" !in parent.config && "extends" !in child.config
    ensures Plain(Over(parent, child))
  {
    MergedField(Obj(parent.config), Obj(child.config), "extends");
    hide Merged;
  }

  lemma {:induction false} ResolvedPlain(w: World, config: Fields, file: Path, source: string, chain: seq<Path>)
    requires Exists(w, file)
    ensures Plain(Resolved(w, config, file, source, chain))
    decreases w.files.Keys - Elements(chain)
  {
    var declaring := w.resolve(file);
    if declaring !in chain && Extends(config) && Exists(w, w.target(config[EXTENDS], declaring)) {
      var parent := w.target(config[EXTENDS], declaring);
      Shrinks(w, declaring, chain);
      ResolvedPlain(w, Content(w, parent), parent, ExtendsSource(parent), chain + [declaring]);
      var base := Resolved(w, Content(w, parent), parent, ExtendsSource(parent), chain + [declaring]);
      if base.Success? {
        OverPlain(base.value, Loaded(WithoutExtends(config), BuiltProvenance(WithoutExtends(config), source)));
      }
    }
    hide Over;
  }

  lemma {:induction false} TiersPlainFrom(w: World, paths: seq<Path>, i: nat, requireLast: bool, seen: set<Path>,
                                          result: Loaded)
    requires i <= |paths| && result.config.Keys <= result.provenance.Keys && "extends" !in result.config
    ensures Plain(TiersFrom(w, paths, i, requireLast, seen, result))
    decreases |paths| - i
  {
    hide Over, Resolved;
    if i < |paths| {
      if !Exists(w, paths[i]) || w.resolve(paths[i]) in seen {
        TiersPlainFrom(w, paths, i + 1, requireLast, seen, result);
      } else {
        var tier := Resolved(w, Content(w, paths[i]), paths[i], w.tierLabel(paths[i]), []);
        ResolvedPlain(w, Content(w, paths[i]), paths[i], w.tierLabel(paths[i]), []);
        if tier.Success? {
          OverTracked(result, tier.value);
          OverPlain(result, tier.value);
          var merged := Over(result, tier.value);
          if merged.Success? {
            TiersPlainFrom(w, paths, i + 1, requireLast, seen + {w.resolve(paths[i])}, merged.value);
          }
        }
      }
    }
  }

  /** No loaded configuration keeps the key that names what a file extends. */
  lemma NoExtendsLeft(w: World, paths: seq<Path>, requireLast: bool)
    ensures Tiers(w, paths, requireLast).Success? ==> "extends" !in Tiers(w, paths, requireLast).value.config
  {
    TiersPlainFrom(w, paths, 0, requireLast, {}, EMPTY);
  }

  /** The tiers that exist. */
  function Present(w: World, paths: seq<Path>, i: nat): (present: seq<Path>)
    requires i <= |paths|
    ensures forall k :: 0 <= k < |present| ==> Exists(w, present[k])
    decreases |paths| - i
  {
    if i == |paths| then [] else (if Exists(w, paths[i]) then [paths[i]] else []) + Present(w, paths, i + 1)
  }

  /** The last tier is required and missing. */
  predicate LacksLast(w: World, paths: seq<Path>, requireLast: bool) {
    requireLast && paths != [] && !Exists(w, paths[|paths| - 1])
  }

  lemma {:induction false} MissingTiersFrom(w: World, paths: seq<Path>, i: nat, requireLast: bool, all: seq<Path>,
                                            k: nat, seen: set<Path>, result: Loaded)
    requires i <= |paths| && k <= |all| && result.config.Keys <= result.provenance.Keys
    requires all[k..] == Present(w, paths, i) && forall j :: k <= j < |all| ==> Exists(w, all[j])
    ensures var present := TiersFrom(w, all, k, false, seen, result);
      TiersFrom(w, paths, i, requireLast, seen, result) ==
        if i < |paths| && LacksLast(w, paths, requireLast) && present.Success?
        then Failure(NotFound(paths[|paths| - 1]))
        else present
    decreases |paths| - i
  {
    hide Over, Resolved;
    if i == |paths| {
      assert all[k..] == [] && k == |all|;
    } else if !Exists(w, paths[i]) {
      if requireLast && i == |paths| - 1 {
        assert Present(w, paths, i + 1) == [];
        assert k == |all|;
      } else {
        MissingTiersFrom(w, paths, i + 1, requireLast, all, k, seen, result);
      }
    } else {
      assert all[k..][0] == paths[i] && all[k + 1..] == all[k..][1..] == Present(w, paths, i + 1);
      if w.resolve(paths[i]) in seen {
        MissingTiersFrom(w, paths, i + 1, requireLast, all, k + 1, seen, result);
      } else {
        var tier := Resolved(w, Content(w, paths[i]), paths[i], w.tierLabel(paths[i]), []);
        if tier.Success? {
          OverTracked(result, tier.value);
          var merged := Over(result, tier.value);
          if merged.Success? {
            MissingTiersFrom(w, paths, i + 1, requireLast, all, k + 1, seen + {w.resolve(paths[i])}, merged.value);
          }
        }
      }
    }
  }

  /** Missing tiers count as if they had not been listed, unless the last one is required: then a load that would
      succeed fails and names it. */
  lemma MissingTiersSkipped(w: World, paths: seq<Path>, requireLast: bool)
    ensures var present := Tiers(w, Present(w, paths, 0), false);
      Tiers(w, paths, requireLast) ==
        if requireLast && paths != [] && w.resolve(paths[|paths| - 1]) !in w.files && present.Success?
        then Failure(NotFound(paths[|paths| - 1]))
        else present
  {
    var all := Present(w, paths, 0);
    assert all[0..] == all;
    MissingTiersFrom(w, paths, 0, requireLast, all, 0, {}, EMPTY);
  }
}
