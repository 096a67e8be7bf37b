/** Loading configuration: `extends` chains resolved from the root down, tiers merged in order, each top-level
    key with its provenance. Loading is one left fold over all files involved. */
module ConfigTiers {
  import opened Wrappers
  import opened ConfigMerge
  import opened ConfigLaws
  import opened Sequences

  type Path = string

  type Fields = map<string, Value>

  /** The files by canonical path. `resolve` makes a path canonical, `target` finds the file an `extends`
      value names, seen from the file that declares it. */
  datatype World = World(files: map<Path, Fields>, resolve: Path -> Path, target: (Value, Path) -> Path,
                         tierLabel: Path -> string)

  datatype Provenance = Provenance(value: Value, source: string)

  datatype Loaded = Loaded(config: Fields, provenance: map<string, Provenance>)

  datatype Error = CircularExtends(chain: seq<Path>) | NotFound(path: Path) | Unmergeable

  const EXTENDS := "extends"

  predicate Exists(w: World, path: Path) {
    w.resolve(path) in w.files
  }

  function Content(w: World, path: Path): Fields
    requires Exists(w, path)
  {
    w.files[w.resolve(path)]
  }

  function WithoutExtends(config: Fields): Fields {
    config - {EXTENDS}
  }

  predicate Extends(config: Fields) {
    EXTENDS in config && !config[EXTENDS].Null?
  }

  function ExtendsSource(path: Path): string {
    path + " (extends)"
  }

  /** `_build_provenance`. */
  function BuiltProvenance(config: Fields, source: string): map<string, Provenance> {
    map k | k in config :: Provenance(config[k], source)
  }

  /** `_merge_provenance`, for a child whose keys are all tracked. */
  function MergedProvenance(parent: map<string, Provenance>, child: map<string, Provenance>, config: Fields)
      : map<string, Provenance>
    requires config.Keys <= child.Keys
  {
    map k | k in parent.Keys + config.Keys :: if k in config then child[k] else parent[k]
  }

  /** Merging one loaded configuration over another. */
  function Over(parent: Loaded, child: Loaded): (r: Result<Loaded, Error>)
    requires child.config.Keys <= child.provenance.Keys
  {
    if Mergeable(Obj(parent.config), Obj(child.config))
    then Success(Loaded(Merged(Obj(parent.config), Obj(child.config)).fields,
                        MergedProvenance(parent.provenance, child.provenance, child.config)))
    else Failure(Unmergeable)
  }

  predicate Tracked(r: Result<Loaded, Error>) {
    r.Success? ==> r.value.config.Keys <= r.value.provenance.Keys
  }

  lemma OverTracked(parent: Loaded, child: Loaded)
    requires parent.config.Keys <= parent.provenance.Keys && child.config.Keys <= child.provenance.Keys
    ensures Tracked(Over(parent, child))
  {
    forall k | k in Merged(Obj(parent.config), Obj(child.config)).fields
      ensures k in parent.config || k in child.config
    {
      MergedField(Obj(parent.config), Obj(child.config), k);
    }
  }

  /** `_resolve_extends_with_provenance`. */
  function Resolved(w: World, config: Fields, file: Path, source: string, chain: seq<Path>): (r: Result<Loaded, Error>)
    requires Exists(w, file)
    ensures Tracked(r)
    decreases w.files.Keys - Elements(chain)
  {
    var declaring := w.resolve(file);
    if declaring in chain then Failure(CircularExtends(chain + [declaring]))
    else
      var own := Loaded(WithoutExtends(config), BuiltProvenance(WithoutExtends(config), source));
      if !Extends(config) then Success(own)
      else
        var parent := w.target(config[EXTENDS], declaring);
        if !Exists(w, parent) then Failure(NotFound(parent))
        else
          assert declaring in (w.files.Keys - Elements(chain)) - (w.files.Keys - Elements(chain + [declaring]));
          var base := Resolved(w, Content(w, parent), parent, ExtendsSource(parent), chain + [declaring]);
          if base.Failure? then base
          else
            OverTracked(base.value, own);
            Over(base.value, own)
  }

  /** `_resolve_tiers_with_provenance`: the tiers from `i` on. */
  function TiersFrom(w: World, paths: seq<Path>, i: nat, requireLast: bool, seen: set<Path>, result: Loaded)
      : (r: Result<Loaded, Error>)
    requires i <= |paths| && result.config.Keys <= result.provenance.Keys
    ensures Tracked(r)
    decreases |paths| - i
  {
    if i == |paths| then Success(result)
    else if !Exists(w, paths[i]) then
      if requireLast && i == |paths| - 1 then Failure(NotFound(paths[i]))
      else TiersFrom(w, paths, i + 1, requireLast, seen, result)
    else if w.resolve(paths[i]) in seen then TiersFrom(w, paths, i + 1, requireLast, seen, result)
    else
      var tier := Resolved(w, Content(w, paths[i]), paths[i], w.tierLabel(paths[i]), []);
      if tier.Failure? then tier
      else
        OverTracked(result, tier.value);
        var merged := Over(result, tier.value);
        if merged.Failure? then merged
        else TiersFrom(w, paths, i + 1, requireLast, seen + {w.resolve(paths[i])}, merged.value)
  }

  const EMPTY := Loaded(map[], map[])

  function Tiers(w: World, paths: seq<Path>, requireLast: bool): Result<Loaded, Error> {
    TiersFrom(w, paths, 0, requireLast, {}, EMPTY)
  }

  // ---- loading as it runs ----

  /** `_merge_provenance`, in the child's key order, whatever it is. */
  method MergeProvenance(parent: map<string, Provenance>, child: map<string, Provenance>, config: Fields)
      returns (result: map<string, Provenance>)
    requires config.Keys <= child.Keys
    ensures result == MergedProvenance(parent, child, config)
  {
    result := parent;
    var todo := config.Keys;
    while todo != {}
      invariant todo <= config.Keys
      invariant forall k :: k in result <==> k in parent || (k in config && k !in todo)
      invariant forall k :: k in config && k !in todo ==> k in result && result[k] == child[k]
      invariant forall k :: k in parent && (k !in config || k in todo) ==> k in result && result[k] == parent[k]
      decreases |todo|
    {
      var key :| key in todo;
      result := result[key := child[key]];
      todo := todo - {key};
    }
    ProvenanceKeys(parent, child, config, result);
  }

  lemma ProvenanceKeys(parent: map<string, Provenance>, child: map<string, Provenance>, config: Fields,
                       result: map<string, Provenance>)
    requires config.Keys <= child.Keys && forall k :: k in result <==> k in parent || k in config
    requires forall k :: k in config ==> result[k] == child[k]
    requires forall k :: k in parent && k !in config ==> result[k] == parent[k]
    ensures result == MergedProvenance(parent, child, config)
  {
    assert result.Keys == MergedProvenance(parent, child, config).Keys;
  }

  method MergeOver(parent: Loaded, child: Loaded) returns (r: Result<Loaded, Error>)
    requires child.config.Keys <= child.provenance.Keys
    ensures r == Over(parent, child)
  {
    if !Mergeable(Obj(parent.config), Obj(child.config)) {
      return Failure(Unmergeable);
    }
    var merged := MergeValues(Obj(parent.config), Obj(child.config));
    MergedField(Obj(parent.config), Obj(child.config), NAME);
    var provenance := MergeProvenance(parent.provenance, child.provenance, child.config);
    r := Success(Loaded(merged.fields, provenance));
  }

  method ResolveExtends(w: World, config: Fields, file: Path, source: string, chain: seq<Path>)
      returns (r: Result<Loaded, Error>)
    requires Exists(w, file)
    ensures r == Resolved(w, config, file, source, chain)
    decreases w.files.Keys - Elements(chain)
  {
    var declaring := w.resolve(file);
    if declaring in chain {
      return Failure(CircularExtends(chain + [declaring]));
    }
    var own := Loaded(WithoutExtends(config), BuiltProvenance(WithoutExtends(config), source));
    if !Extends(config) {
      return Success(own);
    }
    var parent := w.target(config[EXTENDS], declaring);
    if !Exists(w, parent) {
      return Failure(NotFound(parent));
    }
    assert declaring in (w.files.Keys - Elements(chain)) - (w.files.Keys - Elements(chain + [declaring]));
    var base := ResolveExtends(w, Content(w, parent), parent, ExtendsSource(parent), chain + [declaring]);
    if base.Failure? {
      return base;
    }
    r := MergeOver(base.value, own);
  }

  method ResolveTiers(w: World, paths: seq<Path>, requireLast: bool) returns (r: Result<Loaded, Error>)
    ensures r == Tiers(w, paths, requireLast)
  {
    var result, seen := EMPTY, {};
    var i := 0;
    while i < |paths|
      invariant 0 <= i <= |paths| && result.config.Keys <= result.provenance.Keys
      invariant Tiers(w, paths, requireLast) == TiersFrom(w, paths, i, requireLast, seen, result)
    {
      if !Exists(w, paths[i]) {
        if requireLast && i == |paths| - 1 {
          return Failure(NotFound(paths[i]));
        }
      } else if w.resolve(paths[i]) !in seen {
        seen := seen + {w.resolve(paths[i])};
        var tier := ResolveExtends(w, Content(w, paths[i]), paths[i], w.tierLabel(paths[i]), []);
        if tier.Failure? {
          return tier;
        }
        OverTracked(result, tier.value);
        var merged := MergeOver(result, tier.value);
        if merged.Failure? {
          return merged;
        }
        result := merged.value;
      }
      i := i + 1;
    }
    r := Success(result);
  }
}
