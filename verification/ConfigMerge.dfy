/** Merging one configuration over another: objects key by key, named lists by name with the parent's order,
    everything else replaced. */
module ConfigMerge {

  datatype Value = Null | Atom(text: string) | Obj(fields: map<string, Value>) | Lst(items: seq<Value>)

  const NAME := "name"

  predicate Named(v: Value) {
    v.Obj? && NAME in v.fields
  }

  /** `_is_named_list`. */
  predicate IsNamedList(items: seq<Value>) {
    items != [] && forall i :: 0 <= i < |items| ==> Named(items[i])
  }

  /** An entry with a name that can be looked up. */
  predicate Keyed(v: Value) {
    Named(v) && v.fields[NAME].Atom?
  }

  predicate AllKeyed(items: seq<Value>) {
    forall i :: 0 <= i < |items| ==> Keyed(items[i])
  }

  function NameOf(v: Value): string {
    if Keyed(v) then v.fields[NAME].text else ""
  }

  /** One past the index of the last of the first `n` entries with the name, 0 without one: later entries
      overwrite earlier ones in the lookup table. */
  function Find(items: seq<Value>, name: string, n: nat): (k: nat)
    requires n <= |items|
    ensures k <= n && (k > 0 ==> NameOf(items[k - 1]) == name)
    ensures k == 0 ==> forall i :: 0 <= i < n ==> NameOf(items[i]) != name
  {
    if n == 0 then 0
    else if NameOf(items[n - 1]) == name then n
    else Find(items, name, n - 1)
  }

  predicate HasName(items: seq<Value>, name: string) {
    Find(items, name, |items|) > 0
  }

  function IfNew(parent: seq<Value>, entry: Value): seq<Value> {
    if HasName(parent, NameOf(entry)) then [] else [entry]
  }

  /** Those of the child's first `n` entries whose names the parent lacks, in their order. */
  function NewAmong(parent: seq<Value>, child: seq<Value>, n: nat): seq<Value>
    requires n <= |child|
  {
    if n == 0 then [] else NewAmong(parent, child, n - 1) + IfNew(parent, child[n - 1])
  }

  function NewEntries(parent: seq<Value>, child: seq<Value>): seq<Value> {
    NewAmong(parent, child, |child|)
  }

  /** The merge meets no entry without a usable name where it needs one; elsewhere the merge raises. */
  predicate Mergeable(parent: Value, child: Value)
    decreases child
  {
    if parent.Obj? && child.Obj? then
      forall k :: k in parent.fields && k in child.fields ==> Mergeable(parent.fields[k], child.fields[k])
    else if parent.Lst? && child.Lst? then
      if IsNamedList(parent.items) then
        && AllKeyed(parent.items) && AllKeyed(child.items)
        && forall i, j :: 0 <= i < |parent.items| && 0 <= j < |child.items|
                          && NameOf(parent.items[i]) == NameOf(child.items[j])
                          ==> Mergeable(parent.items[i], child.items[j])
      else if parent.items == [] && IsNamedList(child.items) then AllKeyed(child.items)
      else true
    else true
  }

  /** `_merge`, where it does not raise. */
  function Merged(parent: Value, child: Value): Value
    decreases child, 2, 0
  {
    if parent.Obj? && child.Obj? then
      Obj(map k | k in parent.fields.Keys + child.fields.Keys ::
            if k !in child.fields then parent.fields[k]
            else if k !in parent.fields then child.fields[k]
            else Merged(parent.fields[k], child.fields[k]))
    else if parent.Lst? && child.Lst? && IsNamedList(parent.items) then
      Lst(MergedEntries(parent.items, child, |parent.items|) + NewEntries(parent.items, child.items))
    else child
  }

  /** A parent's entry in the merged list. */
  function MergedEntry(entry: Value, child: Value): Value
    decreases child, 0, 0
  {
    if child.Lst? && HasName(child.items, NameOf(entry))
    then Merged(entry, child.items[Find(child.items, NameOf(entry), |child.items|) - 1])
    else entry
  }

  /** The parent's first `n` entries, each merged in place. */
  function MergedEntries(parent: seq<Value>, child: Value, n: nat): (entries: seq<Value>)
    requires n <= |parent|
    ensures |entries| == n && forall i :: 0 <= i < n ==> entries[i] == MergedEntry(parent[i], child)
    decreases child, 1, n
  {
    if n == 0 then []
    else MergedEntries(parent, child, n - 1) + [MergedEntry(parent[n - 1], child)]
  }

  // ---- the merge as it runs ----

  method MergeValues(parent: Value, child: Value) returns (r: Value)
    requires Mergeable(parent, child)
    ensures r == Merged(parent, child)
    decreases child, 1
  {
    if parent.Obj? && child.Obj? {
      r := MergeDicts(parent, child);
    } else if parent.Lst? && child.Lst? && IsNamedList(parent.items) {
      r := NamedMerge(parent, child);
    } else if parent.Lst? && child.Lst? && parent.items == [] && IsNamedList(child.items) {
      r := Lst(child.items);
    } else {
      r := child;
    }
  }

  /** The merge of two objects, key by key. */
  lemma MergedField(parent: Value, child: Value, k: string)
    requires parent.Obj? && child.Obj?
    ensures Merged(parent, child).Obj?
    ensures var fields := Merged(parent, child).fields;
      && (k in fields <==> k in parent.fields || k in child.fields)
      && (k in child.fields && k !in parent.fields ==> fields[k] == child.fields[k])
      && (k in parent.fields && k !in child.fields ==> fields[k] == parent.fields[k])
      && (k in parent.fields && k in child.fields ==> fields[k] == Merged(parent.fields[k], child.fields[k]))
  {
  }

  lemma MergedKeys(parent: Value, child: Value, fields: map<string, Value>)
    requires parent.Obj? && child.Obj?
    requires forall k :: k in fields <==> k in parent.fields || k in child.fields
    requires forall k :: k in child.fields ==>
      k in Merged(parent, child).fields && fields[k] == Merged(parent, child).fields[k]
    requires forall k :: k in parent.fields && k !in child.fields ==> fields[k] == parent.fields[k]
    ensures Obj(fields) == Merged(parent, child)
  {
    var whole := Merged(parent, child).fields;
    forall k
      ensures k in fields <==> k in whole
      ensures k in fields ==> fields[k] == whole[k]
    {
      MergedField(parent, child, k);
    }
    assert fields.Keys == whole.Keys;
    assert fields == whole;
  }

  /** `_merge_dicts`: over the child's keys, in any order. */
  method MergeDicts(parent: Value, child: Value) returns (r: Value)
    requires parent.Obj? && child.Obj? && Mergeable(parent, child)
    ensures r == Merged(parent, child)
    decreases child, 0
  {
    hide Merged;
    ghost var whole := Merged(parent, child);
    MergedField(parent, child, NAME);
    var result := parent.fields;
    var todo := child.fields.Keys;
    while todo != {}
      invariant todo <= child.fields.Keys
      invariant forall k :: k in result <==> k in parent.fields || (k in child.fields && k !in todo)
      invariant forall k :: k in parent.fields && (k in todo || k !in child.fields) ==> result[k] == parent.fields[k]
      invariant forall k :: k in child.fields && k !in todo ==> k in whole.fields && result[k] == whole.fields[k]
      decreases |todo|
    {
      var key :| key in todo;
      MergedField(parent, child, key);
      if key in result {
        var merged := MergeValues(result[key], child.fields[key]);
        result := result[key := merged];
      } else {
        result := result[key := child.fields[key]];
      }
      todo := todo - {key};
    }
    MergedKeys(parent, child, result);
    r := Obj(result);
  }

  /** The lookup table after the child's first `n` entries: those whose names the parent has. */
  function Table(parent: seq<Value>, child: seq<Value>, n: nat): map<string, Value>
    requires n <= |child|
  {
    if n == 0 then map[]
    else
      var before, name := Table(parent, child, n - 1), NameOf(child[n - 1]);
      if HasName(parent, name) then before[name := child[n - 1]] else before
  }

  lemma {:induction false} TableFinds(parent: seq<Value>, child: seq<Value>, n: nat, name: string)
    requires n <= |child|
    ensures name in Table(parent, child, n) <==> HasName(parent, name) && Find(child, name, n) > 0
    ensures name in Table(parent, child, n) ==> Table(parent, child, n)[name] == child[Find(child, name, n) - 1]
  {
    hide NameOf, HasName;
    if n > 0 {
      TableFinds(parent, child, n - 1, name);
    }
  }

  /** The child's entries in a table by name, and those whose names the parent lacks. */
  method Split(parent: seq<Value>, child: seq<Value>) returns (byName: map<string, Value>, added: seq<Value>)
    ensures added == NewEntries(parent, child) && byName == Table(parent, child, |child|)
  {
    hide HasName;
    added, byName := [], map[];
    var j := 0;
    while j < |child|
      invariant 0 <= j <= |child|
      invariant added == NewAmong(parent, child, j) && byName == Table(parent, child, j)
    {
      var name := NameOf(child[j]);
      if HasName(parent, name) {
        byName := byName[name := child[j]];
      } else {
        added := added + [child[j]];
      }
      j := j + 1;
    }
  }

  /** `_named_merge`: the parent's entries in place, then the new ones. */
  method NamedMerge(parent: Value, child: Value) returns (r: Value)
    requires parent.Lst? && child.Lst? && IsNamedList(parent.items) && Mergeable(parent, child)
    ensures r == Merged(parent, child)
    decreases child, 0
  {
    hide HasName, Find;
    var byName, added := Split(parent.items, child.items);
    var result := [];
    var i := 0;
    while i < |parent.items|
      invariant 0 <= i <= |parent.items|
      invariant result == MergedEntries(parent.items, child, i)
    {
      var entry, name := parent.items[i], NameOf(parent.items[i]);
      NamesItself(parent.items, i);
      TableFinds(parent.items, child.items, |child.items|, name);
      if name in byName {
        Found(child.items, name);
        var merged := MergeValues(entry, byName[name]);
        result := result + [merged];
      } else {
        NotFound(child.items, name);
        result := result + [entry];
      }
      i := i + 1;
    }
    r := Lst(result + added);
  }

  lemma NamesItself(items: seq<Value>, i: nat)
    requires i < |items|
    ensures HasName(items, NameOf(items[i]))
  {
  }

  lemma Found(items: seq<Value>, name: string)
    requires Find(items, name, |items|) > 0
    ensures HasName(items, name)
  {
  }

  lemma NotFound(items: seq<Value>, name: string)
    requires !(Find(items, name, |items|) > 0)
    ensures !HasName(items, name)
  {
  }

  // ---- values of one shape ----

  /** Names identify the entries. */
  predicate Unique(items: seq<Value>) {
    AllKeyed(items) && forall i, j :: 0 <= i < j < |items| ==> NameOf(items[i]) != NameOf(items[j])
  }

  predicate UniqueList(v: Value) {
    v.Lst? && Unique(v.items)
  }

  /** Neither an object nor a named list: merging replaces it. */
  predicate Flat(v: Value) {
    !v.Obj? && (v.Lst? ==> !IsNamedList(v.items))
  }

  /** Two values share a shape: objects whose common keys do, uniquely named lists whose common entries do,
      or two values that replace each other. */
  predicate SameShape(a: Value, b: Value)
    decreases b
  {
    if a.Obj? && b.Obj? then forall k :: k in a.fields && k in b.fields ==> SameShape(a.fields[k], b.fields[k])
    else if UniqueList(a) && UniqueList(b) then
      forall i, j :: 0 <= i < |a.items| && 0 <= j < |b.items| && NameOf(a.items[i]) == NameOf(b.items[j])
                     ==> SameShape(a.items[i], b.items[j])
    else Flat(a) && Flat(b)
  }

  lemma {:induction false} SameShapeMerges(a: Value, b: Value)
    requires SameShape(a, b)
    ensures Mergeable(a, b)
    decreases b
  {
    if a.Obj? && b.Obj? {
      forall k | k in a.fields && k in b.fields
        ensures Mergeable(a.fields[k], b.fields[k])
      {
        SameShapeMerges(a.fields[k], b.fields[k]);
      }
    } else if a.Lst? && b.Lst? && IsNamedList(a.items) {
      forall i, j | 0 <= i < |a.items| && 0 <= j < |b.items| && NameOf(a.items[i]) == NameOf(b.items[j])
        ensures Mergeable(a.items[i], b.items[j])
      {
        SameShapeMerges(a.items[i], b.items[j]);
      }
    }
  }
}
