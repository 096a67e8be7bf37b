/** The algebra of merging values of one shape: identities, closure and associativity, list order included. */
module ConfigLaws {
  import opened ConfigMerge
  import opened Sequences

  // ---- lists by name ----

  lemma {:induction false} NothingToSkip(child: seq<Value>, n: nat)
    requires n <= |child|
    ensures NewAmong([], child, n) == child[..n]
    decreases n
  {
    if n > 0 {
      NothingToSkip(child, n - 1);
    }
  }

  /** The list of a merge of uniquely named lists, an empty parent included. */
  lemma ListMerge(a: Value, b: Value)
    requires UniqueList(a) && b.Lst?
    ensures Merged(a, b) == Lst(MergedEntries(a.items, b, |a.items|) + NewEntries(a.items, b.items))
  {
    if a.items == [] {
      NothingToSkip(b.items, |b.items|);
      assert b.items[..|b.items|] == b.items;
      assert MergedEntries(a.items, b, 0) + NewEntries(a.items, b.items) == b.items;
    }
  }

  lemma EntryKeepsName(e: Value, b: Value)
    requires Keyed(e) && UniqueList(b)
    ensures Keyed(MergedEntry(e, b)) && NameOf(MergedEntry(e, b)) == NameOf(e)
  {
    if HasName(b.items, NameOf(e)) {
      MergedField(e, b.items[Find(b.items, NameOf(e), |b.items|) - 1], NAME);
    }
  }

  lemma InIfNew(a: seq<Value>, entry: Value, v: Value)
    ensures v in IfNew(a, entry) <==> v == entry && !HasName(a, NameOf(v))
  {
    hide HasName;
  }

  lemma {:induction false} NewEntriesExactly(a: seq<Value>, b: seq<Value>, n: nat, v: Value)
    requires n <= |b|
    ensures v in NewAmong(a, b, n) <==> !HasName(a, NameOf(v)) && exists j :: 0 <= j < n && b[j] == v
    decreases n
  {
    if n > 0 {
      NewEntriesExactly(a, b, n - 1, v);
      InIfNew(a, b[n - 1], v);
      hide HasName, NameOf, IfNew;
    }
  }

  lemma UniqueGrows(a: seq<Value>, before: seq<Value>, v: Value)
    requires Unique(before) && Keyed(v) && forall i :: 0 <= i < |before| ==> NameOf(before[i]) != NameOf(v)
    ensures Unique(before + IfNew(a, v))
  {
    hide Keyed, NameOf, HasName;
  }

  lemma OtherNames(a: seq<Value>, b: seq<Value>, n: nat)
    requires Unique(b) && n < |b|
    ensures forall i :: 0 <= i < |NewAmong(a, b, n)| ==> NameOf(NewAmong(a, b, n)[i]) != NameOf(b[n])
  {
    hide HasName, Keyed, NameOf, NewAmong;
    forall i | 0 <= i < |NewAmong(a, b, n)|
      ensures NameOf(NewAmong(a, b, n)[i]) != NameOf(b[n])
    {
      NewEntriesExactly(a, b, n, NewAmong(a, b, n)[i]);
    }
  }

  lemma {:induction false} NewEntriesUnique(a: seq<Value>, b: seq<Value>, n: nat)
    requires Unique(b) && n <= |b|
    ensures Unique(NewAmong(a, b, n))
    decreases n
  {
    if n > 0 {
      NewEntriesUnique(a, b, n - 1);
      OtherNames(a, b, n - 1);
      assert Keyed(b[n - 1]);
      hide Unique, HasName, Keyed, NameOf, IfNew;
      UniqueGrows(a, NewAmong(a, b, n - 1), b[n - 1]);
    }
  }

  /** Names stay unique; the parent's come first, then the child's new ones. */
  lemma MergeKeepsUnique(a: Value, b: Value)
    requires UniqueList(a) && UniqueList(b)
    ensures UniqueList(Merged(a, b))
    ensures |Merged(a, b).items| >= |a.items|
    ensures forall i :: 0 <= i < |a.items| ==> NameOf(Merged(a, b).items[i]) == NameOf(a.items[i])
    ensures forall i :: |a.items| <= i < |Merged(a, b).items| ==>
      Merged(a, b).items[i] in b.items && !HasName(a.items, NameOf(Merged(a, b).items[i]))
  {
    ListMerge(a, b);
    var first, rest := MergedEntries(a.items, b, |a.items|), NewEntries(a.items, b.items);
    NewEntriesUnique(a.items, b.items, |b.items|);
    MergedEntriesNamed(a, b);
    AllNew(a.items, b.items);
    hide Merged, MergedEntry, HasName, Find, Keyed, NewEntries, MergedEntries;
    UniqueTogether(a.items, first, rest);
  }

  lemma AllNew(a: seq<Value>, b: seq<Value>)
    ensures var rest := NewEntries(a, b);
      forall i :: 0 <= i < |rest| ==> rest[i] in b && !HasName(a, NameOf(rest[i]))
  {
    hide HasName, NewAmong;
    var rest := NewEntries(a, b);
    forall i | 0 <= i < |rest|
      ensures rest[i] in b && !HasName(a, NameOf(rest[i]))
    {
      NewEntriesExactly(a, b, |b|, rest[i]);
    }
  }

  lemma UniqueTogether(a: seq<Value>, first: seq<Value>, rest: seq<Value>)
    requires Unique(a) && |first| == |a| && Unique(rest)
    requires forall i :: 0 <= i < |a| ==> Keyed(first[i]) && NameOf(first[i]) == NameOf(a[i])
    requires forall i :: 0 <= i < |rest| ==> !HasName(a, NameOf(rest[i]))
    ensures Unique(first + rest)
  {
    hide HasName, Keyed;
    forall i, j | 0 <= i < |first| && 0 <= j < |rest|
      ensures NameOf(first[i]) != NameOf(rest[j])
    {
      NamesItself(a, i);
    }
  }

  lemma MergedEntriesNamed(b: Value, c: Value)
    requires UniqueList(b) && UniqueList(c)
    ensures var merged := MergedEntries(b.items, c, |b.items|);
      forall i :: 0 <= i < |b.items| ==>
        && merged[i] == MergedEntry(b.items[i], c)
        && Keyed(merged[i]) && NameOf(merged[i]) == NameOf(b.items[i])
  {
    hide MergedEntry, Keyed, NameOf;
    forall i | 0 <= i < |b.items|
      ensures Keyed(MergedEntry(b.items[i], c)) && NameOf(MergedEntry(b.items[i], c)) == NameOf(b.items[i])
    {
      EntryKeepsName(b.items[i], c);
    }
  }

  lemma FindUnique(items: seq<Value>, i: nat)
    requires Unique(items) && i < |items|
    ensures Find(items, NameOf(items[i]), |items|) == i + 1
  {
  }

  // ---- looking up a name in a merge ----

  /** An entry of `b` keeps its position in the merge with `c`. */
  lemma FoundFirst(b: Value, c: Value, j: nat)
    requires UniqueList(b) && UniqueList(c) && j < |b.items|
    ensures var bc := Merged(b, c).items;
      Find(bc, NameOf(b.items[j]), |bc|) == j + 1 && bc[j] == MergedEntry(b.items[j], c)
  {
    ListMerge(b, c);
    MergeKeepsUnique(b, c);
    hide Merged, MergedEntry, Find, Unique;
    FindUnique(Merged(b, c).items, j);
  }

  /** An entry only `c` has is found in the merge as it is. */
  lemma FoundLater(b: Value, c: Value, k: nat)
    requires UniqueList(b) && UniqueList(c) && k < |c.items| && !HasName(b.items, NameOf(c.items[k]))
    ensures var bc := Merged(b, c).items;
      var l := Find(bc, NameOf(c.items[k]), |bc|);
      l > 0 && bc[l - 1] == c.items[k]
  {
    var v := c.items[k];
    MergeKeepsUnique(b, c);
    assert v in NewEntries(b.items, c.items) by {
      NewEntriesExactly(b.items, c.items, |c.items|, v);
    }
    assert v in Merged(b, c).items by {
      ListMerge(b, c);
    }
    hide Merged, Find, HasName;
    FoundByMember(Merged(b, c).items, v);
  }

  lemma FoundByMember(items: seq<Value>, v: Value)
    requires Unique(items) && v in items
    ensures var l := Find(items, NameOf(v), |items|);
      l > 0 && items[l - 1] == v
  {
    var i :| 0 <= i < |items| && items[i] == v;
    FindUnique(items, i);
  }

  lemma FoundNowhere(b: Value, c: Value, name: string)
    requires UniqueList(b) && UniqueList(c) && !HasName(b.items, name) && !HasName(c.items, name)
    ensures !HasName(Merged(b, c).items, name)
  {
    MergeKeepsUnique(b, c);
    hide Merged, Unique, Keyed;
    var bc := Merged(b, c).items;
    forall i | 0 <= i < |bc|
      ensures NameOf(bc[i]) != name
    {
    }
  }

  lemma MergedNames(a: Value, b: Value)
    requires UniqueList(a) && UniqueList(b)
    ensures forall n :: HasName(Merged(a, b).items, n) <==> HasName(a.items, n) || HasName(b.items, n)
  {
    hide Merged, Unique;
    MergeKeepsUnique(a, b);
    forall n
      ensures HasName(Merged(a, b).items, n) <==> HasName(a.items, n) || HasName(b.items, n)
    {
      var j, k := Find(a.items, n, |a.items|), Find(b.items, n, |b.items|);
      if j > 0 {
        FoundFirst(a, b, j - 1);
      } else if k > 0 {
        FoundLater(a, b, k - 1);
      } else {
        FoundNowhere(a, b, n);
      }
    }
  }

  // ---- merging keeps the shape ----

  predicate Alike(a: Value, b: Value, c: Value) {
    SameShape(a, b) && SameShape(a, c) && SameShape(b, c)
  }

  /** An entry shares the shape of the entries of its name. */
  predicate EntryShape(e: Value, b: Value) {
    && Keyed(e) && UniqueList(b)
    && forall j :: 0 <= j < |b.items| && NameOf(e) == NameOf(b.items[j]) ==> SameShape(e, b.items[j])
  }

  lemma EntriesShape(a: Value, b: Value, i: nat)
    requires UniqueList(a) && UniqueList(b) && SameShape(a, b) && i < |a.items|
    ensures EntryShape(a.items[i], b)
  {
  }

  lemma ShapeByEntries(a: Value, b: Value)
    requires UniqueList(a) && UniqueList(b)
    requires forall i :: 0 <= i < |a.items| ==> EntryShape(a.items[i], b)
    ensures SameShape(a, b)
  {
    assert forall i :: 0 <= i < |a.items| ==> EntryShape(a.items[i], b);
  }

  /** A merged entry is the entry itself, or its merge with the one entry of its name. */
  lemma EntryCases(e: Value, b: Value) returns (k: nat)
    requires b.Lst?
    ensures k == Find(b.items, NameOf(e), |b.items|) && k <= |b.items|
    ensures k == 0 ==> MergedEntry(e, b) == e && !HasName(b.items, NameOf(e))
    ensures k > 0 ==> NameOf(b.items[k - 1]) == NameOf(e) && MergedEntry(e, b) == Merged(e, b.items[k - 1])
  {
    k := Find(b.items, NameOf(e), |b.items|);
  }

  lemma {:induction false} MergeKeepsShape(a: Value, b: Value, c: Value)
    requires Alike(a, b, c)
    ensures SameShape(Merged(a, b), c) && SameShape(a, Merged(b, c))
    decreases a, 3
  {
    if a.Obj? {
      ObjectsKeepShape(a, b, c);
    } else if UniqueList(a) && UniqueList(b) && UniqueList(c) {
      ListsKeepShape(a, b, c);
    }
  }

  lemma {:induction false} ObjectsKeepShape(a: Value, b: Value, c: Value)
    requires a.Obj? && Alike(a, b, c)
    ensures SameShape(Merged(a, b), c) && SameShape(a, Merged(b, c))
    decreases a, 0
  {
    var ab, bc := Merged(a, b), Merged(b, c);
    forall k
      ensures k in ab.fields && k in c.fields ==> SameShape(ab.fields[k], c.fields[k])
      ensures k in a.fields && k in bc.fields ==> SameShape(a.fields[k], bc.fields[k])
    {
      MergedField(a, b, k);
      MergedField(b, c, k);
      if k in a.fields && k in b.fields && k in c.fields {
        MergeKeepsShape(a.fields[k], b.fields[k], c.fields[k]);
      }
    }
  }

  lemma {:induction false} ListsKeepShape(a: Value, b: Value, c: Value)
    requires UniqueList(a) && UniqueList(b) && UniqueList(c) && Alike(a, b, c)
    ensures SameShape(Merged(a, b), c) && SameShape(a, Merged(b, c))
    decreases a, 2
  {
    hide Merged, SameShape, Unique, HasName, Find, EntryShape;
    MergeKeepsUnique(a, b);
    MergeKeepsUnique(b, c);
    forall i | 0 <= i < |Merged(a, b).items|
      ensures EntryShape(Merged(a, b).items[i], c)
    {
      MergedEntryShape(a, b, c, i);
    }
    ShapeByEntries(Merged(a, b), c);
    forall i | 0 <= i < |a.items|
      ensures EntryShape(a.items[i], Merged(b, c))
    {
      EntriesShape(a, b, i);
      EntriesShape(a, c, i);
      RightEntryShape(a.items[i], b, c);
    }
    ShapeByEntries(a, Merged(b, c));
  }

  lemma {:induction false} MergedEntryShape(a: Value, b: Value, c: Value, i: nat)
    requires UniqueList(a) && UniqueList(b) && UniqueList(c) && Alike(a, b, c)
    requires UniqueList(Merged(a, b)) && i < |Merged(a, b).items|
    ensures EntryShape(Merged(a, b).items[i], c)
    decreases a, 1
  {
    MergeKeepsUnique(a, b);
    ListMerge(a, b);
    hide Merged, SameShape, Unique, HasName, Find, EntryShape;
    if i < |a.items| {
      assert Merged(a, b).items[i] == MergedEntry(a.items[i], b);
      EntriesShape(a, b, i);
      EntriesShape(a, c, i);
      LeftEntryShape(a.items[i], b, c);
    } else {
      var k :| 0 <= k < |b.items| && b.items[k] == Merged(a, b).items[i];
      EntriesShape(b, c, k);
    }
  }

  lemma {:induction false} LeftEntryShape(e: Value, b: Value, c: Value)
    requires EntryShape(e, b) && EntryShape(e, c) && SameShape(b, c)
    ensures EntryShape(MergedEntry(e, b), c)
    decreases e, 4
  {
    EntryKeepsName(e, b);
    hide Merged;
    var m := MergedEntry(e, b);
    var k := EntryCases(e, b);
    if k > 0 {
      forall j | 0 <= j < |c.items| && NameOf(m) == NameOf(c.items[j])
        ensures SameShape(m, c.items[j])
      {
        MergeKeepsShape(e, b.items[k - 1], c.items[j]);
      }
    }
  }

  lemma {:induction false} RightEntryShape(e: Value, b: Value, c: Value)
    requires EntryShape(e, b) && EntryShape(e, c) && SameShape(b, c)
    ensures EntryShape(e, Merged(b, c))
    decreases e, 5
  {
    hide SameShape, Merged;
    MergeKeepsUnique(b, c);
    var bc := Merged(b, c).items;
    forall j | 0 <= j < |bc| && NameOf(e) == NameOf(bc[j])
      ensures SameShape(e, bc[j])
    {
      if j < |b.items| {
        PlacedShape(e, b, c, j);
      } else {
        hide Unique, Keyed, NameOf;
        var k :| 0 <= k < |c.items| && c.items[k] == bc[j];
      }
    }
  }

  lemma {:induction false} PlacedShape(e: Value, b: Value, c: Value, j: nat)
    requires EntryShape(e, b) && EntryShape(e, c) && SameShape(b, c)
    requires j < |b.items| && NameOf(e) == NameOf(b.items[j])
    ensures Merged(b, c).Lst? && j < |Merged(b, c).items| && SameShape(e, Merged(b, c).items[j])
    decreases e, 4
  {
    ListMerge(b, c);
    assert Merged(b, c).items[j] == MergedEntry(b.items[j], c);
    hide Merged, MergedEntry, Unique;
    var k := EntryCases(b.items[j], c);
    if k > 0 {
      EntriesAlike(e, b, c, j, k - 1);
      MergeKeepsShape(e, b.items[j], c.items[k - 1]);
    }
  }

  lemma EntriesAlike(e: Value, b: Value, c: Value, j: nat, k: nat)
    requires EntryShape(e, b) && EntryShape(e, c) && SameShape(b, c) && j < |b.items| && k < |c.items|
    requires NameOf(b.items[j]) == NameOf(e) == NameOf(c.items[k])
    ensures Alike(e, b.items[j], c.items[k])
  {
  }

  // ---- associativity ----

  /** Merging is associative on values of one shape, the order of lists included. */
  lemma {:induction false} MergeAssociative(a: Value, b: Value, c: Value)
    requires Alike(a, b, c)
    ensures Merged(Merged(a, b), c) == Merged(a, Merged(b, c))
    decreases a, 3
  {
    if a.Obj? {
      ObjectsAssociative(a, b, c);
    } else if UniqueList(a) && UniqueList(b) && UniqueList(c) {
      ListsAssociative(a, b, c);
    }
  }

  lemma {:induction false} ObjectsAssociative(a: Value, b: Value, c: Value)
    requires a.Obj? && b.Obj? && c.Obj? && Alike(a, b, c)
    ensures Merged(Merged(a, b), c) == Merged(a, Merged(b, c))
    decreases a, 0
  {
    hide Merged;
    var ab, bc := Merged(a, b), Merged(b, c);
    MergedField(a, b, NAME);
    MergedField(b, c, NAME);
    var left, right := Merged(ab, c), Merged(a, bc);
    MergedField(ab, c, NAME);
    MergedField(a, bc, NAME);
    forall k
      ensures k in left.fields <==> k in right.fields
      ensures k in left.fields ==> left.fields[k] == right.fields[k]
    {
      MergedField(a, b, k);
      MergedField(b, c, k);
      MergedField(ab, c, k);
      MergedField(a, bc, k);
      if k in a.fields && k in b.fields && k in c.fields {
        MergeAssociative(a.fields[k], b.fields[k], c.fields[k]);
      }
    }
    assert left.fields.Keys == right.fields.Keys;
    assert left.fields == right.fields;
  }

  /** An entry and a list that has its name at `l`. */
  lemma EntryAt(e: Value, m: Value, l: nat)
    requires m.Lst? && Find(m.items, NameOf(e), |m.items|) == l
    ensures l <= |m.items| && MergedEntry(e, m) == if l > 0 then Merged(e, m.items[l - 1]) else e
  {
  }

  lemma EntryInFirst(e: Value, b: Value, c: Value, j: nat)
    requires UniqueList(b) && UniqueList(c) && 0 < j == Find(b.items, NameOf(e), |b.items|)
    ensures MergedEntry(e, Merged(b, c)) == Merged(e, MergedEntry(b.items[j - 1], c))
  {
    MergeKeepsUnique(b, c);
    FoundFirst(b, c, j - 1);
    hide Merged, MergedEntry, Unique;
    EntryAt(e, Merged(b, c), j);
  }

  lemma EntryInLater(e: Value, b: Value, c: Value, k: nat)
    requires UniqueList(b) && UniqueList(c) && 0 < k == Find(c.items, NameOf(e), |c.items|)
    requires !HasName(b.items, NameOf(e))
    ensures MergedEntry(e, Merged(b, c)) == MergedEntry(e, c)
  {
    MergeKeepsUnique(b, c);
    FoundLater(b, c, k - 1);
    hide Merged, MergedEntry, Unique;
    EntryAt(e, c, k);
    EntryAt(e, Merged(b, c), Find(Merged(b, c).items, NameOf(e), |Merged(b, c).items|));
  }

  lemma EntryNowhere(e: Value, b: Value, c: Value)
    requires UniqueList(b) && UniqueList(c) && !HasName(b.items, NameOf(e)) && !HasName(c.items, NameOf(e))
    ensures MergedEntry(e, Merged(b, c)) == MergedEntry(e, c)
  {
    FoundNowhere(b, c, NameOf(e));
    hide Merged;
  }

  /** What merging an entry with the merge of `b` and `c` comes to. */
  lemma EntryInMerge(e: Value, b: Value, c: Value, j: nat, k: nat)
    requires UniqueList(b) && UniqueList(c)
    requires j == Find(b.items, NameOf(e), |b.items|) && k == Find(c.items, NameOf(e), |c.items|)
    ensures MergedEntry(e, Merged(b, c)) ==
      if j > 0 then Merged(e, MergedEntry(b.items[j - 1], c)) else MergedEntry(e, c)
  {
    hide Merged, MergedEntry, Unique, HasName;
    if j > 0 {
      EntryInFirst(e, b, c, j);
    } else {
      NotFound(b.items, NameOf(e));
      if k > 0 {
        EntryInLater(e, b, c, k);
      } else {
        NotFound(c.items, NameOf(e));
        EntryNowhere(e, b, c);
      }
    }
  }

  /** One entry merged with `b` and then `c` is that entry merged with their merge. */
  lemma {:induction false} EntryAssociative(e: Value, b: Value, c: Value)
    requires EntryShape(e, b) && EntryShape(e, c) && SameShape(b, c)
    ensures MergedEntry(MergedEntry(e, b), c) == MergedEntry(e, Merged(b, c))
    decreases e, 4
  {
    EntryKeepsName(e, b);
    var j := EntryCases(e, b);
    var k := EntryCases(MergedEntry(e, b), c);
    EntryInMerge(e, b, c, j, k);
    if j > 0 {
      var l := EntryCases(b.items[j - 1], c);
      if k > 0 {
        EntriesAlike(e, b, c, j - 1, k - 1);
        hide Merged, MergedEntry, UniqueList, EntryShape, SameShape, Find;
        MergeAssociative(e, b.items[j - 1], c.items[k - 1]);
      }
    }
  }

  lemma {:induction false} NewEntriesPrefix(a: seq<Value>, x: seq<Value>, y: seq<Value>, n: nat)
    requires n <= |x| && n <= |y| && forall i :: 0 <= i < n ==> x[i] == y[i]
    ensures NewAmong(a, x, n) == NewAmong(a, y, n)
    decreases n
  {
    if n > 0 {
      NewEntriesPrefix(a, x, y, n - 1);
    }
  }

  lemma NewAmongStep(a: seq<Value>, b: seq<Value>, n: nat)
    requires n < |b|
    ensures NewAmong(a, b, n + 1) == NewAmong(a, b, n) + IfNew(a, b[n])
  {
    hide IfNew;
  }

  lemma {:induction false} NewEntriesAppend(a: seq<Value>, x: seq<Value>, y: seq<Value>, all: seq<Value>, n: nat)
    requires n <= |y| && |all| == |x| + |y|
    requires forall i :: 0 <= i < |x| ==> all[i] == x[i]
    requires forall i :: 0 <= i < |y| ==> all[|x| + i] == y[i]
    ensures NewAmong(a, all, |x| + n) == NewAmong(a, x, |x|) + NewAmong(a, y, n)
    decreases n
  {
    if n == 0 {
      NewEntriesPrefix(a, all, x, |x|);
    } else {
      hide IfNew, NewAmong;
      NewEntriesAppend(a, x, y, all, n - 1);
      NewAmongStep(a, all, |x| + n - 1);
      NewAmongStep(a, y, n - 1);
      assert all[|x| + (n - 1)] == y[n - 1];
      Regroup(NewAmong(a, x, |x|), NewAmong(a, y, n - 1), IfNew(a, y[n - 1]));
    }
  }

  lemma NewEntriesConcat(a: seq<Value>, x: seq<Value>, y: seq<Value>)
    ensures NewEntries(a, x + y) == NewEntries(a, x) + NewEntries(a, y)
  {
    hide NewAmong;
    NewEntriesAppend(a, x, y, x + y, |y|);
  }

  lemma MergedEntriesAppend(x: seq<Value>, y: seq<Value>, c: Value)
    ensures MergedEntries(x + y, c, |x + y|) == MergedEntries(x, c, |x|) + MergedEntries(y, c, |y|)
  {
    hide MergedEntry;
  }

  lemma IfNewMerged(a: seq<Value>, v: Value, c: Value, merged: Value)
    requires merged == MergedEntry(v, c) && NameOf(merged) == NameOf(v)
    ensures MergedEntries(IfNew(a, v), c, |IfNew(a, v)|) == IfNew(a, merged)
  {
    hide MergedEntry, HasName;
  }

  lemma OneMoreMerged(a: seq<Value>, before: seq<Value>, v: Value, c: Value, merged: seq<Value>, m: Value)
    requires MergedEntries(before, c, |before|) == merged
    requires m == MergedEntry(v, c) && NameOf(m) == NameOf(v)
    ensures MergedEntries(before + IfNew(a, v), c, |before + IfNew(a, v)|) == merged + IfNew(a, m)
  {
    hide MergedEntry, IfNew, MergedEntries;
    IfNewMerged(a, v, c, m);
    MergedEntriesAppend(before, IfNew(a, v), c);
  }

  /** Leaving out names and then merging entries, or the other way round. */
  lemma {:induction false} NewEntriesOfMerged(a: seq<Value>, bs: seq<Value>, c: Value, merged: seq<Value>, n: nat)
    requires n <= |merged| == |bs|
    requires forall i :: 0 <= i < |bs| ==> merged[i] == MergedEntry(bs[i], c) && NameOf(merged[i]) == NameOf(bs[i])
    ensures MergedEntries(NewAmong(a, bs, n), c, |NewAmong(a, bs, n)|) == NewAmong(a, merged, n)
    decreases n
  {
    if n > 0 {
      hide MergedEntry, IfNew, NameOf, MergedEntries;
      NewEntriesOfMerged(a, bs, c, merged, n - 1);
      OneMoreMerged(a, NewAmong(a, bs, n - 1), bs[n - 1], c, NewAmong(a, merged, n - 1), merged[n - 1]);
    }
  }

  /** Leaving out the names of a merge is leaving out those of one side, then of the other. */
  lemma {:induction false} NewEntriesTwice(a: seq<Value>, b: seq<Value>, ab: seq<Value>, c: seq<Value>, n: nat)
    requires n <= |c| && forall name :: HasName(ab, name) <==> HasName(a, name) || HasName(b, name)
    ensures NewAmong(ab, c, n) == NewEntries(a, NewAmong(b, c, n))
    decreases n
  {
    hide HasName, IfNew, NewEntries, NameOf;
    if n > 0 {
      NewEntriesTwice(a, b, ab, c, n - 1);
      OneMoreTwice(a, b, ab, NewAmong(b, c, n - 1), NewAmong(ab, c, n - 1), c[n - 1]);
    } else {
      NoneNew(a);
    }
  }

  lemma NoneNew(a: seq<Value>)
    ensures NewEntries(a, []) == []
  {
  }

  lemma OneMoreTwice(a: seq<Value>, b: seq<Value>, ab: seq<Value>, before: seq<Value>, left: seq<Value>, v: Value)
    requires left == NewEntries(a, before)
    requires HasName(ab, NameOf(v)) <==> HasName(a, NameOf(v)) || HasName(b, NameOf(v))
    ensures left + IfNew(ab, v) == NewEntries(a, before + IfNew(b, v))
  {
    hide HasName, IfNew, NewEntries, NameOf;
    OneNewEntry(a, b, ab, v);
    NewEntriesConcat(a, before, IfNew(b, v));
  }

  lemma OneNewEntry(a: seq<Value>, b: seq<Value>, ab: seq<Value>, v: Value)
    requires HasName(ab, NameOf(v)) <==> HasName(a, NameOf(v)) || HasName(b, NameOf(v))
    ensures NewEntries(a, IfNew(b, v)) == IfNew(ab, v)
  {
    hide HasName;
    assert NewAmong(a, [v], 0) == [];
  }

  /** The entries of `a`, merged with `b` and then `c`. */
  lemma {:induction false} PlacesAssociative(a: Value, b: Value, c: Value)
    requires UniqueList(a) && UniqueList(b) && UniqueList(c) && Alike(a, b, c)
    ensures MergedEntries(MergedEntries(a.items, b, |a.items|), c, |a.items|) ==
      MergedEntries(a.items, Merged(b, c), |a.items|)
    decreases a, 1
  {
    hide Merged, SameShape, Unique, MergedEntry;
    var first := MergedEntries(a.items, b, |a.items|);
    var left, right := MergedEntries(first, c, |first|), MergedEntries(a.items, Merged(b, c), |a.items|);
    forall i | 0 <= i < |a.items|
      ensures left[i] == right[i]
    {
      EntriesShape(a, b, i);
      EntriesShape(a, c, i);
      EntryAssociative(a.items[i], b, c);
    }
  }

  /** The new entries of the left-hand merge are those of the right-hand one. */
  lemma RestAssociative(a: Value, b: Value, c: Value)
    requires UniqueList(a) && UniqueList(b) && UniqueList(c)
    ensures var rest := NewEntries(a.items, b.items);
      MergedEntries(rest, c, |rest|) + NewEntries(Merged(a, b).items, c.items)
        == NewEntries(a.items, Merged(b, c).items)
  {
    ListMerge(b, c);
    MergedNames(a, b);
    MergedEntriesNamed(b, c);
    ListMerge(a, b);
    var merged, more := MergedEntries(b.items, c, |b.items|), NewEntries(b.items, c.items);
    assert Merged(b, c) == Lst(merged + more);
    hide Merged, MergedEntry, HasName, Unique, NewAmong, NameOf, MergedEntries;
    NewEntriesOfMerged(a.items, b.items, c, merged, |b.items|);
    NewEntriesTwice(a.items, b.items, Merged(a, b).items, c.items, |c.items|);
    NewEntriesConcat(a.items, merged, more);
  }

  lemma {:induction false} ListsAssociative(a: Value, b: Value, c: Value)
    requires UniqueList(a) && UniqueList(b) && UniqueList(c) && Alike(a, b, c)
    ensures Merged(Merged(a, b), c) == Merged(a, Merged(b, c))
    decreases a, 2
  {
    var ab, bc := Merged(a, b), Merged(b, c);
    MergeKeepsUnique(a, b);
    MergeKeepsUnique(b, c);
    ListMerge(a, b);
    ListMerge(ab, c);
    ListMerge(a, bc);
    hide Merged, Alike, Unique, NewEntries, HasName;
    RestAssociative(a, b, c);
    PlacesAssociative(a, b, c);
    var first, rest := MergedEntries(a.items, b, |a.items|), NewEntries(a.items, b.items);
    MergedEntriesAppend(first, rest, c);
    Regroup(MergedEntries(first, c, |first|), MergedEntries(rest, c, |rest|), NewEntries(ab.items, c.items));
  }

  // ---- identities, and where associativity ends ----

  /** The empty object is an identity on both sides. */
  lemma EmptyObjectIsIdentity(v: Value)
    requires v.Obj?
    ensures Merged(Obj(map[]), v) == v && Merged(v, Obj(map[])) == v
  {
    MergedKeys(Obj(map[]), v, v.fields);
    MergedKeys(v, Obj(map[]), v.fields);
  }

  lemma {:induction false} NoChildEntries(items: seq<Value>, n: nat)
    requires n <= |items|
    ensures MergedEntries(items, Lst([]), n) == items[..n]
    decreases n
  {
    if n > 0 {
      NoChildEntries(items, n - 1);
    }
  }

  /** The empty list is an identity on the left for every list, on the right exactly for named lists: a plain
      list is replaced by it. */
  lemma EmptyListIsIdentity(v: Value)
    requires v.Lst?
    ensures Merged(Lst([]), v) == v
    ensures Merged(v, Lst([])) == v <==> v.items == [] || IsNamedList(v.items)
  {
    NoChildEntries(v.items, |v.items|);
    assert v.items[..|v.items|] == v.items;
  }

  /** No list that is merged by name. */
  predicate NoNamedList(v: Value) {
    && (v.Lst? ==> !IsNamedList(v.items))
    && (v.Obj? ==> forall k :: k in v.fields ==> NoNamedList(v.fields[k]))
  }

  /** Merged over `a`, `c` keeps nothing of it. */
  predicate Absorbs(a: Value, c: Value)
    decreases c
  {
    a.Obj? && c.Obj? ==> forall k :: k in a.fields ==> k in c.fields && Absorbs(a.fields[k], c.fields[k])
  }

  /** Wherever something that is no object stands between two objects, the third absorbs the first. */
  predicate GroupingFree(a: Value, b: Value, c: Value)
    decreases c
  {
    if !a.Obj? || !c.Obj? then true
    else if !b.Obj? then Absorbs(a, c)
    else forall k :: k in a.fields && k in b.fields && k in c.fields ==>
           GroupingFree(a.fields[k], b.fields[k], c.fields[k])
  }

  lemma {:induction false} AbsorbsExactly(a: Value, c: Value)
    requires NoNamedList(a) && NoNamedList(c)
    ensures Merged(a, c) == c <==> Absorbs(a, c)
    decreases c
  {
    if a.Obj? && c.Obj? {
      var m := Merged(a, c);
      forall k
        ensures m.Obj? && (k in m.fields <==> k in a.fields || k in c.fields)
        ensures k in c.fields ==> (m.fields[k] == c.fields[k] <==> k !in a.fields || Absorbs(a.fields[k], c.fields[k]))
      {
        MergedField(a, c, k);
        if k in a.fields && k in c.fields {
          AbsorbsExactly(a.fields[k], c.fields[k]);
        }
      }
      hide Merged, NoNamedList;
      SameFields(m, c);
    }
  }

  lemma SameFields(m: Value, c: Value)
    requires m.Obj? && c.Obj?
    ensures m == c <==> forall k :: (k in m.fields <==> k in c.fields) && (k in c.fields ==> m.fields[k] == c.fields[k])
  {
    if forall k :: (k in m.fields <==> k in c.fields) && (k in c.fields ==> m.fields[k] == c.fields[k]) {
      assert m.fields == c.fields;
    }
  }

  /** Without lists merged by name, the two groupings agree exactly when they are free in this sense. */
  lemma {:induction false} AssociativeExactly(a: Value, b: Value, c: Value)
    requires NoNamedList(a) && NoNamedList(b) && NoNamedList(c)
    ensures Merged(Merged(a, b), c) == Merged(a, Merged(b, c)) <==> GroupingFree(a, b, c)
    decreases c
  {
    if a.Obj? && b.Obj? && c.Obj? {
      ObjectsGroup(a, b, c);
    } else if a.Obj? && c.Obj? {
      AbsorbsExactly(a, c);
    }
  }

  lemma {:induction false} ObjectsGroup(a: Value, b: Value, c: Value)
    requires NoNamedList(a) && NoNamedList(b) && NoNamedList(c) && a.Obj? && b.Obj? && c.Obj?
    ensures Merged(Merged(a, b), c) == Merged(a, Merged(b, c)) <==> GroupingFree(a, b, c)
    decreases c, 0
  {
    var ab, bc := Merged(a, b), Merged(b, c);
    var left, right := Merged(ab, c), Merged(a, bc);
    forall k
      ensures left.Obj? && right.Obj? && (k in left.fields <==> k in right.fields)
      ensures k in right.fields ==>
        (left.fields[k] == right.fields[k] <==>
         (k in a.fields && k in b.fields && k in c.fields ==> GroupingFree(a.fields[k], b.fields[k], c.fields[k])))
      ensures k in a.fields && k in b.fields && k in c.fields ==> k in right.fields
    {
      MergedField(a, b, k);
      MergedField(b, c, k);
      MergedField(ab, c, k);
      MergedField(a, bc, k);
      if k in a.fields && k in b.fields && k in c.fields {
        AssociativeExactly(a.fields[k], b.fields[k], c.fields[k]);
      }
      hide Merged, NoNamedList, GroupingFree;
    }
    hide Merged, NoNamedList;
    SameFields(left, right);
  }

  /** Values of different shapes: an atom between two objects breaks associativity. */
  lemma AtomBreaksAssociativity(x: Value, y: Value)
    ensures var a, b, c := Obj(map["k" := x]), Atom("b"), Obj(map["l" := y]);
      Merged(Merged(a, b), c) != Merged(a, Merged(b, c))
  {
    var a, c := Obj(map["k" := x]), Obj(map["l" := y]);
    MergedField(a, c, "k");
    assert "k" !in c.fields;
  }

  // ---- what is replaced ----

  /** An entry that is an object with a name. */
  predicate HasAName(item: Value) {
    item.Obj? && "name" in item.fields
  }

  /** Values that are not both objects, and not both lists of which the parent's holds entries that all have a name,
      are not merged: the child replaces the parent, and where the parent is not an empty list this never raises. */
  lemma OthersAreReplaced(parent: Value, child: Value)
    requires !(parent.Obj? && child.Obj?)
    requires parent.Lst? && child.Lst? ==> parent.items == [] || exists item :: item in parent.items && !HasAName(item)
    ensures Merged(parent, child) == child
    ensures !(parent.Lst? && child.Lst? && parent.items == []) ==> Mergeable(parent, child)
    ensures parent == Lst([]) && child.Lst? ==>
      (Mergeable(parent, child) <==>
         || (exists item :: item in child.items && !HasAName(item))
         || forall item :: item in child.items ==> HasAName(item) && item.fields["name"].Atom?)
  {
    if parent.Lst? && child.Lst? {
      NamesOf(parent.items);
      NamesOf(child.items);
    }
    hide IsNamedList, AllKeyed, HasAName;
  }

  lemma NamesOf(items: seq<Value>)
    ensures IsNamedList(items) <==> items != [] && !(exists item :: item in items && !HasAName(item))
    ensures AllKeyed(items) <==> forall item :: item in items ==> HasAName(item) && item.fields["name"].Atom?
  {
    assert forall i :: 0 <= i < |items| ==> items[i] in items;
    assert forall item :: HasAName(item) <==> Named(item);
    assert forall item :: HasAName(item) && item.fields["name"].Atom? <==> Keyed(item);
  }
}
