/** Merging the models found at start-up with the models stored before. */
module ModelMerge {
  import opened Text
  import opened InstanceTable
  import opened InstanceOrder

  type ModelId = string

  /** A model with its fields by the rule they merge by: descriptions, where the found model's own
      text wins, and runtime state, where the stored text wins. A field not present is blank. */
  datatype Model = Model(
    id: ModelId, described: map<string, string>, live: map<string, string>,
    sizeBytes: nat, contextLength: nat, requiresScript: bool, tags: seq<string>,
    defaultArgs: map<string, string>, metadata: map<string, string>, lastReconciledAt: nat)

  predicate Blank(s: string) {
    Trim(s) == ""
  }

  function Field(m: map<string, string>, key: string): string {
    if key in m then m[key] else ""
  }

  /** Key by key, the preferred text unless it is blank. */
  function Preferring(first: map<string, string>, second: map<string, string>): map<string, string> {
    map k | k in first.Keys + second.Keys :: if Blank(Field(first, k)) && k in second then second[k] else Field(first, k)
  }

  function MergeOne(found: Model, stored: Model): Model {
    Model(if Blank(found.id) then stored.id else found.id,
          Preferring(found.described, stored.described),
          Overriding(found.live, stored.live),
          if found.sizeBytes == 0 then stored.sizeBytes else found.sizeBytes,
          if stored.contextLength > 0 then stored.contextLength else found.contextLength,
          found.requiresScript || stored.requiresScript,
          if found.tags == [] then stored.tags else found.tags,
          Preferring(found.defaultArgs, stored.defaultArgs),
          found.metadata + stored.metadata,
          if stored.lastReconciledAt != 0 then stored.lastReconciledAt else found.lastReconciledAt)
  }

  /** Key by key, the overriding text unless it is blank. */
  function Overriding(base: map<string, string>, over: map<string, string>): map<string, string> {
    map k | k in base.Keys + over.Keys :: if !Blank(Field(over, k)) then over[k] else Field(base, k)
  }

  // ---- Lists by id ----

  function Ids(items: seq<Model>): (r: seq<ModelId>)
    ensures |r| == |items| && forall k | 0 <= k < |r| :: r[k] == items[k].id
  {
    if items == [] then [] else [items[0].id] + Ids(items[1..])
  }

  ghost predicate Unique(items: seq<Model>) {
    Distinct(Ids(items))
  }

  function ById(items: seq<Model>): map<ModelId, Model> {
    if items == [] then map[] else ById(items[..|items| - 1])[items[|items| - 1].id := items[|items| - 1]]
  }

  /** Models by id, those of one id merged in the order they come. */
  function FoldById(items: seq<Model>): map<ModelId, Model> {
    if items == [] then map[] else FoldedOnto(FoldById(items[..|items| - 1]), items[|items| - 1])
  }

  function FoldedOnto(m: map<ModelId, Model>, x: Model): map<ModelId, Model> {
    m[x.id := if x.id in m then MergeOne(m[x.id], x) else x]
  }

  /** The models that a later one of the same id stands in front of: the index never leads to
      them. */
  function Shadowed(items: seq<Model>): seq<Model> {
    if items == [] then []
    else (if items[0].id in Ids(items[1..]) then [items[0]] else []) + Shadowed(items[1..])
  }

  /** The union of both, merged where both have a model. */
  function MergedById(found: map<ModelId, Model>, stored: map<ModelId, Model>): map<ModelId, Model> {
    map id | id in found.Keys + stored.Keys ::
      if id !in stored then found[id] else if id !in found then stored[id] else MergeOne(found[id], stored[id])
  }

  /** Ids in order, equal ones next to each other. */
  predicate Ordered(ids: seq<ModelId>) {
    forall k | 0 < k < |ids| :: !Before(ids[k], ids[k - 1])
  }

  /** The found models with the stored ones merged in: stored models of one id are folded, and of
      found models of one id only the last one takes part, the others stay as they are. */
  ghost predicate Merged(found: seq<Model>, stored: seq<Model>, out: seq<Model>) {
    ById(out) == MergedById(ById(found), FoldById(stored)) && Shadowed(out) == Shadowed(found)
  }

  /** What a merge may return. With nothing stored the found list comes back as it is. */
  ghost predicate MergeResult(found: seq<Model>, stored: seq<Model>, out: seq<Model>) {
    if stored == [] then out == found
    else Ordered(Ids(out)) && exists m :: Merged(found, stored, m) && multiset(m) == multiset(out)
  }

  // ---- Laws of one merge ----

  lemma PreferringMeaning(first: map<string, string>, second: map<string, string>, key: string)
    ensures var m := Preferring(first, second);
            && (!Blank(Field(first, key)) ==> Field(m, key) == Field(first, key))
            && (Blank(Field(m, key)) <==> Blank(Field(first, key)) && Blank(Field(second, key)))
  {
    assert Trim("") == "";
  }

  lemma OverridingMeaning(base: map<string, string>, over: map<string, string>, key: string)
    ensures var m := Overriding(base, over);
            && (!Blank(Field(over, key)) ==> Field(m, key) == Field(over, key))
            && (Blank(Field(m, key)) <==> Blank(Field(base, key)) && Blank(Field(over, key)))
  {
    assert Trim("") == "";
  }

  /** Stored runtime state, context lengths and times win wherever they are set, found
      descriptions, sizes and tags win wherever they are set, and a field is blank or zero
      afterwards only if it was on both sides. */
  lemma MergeOneKeeps(found: Model, stored: Model, key: string)
    ensures var m := MergeOne(found, stored);
            && (!Blank(Field(stored.live, key)) ==> Field(m.live, key) == Field(stored.live, key))
            && (!Blank(Field(found.described, key)) ==> Field(m.described, key) == Field(found.described, key))
            && (!Blank(Field(found.defaultArgs, key)) ==> Field(m.defaultArgs, key) == Field(found.defaultArgs, key))
            && (Blank(Field(m.live, key)) <==> Blank(Field(found.live, key)) && Blank(Field(stored.live, key)))
            && (Blank(Field(m.described, key))
                <==> Blank(Field(found.described, key)) && Blank(Field(stored.described, key)))
            && (key in stored.metadata ==> key in m.metadata && m.metadata[key] == stored.metadata[key])
    ensures var m := MergeOne(found, stored);
            && (stored.contextLength != 0 ==> m.contextLength == stored.contextLength)
            && (stored.lastReconciledAt != 0 ==> m.lastReconciledAt == stored.lastReconciledAt)
            && (found.sizeBytes != 0 ==> m.sizeBytes == found.sizeBytes)
            && (found.tags != [] ==> m.tags == found.tags)
            && (m.sizeBytes == 0 <==> found.sizeBytes == 0 && stored.sizeBytes == 0)
            && (m.tags == [] <==> found.tags == [] && stored.tags == [])
            && (m.requiresScript <==> found.requiresScript || stored.requiresScript)
    ensures var m := MergeOne(found, stored);
            && (Blank(Field(stored.live, key)) ==> Field(m.live, key) == Field(found.live, key))
            && (Blank(Field(found.described, key)) && key in stored.described ==>
                  Field(m.described, key) == Field(stored.described, key))
            && (Blank(Field(found.defaultArgs, key)) && key in stored.defaultArgs ==>
                  Field(m.defaultArgs, key) == Field(stored.defaultArgs, key))
            && (key in found.metadata && key !in stored.metadata ==> Field(m.metadata, key) == found.metadata[key])
            && (stored.contextLength == 0 ==> m.contextLength == found.contextLength)
            && (stored.lastReconciledAt == 0 ==> m.lastReconciledAt == found.lastReconciledAt)
            && (found.sizeBytes == 0 ==> m.sizeBytes == stored.sizeBytes)
            && (found.tags == [] ==> m.tags == stored.tags)
            && m.id == if Blank(found.id) then stored.id else found.id
  {
    PreferringMeaning(found.described, stored.described, key);
    PreferringMeaning(found.defaultArgs, stored.defaultArgs, key);
    OverridingMeaning(found.live, stored.live, key);
    PreferringAt(found.described, stored.described, key);
    PreferringAt(found.defaultArgs, stored.defaultArgs, key);
    OverridingAt(found.live, stored.live, key);
  }

  lemma PreferringAt(first: map<string, string>, second: map<string, string>, key: string)
    ensures Field(Preferring(first, second), key)
         == if Blank(Field(first, key)) && key in second then second[key] else Field(first, key)
    ensures key in Preferring(first, second) <==> key in first || key in second
  {
  }

  lemma OverridingAt(base: map<string, string>, over: map<string, string>, key: string)
    ensures Field(Overriding(base, over), key) == if !Blank(Field(over, key)) then Field(over, key) else Field(base, key)
    ensures key in Overriding(base, over) <==> key in base || key in over
  {
    assert Trim("") == "";
  }

  lemma SameFields(m: map<string, string>, n: map<string, string>)
    requires forall k :: (k in m <==> k in n) && Field(m, k) == Field(n, k)
    ensures m == n
  {
    forall k | k in m ensures k in n && m[k] == n[k] {
      assert Field(m, k) == Field(n, k);
    }
  }

  lemma PreferringAssociates(a: map<string, string>, b: map<string, string>, c: map<string, string>)
    ensures Preferring(Preferring(a, b), c) == Preferring(a, Preferring(b, c))
  {
    var ab, bc := Preferring(a, b), Preferring(b, c);
    forall k
      ensures k in Preferring(ab, c) <==> k in Preferring(a, bc)
      ensures Field(Preferring(ab, c), k) == Field(Preferring(a, bc), k)
    {
      PreferringAt(a, b, k);
      PreferringAt(b, c, k);
      PreferringAt(ab, c, k);
      PreferringAt(a, bc, k);
    }
    SameFields(Preferring(ab, c), Preferring(a, bc));
  }

  lemma OverridingAssociates(a: map<string, string>, b: map<string, string>, c: map<string, string>)
    ensures Overriding(Overriding(a, b), c) == Overriding(a, Overriding(b, c))
  {
    var ab, bc := Overriding(a, b), Overriding(b, c);
    forall k
      ensures k in Overriding(ab, c) <==> k in Overriding(a, bc)
      ensures Field(Overriding(ab, c), k) == Field(Overriding(a, bc), k)
    {
      OverridingAt(a, b, k);
      OverridingAt(b, c, k);
      OverridingAt(ab, c, k);
      OverridingAt(a, bc, k);
    }
    SameFields(Overriding(ab, c), Overriding(a, bc));
  }

  /** Merging two stored models in one after the other merges in what they merge to. */
  lemma MergeOneAssociates(a: Model, b: Model, c: Model)
    ensures MergeOne(MergeOne(a, b), c) == MergeOne(a, MergeOne(b, c))
  {
    TextsAssociate(a, b, c);
    ScalarsAssociate(a, b, c);
  }

  lemma TextsAssociate(a: Model, b: Model, c: Model)
    ensures var m, n := MergeOne(MergeOne(a, b), c), MergeOne(a, MergeOne(b, c));
            m.described == n.described && m.defaultArgs == n.defaultArgs && m.live == n.live && m.metadata == n.metadata
  {
    PreferringAssociates(a.described, b.described, c.described);
    PreferringAssociates(a.defaultArgs, b.defaultArgs, c.defaultArgs);
    OverridingAssociates(a.live, b.live, c.live);
    OverlayAssociates(a.metadata, b.metadata, c.metadata);
  }

  lemma OverlayAssociates(a: map<string, string>, b: map<string, string>, c: map<string, string>)
    ensures (a + b) + c == a + (b + c)
  {
  }

  lemma ScalarsAssociate(a: Model, b: Model, c: Model)
    ensures var m, n := MergeOne(MergeOne(a, b), c), MergeOne(a, MergeOne(b, c));
            && m.id == n.id && m.sizeBytes == n.sizeBytes && m.contextLength == n.contextLength
            && m.requiresScript == n.requiresScript && m.tags == n.tags && m.lastReconciledAt == n.lastReconciledAt
  {
  }

  lemma PreferringAgain(first: map<string, string>, second: map<string, string>)
    ensures Preferring(Preferring(first, second), second) == Preferring(first, second)
  {
    assert Trim("") == "";
  }

  lemma OverridingAgain(base: map<string, string>, over: map<string, string>)
    ensures Overriding(Overriding(base, over), over) == Overriding(base, over)
  {
    assert Trim("") == "";
  }

  lemma MergeOneAgain(found: Model, stored: Model)
    ensures MergeOne(MergeOne(found, stored), stored) == MergeOne(found, stored)
  {
    PreferringAgain(found.described, stored.described);
    PreferringAgain(found.defaultArgs, stored.defaultArgs);
    OverridingAgain(found.live, stored.live);
    assert (found.metadata + stored.metadata) + stored.metadata == found.metadata + stored.metadata;
  }

  lemma MergeWithItself(m: Model)
    ensures MergeOne(m, m) == m
  {
    assert Trim("") == "";
    assert Preferring(m.described, m.described) == m.described;
    assert Preferring(m.defaultArgs, m.defaultArgs) == m.defaultArgs;
    assert Overriding(m.live, m.live) == m.live;
    assert m.metadata + m.metadata == m.metadata;
  }

  lemma MergedAgain(found: map<ModelId, Model>, stored: map<ModelId, Model>)
    ensures MergedById(MergedById(found, stored), stored) == MergedById(found, stored)
  {
    forall id | id in stored
      ensures MergeOne(MergedById(found, stored)[id], stored[id]) == MergedById(found, stored)[id]
    {
      if id in found {
        MergeOneAgain(found[id], stored[id]);
      } else {
        MergeWithItself(stored[id]);
      }
    }
  }

  // ---- Laws of the lists ----

  lemma {:induction false} ByIdHolds(items: seq<Model>, k: nat)
    requires Unique(items) && k < |items|
    ensures items[k].id in ById(items) && ById(items)[items[k].id] == items[k]
  {
    var n := |items| - 1;
    assert Ids(items)[k] == items[k].id && Ids(items)[n] == items[n].id;
    if k < n {
      UniqueFront(items);
      ByIdHolds(items[..n], k);
    }
  }

  lemma UniqueFront(items: seq<Model>)
    requires Unique(items) && items != []
    ensures Unique(items[..|items| - 1])
  {
    var front := items[..|items| - 1];
    forall j, k | 0 <= j < k < |front| ensures Ids(front)[j] != Ids(front)[k] {
      assert Ids(items)[j] == items[j].id && Ids(items)[k] == items[k].id;
    }
  }

  lemma IdsAppended(items: seq<Model>, m: Model)
    ensures Ids(items + [m]) == Ids(items) + [m.id]
  {
  }

  lemma {:induction false} ByIdKeys(items: seq<Model>, id: ModelId)
    ensures id in ById(items) <==> id in Ids(items)
    ensures id in ById(items) ==> ById(items)[id].id == id
  {
    if items != [] {
      var front, last := items[..|items| - 1], items[|items| - 1];
      ByIdKeys(front, id);
      assert items == front + [last];
      IdsAppended(front, last);
    }
  }

  lemma {:induction false} FoldByIdKeys(items: seq<Model>, id: ModelId)
    ensures id in FoldById(items) <==> id in Ids(items)
    ensures id in FoldById(items) ==> FoldById(items)[id].id == id
  {
    if items != [] {
      var front, last := items[..|items| - 1], items[|items| - 1];
      FoldByIdKeys(front, id);
      FoldByIdKeys(front, last.id);
      assert items == front + [last];
      IdsAppended(front, last);
    }
  }

  lemma {:induction false} FoldOfUnique(items: seq<Model>)
    requires Unique(items)
    ensures FoldById(items) == ById(items)
  {
    if items != [] {
      var n := |items| - 1;
      UniqueFront(items);
      FoldOfUnique(items[..n]);
      ByIdKeys(items[..n], items[n].id);
      LastIsNew(items);
    }
  }

  lemma LastIsNew(items: seq<Model>)
    requires Unique(items) && items != []
    ensures items[|items| - 1].id !in Ids(items[..|items| - 1])
  {
    var n := |items| - 1;
    forall k | 0 <= k < n ensures Ids(items[..n])[k] != items[n].id {
      assert Ids(items)[k] == items[k].id && Ids(items)[n] == items[n].id;
    }
  }

  lemma DistinctTailIff(ids: seq<ModelId>)
    requires ids != []
    ensures Distinct(ids) <==> Distinct(ids[1..]) && ids[0] !in ids[1..]
  {
    var rest := ids[1..];
    if Distinct(ids) {
      forall j, k | 0 <= j < k < |rest| ensures rest[j] != rest[k] {
        assert rest[j] == ids[j + 1] && rest[k] == ids[k + 1];
      }
    } else {
      var j, k :| 0 <= j < k < |ids| && ids[j] == ids[k];
      assert rest[k - 1] == ids[k];
      if j > 0 {
        assert rest[j - 1] == ids[j];
      }
    }
  }

  /** Nothing is shadowed in a list exactly when its ids are distinct. */
  lemma {:induction false} NothingShadowedIff(items: seq<Model>)
    ensures Shadowed(items) == [] <==> Unique(items)
  {
    if items != [] {
      NothingShadowedIff(items[1..]);
      DistinctTailIff(Ids(items));
      assert Ids(items)[1..] == Ids(items[1..]);
    }
  }

  /** One sorted list for one map. */
  lemma SortedListIsUnique(a: seq<Model>, b: seq<Model>)
    requires ById(a) == ById(b) && Sorted(Ids(a)) && Distinct(Ids(a)) && Sorted(Ids(b)) && Distinct(Ids(b))
    ensures a == b
  {
    forall id ensures id in Ids(a) <==> id in Ids(b) {
      ByIdKeys(a, id);
      ByIdKeys(b, id);
    }
    SortedUnique(Ids(a), Ids(b));
    forall k | 0 <= k < |a| ensures a[k] == b[k] {
      assert a[k].id == Ids(a)[k] == Ids(b)[k] == b[k].id;
      ByIdHolds(a, k);
      ByIdHolds(b, k);
    }
  }

  lemma SameModelsSameIds(a: seq<Model>, b: seq<Model>, id: ModelId)
    requires multiset(a) == multiset(b) && id in Ids(a)
    ensures id in Ids(b)
  {
    var k :| 0 <= k < |Ids(a)| && Ids(a)[k] == id;
    assert a[k] in multiset(a);
    assert a[k] in b;
    var j :| 0 <= j < |b| && b[j] == a[k];
    assert Ids(b)[j] == id;
  }

  /** The ids of a merge are exactly those of both lists, whether or not they repeat. */
  lemma MergedIds(found: seq<Model>, stored: seq<Model>, out: seq<Model>, id: ModelId)
    requires MergeResult(found, stored, out)
    ensures id in Ids(out) <==> id in Ids(found) || id in Ids(stored)
  {
    if stored != [] {
      var m :| Merged(found, stored, m) && multiset(m) == multiset(out);
      ByIdKeys(found, id);
      FoldByIdKeys(stored, id);
      ByIdKeys(m, id);
      if id in Ids(m) { SameModelsSameIds(m, out, id); }
      if id in Ids(out) { SameModelsSameIds(out, m, id); }
    }
  }

  lemma {:induction false} OrderedUniqueIsSorted(ids: seq<ModelId>)
    requires Ordered(ids) && Distinct(ids)
    ensures Sorted(ids)
  {
    forall k | 0 < k < |ids| ensures Before(ids[k - 1], ids[k]) {
      BeforeIsTotal(ids[k - 1], ids[k]);
    }
  }

  lemma SameModelsUnique(a: seq<Model>, b: seq<Model>)
    requires Unique(a) && multiset(a) == multiset(b)
    ensures Unique(b)
  {
    forall j, k | 0 <= j < k < |b| ensures Ids(b)[j] != Ids(b)[k] {
      if b[j].id == b[k].id {
        RepeatIsInBoth(a, b, j, k);
      }
    }
  }

  lemma RepeatIsInBoth(a: seq<Model>, b: seq<Model>, j: nat, k: nat)
    requires j < k < |b| && multiset(a) == multiset(b) && b[j].id == b[k].id
    ensures !Unique(a)
  {
    if b[j] == b[k] {
      CountedTwice(b, j, k);
      if Unique(a) {
        CountedOnce(a, b[j]);
      }
    } else {
      assert b[j] in multiset(a) && b[k] in multiset(a);
      TwoOfOneId(a, b[j], b[k]);
    }
  }

  lemma TwoOfOneId(a: seq<Model>, m: Model, n: Model)
    requires m in a && n in a && m != n && m.id == n.id
    ensures !Unique(a)
  {
    var x :| 0 <= x < |a| && a[x] == m;
    var y :| 0 <= y < |a| && a[y] == n;
    SameTwice(Ids(a), x, y);
  }

  lemma SameTwice(ids: seq<ModelId>, x: nat, y: nat)
    requires x < |ids| && y < |ids| && x != y && ids[x] == ids[y]
    ensures !Distinct(ids)
  {
  }

  lemma CountedTwice(b: seq<Model>, j: nat, k: nat)
    requires j < k < |b| && b[j] == b[k]
    ensures multiset(b)[b[j]] >= 2
  {
    var front, back := b[..k], b[k..];
    assert b == front + back && front[j] == b[j] && back[0] == b[k];
    assert b[j] in multiset(front) && b[j] in multiset(back);
  }

  lemma {:induction false} CountedOnce(a: seq<Model>, m: Model)
    requires Unique(a)
    ensures multiset(a)[m] <= 1
  {
    if a != [] {
      var front, last := a[..|a| - 1], a[|a| - 1];
      UniqueFront(a);
      CountedOnce(front, m);
      assert a == front + [last];
      if last == m {
        LastIsNew(a);
        NotCounted(front, m);
      }
    }
  }

  lemma NotCounted(a: seq<Model>, m: Model)
    requires m.id !in Ids(a)
    ensures multiset(a)[m] == 0
  {
    forall k | 0 <= k < |a| ensures a[k] != m {
      assert Ids(a)[k] == a[k].id;
    }
    assert m in multiset(a) ==> m in a;
  }

  /** Where the found ids are distinct, so are the merged ones, and the result is the one sorted
      list of the merged models; stored ids may repeat. */
  lemma MergeOfUnique(found: seq<Model>, stored: seq<Model>, out: seq<Model>)
    requires Unique(found) && stored != [] && MergeResult(found, stored, out)
    ensures ById(out) == MergedById(ById(found), FoldById(stored)) && Sorted(Ids(out)) && Unique(out)
  {
    var m :| Merged(found, stored, m) && multiset(m) == multiset(out);
    NothingShadowedIff(found);
    NothingShadowedIff(m);
    SameModelsUnique(m, out);
    SameModelsSameMap(m, out);
    OrderedUniqueIsSorted(Ids(out));
  }

  /** Merging the same stored list again changes nothing, even if that list repeats ids. */
  lemma MergeIsIdempotent(found: seq<Model>, stored: seq<Model>, once: seq<Model>, twice: seq<Model>)
    requires Unique(found) && MergeResult(found, stored, once) && MergeResult(once, stored, twice)
    ensures twice == once
  {
    if stored != [] {
      MergeOfUnique(found, stored, once);
      MergeOfUnique(once, stored, twice);
      MergedAgain(ById(found), FoldById(stored));
      SortedListIsUnique(twice, once);
    }
  }

  lemma MergedAssociates(f: map<ModelId, Model>, s: map<ModelId, Model>, t: map<ModelId, Model>)
    ensures MergedById(MergedById(f, s), t) == MergedById(f, MergedById(s, t))
  {
    forall id | id in f && id in s && id in t
      ensures MergeOne(MergeOne(f[id], s[id]), t[id]) == MergeOne(f[id], MergeOne(s[id], t[id]))
    {
      MergeOneAssociates(f[id], s[id], t[id]);
    }
  }

  /** Merging in two stored lists one after the other merges in what they merge to. */
  lemma MergeInTwoSteps(found: seq<Model>, early: seq<Model>, late: seq<Model>,
                        first: seq<Model>, both: seq<Model>, stored: seq<Model>, atOnce: seq<Model>)
    requires Unique(found) && Unique(early) && early != [] && late != []
    requires MergeResult(found, early, first) && MergeResult(first, late, both)
    requires MergeResult(early, late, stored) && MergeResult(found, stored, atOnce)
    ensures both == atOnce
  {
    MergeOfUnique(found, early, first);
    MergeOfUnique(first, late, both);
    MergeOfUnique(early, late, stored);
    MergedIds(early, late, stored, early[0].id);
    assert Ids(early)[0] == early[0].id;
    assert stored != [];
    MergeOfUnique(found, stored, atOnce);
    FoldOfUnique(early);
    FoldOfUnique(stored);
    MergedAssociates(ById(found), ById(early), FoldById(late));
    SortedListIsUnique(both, atOnce);
  }

  // ---- The merge as code ----

  function InsertModel(items: seq<Model>, m: Model): (r: seq<Model>)
    ensures |r| == |items| + 1
    ensures multiset(r) == multiset(items) + multiset{m}
  {
    if items == [] then [m]
    else if Before(m.id, items[0].id) then [m] + items
    else
      assert items == [items[0]] + items[1..];
      [items[0]] + InsertModel(items[1..], m)
  }

  lemma OrderedTail(ids: seq<ModelId>)
    requires Ordered(ids) && ids != []
    ensures Ordered(ids[1..])
  {
    var rest := ids[1..];
    forall k | 0 < k < |rest| ensures !Before(rest[k], rest[k - 1]) {
      assert rest[k] == ids[k + 1] && rest[k - 1] == ids[k];
    }
  }

  lemma OrderedCons(first: ModelId, rest: seq<ModelId>)
    requires Ordered(rest) && (rest != [] ==> !Before(rest[0], first))
    ensures Ordered([first] + rest)
  {
  }

  lemma {:induction false} InsertKeepsOrdered(ids: seq<ModelId>, id: ModelId)
    requires Ordered(ids)
    ensures Ordered(Insert(ids, id)) && (Insert(ids, id)[0] == id || (ids != [] && Insert(ids, id)[0] == ids[0]))
  {
    if ids != [] {
      BeforeIsTotal(id, ids[0]);
      if Before(id, ids[0]) {
        OrderedCons(id, ids);
      } else {
        OrderedTail(ids);
        InsertKeepsOrdered(ids[1..], id);
        OrderedCons(ids[0], Insert(ids[1..], id));
      }
    }
  }

  lemma {:induction false} InsertModelFollows(items: seq<Model>, m: Model)
    ensures Ids(InsertModel(items, m)) == Insert(Ids(items), m.id)
  {
    if items != [] && !Before(m.id, items[0].id) {
      InsertModelFollows(items[1..], m);
    }
  }

  /** Sorts by id. The order of models with one id is not promised. */
  method SortById(items: seq<Model>) returns (out: seq<Model>)
    ensures multiset(out) == multiset(items) && Ordered(Ids(out))
  {
    out := [];
    for k := 0 to |items|
      invariant multiset(out) == multiset(items[..k]) && Ordered(Ids(out))
    {
      InsertModelFollows(out, items[k]);
      InsertKeepsOrdered(Ids(out), items[k].id);
      assert items[..k + 1] == items[..k] + [items[k]];
      out := InsertModel(out, items[k]);
    }
    assert items[..|items|] == items;
  }

  // ---- An index to the last model of each id ----

  /** An index leads to the last place of each id. */
  ghost predicate IndexOf(ids: seq<ModelId>, index: map<ModelId, nat>) {
    && (forall id | id in index :: index[id] < |ids| && ids[index[id]] == id)
    && (forall k | 0 <= k < |ids| :: ids[k] in index && k <= index[ids[k]])
  }

  ghost predicate Indexed(out: seq<Model>, index: map<ModelId, nat>) {
    IndexOf(Ids(out), index)
  }

  method IndexById(items: seq<Model>) returns (index: map<ModelId, nat>)
    ensures Indexed(items, index)
  {
    index := map[];
    ghost var ids := Ids(items);
    for k := 0 to |items|
      invariant forall id | id in index :: index[id] < k && ids[index[id]] == id
      invariant forall j | 0 <= j < k :: ids[j] in index && j <= index[ids[j]]
    {
      index := index[items[k].id := k];
    }
  }

  ghost predicate LastCopy(items: seq<Model>, k: nat) {
    k < |items| && forall j | k < j < |items| :: items[j].id != items[k].id
  }

  /** The last model of an id is the one its map holds. */
  lemma {:induction false} LastHolds(items: seq<Model>, k: nat)
    requires LastCopy(items, k)
    ensures items[k].id in ById(items) && ById(items)[items[k].id] == items[k]
  {
    var n := |items| - 1;
    if k < n {
      LastHolds(items[..n], k);
    }
  }

  /** Replacing the last model of its id. */
  lemma {:induction false} ReplacedLast(items: seq<Model>, k: nat, m: Model)
    requires LastCopy(items, k) && m.id == items[k].id
    ensures Shadowed(items[k := m]) == Shadowed(items) && Ids(items[k := m]) == Ids(items)
  {
    var u := items[k := m];
    assert Ids(u) == Ids(items);
    if k > 0 {
      assert u[1..] == items[1..][k - 1 := m];
      ReplacedLast(items[1..], k - 1, m);
    } else {
      assert u[1..] == items[1..];
      LastIsUnshadowed(items);
    }
  }

  lemma LastIsUnshadowed(items: seq<Model>)
    requires LastCopy(items, 0)
    ensures items[0].id !in Ids(items[1..])
  {
    var rest := items[1..];
    assert forall j | 0 <= j < |rest| :: rest[j] == items[j + 1];
  }

  lemma {:induction false} ReplacedLastById(items: seq<Model>, k: nat, m: Model)
    requires LastCopy(items, k) && m.id == items[k].id
    ensures ById(items[k := m]) == ById(items)[m.id := m]
  {
    var n := |items| - 1;
    var u := items[k := m];
    if k < n {
      assert u[..n] == items[..n][k := m] && u[n] == items[n];
      ReplacedLastById(items[..n], k, m);
    } else {
      assert u[..n] == items[..n];
    }
  }

  lemma {:induction false} AppendedShadowed(items: seq<Model>, m: Model)
    requires m.id !in Ids(items)
    ensures Shadowed(items + [m]) == Shadowed(items)
  {
    if items != [] {
      var rest := items[1..];
      assert Ids(items) == [items[0].id] + Ids(rest);
      AppendedShadowed(rest, m);
      assert (items + [m])[1..] == rest + [m];
      IdsAppended(rest, m);
      assert items[0].id in Ids(items);
    }
  }

  lemma ByIdAppended(items: seq<Model>, m: Model)
    ensures ById(items + [m]) == ById(items)[m.id := m]
  {
    assert (items + [m])[..|items|] == items;
  }

  lemma MergedOneMore(found: map<ModelId, Model>, stored: map<ModelId, Model>, x: Model)
    ensures MergedById(found, FoldedOnto(stored, x)) == FoldedOnto(MergedById(found, stored), x)
  {
    if x.id in found && x.id in stored {
      MergeOneAssociates(found[x.id], stored[x.id], x);
    }
  }

  lemma AppendedIndex(ids: seq<ModelId>, index: map<ModelId, nat>, id: ModelId)
    requires IndexOf(ids, index) && id !in index
    ensures id !in ids && IndexOf(ids + [id], index[id := |ids|])
  {
    if k :| 0 <= k < |ids| && ids[k] == id {
      assert ids[k] in index;
    }
  }

  lemma IndexedIsLast(items: seq<Model>, index: map<ModelId, nat>, id: ModelId)
    requires Indexed(items, index) && id in index
    ensures LastCopy(items, index[id]) && items[index[id]].id == id
  {
    var k := index[id];
    assert Ids(items)[k] == id;
    forall j | k < j < |items| ensures items[j].id != id {
      assert Ids(items)[j] == items[j].id;
    }
  }

  lemma MergeOneKeepsId(found: Model, stored: Model)
    requires found.id == stored.id
    ensures MergeOne(found, stored).id == found.id
  {
  }

  /** Adds one stored model to the list: merged into the last model of that id, or at the end. */
  method AddStored(out0: seq<Model>, index0: map<ModelId, nat>, item: Model)
    returns (out: seq<Model>, index: map<ModelId, nat>)
    requires Indexed(out0, index0)
    ensures Indexed(out, index)
    ensures ById(out) == FoldedOnto(ById(out0), item) && Shadowed(out) == Shadowed(out0)
  {
    ByIdKeys(out0, item.id);
    if item.id !in index0 {
      AppendedIndex(Ids(out0), index0, item.id);
      IdsAppended(out0, item);
      ByIdAppended(out0, item);
      AppendedShadowed(out0, item);
      out := out0 + [item];
      index := index0[item.id := |out| - 1];
    } else {
      var k := index0[item.id];
      IndexedIsLast(out0, index0, item.id);
      LastHolds(out0, k);
      MergeOneKeepsId(out0[k], item);
      out := out0[k := MergeOne(out0[k], item)];
      index := index0;
      ReplacedLast(out0, k, out[k]);
      ReplacedLastById(out0, k, out[k]);
    }
  }

  /** Neither list needs distinct ids. */
  method MergeModels(found: seq<Model>, stored: seq<Model>) returns (out: seq<Model>)
    ensures MergeResult(found, stored, out)
  {
    if stored == [] {
      return found;
    }
    var merged := found;
    var index := IndexById(found);
    assert MergedById(ById(found), map[]) == ById(found);
    for k := 0 to |stored|
      invariant Indexed(merged, index)
      invariant Merged(found, stored[..k], merged)
    {
      MergedOneMore(ById(found), FoldById(stored[..k]), stored[k]);
      assert stored[..k + 1][..k] == stored[..k];
      merged, index := AddStored(merged, index, stored[k]);
    }
    assert stored[..|stored|] == stored;
    out := SortById(merged);
  }

  // ---- Lists with the same models ----

  /** A list of distinct ids is found in its map whatever its order. */
  lemma ByIdIsMembership(items: seq<Model>, m: Model)
    requires Unique(items)
    ensures m in items <==> m.id in ById(items) && ById(items)[m.id] == m
  {
    if m in items {
      var k :| 0 <= k < |items| && items[k] == m;
      ByIdHolds(items, k);
    }
    ByIdKeys(items, m.id);
    if m.id in ById(items) && ById(items)[m.id] == m {
      var k :| 0 <= k < |Ids(items)| && Ids(items)[k] == m.id;
      ByIdHolds(items, k);
    }
  }

  lemma SameModelsSameMap(a: seq<Model>, b: seq<Model>)
    requires Unique(a) && Unique(b) && multiset(a) == multiset(b)
    ensures ById(a) == ById(b)
  {
    forall m ensures m in a <==> m in b {
      assert m in a <==> m in multiset(a);
      assert m in b <==> m in multiset(b);
    }
    forall id ensures id in ById(a) <==> id in ById(b) {
      KeyHasModel(a, b, id);
      KeyHasModel(b, a, id);
    }
    forall id | id in ById(a) ensures ById(a)[id] == ById(b)[id] {
      KeyHasModel(a, b, id);
    }
  }

  lemma KeyHasModel(a: seq<Model>, b: seq<Model>, id: ModelId)
    requires Unique(a) && Unique(b) && (forall m :: m in a <==> m in b)
    ensures id in ById(a) ==> id in ById(b) && ById(b)[id] == ById(a)[id]
  {
    if id in ById(a) {
      ByIdKeys(a, id);
      ByIdIsMembership(a, ById(a)[id]);
      ByIdIsMembership(b, ById(a)[id]);
    }
  }
}
