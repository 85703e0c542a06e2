/** The docker adapter against an abstract daemon: which containers its four operations may
    touch, whom a container belongs to, and when an existing one is used again. The daemon may
    fail any call, and its name filter is a pattern, so a listing can name other containers. */
module Docker {
  import opened Wrappers
  import opened Text
  import Ports

  type ContainerId = string

  datatype Container = Container(
    name: string, labels: map<string, string>, image: string, command: seq<string>, binds: seq<string>, running: bool)

  type Containers = map<ContainerId, Container>

  /** A template as materialised for a model, with its volumes as the docker host binds them. */
  datatype Template = Template(id: string, image: string, command: seq<string>, binds: seq<string>)

  /** The model on whose behalf the adapter acts, with two entries of its metadata. */
  datatype Actor = Actor(id: string, name: string, templateId: string, containerId: string)

  const MANAGED := "com.controller.managed"
  const MODEL_ID := "com.controller.model_id"
  const TEMPLATE_ID := "com.controller.template_id"
  const LEGACY_MANAGED := "com.modelintegrator.managed"
  const LEGACY_MODEL_ID := "com.modelintegrator.model_id"
  const LEGACY_TEMPLATE_ID := "com.modelintegrator.template_id"

  // ---- Ownership ----

  /** A label under its current or its former key. */
  function ReadLabel(labels: map<string, string>, key: string, legacy: string): string {
    if key in labels && Trim(labels[key]) != "" then Trim(labels[key])
    else if legacy in labels then Trim(labels[legacy])
    else ""
  }

  predicate Managed(c: Container) {
    Ports.Lower(ReadLabel(c.labels, MANAGED, LEGACY_MANAGED)) == "true"
  }

  function OwnerOf(c: Container): string {
    ReadLabel(c.labels, MODEL_ID, LEGACY_MODEL_ID)
  }

  predicate OwnedBy(c: Container, modelId: string) {
    Managed(c) && OwnerOf(c) != "" && OwnerOf(c) == Trim(modelId)
  }

  // ---- Names ----

  function NameChar(c: char): char {
    var l := Ports.LowerChar(c);
    if 'a' <= l <= 'z' || '0' <= l <= '9' || l == '_' || l == '.' || l == '-' then l else '#'
  }

  /** Every run of characters a name cannot hold becomes one dash. */
  function Folded(s: string, inRun: bool): string {
    if s == "" then ""
    else if NameChar(s[0]) == '#' then (if inRun then "" else "-") + Folded(s[1..], true)
    else [NameChar(s[0])] + Folded(s[1..], false)
  }

  function DropDashes(s: string): string {
    if s != "" && s[0] == '-' then DropDashes(s[1..])
    else if s != "" && s[|s| - 1] == '-' then DropDashes(s[..|s| - 1])
    else s
  }

  /** Named after the model's id, or its name while it has no id. */
  function ContainerName(modelId: string, modelName: string): string {
    var called := if Trim(modelId) != "" then Trim(modelId) else if Trim(modelName) != "" then Trim(modelName) else "model";
    var base := DropDashes(Folded(called, false));
    var name := if base == "" then "model" else base;
    "mcp-model-" + if |name| > 48 then name[..48] else name
  }

  /** The daemon's filter reads a dot of the name as any character. */
  predicate NameMatches(pattern: string, name: string) {
    |pattern| == |name| && forall i | 0 <= i < |name| :: pattern[i] == '.' || pattern[i] == name[i]
  }

  // ---- Matching a template ----

  function Trims(items: seq<string>): seq<string> {
    seq(|items|, i requires 0 <= i < |items| => Trim(items[i]))
  }

  function ExpectedTemplate(a: Actor, tpl: Template): string {
    if Trim(tpl.id) != "" then Trim(tpl.id) else Trim(a.templateId)
  }

  /** A container that can stand in for a new one: same template as far as both are known, same
      image and command, the same binds as often as each occurs, up to white space. */
  predicate Matches(c: Container, a: Actor, tpl: Template) {
    var expected, actual := ExpectedTemplate(a, tpl), ReadLabel(c.labels, TEMPLATE_ID, LEGACY_TEMPLATE_ID);
    && (expected == "" || actual == "" || expected == actual)
    && Trim(c.image) == Trim(tpl.image)
    && Trims(c.command) == Trims(tpl.command)
    && multiset(Trims(c.binds)) == multiset(Trims(tpl.binds))
  }

  method StringSlicesEqual(a: seq<string>, b: seq<string>) returns (same: bool)
    ensures same <==> Trims(a) == Trims(b)
  {
    if |a| != |b| {
      assert |Trims(a)| != |Trims(b)|;
      return false;
    }
    for i := 0 to |a|
      invariant forall j | 0 <= j < i :: Trim(a[j]) == Trim(b[j])
    {
      if Trim(a[i]) != Trim(b[i]) {
        assert Trims(a)[i] != Trims(b)[i];
        return false;
      }
    }
    return true;
  }

  ghost predicate Counts(count: map<string, int>, items: seq<string>) {
    && (forall s :: s in count <==> s in multiset(items))
    && (forall s | s in count :: count[s] == multiset(items)[s])
  }

  method CountOneMore(count: map<string, int>, ghost items: seq<string>, t: string) returns (out: map<string, int>)
    requires Counts(count, items)
    ensures Counts(out, items + [t])
  {
    out := count[t := (if t in count then count[t] else 0) + 1];
  }

  lemma TrimsNext(items: seq<string>, i: nat)
    requires i < |items|
    ensures Trims(items)[..i + 1] == Trims(items)[..i] + [Trim(items[i])]
  {
  }

  method CountTrimmed(items: seq<string>) returns (count: map<string, int>)
    ensures Counts(count, Trims(items))
  {
    count := map[];
    for i := 0 to |items|
      invariant Counts(count, Trims(items)[..i])
    {
      TrimsNext(items, i);
      count := CountOneMore(count, Trims(items)[..i], Trim(items[i]));
    }
    assert Trims(items)[..|items|] == Trims(items);
  }

  /** Comparing the number of entries and the counts of one side compares the multisets. */
  method StringSlicesAsSetEqual(a: seq<string>, b: seq<string>) returns (same: bool)
    ensures same <==> multiset(Trims(a)) == multiset(Trims(b))
  {
    if |a| != |b| {
      assert |multiset(Trims(a))| == |a| && |multiset(Trims(b))| == |b|;
      return false;
    }
    var countA := CountTrimmed(a);
    var countB := CountTrimmed(b);
    if |countA| != |countB| {
      assert multiset(Trims(a)) == multiset(Trims(b)) ==> countA.Keys == countB.Keys;
      return false;
    }
    var rest := countA.Keys;
    while rest != {}
      invariant rest <= countA.Keys
      invariant forall s | s in countA && s !in rest :: s in countB && countB[s] == countA[s]
      decreases |rest|
    {
      var k :| k in rest;
      if (if k in countB then countB[k] else 0) != countA[k] {
        assert multiset(Trims(a))[k] != multiset(Trims(b))[k];
        return false;
      }
      rest := rest - {k};
    }
    SubsetOfSameSize(countA.Keys, countB.Keys);
    forall s ensures multiset(Trims(a))[s] == multiset(Trims(b))[s] {
      assert s in countA <==> s in countB;
    }
    return true;
  }

  lemma {:induction false} SubsetOfSameSize(a: set<string>, b: set<string>)
    requires a <= b && |a| == |b|
    ensures a == b
  {
    if a != {} {
      var x :| x in a;
      SubsetOfSameSize(a - {x}, b - {x});
    } else {
      assert |b| == 0;
    }
  }

  // ---- What an operation may touch ----

  /** Containers that do not belong to the model stay exactly as they are, and no container that
      stays changes its labels. */
  ghost predicate TouchesOnlyOwn(before: Containers, after: Containers, modelId: string) {
    && (forall id | id in before && !OwnedBy(before[id], modelId) :: id in after && after[id] == before[id])
    && (forall id | id in before && id in after :: after[id].labels == before[id].labels)
  }

  lemma TouchesCompose(a: Containers, b: Containers, c: Containers, modelId: string)
    requires TouchesOnlyOwn(a, b, modelId) && TouchesOnlyOwn(b, c, modelId)
    requires forall id | id in a && id in c :: id in b
    ensures TouchesOnlyOwn(a, c, modelId)
  {
    forall id | id in a && !OwnedBy(a[id], modelId) ensures id in c && c[id] == a[id] {
      assert id in b && b[id] == a[id];
    }
  }

  /** What each step leaves alone, a run of steps leaves alone: a container of a model that never
      acts, or of nobody, stays as it is. */
  lemma {:induction false} OthersAreLeftAlone(states: seq<Containers>, actors: seq<string>, id: ContainerId)
    requires |states| == |actors| + 1 && id in states[0]
    requires forall k | 0 <= k < |actors| :: TouchesOnlyOwn(states[k], states[k + 1], actors[k])
    requires forall k | 0 <= k < |actors| :: !OwnedBy(states[0][id], actors[k])
    ensures id in states[|actors|] && states[|actors|][id] == states[0][id]
  {
    if actors != [] {
      var n := |actors| - 1;
      OthersAreLeftAlone(states[..n + 1], actors[..n], id);
      assert states[..n + 1][n] == states[n];
      assert TouchesOnlyOwn(states[n], states[n + 1], actors[n]);
    }
  }

  /** Once a container carries a current label, its former one says nothing about its owner. */
  lemma CurrentLabelDecides(c: Container, modelId: string)
    requires MODEL_ID in c.labels && Trim(c.labels[MODEL_ID]) != ""
    ensures OwnedBy(c, modelId) <==> Managed(c) && Trim(c.labels[MODEL_ID]) == Trim(modelId)
  {
  }

  /** A container of former times, without the current labels, is owned by its former ones. */
  lemma FormerLabelsCount(c: Container, modelId: string)
    requires MANAGED !in c.labels && MODEL_ID !in c.labels
    requires LEGACY_MANAGED in c.labels && Ports.Lower(Trim(c.labels[LEGACY_MANAGED])) == "true"
    requires LEGACY_MODEL_ID in c.labels && Trim(modelId) != ""
    ensures OwnedBy(c, modelId) <==> Trim(c.labels[LEGACY_MODEL_ID]) == Trim(modelId)
  {
  }

  /** An id that is a fit name already, and not too long, is kept as it is. */
  lemma FitIdIsKept(id: string, name: string)
    requires Trimmed(id) && id != "" && |id| <= 48 && id[0] != '-' && id[|id| - 1] != '-'
    requires forall k | 0 <= k < |id| ::
               'a' <= id[k] <= 'z' || '0' <= id[k] <= '9' || id[k] == '_' || id[k] == '.' || id[k] == '-'
    ensures ContainerName(id, name) == "mcp-model-" + id
  {
    FitTextIsKept(id, false);
  }

  lemma {:induction false} FitTextIsKept(s: string, inRun: bool)
    requires forall k | 0 <= k < |s| ::
               'a' <= s[k] <= 'z' || '0' <= s[k] <= '9' || s[k] == '_' || s[k] == '.' || s[k] == '-'
    ensures Folded(s, inRun) == s
  {
    if s != "" {
      assert NameChar(s[0]) == s[0];
      FitTextIsKept(s[1..], false);
    }
  }

  /** Ownership is by the whole id, so it tells apart what the names do not. */
  lemma SameNameDifferentOwner(nameA: string, nameB: string)
    ensures ContainerName("A/b", nameA) == "mcp-model-a-b" == ContainerName("a-b", nameB)
    ensures forall c :: !(OwnedBy(c, "A/b") && OwnedBy(c, "a-b"))
  {
    Ports.TrimUnchanged("A/b");
    Ports.TrimUnchanged("a-b");
    assert Folded("A/b", false) == "a-b" by {
      assert "A/b"[1..] == "/b" && "/b"[1..] == "b" && "b"[1..] == "";
      assert Folded("b", true) == "b" + "";
      assert Folded("/b", false) == "-" + "b";
    }
    assert Folded("a-b", false) == "a-b" by {
      assert "a-b"[1..] == "-b" && "-b"[1..] == "b" && "b"[1..] == "";
      assert Folded("b", false) == "b" + "";
      assert Folded("-b", false) == "-" + "b";
    }
  }
}
