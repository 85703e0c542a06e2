/** The table of runtime instances and what each controller step makes of it. */
module InstanceTable {
  import opened Wrappers
  import opened RuntimeTypes
  import opened Conflict
  import opened Gating
  import opened Decisions
  import opened Reconcile
  import opened InstanceLaws

  /** The rows by id, and the ids in the order a listing walks them. */
  datatype Table = Table(order: seq<InstanceId>, rows: map<InstanceId, Instance>)

  predicate Wellformed(t: Table) {
    && (forall k | 0 <= k < |t.order| :: t.order[k] in t.rows)
    && (forall id | id in t.rows :: id in t.order && id != "" && t.rows[id].id == id)
    && Distinct(t.order) && Sorted(t.order)
  }

  function Listing(t: Table): (r: seq<Instance>)
    requires Wellformed(t)
    ensures ProperListing(r)
    ensures |r| == |t.order| && forall k | 0 <= k < |r| :: r[k] == t.rows[t.order[k]]
    ensures forall o: Instance :: o in r <==> o.id in t.rows && t.rows[o.id] == o
  {
    var r := seq(|t.order|, k requires 0 <= k < |t.order| => t.rows[t.order[k]]);
    assert forall o: Instance | o.id in t.rows && t.rows[o.id] == o :: o in r by {
      forall o: Instance | o.id in t.rows && t.rows[o.id] == o ensures o in r {
        var k :| 0 <= k < |t.order| && t.order[k] == o.id;
        assert r[k] == o;
      }
    }
    r
  }

  /** Text order, the order of a listing. */
  predicate Before(a: string, b: string) {
    if b == "" then false
    else if a == "" then true
    else if a[0] != b[0] then a[0] < b[0]
    else Before(a[1..], b[1..])
  }

  function Insert(order: seq<InstanceId>, id: InstanceId): (r: seq<InstanceId>)
    ensures forall x :: x in r <==> x in order || x == id
  {
    if order == [] then [id]
    else if Before(id, order[0]) then [id] + order
    else [order[0]] + Insert(order[1..], id)
  }

  predicate Distinct(order: seq<InstanceId>) {
    forall j, k | 0 <= j < k < |order| :: order[j] != order[k]
  }

  predicate Sorted(order: seq<InstanceId>) {
    forall k | 0 < k < |order| :: Before(order[k - 1], order[k])
  }

  lemma {:induction false} BeforeIsTotal(a: string, b: string)
    ensures a == b || Before(a, b) || Before(b, a)
    ensures !(Before(a, b) && Before(b, a))
  {
    if a != "" && b != "" && a[0] == b[0] {
      BeforeIsTotal(a[1..], b[1..]);
      assert a == [a[0]] + a[1..] && b == [b[0]] + b[1..];
    }
  }

  /** A new id lands where a sorted listing expects it. */
  lemma {:induction false} InsertKeepsSorted(order: seq<InstanceId>, id: InstanceId)
    requires Sorted(order) && Distinct(order) && id !in order
    ensures Sorted(Insert(order, id)) && Distinct(Insert(order, id))
    ensures Insert(order, id)[0] == id || (order != [] && Insert(order, id)[0] == order[0])
  {
    if order != [] && !Before(id, order[0]) {
      BeforeIsTotal(id, order[0]);
      InsertKeepsSorted(order[1..], id);
      assert order[0] !in order[1..];
      assert order[0] !in Insert(order[1..], id);
    } else {
      assert Insert(order, id)[1..] == order;
    }
  }

  function Put(t: Table, i: Instance): Table {
    Table(if i.id in t.rows then t.order else Insert(t.order, i.id), t.rows[i.id := i])
  }

  predicate Releases(targets: seq<InstanceId>, owner: InstanceId, id: InstanceId) {
    id in targets && id != owner
  }

  function ReleaseAll(t: Table, owner: InstanceId, targets: seq<InstanceId>, now: Time): Table {
    t.(rows := map id | id in t.rows ::
         if Releases(targets, owner, id) then Released(t.rows[id], owner, now) else t.rows[id])
  }

  function TargetsOf(i: Instance): seq<InstanceId> {
    if i.lastPlan.plan.Some? then i.lastPlan.plan.value.releaseTargets else []
  }

  /** Reconciling one instance: release plans for its targets, then its own new row. */
  function ReconcileOne(t: Table, id: InstanceId, trigger: Trigger, env: Env): Table
    requires Wellformed(t)
  {
    if id !in t.rows then t
    else
      var updated := Reconciled(t.rows[id], Listing(t), trigger, env);
      Put(ReleaseAll(t, id, TargetsOf(updated), env.now), updated)
  }

  /** A summary query reconciles without storing the instance, yet hands out the release plans. */
  function QuerySummary(t: Table, id: InstanceId, env: Env): Table
    requires Wellformed(t)
  {
    if id !in t.rows then t
    else ReleaseAll(t, id, TargetsOf(Reconciled(t.rows[id], Listing(t), SummaryQuery, env)), env.now)
  }

  function Observe(t: Table, id: InstanceId, r: Report, env: Env): Table
    requires Wellformed(t)
  {
    if id !in t.rows then t
    else
      var seen := Stored(Observed(t.rows[id], r, env.now));
      ReportFrame(t.rows[id], r, env.now);
      PutKeepsWellformed(t, seen);
      ReconcileOne(Put(t, seen), id, AgentTaskReport, env)
  }

  predicate UniqueModels(t: Table) {
    forall a, b | a in t.rows && b in t.rows && t.rows[a].modelId == t.rows[b].modelId :: a == b
  }

  /** The first instance of a model in listing order. */
  function FindByModel(items: seq<Instance>, m: ModelId): (r: Option<InstanceId>)
    ensures r.Some? ==> exists o :: o in items && o.id == r.value && o.modelId == m
    ensures r.None? ==> forall o | o in items :: o.modelId != m
  {
    if items == [] then None
    else if items[0].modelId == m then
      assert items[0] in items;
      Some(items[0].id)
    else FindByModel(items[1..], m)
  }

  // ---- Instance ids ----

  function SafeChar(c: char): char {
    if 'a' <= c <= 'z' || '0' <= c <= '9' then c
    else if 'A' <= c <= 'Z' then (c as int + 32) as char
    else '-'
  }

  function DropDashes(s: string): string {
    if s != "" && s[0] == '-' then DropDashes(s[1..])
    else if s != "" && s[|s| - 1] == '-' then DropDashes(s[..|s| - 1])
    else s
  }

  /** The id of a new instance is made of its model's id, folded to letters, digits and dashes. */
  function InstanceIdFor(m: ModelId): InstanceId {
    var folded := DropDashes(seq(|m|, k requires 0 <= k < |m| => SafeChar(m[k])));
    "ri-" + if folded == "" then "unknown" else folded
  }

  /** A model sync updates the model's instance, or creates one under an id derived from the
      model's; whatever row has that id is replaced. */
  function Sync(t: Table, m: ModelView): Table
    requires Wellformed(t)
  {
    var found := FindByModel(Listing(t), m.id);
    if found.Some? then Put(t, Stored(SyncedInstance(t.rows[found.value], m)))
    else Put(t, Stored(NewInstance(InstanceIdFor(m.id), m)))
  }

  function Sweep(t: Table, ids: seq<InstanceId>, trigger: Trigger, env: Env): Table
    requires Wellformed(t)
    decreases |ids|
  {
    if ids == [] then t
    else
      ReconcileKeepsWellformed(t, ids[0], trigger, env);
      Sweep(ReconcileOne(t, ids[0], trigger, env), ids[1..], trigger, env)
  }

  // ---- The table stays well formed ----

  lemma PutKeepsWellformed(t: Table, i: Instance)
    requires Wellformed(t) && i.id != ""
    ensures Wellformed(Put(t, i))
  {
    if i.id !in t.rows {
      InsertKeepsSorted(t.order, i.id);
      var order := Insert(t.order, i.id);
      forall k | 0 <= k < |order| ensures order[k] in Put(t, i).rows {
        assert order[k] in order;
      }
    }
  }

  lemma PutExisting(t: Table, i: Instance)
    requires Wellformed(t) && i.id in t.rows
    ensures Wellformed(Put(t, i)) && Put(t, i).rows.Keys == t.rows.Keys && Put(t, i).order == t.order
  {
  }

  lemma ReleaseKeepsWellformed(t: Table, owner: InstanceId, targets: seq<InstanceId>, now: Time)
    requires Wellformed(t)
    ensures Wellformed(ReleaseAll(t, owner, targets, now))
    ensures ReleaseAll(t, owner, targets, now).rows.Keys == t.rows.Keys
    ensures ReleaseAll(t, owner, targets, now).order == t.order
  {
  }

  lemma ReconcileKeepsWellformed(t: Table, id: InstanceId, trigger: Trigger, env: Env)
    requires Wellformed(t)
    ensures Wellformed(ReconcileOne(t, id, trigger, env))
    ensures ReconcileOne(t, id, trigger, env).rows.Keys == t.rows.Keys
    ensures ReconcileOne(t, id, trigger, env).order == t.order
  {
    if id in t.rows {
      var updated := Reconciled(t.rows[id], Listing(t), trigger, env);
      assert updated.id == id;
      var targets := TargetsOf(updated);
      ReleaseKeepsWellformed(t, id, targets, env.now);
      PutExisting(ReleaseAll(t, id, targets, env.now), updated);
    }
  }
}
