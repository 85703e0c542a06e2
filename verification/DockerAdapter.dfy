/** The adapter's operations, on a daemon that may fail any call. */
module DockerAdapter {
  import opened Wrappers
  import opened Text
  import opened Docker
  import Ports

  /** Where an operation can leave the containers: it touched only the model's own, and reused
      no id. */
  ghost predicate Fair(before: Containers, usedBefore: set<ContainerId>, after: Containers, usedAfter: set<ContainerId>,
                       modelId: string)
  {
    && usedBefore <= usedAfter && after.Keys <= usedAfter
    && (forall id | id in after && id !in before :: id !in usedBefore)
    && TouchesOnlyOwn(before, after, modelId)
  }

  class Daemon {
    var containers: Containers
    /** Every id handed out so far; ids are not reused. */
    var used: set<ContainerId>
    /** How many calls have failed so far, for whatever reason outside the daemon's own rules. */
    ghost var failures: nat

    ghost predicate Valid()
      reads this
    {
      containers.Keys <= used
    }

    constructor ()
      ensures Valid() && containers == map[]
    {
      containers, used := map[], {};
      failures := 0;
    }

    /** Whether a call fails, whatever it asks for. */
    method Fails() returns (fails: bool)
      modifies this`failures
      ensures failures == if fails then old(failures) + 1 else old(failures)
    {
      fails := *;
      failures := if fails then failures + 1 else failures;
    }

    method Inspect(id: ContainerId) returns (info: Option<Container>)
      modifies this`failures
      ensures failures >= old(failures)
      ensures info.Some? ==> id in containers && info.value == containers[id]
      ensures failures == old(failures) ==> (info.Some? <==> id in containers)
    {
      var fails := Fails();
      if fails || id !in containers {
        info := None;
      } else {
        info := Some(containers[id]);
      }
    }

    /** Whether a container runs and keeps running for a while. */
    method WaitUntilRunning(id: ContainerId) returns (ok: bool)
      modifies this`failures
      ensures failures >= old(failures)
      ensures ok ==> id in containers && containers[id].running
      ensures failures == old(failures) ==> (ok <==> id in containers && containers[id].running)
    {
      var fails := Fails();
      ok := !fails && id in containers && containers[id].running;
    }

    /** All containers the name pattern fits, in whatever order; None on failure. */
    method ListByName(name: string) returns (ids: Option<seq<ContainerId>>)
      modifies this`failures
      ensures failures >= old(failures)
      ensures ids.Some? ==> forall id :: id in ids.value <==> id in containers && NameMatches(name, containers[id].name)
      ensures failures == old(failures) ==> ids.Some?
    {
      var fails := Fails();
      if fails {
        return None;
      }
      var out: seq<ContainerId> := [];
      var rest := containers.Keys;
      while rest != {}
        invariant rest <= containers.Keys
        invariant forall id :: id in out <==> id in containers && id !in rest && NameMatches(name, containers[id].name)
        decreases |rest|
      {
        var id :| id in rest;
        if NameMatches(name, containers[id].name) {
          out := out + [id];
        }
        rest := rest - {id};
      }
      return Some(out);
    }

    method Stop(id: ContainerId) returns (ok: bool)
      modifies this`containers, this`failures
      ensures failures >= old(failures)
      ensures ok ==> id in old(containers) && containers == old(containers)[id := old(containers)[id].(running := false)]
      ensures !ok ==> containers == old(containers)
      ensures failures == old(failures) ==> (ok <==> id in old(containers))
    {
      var fails := Fails();
      ok := !fails && id in containers;
      if ok {
        containers := containers[id := containers[id].(running := false)];
      }
    }

    method Start(id: ContainerId) returns (ok: bool)
      modifies this`containers, this`failures
      ensures failures >= old(failures)
      ensures ok ==> id in old(containers) && containers == old(containers)[id := old(containers)[id].(running := true)]
      ensures !ok ==> containers == old(containers)
      ensures failures == old(failures) ==> (ok <==> id in old(containers))
    {
      var fails := Fails();
      ok := !fails && id in containers;
      if ok {
        containers := containers[id := containers[id].(running := true)];
      }
    }

    method Remove(id: ContainerId) returns (ok: bool)
      modifies this`containers, this`failures
      ensures failures >= old(failures)
      ensures ok ==> containers == old(containers) - {id}
      ensures !ok ==> containers == old(containers)
      ensures failures == old(failures) ==> ok
    {
      var fails := Fails();
      ok := !fails;
      if ok {
        containers := containers - {id};
      }
    }

    /** Refused when the name is taken. An image that is missing counts as a failure. */
    method Create(c: Container) returns (created: Option<ContainerId>)
      requires Valid()
      modifies this
      ensures Valid() && failures >= old(failures)
      ensures failures == old(failures) ==> (created.Some? <==> NameIsFree(old(containers), c.name))
      ensures created.None? ==> containers == old(containers) && used == old(used)
      ensures created.Some? ==> && created.value !in old(used) && used == old(used) + {created.value}
                                && containers == old(containers)[created.value := c]
    {
      var fails := Fails();
      var id: ContainerId := *;
      if fails || !NameIsFree(containers, c.name) {
        return None;
      }
      if id in used {
        failures := failures + 1;
        return None;
      }
      containers := containers[id := c];
      used := used + {id};
      return Some(id);
    }
  }

  lemma FairCompose(c0: Containers, u0: set<ContainerId>, c1: Containers, u1: set<ContainerId>, c2: Containers,
                    u2: set<ContainerId>, modelId: string)
    requires c0.Keys <= u0 && Fair(c0, u0, c1, u1, modelId) && Fair(c1, u1, c2, u2, modelId)
    ensures Fair(c0, u0, c2, u2, modelId)
  {
    TouchesCompose(c0, c1, c2, modelId);
  }

  /** Stopping an own container is fair, and so is doing nothing. */
  lemma StopIsFair(c: Containers, used: set<ContainerId>, id: ContainerId, modelId: string)
    requires c.Keys <= used && id in c && OwnedBy(c[id], modelId)
    ensures Fair(c, used, c, used, modelId)
    ensures Fair(c, used, c[id := c[id].(running := false)], used, modelId)
  {
    NothingIsFair(c, used, modelId);
    SwitchIsFair(c, used, c, used, id, false, modelId);
  }

  lemma NothingIsFair(c: Containers, used: set<ContainerId>, modelId: string)
    requires c.Keys <= used
    ensures Fair(c, used, c, used, modelId)
  {
  }

  lemma CreatingIsFair(c: Containers, used: set<ContainerId>, id: ContainerId, made: Container, modelId: string)
    requires c.Keys <= used && id !in used
    ensures Fair(c, used, c[id := made], used + {id}, modelId)
  {
  }

  // ---- What an operation comes upon ----

  /** The model's metadata names a container there is. */
  predicate Named(c: Containers, a: Actor) {
    Trim(a.containerId) != "" && Trim(a.containerId) in c
  }

  predicate Listed(c: Containers, a: Actor, id: ContainerId) {
    id in c && NameMatches(ContainerName(a.id, a.name), c[id].name)
  }

  /** What an operation looks at first: the named container, else any that is listed by name. */
  predicate Candidate(c: Containers, a: Actor, id: ContainerId) {
    if Named(c, a) then id == Trim(a.containerId) else Listed(c, a, id)
  }

  /** There is no candidate, or one that belongs to somebody else. */
  ghost predicate NothingOfIts(c: Containers, a: Actor) {
    || (forall id :: !Candidate(c, a, id))
    || exists id :: id in c && Candidate(c, a, id) && !OwnedBy(c[id], a.id)
  }

  predicate NameIsFree(c: Containers, name: string) {
    forall id | id in c :: c[id].name != name
  }

  predicate Reusable(c: Containers, id: ContainerId, a: Actor, tpl: Template) {
    id in c && OwnedBy(c[id], a.id) && Matches(c[id], a, tpl)
  }

  /** Whatever has gone belonged to the model and did not match the template. */
  ghost predicate OnlyStaleGone(before: Containers, after: Containers, a: Actor, tpl: Template) {
    forall id | id in before && id !in after :: OwnedBy(before[id], a.id) && !Matches(before[id], a, tpl)
  }

  ghost predicate AllReusable(c: Containers, a: Actor, tpl: Template) {
    (exists id :: Candidate(c, a, id)) && forall id | Candidate(c, a, id) :: Reusable(c, id, a, tpl)
  }

  ghost predicate AllForeign(c: Containers, a: Actor) {
    (exists id :: Candidate(c, a, id)) && forall id | id in c && Candidate(c, a, id) :: !OwnedBy(c[id], a.id)
  }

  /** Nothing stands in the way of a model: what is named or listed for it is its own, and at most
      one container is listed. */
  ghost predicate WayIsClear(c: Containers, a: Actor) {
    && (forall id | id in c && (Candidate(c, a, id) || Listed(c, a, id)) :: OwnedBy(c[id], a.id))
    && OneListed(c, a)
  }

  /** What comes of the search when no call fails. */
  ghost predicate Ensured(before: Containers, after: Containers, found: Option<ContainerId>, created: bool,
                          a: Actor, tpl: Template)
  {
    && (AllReusable(before, a, tpl) ==>
          found.Some? && !created && after == before && Candidate(before, a, found.value))
    && (AllForeign(before, a) ==> found.None? && after == before)
    && (WayIsClear(before, a) ==> found.Some?)
  }

  ghost predicate SomeListed(c: Containers, a: Actor) {
    exists id :: Listed(c, a, id)
  }

  ghost predicate ListedReusable(c: Containers, a: Actor, tpl: Template) {
    SomeListed(c, a) && forall id | Listed(c, a, id) :: Reusable(c, id, a, tpl)
  }

  ghost predicate ListedForeign(c: Containers, a: Actor) {
    SomeListed(c, a) && forall id | Listed(c, a, id) :: !OwnedBy(c[id], a.id)
  }

  ghost predicate ListedOwn(c: Containers, a: Actor) {
    forall id | Listed(c, a, id) :: OwnedBy(c[id], a.id)
  }

  ghost predicate OneListed(c: Containers, a: Actor) {
    forall id, o | Listed(c, a, id) && Listed(c, a, o) :: id == o
  }

  /** The same of the search by name alone. */
  ghost predicate EnsuredByName(before: Containers, after: Containers, found: Option<ContainerId>, created: bool,
                                a: Actor, tpl: Template)
  {
    && (ListedReusable(before, a, tpl) ==>
          found.Some? && !created && after == before && Listed(before, a, found.value))
    && (ListedForeign(before, a) ==> found.None? && after == before)
    && (ListedOwn(before, a) && OneListed(before, a) ==> found.Some?)
  }

  /** The search by name after a stale own container was named, which is gone by then. */
  lemma StaleNamedThenListed(c0: Containers, c1: Containers, a: Actor, tpl: Template)
    requires Named(c0, a) && OwnedBy(c0[Trim(a.containerId)], a.id) && !Matches(c0[Trim(a.containerId)], a, tpl)
    requires c1 == c0 - {Trim(a.containerId)}
    ensures !AllReusable(c0, a, tpl) && !AllForeign(c0, a)
    ensures WayIsClear(c0, a) ==> ListedOwn(c1, a) && OneListed(c1, a)
  {
    assert Candidate(c0, a, Trim(a.containerId));
    forall id | Listed(c1, a, id) ensures Listed(c0, a, id) && c1[id] == c0[id] {}
  }

  /** Nothing is named, so the candidates are those listed. */
  lemma UnnamedIsListed(c: Containers, a: Actor, tpl: Template)
    requires !Named(c, a)
    ensures AllReusable(c, a, tpl) <==> ListedReusable(c, a, tpl)
    ensures AllForeign(c, a) <==> ListedForeign(c, a)
    ensures WayIsClear(c, a) <==> ListedOwn(c, a) && OneListed(c, a)
  {
    forall id ensures Candidate(c, a, id) <==> Listed(c, a, id) {}
  }

  /** The search by name follows when nothing is named, or a stale own container was and is gone. */
  lemma NamedThenListed(c0: Containers, c1: Containers, c2: Containers, found: Option<ContainerId>, created: bool,
                        a: Actor, tpl: Template)
    requires if Named(c0, a)
             then var id := Trim(a.containerId);
                  OwnedBy(c0[id], a.id) && !Matches(c0[id], a, tpl) && c1 == c0 - {id}
             else c1 == c0
    requires EnsuredByName(c1, c2, found, created, a, tpl) && OnlyStaleGone(c1, c2, a, tpl)
    ensures Ensured(c0, c2, found, created, a, tpl) && OnlyStaleGone(c0, c2, a, tpl)
  {
    if Named(c0, a) {
      StaleNamedThenListed(c0, c1, a, tpl);
      StaleGoneInTurn(c0, c1, c2, Trim(a.containerId), a, tpl);
    } else {
      UnnamedIsListed(c0, a, tpl);
      UnnamedIsEnsured(c0, c2, found, created, a, tpl);
    }
  }

  lemma StaleGoneInTurn(c0: Containers, c1: Containers, c2: Containers, id: ContainerId, a: Actor, tpl: Template)
    requires id in c0 && OwnedBy(c0[id], a.id) && !Matches(c0[id], a, tpl) && c1 == c0 - {id}
    requires OnlyStaleGone(c1, c2, a, tpl)
    ensures OnlyStaleGone(c0, c2, a, tpl)
  {
  }

  lemma UnnamedIsEnsured(before: Containers, after: Containers, found: Option<ContainerId>, created: bool,
                         a: Actor, tpl: Template)
    requires !Named(before, a) && EnsuredByName(before, after, found, created, a, tpl)
    requires AllReusable(before, a, tpl) <==> ListedReusable(before, a, tpl)
    requires AllForeign(before, a) <==> ListedForeign(before, a)
    requires WayIsClear(before, a) <==> ListedOwn(before, a) && OneListed(before, a)
    ensures Ensured(before, after, found, created, a, tpl)
  {
  }

  lemma FirstIsForeign(c: Containers, first: ContainerId, a: Actor, tpl: Template)
    requires Listed(c, a, first) && !OwnedBy(c[first], a.id)
    ensures EnsuredByName(c, c, None, false, a, tpl) && OnlyStaleGone(c, c, a, tpl)
  {
  }

  lemma FirstIsReused(c: Containers, first: ContainerId, a: Actor, tpl: Template)
    requires Listed(c, a, first) && Reusable(c, first, a, tpl)
    ensures EnsuredByName(c, c, Some(first), false, a, tpl) && OnlyStaleGone(c, c, a, tpl)
  {
  }

  /** After a search that found nothing, or a stale own container that is now gone, one is made if
      the name is free. */
  lemma MadeAfterSearch(c0: Containers, c1: Containers, c2: Containers, made: Option<ContainerId>, a: Actor, tpl: Template)
    requires (c1 == c0 && forall id :: !Listed(c0, a, id))
             || exists first :: && Listed(c0, a, first) && OwnedBy(c0[first], a.id) && !Matches(c0[first], a, tpl)
                                && c1 == c0 - {first}
    requires made.None? ==> c2 == c1 && !NameIsFree(c1, ContainerName(a.id, a.name))
    requires made.Some? ==> c1.Keys <= c2.Keys
    ensures EnsuredByName(c0, c2, made, made.Some?, a, tpl) && OnlyStaleGone(c0, c2, a, tpl)
  {
    if made.None? {
      var o := NameTakenByAnother(c0, c1, a);
    }
  }

  /** A container by the exact name is listed. */
  lemma NameTakenByAnother(c0: Containers, c1: Containers, a: Actor) returns (o: ContainerId)
    requires !NameIsFree(c1, ContainerName(a.id, a.name)) && forall id | id in c1 :: id in c0 && c0[id] == c1[id]
    ensures o in c1 && Listed(c0, a, o)
  {
    o :| o in c1 && c1[o].name == ContainerName(a.id, a.name);
  }

  /** What a load or a start comes to when no call fails. */
  ghost predicate Settled(before: Containers, after: Containers, ok: bool, id: ContainerId, running: bool,
                          a: Actor, tpl: Template)
  {
    && (AllReusable(before, a, tpl) ==>
          ok && Candidate(before, a, id) && id in before && after == before[id := before[id].(running := running)])
    && (AllForeign(before, a) ==> !ok && after == before)
    && (WayIsClear(before, a) ==> ok)
    && OnlyStaleGone(before, after, a, tpl)
  }

  class Adapter {
    const daemon: Daemon

    constructor (daemon: Daemon)
      ensures this.daemon == daemon
    {
      this.daemon := daemon;
    }

    method StopOwn(id: ContainerId, modelId: string) returns (ok: bool)
      requires daemon.Valid() && id in daemon.containers && OwnedBy(daemon.containers[id], modelId)
      modifies daemon
      ensures daemon.Valid() && Fair(old(daemon.containers), old(daemon.used), daemon.containers, daemon.used, modelId)
      ensures id in daemon.containers && OwnedBy(daemon.containers[id], modelId)
      ensures daemon.containers == old(daemon.containers)[id := daemon.containers[id]]
      ensures daemon.containers[id] == old(daemon.containers[id]).(running := daemon.containers[id].running)
      ensures ok ==> !daemon.containers[id].running
      ensures daemon.failures >= old(daemon.failures) && (daemon.failures == old(daemon.failures) ==> ok)
    {
      StopIsFair(daemon.containers, daemon.used, id, modelId);
      ok := daemon.Stop(id);
    }

    method RemoveOwn(id: ContainerId, modelId: string) returns (ok: bool)
      requires daemon.Valid() && id in daemon.containers && OwnedBy(daemon.containers[id], modelId)
      modifies daemon
      ensures daemon.Valid() && Fair(old(daemon.containers), old(daemon.used), daemon.containers, daemon.used, modelId)
      ensures daemon.containers == if ok then old(daemon.containers) - {id} else old(daemon.containers)
      ensures daemon.failures >= old(daemon.failures) && (daemon.failures == old(daemon.failures) ==> ok)
    {
      ok := daemon.Remove(id);
    }

    /** Stops and removes, whether or not either succeeds. */
    method Discard(id: ContainerId, modelId: string)
      requires daemon.Valid() && id in daemon.containers && OwnedBy(daemon.containers[id], modelId)
      modifies daemon
      ensures daemon.Valid() && Fair(old(daemon.containers), old(daemon.used), daemon.containers, daemon.used, modelId)
      ensures daemon.failures >= old(daemon.failures)
      ensures daemon.failures == old(daemon.failures) ==> daemon.containers == old(daemon.containers) - {id}
    {
      ghost var c0, u0 := daemon.containers, daemon.used;
      var _ := StopOwn(id, modelId);
      ghost var c1, u1 := daemon.containers, daemon.used;
      var _ := RemoveOwn(id, modelId);
      FairCompose(c0, u0, c1, u1, daemon.containers, daemon.used, modelId);
    }

    /** Unless a call fails: exactly a container that does not match its template is made anew. */
    method ContainerNeedsRecreate(id: ContainerId, a: Actor, tpl: Template) returns (recreate: bool)
      modifies daemon`failures
      ensures !recreate ==> id in daemon.containers && Matches(daemon.containers[id], a, tpl)
      ensures daemon.failures >= old(daemon.failures)
      ensures daemon.failures == old(daemon.failures) && id in daemon.containers && Matches(daemon.containers[id], a, tpl)
              ==> !recreate
    {
      var info := daemon.Inspect(id);
      if info.None? {
        return true;
      }
      var c := info.value;
      var expected, actual := ExpectedTemplate(a, tpl), ReadLabel(c.labels, TEMPLATE_ID, LEGACY_TEMPLATE_ID);
      if expected != "" && actual != "" && expected != actual {
        return true;
      }
      if Trim(c.image) != Trim(tpl.image) {
        return true;
      }
      var sameCommand := StringSlicesEqual(c.command, tpl.command);
      if !sameCommand {
        return true;
      }
      var sameBinds := StringSlicesAsSetEqual(c.binds, tpl.binds);
      return !sameBinds;
    }

    /** The container metadata or the name leads to, if it belongs to the model; None on failure.
        Unless a call fails, nothing is found only if there is nothing, or it is another's. */
    method ResolveContainerID(a: Actor) returns (found: Option<Option<ContainerId>>)
      modifies daemon`failures
      ensures found.Some? && found.value.Some? ==>
                found.value.value in daemon.containers && OwnedBy(daemon.containers[found.value.value], a.id)
      ensures daemon.failures >= old(daemon.failures)
      ensures daemon.failures == old(daemon.failures) ==>
                && found.Some?
                && (found.value.Some? ==> Candidate(daemon.containers, a, found.value.value))
                && (found.value.None? ==> NothingOfIts(daemon.containers, a))
    {
      var id := Trim(a.containerId);
      if id != "" {
        var info := daemon.Inspect(id);
        if info.Some? {
          if OwnedBy(info.value, a.id) {
            return Some(Some(id));
          }
          assert Candidate(daemon.containers, a, id);
          return Some(None);
        }
      }
      var list := daemon.ListByName(ContainerName(a.id, a.name));
      if list.None? {
        return None;
      }
      if list.value == [] {
        return Some(None);
      }
      var first := list.value[0];
      assert first in list.value;
      var info := daemon.Inspect(first);
      if info.None? || !OwnedBy(info.value, a.id) {
        assert daemon.failures == old(daemon.failures) ==> Candidate(daemon.containers, a, first);
        return Some(None);
      }
      return Some(Some(first));
    }

    /** Looks at one candidate: another's is refused, a matching own one is kept, a stale own one
        is discarded. */
    method ReuseOrDiscard(id: ContainerId, info: Container, a: Actor, tpl: Template) returns (refused: bool, reuse: bool)
      requires daemon.Valid() && id in daemon.containers && info == daemon.containers[id]
      modifies daemon
      ensures daemon.Valid() && Fair(old(daemon.containers), old(daemon.used), daemon.containers, daemon.used, a.id)
      ensures refused <==> !OwnedBy(info, a.id)
      ensures refused ==> !reuse && daemon.containers == old(daemon.containers)
      ensures reuse ==> daemon.containers == old(daemon.containers) && Matches(info, a, tpl)
      ensures daemon.failures >= old(daemon.failures)
      ensures daemon.failures == old(daemon.failures) && !refused ==>
                && (reuse <==> Matches(info, a, tpl))
                && (!reuse ==> daemon.containers == old(daemon.containers) - {id})
    {
      if !OwnedBy(info, a.id) {
        return true, false;
      }
      var recreate := ContainerNeedsRecreate(id, a, tpl);
      if !recreate {
        return false, true;
      }
      Discard(id, a.id);
      return false, false;
    }

    /** The container to use for a model: one of its own that matches the template, or a new one.
        Unless a call fails, a matching own candidate is kept as it is, only stale own containers
        give way, and a model with at most one container by its name always gets one. */
    method EnsureContainer(a: Actor, tpl: Template) returns (found: Option<ContainerId>, created: bool)
      requires daemon.Valid()
      modifies daemon
      ensures daemon.Valid() && Fair(old(daemon.containers), old(daemon.used), daemon.containers, daemon.used, a.id)
      ensures found.Some? ==> Usable(old(daemon.containers), daemon.containers, found.value, created, a, tpl)
      ensures daemon.failures >= old(daemon.failures)
      ensures daemon.failures == old(daemon.failures) ==>
                && Ensured(old(daemon.containers), daemon.containers, found, created, a, tpl)
                && OnlyStaleGone(old(daemon.containers), daemon.containers, a, tpl)
    {
      ghost var c0, u0 := daemon.containers, daemon.used;
      var id := Trim(a.containerId);
      if id != "" {
        var info := daemon.Inspect(id);
        if info.Some? {
          assert Named(c0, a) && Candidate(c0, a, id);
          var refused, reuse := ReuseOrDiscard(id, info.value, a, tpl);
          if refused {
            return None, false;
          }
          if reuse {
            return Some(id), false;
          }
        }
      }
      ghost var c1, u1 := daemon.containers, daemon.used;
      found, created := EnsureByName(a, tpl);
      FairCompose(c0, u0, c1, u1, daemon.containers, daemon.used, a.id);
      if daemon.failures == old(daemon.failures) {
        NamedThenListed(c0, c1, daemon.containers, found, created, a, tpl);
      }
    }

    method EnsureByName(a: Actor, tpl: Template) returns (found: Option<ContainerId>, created: bool)
      requires daemon.Valid()
      modifies daemon
      ensures daemon.Valid() && Fair(old(daemon.containers), old(daemon.used), daemon.containers, daemon.used, a.id)
      ensures found.Some? ==> Usable(old(daemon.containers), daemon.containers, found.value, created, a, tpl)
      ensures found.Some? && created ==> found.value !in old(daemon.used)
      ensures daemon.failures >= old(daemon.failures)
      ensures daemon.failures == old(daemon.failures) ==>
                && EnsuredByName(old(daemon.containers), daemon.containers, found, created, a, tpl)
                && OnlyStaleGone(old(daemon.containers), daemon.containers, a, tpl)
    {
      ghost var c0, u0 := daemon.containers, daemon.used;
      var list := daemon.ListByName(ContainerName(a.id, a.name));
      if list.None? {
        return None, false;
      }
      if list.value != [] {
        var first := list.value[0];
        assert first in list.value;
        assert Listed(c0, a, first);
        var info := daemon.Inspect(first);
        if info.None? {
          return None, false;
        }
        var refused, reuse := ReuseOrDiscard(first, info.value, a, tpl);
        if refused {
          FirstIsForeign(c0, first, a, tpl);
          return None, false;
        }
        if reuse {
          FirstIsReused(c0, first, a, tpl);
          return Some(first), false;
        }
      } else {
        assert forall id :: id in list.value <==> Listed(c0, a, id);
      }
      ghost var c1, u1 := daemon.containers, daemon.used;
      var made := CreateContainer(a, tpl);
      FairCompose(c0, u0, c1, u1, daemon.containers, daemon.used, a.id);
      if daemon.failures == old(daemon.failures) {
        MadeAfterSearch(c0, c1, daemon.containers, made, a, tpl);
      }
      return made, made.Some?;
    }

    /** A failed creation is tried once more when the image had to be pulled first. */
    method CreateContainer(a: Actor, tpl: Template) returns (made: Option<ContainerId>)
      requires daemon.Valid()
      modifies daemon
      ensures daemon.Valid() && Fair(old(daemon.containers), old(daemon.used), daemon.containers, daemon.used, a.id)
      ensures made.Some? ==> && made.value !in old(daemon.used)
                             && daemon.containers == old(daemon.containers)[made.value := NewContainer(a, tpl)]
      ensures made.None? ==> daemon.containers == old(daemon.containers)
      ensures daemon.failures >= old(daemon.failures)
      ensures daemon.failures == old(daemon.failures) ==>
                (made.Some? <==> NameIsFree(old(daemon.containers), ContainerName(a.id, a.name)))
    {
      ghost var c0, u0 := daemon.containers, daemon.used;
      var wanted := NewContainer(a, tpl);
      NothingIsFair(c0, u0, a.id);
      made := daemon.Create(wanted);
      var imageMissing: bool := *;
      var pulled: bool := *;
      if made.None? && imageMissing && pulled {
        made := daemon.Create(wanted);
      }
      if made.Some? {
        CreatingIsFair(c0, u0, made.value, wanted, a.id);
      }
    }

    /** Leaves the model with a container that does not run. */
    method LoadModel(a: Actor, tpl: Template) returns (ok: bool, id: ContainerId)
      requires daemon.Valid()
      modifies daemon
      ensures daemon.Valid() && Fair(old(daemon.containers), old(daemon.used), daemon.containers, daemon.used, a.id)
      ensures ok ==> id in daemon.containers && !daemon.containers[id].running && Prepared(daemon.containers[id], a, tpl)
      ensures daemon.failures >= old(daemon.failures)
      ensures daemon.failures == old(daemon.failures) ==>
                Settled(old(daemon.containers), daemon.containers, ok, id, false, a, tpl)
    {
      ok, id := false, "";
      ghost var c0, u0 := daemon.containers, daemon.used;
      var found, created := EnsureContainer(a, tpl);
      if found.None? {
        return;
      }
      id := found.value;
      ghost var c1 := daemon.containers;
      var info := daemon.Inspect(id);
      if info.None? {
        return;
      }
      if info.value.running {
        var stopped := daemon.Stop(id);
        if !stopped {
          return;
        }
        SwitchIsFair(c0, u0, c1, daemon.used, id, false, a.id);
      }
      ok := true;
    }

    /** Leaves the model with a container that runs. When the wait fails, the container may have
        been started all the same. */
    method StartModel(a: Actor, tpl: Template) returns (ok: bool, id: ContainerId)
      requires daemon.Valid()
      modifies daemon
      ensures daemon.Valid() && Fair(old(daemon.containers), old(daemon.used), daemon.containers, daemon.used, a.id)
      ensures ok ==> id in daemon.containers && daemon.containers[id].running && Prepared(daemon.containers[id], a, tpl)
      ensures daemon.failures >= old(daemon.failures)
      ensures daemon.failures == old(daemon.failures) ==>
                Settled(old(daemon.containers), daemon.containers, ok, id, true, a, tpl)
    {
      ok, id := false, "";
      ghost var c0, u0 := daemon.containers, daemon.used;
      var found, created := EnsureContainer(a, tpl);
      if found.None? {
        return;
      }
      id := found.value;
      ghost var c1 := daemon.containers;
      var info := daemon.Inspect(id);
      if info.None? {
        return;
      }
      if info.value.running {
        return true, id;
      }
      var started := daemon.Start(id);
      if !started {
        return;
      }
      SwitchIsFair(c0, u0, c1, daemon.used, id, true, a.id);
      ok := daemon.WaitUntilRunning(id);
    }

    /** Removes the model's container, if one is found that belongs to it. Unless a call fails, it
        is the one candidate the metadata or the name leads to, and nothing is removed only if
        there is none or it is another's. */
    method UnloadModel(a: Actor) returns (ok: bool, removed: Option<ContainerId>)
      requires daemon.Valid()
      modifies daemon
      ensures daemon.Valid() && Fair(old(daemon.containers), old(daemon.used), daemon.containers, daemon.used, a.id)
      ensures ok && removed.Some? ==> && removed.value in old(daemon.containers)
                                      && OwnedBy(old(daemon.containers)[removed.value], a.id)
                                      && daemon.containers == old(daemon.containers) - {removed.value}
      ensures removed.None? ==> daemon.containers == old(daemon.containers)
      ensures daemon.failures >= old(daemon.failures)
      ensures daemon.failures == old(daemon.failures) ==>
                && ok
                && (removed.Some? ==> Candidate(old(daemon.containers), a, removed.value))
                && (removed.None? ==> NothingOfIts(old(daemon.containers), a))
    {
      var found := ResolveContainerID(a);
      if found.None? {
        return false, None;
      }
      if found.value.None? {
        return true, None;
      }
      ghost var c0, u0 := daemon.containers, daemon.used;
      var id := found.value.value;
      var _ := StopOwn(id, a.id);
      ghost var c1, u1 := daemon.containers, daemon.used;
      ok := RemoveOwn(id, a.id);
      FairCompose(c0, u0, c1, u1, daemon.containers, daemon.used, a.id);
      return ok, Some(id);
    }

    /** Stops the model's container, if one is found that belongs to it. Unless a call fails, it is
        the one candidate the metadata or the name leads to, and nothing is stopped only if there
        is none or it is another's. */
    method StopModel(a: Actor) returns (ok: bool, stopped: Option<ContainerId>)
      requires daemon.Valid()
      modifies daemon
      ensures daemon.Valid() && Fair(old(daemon.containers), old(daemon.used), daemon.containers, daemon.used, a.id)
      ensures ok && stopped.Some? ==>
                && stopped.value in old(daemon.containers) && OwnedBy(old(daemon.containers)[stopped.value], a.id)
                && daemon.containers
                   == old(daemon.containers)[stopped.value := old(daemon.containers)[stopped.value].(running := false)]
      ensures stopped.None? ==> daemon.containers == old(daemon.containers)
      ensures daemon.failures >= old(daemon.failures)
      ensures daemon.failures == old(daemon.failures) ==>
                && ok
                && (stopped.Some? ==> Candidate(old(daemon.containers), a, stopped.value))
                && (stopped.None? ==> NothingOfIts(old(daemon.containers), a))
    {
      var found := ResolveContainerID(a);
      if found.None? {
        return false, None;
      }
      if found.value.None? {
        return true, None;
      }
      var id := found.value.value;
      var info := daemon.Inspect(id);
      if info.Some? && !info.value.running {
        return true, Some(id);
      }
      ok := StopOwn(id, a.id);
      return ok, Some(id);
    }

    method RunOperation(op: Operation)
      requires daemon.Valid()
      modifies daemon
      ensures daemon.Valid() && Fair(old(daemon.containers), old(daemon.used), daemon.containers, daemon.used, op.actor.id)
    {
      match op
      case Loading(a, tpl) => var _, _ := LoadModel(a, tpl);
      case Unloading(a) => var _, _ := UnloadModel(a);
      case Starting(a, tpl) => var _, _ := StartModel(a, tpl);
      case Stopping(a) => var _, _ := StopModel(a);
    }

    /** Any run of operations for any models, each of which may fail at any call: a container that
        belongs to none of the acting models is never stopped, removed or changed, whatever names
        the models' ids fold to. In particular one that is not managed, and one whose current label
        names a model that does not act. */
    method RunOperations(ops: seq<Operation>)
      requires daemon.Valid()
      modifies daemon
      ensures daemon.Valid()
      ensures forall id | id in old(daemon.containers) && Foreign(old(daemon.containers)[id], ops) ::
                id in daemon.containers && daemon.containers[id] == old(daemon.containers)[id]
    {
      ghost var states, actors := [daemon.containers], [];
      for k := 0 to |ops|
        invariant daemon.Valid() && |actors| == k && |states| == k + 1
        invariant states[0] == old(daemon.containers) && states[k] == daemon.containers
        invariant forall j | 0 <= j < k ::
                    actors[j] == ops[j].actor.id && TouchesOnlyOwn(states[j], states[j + 1], actors[j])
      {
        RunOperation(ops[k]);
        states, actors := states + [daemon.containers], actors + [ops[k].actor.id];
      }
      forall id | id in states[0] && Foreign(states[0][id], ops)
        ensures id in daemon.containers && daemon.containers[id] == states[0][id]
      {
        OthersAreLeftAlone(states, actors, id);
      }
    }
  }

  datatype Operation =
    | Loading(actor: Actor, template: Template)
    | Unloading(actor: Actor)
    | Starting(actor: Actor, template: Template)
    | Stopping(actor: Actor)

  /** A container that belongs to none of the models that act. */
  predicate Foreign(c: Container, ops: seq<Operation>) {
    forall k | 0 <= k < |ops| :: !OwnedBy(c, ops[k].actor.id)
  }

  /** Whose container nobody acts for: it is not managed, or its current label names no model that
      acts, whatever its former label says. */
  lemma ForeignBecause(c: Container, ops: seq<Operation>)
    requires || !Managed(c)
             || (MODEL_ID in c.labels && Trim(c.labels[MODEL_ID]) != ""
                 && forall k | 0 <= k < |ops| :: Trim(ops[k].actor.id) != Trim(c.labels[MODEL_ID]))
    ensures Foreign(c, ops)
  {
    forall k | 0 <= k < |ops| ensures !OwnedBy(c, ops[k].actor.id) {
      if Managed(c) {
        CurrentLabelDecides(c, ops[k].actor.id);
      }
    }
  }

  function NewContainer(a: Actor, tpl: Template): Container {
    var template := if Trim(tpl.id) != "" then Trim(tpl.id) else Trim(a.templateId);
    Container(ContainerName(a.id, a.name),
              map[MANAGED := "true", MODEL_ID := a.id, TEMPLATE_ID := template,
                  LEGACY_MANAGED := "true", LEGACY_MODEL_ID := a.id, LEGACY_TEMPLATE_ID := template],
              tpl.image, tpl.command, tpl.binds, false)
  }

  /** A container as an operation may use it: the model's own and matching the template, or made
      just now from it. */
  predicate Prepared(c: Container, a: Actor, tpl: Template) {
    (OwnedBy(c, a.id) && Matches(c, a, tpl)) || c.(running := false) == NewContainer(a, tpl)
  }

  predicate Usable(before: Containers, after: Containers, id: ContainerId, created: bool, a: Actor, tpl: Template) {
    && id in after
    && (created ==> id !in before && after[id] == NewContainer(a, tpl))
    && (!created ==> OwnedBy(after[id], a.id) && Matches(after[id], a, tpl))
  }

  /** Starting or stopping a usable container is fair. */
  lemma SwitchIsFair(c0: Containers, u0: set<ContainerId>, c1: Containers, u1: set<ContainerId>, id: ContainerId,
                     running: bool, modelId: string)
    requires Fair(c0, u0, c1, u1, modelId) && id in c1 && (id in c0 ==> OwnedBy(c1[id], modelId))
    ensures Fair(c0, u0, c1[id := c1[id].(running := running)], u1, modelId)
  {
    SwitchTouchesOwn(c0, c1, id, running, modelId);
  }

  lemma SwitchTouchesOwn(c0: Containers, c1: Containers, id: ContainerId, running: bool, modelId: string)
    requires TouchesOnlyOwn(c0, c1, modelId) && id in c1 && (id in c0 ==> OwnedBy(c1[id], modelId))
    ensures TouchesOnlyOwn(c0, c1[id := c1[id].(running := running)], modelId)
  {
    if id in c0 {
      SameLabelsSameOwner(c0[id], c1[id], modelId);
    }
  }

  lemma SameLabelsSameOwner(c: Container, d: Container, modelId: string)
    requires c.labels == d.labels
    ensures OwnedBy(c, modelId) <==> OwnedBy(d, modelId)
  {
  }

  lemma NewLabelsRead(a: Actor, tpl: Template)
    ensures var labels := NewContainer(a, tpl).labels;
            && (MANAGED in labels && labels[MANAGED] == "true") && (MODEL_ID in labels && labels[MODEL_ID] == a.id)
            && (TEMPLATE_ID in labels && labels[TEMPLATE_ID] == ExpectedTemplate(a, tpl))
            && LEGACY_TEMPLATE_ID in labels && labels[LEGACY_TEMPLATE_ID] == ExpectedTemplate(a, tpl)
  {
    LabelKeysDiffer();
  }

  /** A new container belongs to its model and matches what it was made from. */
  lemma NewContainerIsOwned(a: Actor, tpl: Template)
    requires Trim(a.id) != ""
    ensures OwnedBy(NewContainer(a, tpl), a.id) && Matches(NewContainer(a, tpl), a, tpl)
  {
    NewLabelsRead(a, tpl);
    TrimIsIdempotent(tpl.id);
    TrimIsIdempotent(a.templateId);
    assert Trim("true") == "true";
    assert Ports.Lower("true") == "true";
  }

  /** What is reused is what would be made: same image, command and binds, and no other template. */
  lemma ReusedIsLikeNew(c: Container, a: Actor, tpl: Template)
    ensures var made := NewContainer(a, tpl);
            var of := ReadLabel(c.labels, TEMPLATE_ID, LEGACY_TEMPLATE_ID);
            Matches(c, a, tpl)
            <==> && Trim(c.image) == Trim(made.image) && Trims(c.command) == Trims(made.command)
                 && multiset(Trims(c.binds)) == multiset(Trims(made.binds))
                 && (of == "" || Trim(made.labels[TEMPLATE_ID]) == "" || of == Trim(made.labels[TEMPLATE_ID]))
  {
    NewLabelsRead(a, tpl);
    TrimIsIdempotent(tpl.id);
    TrimIsIdempotent(a.templateId);
  }

  lemma LabelKeysDiffer()
    ensures MANAGED != MODEL_ID && MANAGED != TEMPLATE_ID && MODEL_ID != TEMPLATE_ID
    ensures MANAGED != LEGACY_MANAGED && MANAGED != LEGACY_MODEL_ID && MANAGED != LEGACY_TEMPLATE_ID
    ensures MODEL_ID != LEGACY_MANAGED && MODEL_ID != LEGACY_MODEL_ID && MODEL_ID != LEGACY_TEMPLATE_ID
    ensures TEMPLATE_ID != LEGACY_MANAGED && TEMPLATE_ID != LEGACY_MODEL_ID && TEMPLATE_ID != LEGACY_TEMPLATE_ID
  {
    assert |MANAGED| != |MODEL_ID|;
  }
}
