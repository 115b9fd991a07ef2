/** The default clean: reclaim stopped clusters and unused resources beside other Docker clients. */
module DockerGarbage {
  import opened Common
  import opened DockerLocal

  /** Labels of any resource: bridge cluster and owner, and the owner of a host node. */
  datatype Tag = Tag(cluster: Option<string>, owner: Option<string>, hostOwner: Option<string>)

  datatype ContainerState = ContainerState(status: string, running: bool)

  datatype VolumeState = VolumeState(tag: Tag, referenced: bool)

  datatype Event =
    | Observed(record: Record, running: bool)
    | RemovedContainer(id: nat, running: bool)
    | RemovedNetwork(id: nat)
    | RemovedVolume(name: string, tag: Tag)  // as it was last inspected: names are reused

  /** Container and network identities are never reused, so their labels and names never change. */
  datatype Registry = Registry(containerTag: nat -> Tag, containerName: nat -> string, networkTag: nat -> Tag,
                               networkName: nat -> string)

  predicate Marked(tag: Tag, r: Record) {
    tag.cluster == Some(r.cluster) && tag.owner == Some(r.owner)
  }

  /** An effect that stops nothing and takes nothing from cluster t. */
  predicate Spares(reg: Registry, e: Event, t: Record)
    requires ValidRecord(t)
  {
    match e
    case Observed(_, _) => true
    case RemovedContainer(id, running) => !running && !Marked(reg.containerTag(id), t)
    case RemovedNetwork(id) => !Marked(reg.networkTag(id), t)
    case RemovedVolume(name, _) => name !in ResourceNames(t, Volume)
  }

  function TagOf(reg: Registry, e: Event): Tag
    requires !e.Observed?
  {
    match e
    case RemovedContainer(id, _) => reg.containerTag(id)
    case RemovedNetwork(id) => reg.networkTag(id)
    case RemovedVolume(_, tag) => tag
  }

  predicate Retained(tag: Tag, owners: set<string>) {
    (tag.owner.Some? && tag.owner.value in owners) || (tag.hostOwner.Some? && tag.hostOwner.value in owners)
  }

  /** The removed resource carries the label of none of these owners. */
  predicate IsUnowned(reg: Registry, e: Event, owners: set<string>) {
    e.Observed? || !Retained(TagOf(reg, e), owners)
  }

  /** The removed resource carries the labels of this cluster. */
  predicate Belongs(reg: Registry, e: Event, r: Record) {
    !e.Observed? && Marked(TagOf(reg, e), r)
  }

  /** Only stopped containers go, and volumes only when data may be deleted. */
  predicate Calm(e: Event, deleteData: bool) {
    !e.Observed? && (e.RemovedContainer? ==> !e.running) && (e.RemovedVolume? ==> deleteData)
  }

  ghost predicate SparesAt(reg: Registry, log: seq<Event>, t: Record, i: int)
    requires ValidRecord(t)
  {
    0 <= i < |log| ==> Spares(reg, log[i], t)
  }

  ghost predicate SparesAll(reg: Registry, log: seq<Event>, t: Record)
    requires ValidRecord(t)
  {
    forall i {:trigger SparesAt(reg, log, t, i)} :: SparesAt(reg, log, t, i)
  }

  ghost predicate Retains(reg: Registry, log: seq<Event>, retained: seq<Record>) {
    forall t :: t in retained ==> ValidRecord(t) && SparesAll(reg, log, t)
  }

  lemma {:induction false} StillRetains(reg: Registry, log: seq<Event>, retained: seq<Record>, e: Event)
    requires Retains(reg, log, retained) && forall t :: t in retained ==> Spares(reg, e, t)
    ensures Retains(reg, log + [e], retained)
  {
    forall t | t in retained ensures SparesAll(reg, log + [e], t) {
      forall i ensures SparesAt(reg, log + [e], t, i) {
        assert SparesAt(reg, log, t, i);
      }
    }
  }

  lemma {:induction false} RetainsBoth(reg: Registry, a: seq<Event>, b: seq<Event>, retained: seq<Record>)
    requires Retains(reg, a, retained) && Retains(reg, b, retained)
    ensures Retains(reg, a + b, retained)
  {
    forall t | t in retained ensures SparesAll(reg, a + b, t) {
      forall i ensures SparesAt(reg, a + b, t, i) {
        assert SparesAt(reg, a, t, i) && SparesAt(reg, b, t, i - |a|);
      }
    }
  }

  /** A data volume's name gives away its cluster, so clusters never share one. */
  lemma {:induction false} VolumeTellsCluster(r: Record, name: string)
    requires ValidRecord(r) && name in ResourceNames(r, Volume)
    ensures |name| >= 14 && name[7..|name| - 7] == r.cluster
  {
    var i: nat :| 1 <= i <= r.nodes && name == DataName(r.cluster, i);
    assert name == "crowdb-" + r.cluster + ("-" + Digit(i) + "-data");
  }

  lemma {:induction false} VolumesDiffer(a: Record, b: Record, name: string)
    requires ValidRecord(a) && ValidRecord(b) && a.cluster != b.cluster && name in ResourceNames(a, Volume)
    ensures name !in ResourceNames(b, Volume)
  {
    VolumeTellsCluster(a, name);
    if name in ResourceNames(b, Volume) {
      VolumeTellsCluster(b, name);
      assert false;
    }
  }

  class Daemon {
    const reg: Registry
    var containers: map<nat, ContainerState>
    var networks: map<nat, bool>  // whether containers are attached
    var volumes: map<string, VolumeState>
    var log: seq<Event>           // what this process observed and did

    /** Other clients may do anything at any time. */
    method Interfere()
      modifies this`containers, this`networks, this`volumes
    {
      containers := *;
      networks := *;
      volumes := *;
    }

    /** Non-force removals: Docker refuses what is running, attached or referenced. */
    method RmContainer(id: nat) returns (ok: bool, ghost did: seq<Event>)
      modifies this
      ensures log == old(log) + did && (did == [] || did == [RemovedContainer(id, false)]) && (ok ==> did != [])
    {
      did, ok := [], false;
      Interfere();
      if id in containers && !containers[id].running {
        did := [RemovedContainer(id, containers[id].running)];
        log := log + [RemovedContainer(id, containers[id].running)];
        containers := containers - {id};
        ok := *;
      }
      Interfere();
    }

    method RmNetwork(id: nat) returns (ok: bool, ghost did: seq<Event>)
      modifies this
      ensures log == old(log) + did && (did == [] || did == [RemovedNetwork(id)]) && (ok ==> did != [])
    {
      did, ok := [], false;
      Interfere();
      if id in networks && !networks[id] {
        did := [RemovedNetwork(id)];
        log := log + [RemovedNetwork(id)];
        networks := networks - {id};
        ok := *;
      }
      Interfere();
    }

    method RmVolume(name: string, tag: Tag) returns (ok: bool, ghost did: seq<Event>)
      modifies this
      ensures log == old(log) + did && (did == [] || did == [RemovedVolume(name, tag)]) && (ok ==> did != [])
    {
      did, ok := [], false;
      Interfere();
      if name in volumes && !volumes[name].referenced {
        did := [RemovedVolume(name, tag)];
        log := log + [RemovedVolume(name, tag)];
        volumes := volumes - {name};
        ok := *;
      }
      Interfere();
    }

    /** Reclaim unused resources of anyone, except those that a retained receipt names or owns. */
    method Collect(records: seq<Record>, hostOwners: set<string>, deleteData: bool)
      returns (ok: bool, ghost added: seq<Event>)
      requires forall r :: r in records ==> ValidRecord(r)
      modifies this
      ensures log == old(log) + added && Retains(reg, added, records)
      ensures forall e :: e in added ==> Calm(e, deleteData)
      ensures forall e :: e in added ==> IsUnowned(reg, e, hostOwners)
    {
      var owners := (set r | r in records :: r.owner) + hostOwners;
      added := [];
      Interfere();
      var todo: set<nat> :| todo <= containers.Keys;
      while todo != {}
        invariant log == old(log) + added && Retains(reg, added, records)
        invariant forall e :: e in added ==> e.RemovedContainer? && !e.running
        invariant forall e :: e in added ==> IsUnowned(reg, e, owners)
        decreases todo
      {
        var id :| id in todo;
        todo := todo - {id};
        Interfere();
        if id !in containers { return false, added; }
        var idle := containers[id].status in {"created", "exited", "dead"} && !containers[id].running;
        if idle && !Retained(reg.containerTag(id), owners) {
          ghost var e := RemovedContainer(id, false);
          StillRetains(reg, added, records, e);
          ghost var did;
          ok, did := RmContainer(id);
          assert added + did == added || added + did == added + [e];
          added := added + did;
          if !ok { return; }
        }
      }
      ghost var more;
      ok, more := CollectNetworks(records, owners);
      RetainsBoth(reg, added, more, records);
      added := added + more;
      if !ok || !deleteData { return; }
      ok, more := CollectVolumes(records, owners);
      RetainsBoth(reg, added, more, records);
      added := added + more;
    }

    method CollectNetworks(records: seq<Record>, owners: set<string>) returns (ok: bool, ghost added: seq<Event>)
      requires forall r :: r in records ==> ValidRecord(r) && r.owner in owners
      modifies this
      ensures log == old(log) + added && Retains(reg, added, records)
      ensures forall e :: e in added ==> e.RemovedNetwork? && IsUnowned(reg, e, owners)
    {
      added, ok := [], true;
      Interfere();
      var todo: set<nat> :| todo <= networks.Keys;
      while todo != {}
        invariant log == old(log) + added && Retains(reg, added, records)
        invariant forall e :: e in added ==> e.RemovedNetwork? && IsUnowned(reg, e, owners)
        decreases todo
      {
        var id :| id in todo;
        todo := todo - {id};
        Interfere();
        if id !in networks { return false, added; }
        var protected := exists r :: r in records && reg.networkName(id) in ResourceNames(r, Network);
        var builtIn := reg.networkName(id) in {"bridge", "host", "none"};
        if !protected && !Retained(reg.networkTag(id), owners) && !networks[id] && !builtIn {
          ghost var e := RemovedNetwork(id);
          StillRetains(reg, added, records, e);
          ghost var did;
          ok, did := RmNetwork(id);
          assert added + did == added || added + did == added + [e];
          added := added + did;
          if !ok { return; }
        }
      }
    }

    method CollectVolumes(records: seq<Record>, owners: set<string>) returns (ok: bool, ghost added: seq<Event>)
      requires forall r :: r in records ==> ValidRecord(r) && r.owner in owners
      modifies this
      ensures log == old(log) + added && Retains(reg, added, records)
      ensures forall e :: e in added ==> e.RemovedVolume? && IsUnowned(reg, e, owners)
    {
      added, ok := [], true;
      Interfere();
      var todo: set<string> :| todo <= volumes.Keys;
      while todo != {}
        invariant log == old(log) + added && Retains(reg, added, records)
        invariant forall e :: e in added ==> e.RemovedVolume? && IsUnowned(reg, e, owners)
        decreases todo
      {
        var name :| name in todo;
        todo := todo - {name};
        Interfere();
        if name !in volumes { return false, added; }
        var protected := exists r :: r in records && name in ResourceNames(r, Volume);
        if !protected && !Retained(volumes[name].tag, owners) && !volumes[name].referenced {
          var tag := volumes[name].tag;
          ghost var e := RemovedVolume(name, tag);
          StillRetains(reg, added, records, e);
          ghost var did;
          ok, did := RmVolume(name, tag);
          assert added + did == added || added + did == added + [e];
          added := added + did;
          if !ok { return; }
        }
      }
    }

    /** Clean one cluster that was seen stopped, refusing whatever came back to life. */
    method CleanStopped(r: Record, deleteData: bool, ghost others: seq<Record>)
      returns (ok: bool, ghost added: seq<Event>)
      requires ValidRecord(r) && forall t :: t in others ==> ValidRecord(t) && t.cluster != r.cluster
      modifies this
      ensures log == old(log) + added && Retains(reg, added, others)
      ensures forall e :: e in added ==> Calm(e, deleteData) && Belongs(reg, e, r)
    {
      ghost var more;
      ok, added := CleanContainers(r, others);
      if !ok { return; }
      ok, more := CleanNetworks(r, others);
      RetainsBoth(reg, added, more, others);
      added := added + more;
      if !ok || !deleteData { return; }
      ok, more := CleanVolumes(r, others);
      RetainsBoth(reg, added, more, others);
      added := added + more;
    }

    method CleanContainers(r: Record, ghost others: seq<Record>) returns (ok: bool, ghost added: seq<Event>)
      requires ValidRecord(r) && forall t :: t in others ==> ValidRecord(t) && t.cluster != r.cluster
      modifies this
      ensures log == old(log) + added && Retains(reg, added, others)
      ensures forall e :: e in added ==> e.RemovedContainer? && !e.running && Belongs(reg, e, r)
    {
      added, ok := [], true;
      Interfere();
      var names := ResourceNames(r, Container);
      var mine := set id | id in containers && Marked(reg.containerTag(id), r) && reg.containerName(id) in names;
      if exists id :: id in mine && containers[id].running { return false, added; }
      while mine != {}
        invariant log == old(log) + added && Retains(reg, added, others)
        invariant forall id :: id in mine ==> Marked(reg.containerTag(id), r)
        invariant forall e :: e in added ==> e.RemovedContainer? && !e.running && Belongs(reg, e, r)
        decreases mine
      {
        var id :| id in mine;
        mine := mine - {id};
        Interfere();
        if id !in containers || containers[id].running { return false, added; }
        ghost var e, did := RemovedContainer(id, false), [];
        StillRetains(reg, added, others, e);
        ok, did := RmContainer(id);
        assert added + did == added || added + did == added + [e];
        added := added + did;
        if !ok { return; }
      }
    }

    method CleanNetworks(r: Record, ghost others: seq<Record>) returns (ok: bool, ghost added: seq<Event>)
      requires ValidRecord(r) && forall t :: t in others ==> ValidRecord(t) && t.cluster != r.cluster
      modifies this
      ensures log == old(log) + added && Retains(reg, added, others)
      ensures forall e :: e in added ==> e.RemovedNetwork? && Belongs(reg, e, r)
    {
      added, ok := [], true;
      Interfere();
      var names := ResourceNames(r, Network);
      var mine := set id | id in networks && Marked(reg.networkTag(id), r) && reg.networkName(id) in names;
      while mine != {}
        invariant log == old(log) + added && Retains(reg, added, others)
        invariant forall id :: id in mine ==> Marked(reg.networkTag(id), r)
        invariant forall e :: e in added ==> e.RemovedNetwork? && Belongs(reg, e, r)
        decreases mine
      {
        var id :| id in mine;
        mine := mine - {id};
        Interfere();
        if id !in networks || networks[id] { return false, added; }
        ghost var e, did := RemovedNetwork(id), [];
        StillRetains(reg, added, others, e);
        ok, did := RmNetwork(id);
        assert added + did == added || added + did == added + [e];
        added := added + did;
        if !ok { return; }
      }
    }

    method CleanVolumes(r: Record, ghost others: seq<Record>) returns (ok: bool, ghost added: seq<Event>)
      requires ValidRecord(r) && forall t :: t in others ==> ValidRecord(t) && t.cluster != r.cluster
      modifies this
      ensures log == old(log) + added && Retains(reg, added, others)
      ensures forall e :: e in added ==> e.RemovedVolume? && Belongs(reg, e, r)
    {
      added, ok := [], true;
      Interfere();
      var data := set name | name in volumes && Marked(volumes[name].tag, r) && name in ResourceNames(r, Volume);
      while data != {}
        invariant log == old(log) + added && Retains(reg, added, others)
        invariant data <= ResourceNames(r, Volume)
        invariant forall e :: e in added ==> e.RemovedVolume? && Belongs(reg, e, r)
        decreases data
      {
        var name :| name in data;
        data := data - {name};
        Interfere();
        if name !in volumes || !Marked(volumes[name].tag, r) || volumes[name].referenced { return false, added; }
        var tag := volumes[name].tag;
        ghost var e, did := RemovedVolume(name, tag), [];
        forall t | t in others ensures Spares(reg, e, t) {
          VolumesDiffer(r, t, name);
        }
        StillRetains(reg, added, others, e);
        ok, did := RmVolume(name, tag);
        assert added + did == added || added + did == added + [e];
        added := added + did;
        if !ok { return; }
      }
    }

    /** Decide per record, from what runs at that moment, whether it is retained or cleaned. */
    method Select(records: seq<Record>) returns (retained: seq<Record>, stopped: seq<Record>, ghost added: seq<Event>)
      requires forall r :: r in records ==> ValidRecord(r)
      requires forall i, j :: 0 <= i < j < |records| ==> records[i].cluster != records[j].cluster
      modifies this
      ensures log == old(log) + added && forall e :: e in added ==> e.Observed?
      ensures forall e :: e in added && e.running ==> e.record in retained
      ensures forall r :: r in records ==> r in retained || r in stopped
      ensures forall r :: r in stopped ==> r in records && Observed(r, false) in added
      ensures forall r :: r in retained || r in stopped ==> ValidRecord(r)
      ensures forall r, s :: r in retained && s in stopped ==> r.cluster != s.cluster
    {
      retained, stopped, added := [], [], [];
      for i := 0 to |records|
        invariant log == old(log) + added && forall e :: e in added ==> e.Observed?
        invariant forall e :: e in added && e.running ==> e.record in retained
        invariant forall r :: r in records[..i] ==> r in retained || r in stopped
        invariant forall r :: r in stopped ==> r in records && Observed(r, false) in added
        invariant forall r :: r in retained || r in stopped ==> r in records[..i]
        invariant forall r, s :: r in retained && s in stopped ==> r.cluster != s.cluster
      {
        var r := records[i];
        forall s | s in records[..i] ensures s.cluster != r.cluster && ValidRecord(s) {
          var j :| 0 <= j < i && records[j] == s;
        }
        Interfere();
        var running := exists id :: id in containers && Marked(reg.containerTag(id), r)
                         && reg.containerName(id) in ResourceNames(r, Container) && containers[id].running;
        log := log + [Observed(r, running)];
        added := added + [Observed(r, running)];
        if running { retained := retained + [r]; } else { stopped := stopped + [r]; }
        assert records[..i + 1] == records[..i] + [r];
      }
    }

    /** Clean the clusters seen stopped, one after the other. */
    method CleanAllStopped(stopped: seq<Record>, deleteData: bool, ghost retained: seq<Record>)
      returns (ok: bool, ghost added: seq<Event>)
      requires forall r, s :: r in retained && s in stopped ==> r.cluster != s.cluster
      requires forall r :: r in retained || r in stopped ==> ValidRecord(r)
      modifies this
      ensures log == old(log) + added && Retains(reg, added, retained)
      ensures forall e :: e in added ==> Calm(e, deleteData) && exists r :: r in stopped && Belongs(reg, e, r)
    {
      ok, added := true, [];
      ghost var more: seq<Event>;
      for i := 0 to |stopped|
        invariant log == old(log) + added && Retains(reg, added, retained)
        invariant forall e :: e in added ==> Calm(e, deleteData) && exists r :: r in stopped && Belongs(reg, e, r)
      {
        ok, more := CleanStopped(stopped[i], deleteData, retained);
        RetainsBoth(reg, added, more, retained);
        assert stopped[i] in stopped;
        added := added + more;
        if !ok { return; }
      }
    }

    /**
     Clean with neither a cluster nor all clusters selected. Whatever other clients do
     meanwhile, nothing is stopped, no running container is removed, and nothing of a
     cluster that was seen running is removed. What is removed belongs to a cluster that
     was seen stopped, or is collected and belongs to no retained host; with kept data,
     nothing that any receipt names or owns is collected either.
     */
    method DefaultClean(records: seq<Record>, hostOwners: set<string>, keepData: bool)
      returns (ok: bool, ghost added: seq<Event>, ghost collected: seq<Event>)
      requires forall r :: r in records ==> ValidRecord(r)
      requires forall i, j :: 0 <= i < j < |records| ==> records[i].cluster != records[j].cluster
      modifies this
      ensures log == old(log) + added
      ensures forall r :: r in records && Observed(r, true) in added ==> SparesAll(reg, added, r)
      ensures forall e :: e in added ==> e.Observed? || Calm(e, !keepData)
      ensures forall e :: e in collected ==> IsUnowned(reg, e, hostOwners)
      ensures forall e :: e in added && !e.Observed? && e !in collected ==>
                exists r :: r in records && Belongs(reg, e, r) && Observed(r, false) in added
      ensures keepData ==> forall r :: r in records ==> SparesAll(reg, collected, r)
    {
      var retained, stopped;
      ghost var seen, more: seq<Event>;
      collected := [];
      retained, stopped, seen := Select(records);
      added := seen;
      forall t | t in retained ensures SparesAll(reg, added, t) {
        forall i ensures SparesAt(reg, added, t, i) {}
      }
      ok, more := CleanAllStopped(stopped, !keepData, retained);
      RetainsBoth(reg, added, more, retained);
      added := added + more;
      if !ok {
        forall t | t in records ensures SparesAll(reg, collected, t) {
          forall i ensures SparesAt(reg, collected, t, i) {}
        }
        return;
      }
      var kept := retained + if keepData then stopped else [];
      ok, collected := Collect(kept, hostOwners, !keepData);
      assert Retains(reg, collected, retained) by {
        forall t | t in retained ensures ValidRecord(t) && SparesAll(reg, collected, t) {
          assert t in kept;
        }
      }
      RetainsBoth(reg, added, collected, retained);
      added := added + collected;
    }
  }
}
