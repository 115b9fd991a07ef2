/**
 Host media supplied to a node. Each launch checks the supplied media, compares them with the
 declaration retained in the data root, and replaces that declaration. Launches of one data
 root follow each other.
 */
module RetainedStorage {
  import opened Common

  const DISK_ROOT := "/opt/crowdb/data/disks"

  datatype Backend = File | BlockDevice

  /** A supplied path and what the host says about it. */
  datatype Medium = Medium(path: string, name: string, symlink: bool, present: bool, regular: bool,
                           block: bool, size: nat, number: string, resource: string)

  datatype Supply = Supply(backend: Backend, medium: Medium)

  /** One recorded mapping; declarations written by old versions have no resource identity. */
  datatype Disk = Disk(backend: Backend, source: string, path: string, backing: string, resource: Option<string>)

  /** An entry of the retained file: not a verified mapping, a mapping, or one with foreign fields. */
  datatype Entry = Unverified | Mapping(disk: Disk, foreign: bool)

  datatype Retained = Missing | Invalid | Declaration(entries: seq<Entry>)

  // ---- supplied media ----

  predicate Delimits(c: char) {
    c == ',' || c == ':' || c == '\n' || c == '\r'
  }

  predicate Mountable(path: string) {
    forall i :: 0 <= i < |path| ==> !Delimits(path[i])
  }

  predicate Suitable(s: Supply) {
    var m := s.medium;
    && m.path != "" && m.path[0] == '/' && !m.symlink && Mountable(m.path) && m.present
    && match s.backend
       case File => m.regular && m.size != 0
       case BlockDevice => m.block
  }

  predicate AllSuitable(supplied: seq<Supply>) {
    forall i :: 0 <= i < |supplied| ==> Suitable(supplied[i])
  }

  /** The order of the checks: files first, then devices. */
  function Supplied(files: seq<Medium>, devices: seq<Medium>): seq<Supply> {
    seq(|files|, i requires 0 <= i < |files| => Supply(File, files[i])) +
    seq(|devices|, i requires 0 <= i < |devices| => Supply(BlockDevice, devices[i]))
  }

  function Declare(s: Supply): Disk {
    Disk(s.backend, s.medium.path, DISK_ROOT + "/" + s.medium.name,
         (if s.backend.File? then "file:" else "device:") + s.medium.number, Some(s.medium.resource))
  }

  function DeclareAll(supplied: seq<Supply>): seq<Disk> {
    seq(|supplied|, i requires 0 <= i < |supplied| => Declare(supplied[i]))
  }

  predicate Apart(a: Disk, b: Disk) {
    a.path != b.path && a.resource != b.resource
  }

  /** No two mappings share a node path or an underlying resource. */
  ghost predicate Injective(disks: seq<Disk>) {
    && (forall i {:trigger disks[i]} :: 0 <= i < |disks| ==> disks[i].resource.Some?)
    && (forall i, j {:trigger Apart(disks[i], disks[j])} :: 0 <= i < j < |disks| ==> Apart(disks[i], disks[j]))
  }

  ghost predicate ApartFrom(disks: seq<Disk>, d: Disk) {
    forall i :: 0 <= i < |disks| ==> Apart(disks[i], d)
  }

  lemma InjectiveExtends(disks: seq<Disk>, d: Disk, rest: seq<Disk>)
    requires Injective(disks) && d.resource.Some?
    ensures ApartFrom(disks, d) ==> Injective(disks + [d])
    ensures Injective(disks + [d] + rest) ==> ApartFrom(disks, d)
  {
    var all := disks + [d] + rest;
    if Injective(all) {
      forall i | 0 <= i < |disks|
        ensures Apart(disks[i], d)
      {
        assert Apart(all[i], all[|disks|]);
      }
    }
  }

  function Targets(disks: seq<Disk>): set<string> {
    set d <- disks :: d.path
  }

  function Resources(disks: seq<Disk>): set<string> {
    set d <- disks | d.resource.Some? :: d.resource.value
  }

  lemma SeenMeansNotApart(disks: seq<Disk>, d: Disk)
    requires d.resource.Some?
    ensures ApartFrom(disks, d) <==> d.path !in Targets(disks) && d.resource.value !in Resources(disks)
    ensures Targets(disks + [d]) == Targets(disks) + {d.path}
    ensures Resources(disks + [d]) == Resources(disks) + {d.resource.value}
  {
    if d.path !in Targets(disks) && d.resource.value !in Resources(disks) {
      forall i | 0 <= i < |disks|
        ensures Apart(disks[i], d)
      {
        assert disks[i] in disks;
      }
    }
    assert forall x <- disks + [d] :: x in disks || x == d;
    assert d in disks + [d] && forall x <- disks :: x in disks + [d];
  }

  lemma OneMoreSupply(supplied: seq<Supply>, i: nat)
    requires i < |supplied|
    ensures DeclareAll(supplied[..i + 1]) == DeclareAll(supplied[..i]) + [Declare(supplied[i])]
    ensures DeclareAll(supplied) == DeclareAll(supplied[..i]) + [Declare(supplied[i])] + DeclareAll(supplied[i + 1..])
    ensures AllSuitable(supplied[..i + 1]) <==> AllSuitable(supplied[..i]) && Suitable(supplied[i])
    ensures AllSuitable(supplied) ==> AllSuitable(supplied[..i + 1])
  {
    if AllSuitable(supplied[..i + 1]) {
      assert supplied[..i + 1][i] == supplied[i];
      assert forall k :: 0 <= k < i ==> supplied[..i][k] == supplied[..i + 1][k];
    }
  }

  /** Accept exactly suitable media with distinct node paths and distinct underlying resources. */
  method Check(supplied: seq<Supply>) returns (r: Result<seq<Disk>>)
    ensures r.Ok? <==> AllSuitable(supplied) && Injective(DeclareAll(supplied))
    ensures r.Ok? ==> r.value == DeclareAll(supplied)
  {
    var disks, targets, resources: set<string> := [], {}, {};
    var i := 0;
    while i < |supplied|
      invariant 0 <= i <= |supplied| && AllSuitable(supplied[..i])
      invariant disks == DeclareAll(supplied[..i]) && Injective(disks)
      invariant targets == Targets(disks) && resources == Resources(disks)
    {
      OneMoreSupply(supplied, i);
      if !Suitable(supplied[i]) {
        return Error("unsuitable disk input");
      }
      var d := Declare(supplied[i]);
      InjectiveExtends(disks, d, DeclareAll(supplied[i + 1..]));
      SeenMeansNotApart(disks, d);
      if d.path in targets || d.resource.value in resources {
        return Error("duplicate disk target or underlying resource");
      }
      targets, resources := targets + {d.path}, resources + {d.resource.value};
      disks := disks + [d];
      i := i + 1;
    }
    assert supplied[..i] == supplied;
    r := Ok(disks);
  }

  /** Supplied files are checked first, then devices. */
  method Inputs(files: seq<Medium>, devices: seq<Medium>) returns (r: Result<seq<Disk>>)
    ensures var supplied := Supplied(files, devices);
            && (r.Ok? <==> AllSuitable(supplied) && Injective(DeclareAll(supplied)))
            && (r.Ok? ==> r.value == DeclareAll(supplied))
  {
    r := Check(Supplied(files, devices));
  }

  // ---- the retained declaration ----

  /** The new mapping keeps the old one; an old mapping without a resource identity may gain one. */
  predicate Continues(was: Disk, now: Disk) {
    && now.path == was.path && now.backend == was.backend && now.source == was.source && now.backing == was.backing
    && (was.resource.Some? ==> now.resource == was.resource)
  }

  ghost predicate KeptIn(was: Disk, disks: seq<Disk>) {
    exists d <- disks :: Continues(was, d)
  }

  ghost predicate Keeps(was: seq<Disk>, now: seq<Disk>) {
    forall d <- was :: KeptIn(d, now)
  }

  predicate Named(d: Disk) {
    d.source != "" && d.path != "" && d.backing != ""
  }

  ghost predicate Readable(retained: Retained) {
    match retained
    case Missing => true
    case Invalid => false
    case Declaration(entries) =>
      && (forall i :: 0 <= i < |entries| ==> entries[i].Mapping? && Named(entries[i].disk) && !entries[i].foreign)
      && (forall i, j :: 0 <= i < j < |entries| ==> entries[i].disk.path != entries[j].disk.path)
  }

  function Mappings(retained: Retained): seq<Disk>
    requires Readable(retained)
  {
    if retained.Declaration? then
      seq(|retained.entries|, i requires 0 <= i < |retained.entries| => retained.entries[i].disk)
    else []
  }

  function Recorded(disks: seq<Disk>): Retained {
    Declaration(seq(|disks|, i requires 0 <= i < |disks| => Mapping(disks[i], false)))
  }

  /** Look up the supplied mapping for a node path. */
  method Find(disks: seq<Disk>, path: string) returns (found: Option<Disk>)
    requires Injective(disks)
    ensures found.Some? ==> found.value in disks && found.value.path == path
    ensures forall d <- disks :: d.path == path ==> found == Some(d)
  {
    found := None;
    for i := 0 to |disks|
      invariant found.Some? ==> found.value in disks && found.value.path == path
      invariant forall k :: 0 <= k < i && disks[k].path == path ==> found == Some(disks[k])
    {
      if disks[i].path == path {
        assert forall k :: 0 <= k < i ==> Apart(disks[k], disks[i]);
        found := Some(disks[i]);
      }
    }
  }

  /** Accept exactly the media that retain every recorded mapping of a readable declaration. */
  method ValidateRetained(retained: Retained, disks: seq<Disk>) returns (ok: bool)
    requires Injective(disks)
    ensures ok <==> Readable(retained) && Keeps(Mappings(retained), disks)
  {
    if !retained.Declaration? {
      return retained.Missing?;
    }
    var entries := retained.entries;
    var seen: set<string> := {};
    for i := 0 to |entries|
      invariant Readable(Declaration(entries[..i]))
      invariant forall k :: 0 <= k < i ==> KeptIn(entries[k].disk, disks)
      invariant forall p :: p in seen <==> exists k :: 0 <= k < i && entries[k].disk.path == p
    {
      var e := entries[i];
      if e.Unverified? || !Named(e.disk) {
        return false;
      }
      if e.disk.path in seen {
        return false;
      }
      seen := seen + {e.disk.path};
      var expected := Find(disks, e.disk.path);
      if expected.None? || e.foreign || !Continues(e.disk, expected.value) {
        assert KeptIn(e.disk, disks) ==> e.foreign;
        assert Readable(retained) ==> Mappings(retained)[i] == e.disk;
        return false;
      }
    }
    assert entries[..|entries|] == entries;
    ok := true;
  }

  // ---- launches ----

  lemma KeepsIsTransitive(a: seq<Disk>, b: seq<Disk>, c: seq<Disk>)
    requires Keeps(a, b) && Keeps(b, c)
    ensures Keeps(a, c)
  {
    forall d <- a
      ensures KeptIn(d, c)
    {
      var e :| e in b && Continues(d, e);
      assert KeptIn(e, c);
      var f :| f in c && Continues(e, f);
      assert Continues(d, f);
    }
  }

  lemma KeepsIsReflexive(a: seq<Disk>)
    ensures Keeps(a, a)
  {
    forall d <- a
      ensures KeptIn(d, a)
    {
      assert Continues(d, d);
    }
  }

  ghost predicate KeepsAt(history: seq<seq<Disk>>, i: nat, j: nat) {
    i <= j < |history| ==> Keeps(history[i], history[j])
  }

  ghost predicate InjectiveAt(history: seq<seq<Disk>>, i: nat) {
    0 < i < |history| ==> Injective(history[i])
  }

  /** Over every history each declaration keeps all earlier ones; each launch's own is injective. */
  ghost predicate Faithful(history: seq<seq<Disk>>) {
    && (forall i: nat, j: nat {:trigger KeepsAt(history, i, j)} :: KeepsAt(history, i, j))
    && (forall i: nat {:trigger InjectiveAt(history, i)} :: InjectiveAt(history, i))
  }

  lemma FaithfulExtends(history: seq<seq<Disk>>, disks: seq<Disk>)
    requires history != [] && Faithful(history) && Injective(disks) && Keeps(history[|history| - 1], disks)
    ensures Faithful(history + [disks])
  {
    var more := history + [disks];
    forall i: nat, j: nat
      ensures KeepsAt(more, i, j)
    {
      if i <= j < |history| {
        assert KeepsAt(history, i, j);
      } else if i < |history| && j == |history| {
        assert KeepsAt(history, i, |history| - 1);
        KeepsIsTransitive(history[i], history[|history| - 1], disks);
      } else if i == j == |history| {
        KeepsIsReflexive(disks);
      }
    }
    forall i: nat
      ensures InjectiveAt(more, i)
    {
      assert InjectiveAt(history, i);
    }
  }

  /**
   Over a whole history, two mappings of one underlying resource are mappings of one path, and
   mappings of one path agree in backend, source and backing.
   */
  lemma ResourceKeepsItsPath(history: seq<seq<Disk>>, i: nat, j: nat, d: Disk, e: Disk)
    requires Faithful(history) && i <= j < |history| && 0 < j && d in history[i] && e in history[j]
    ensures d.resource.Some? && d.resource == e.resource ==> d.path == e.path
    ensures d.path == e.path ==> Continues(d, e)
  {
    var now := history[j];
    assert KeepsAt(history, i, j) && InjectiveAt(history, j);
    assert KeptIn(d, now);
    var k :| 0 <= k < |now| && Continues(d, now[k]);
    var m :| 0 <= m < |now| && now[m] == e;
    if k < m {
      assert Apart(now[k], now[m]);
    } else if m < k {
      assert Apart(now[m], now[k]);
    }
  }

  lemma RecordedIsReadable(supplied: seq<Supply>)
    requires AllSuitable(supplied) && Injective(DeclareAll(supplied))
    ensures var disks := DeclareAll(supplied);
            Readable(Recorded(disks)) && Mappings(Recorded(disks)) == disks
  {
    var disks := DeclareAll(supplied);
    assert forall i, j :: 0 <= i < j < |disks| ==> Apart(disks[i], disks[j]);
    assert Readable(Recorded(disks));
    assert Mappings(Recorded(disks)) == disks;
  }

  class DataRoot {
    var retained: Retained
    ghost var history: seq<seq<Disk>>    // the readable declaration found first, then each launch's own

    ghost predicate Valid()
      reads this
    {
      if Readable(retained) then
        history != [] && Faithful(history) && Mappings(retained) == history[|history| - 1]
      else
        history == []
    }

    constructor (retained: Retained)
      ensures Valid() && this.retained == retained
    {
      this.retained := retained;
      history := if Readable(retained) then [Mappings(retained)] else [];
      new;
      if Readable(retained) {
        KeepsIsReflexive(Mappings(retained));
      }
    }

    /**
     Check, compare, start the container, then record. The file is replaced as a whole or not at
     all, and the launch may still fail once it is replaced.
     */
    method Launch(files: seq<Medium>, devices: seq<Medium>) returns (r: Result<seq<Disk>>)
      requires Valid()
      modifies this
      ensures Valid()
      ensures var disks := DeclareAll(Supplied(files, devices));
              && (r.Ok? ==> r.value == disks && history != old(history))
              && (history == old(history) ==> retained == old(retained))
              && (history != old(history) ==>
                    && history == old(history) + [disks] && retained == Recorded(disks) && Injective(disks)
                    && Readable(old(retained)) && Keeps(Mappings(old(retained)), disks))
    {
      r := Inputs(files, devices);
      if r.Error? {
        return;
      }
      var kept := ValidateRetained(retained, r.value);
      if !kept {
        return Error("missing or changed retained disk mapping");
      }
      var started, replaced, synced := *, *, *;
      if !started || !replaced {
        return Error("launch failed");
      }
      RecordedIsReadable(Supplied(files, devices));
      FaithfulExtends(history, r.value);
      retained := Recorded(r.value);
      history := history + [r.value];
      if !synced {
        r := Error("directory not synchronized");
      }
    }
  }
}
