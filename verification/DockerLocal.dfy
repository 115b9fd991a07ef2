/** Local Docker clusters: a receipt is sealed before any resource and retired after the last. */
module DockerLocal {
  import opened Common

  datatype Kind = Container | Network | Volume

  datatype Key = Key(kind: Kind, name: string)

  /** The owner labels of a resource; Docker never changes them. */
  datatype Labels = Labels(cluster: string, owner: string)

  /** The deployment inputs that a container was created with. */
  datatype Config = Config(image: string, cpus: int, memory: int, portBase: int, network: string, volume: string,
                           cluster: string, voters: nat)

  datatype Item = Item(labels: Option<Labels>, config: Option<Config>, running: bool)

  /** The sealed inputs of one cluster; CPU is counted in billionths. */
  datatype Record = Record(cluster: string, owner: string, nodes: nat, portBase: int, image: string, imageId: string,
                           cpus: int, memory: int) {
    function Mark(): Labels { Labels(cluster, owner) }
  }

  /** What a run command asks for; inputs left out are not compared. */
  datatype Request = Request(cluster: string, nodes: Option<nat>, portBase: Option<int>, image: Option<string>,
                             cpus: Option<int>, memory: Option<int>) {
    predicate Agrees(r: Record) {
      && r.cluster == cluster
      && (nodes.Some? ==> r.nodes == nodes.value) && (portBase.Some? ==> r.portBase == portBase.value)
      && (image.Some? ==> r.image == image.value) && (cpus.Some? ==> r.cpus == cpus.value)
      && (memory.Some? ==> r.memory == memory.value)
    }
  }

  /** Docker's resources and the operator's private files. */
  datatype World = World(items: map<Key, Item>, receipts: map<string, Record>, bindings: map<string, string>)

  function NetworkName(cluster: string): string { "crowdb-" + cluster }

  function Digit(i: nat): string
    requires i < 10
  {
    [['0', '1', '2', '3', '4', '5', '6', '7', '8', '9'][i]]
  }

  function NodeName(cluster: string, i: nat): string
    requires i < 10
  {
    NetworkName(cluster) + "-" + Digit(i)
  }

  function DataName(cluster: string, i: nat): string
    requires i < 10
  {
    NodeName(cluster, i) + "-data"
  }

  predicate ValidRecord(r: Record) {
    (r.nodes == 1 || r.nodes == 3) && 1 <= r.portBase <= 65512 && r.cpus > 0 && r.memory >= 512
  }

  function ResourceNames(r: Record, kind: Kind): set<string>
    requires ValidRecord(r)
  {
    match kind
    case Network => {NetworkName(r.cluster)}
    case Container => set i: nat | 1 <= i <= r.nodes :: NodeName(r.cluster, i)
    case Volume => set i: nat | 1 <= i <= r.nodes :: DataName(r.cluster, i)
  }

  function Expected(r: Record, i: nat): Config
    requires i < 10
  {
    Config(r.imageId, r.cpus, r.memory, r.portBase + (i - 1) * 10,
           NetworkName(r.cluster), DataName(r.cluster, i), r.cluster, r.nodes)
  }

  predicate OwnedBy(item: Item, r: Record) { item.labels == Some(r.Mark()) }

  /** What listing by labels and then by name finds. */
  function Owned(w: World, r: Record, kind: Kind): set<Key>
    requires ValidRecord(r)
  {
    set k | k in w.items && k.kind == kind && OwnedBy(w.items[k], r) && k.name in ResourceNames(r, kind)
  }

  /** Every labelled resource answers to a sealed receipt of its owner, which names it. */
  ghost predicate Answers(w: World, k: Key) {
    k in w.items && w.items[k].labels.Some? ==>
      var l := w.items[k].labels.value;
      && l.cluster in w.receipts && w.receipts[l.cluster].owner == l.owner
      && ValidRecord(w.receipts[l.cluster]) && k.name in ResourceNames(w.receipts[l.cluster], k.kind)
  }

  ghost predicate Inv(w: World) {
    && (forall k {:trigger Answers(w, k)} :: Answers(w, k))
    && (forall c :: c in w.receipts ==> ValidRecord(w.receipts[c]) && w.receipts[c].cluster == c)
  }

  predicate Sealed(w: World, r: Record) {
    r.cluster in w.receipts && w.receipts[r.cluster] == r
  }

  /** Under the invariant, listing finds every resource that carries the owner's labels. */
  lemma ListingIsComplete(w: World, r: Record, k: Key)
    requires Inv(w) && Sealed(w, r) && k in w.items && OwnedBy(w.items[k], r)
    ensures k in Owned(w, r, k.kind)
  {
    assert Answers(w, k);
  }

  // ---- effects ----

  /** One durable effect of a command. */
  datatype Effect =
    | Create(key: Key, item: Item)
    | SetRunning(key: Key, running: bool)
    | Remove(key: Key)
    | Seal(record: Record)
    | Unbind(cluster: string)
    | Retire(cluster: string)

  /** Containers that hold on to a network or a volume. */
  predicate Referenced(w: World, k: Key) {
    exists c :: c in w.items && c.kind == Container && w.items[c].config.Some? &&
      (if k.kind == Network then w.items[c].running && w.items[c].config.value.network == k.name
       else k.kind == Volume && w.items[c].config.value.volume == k.name)
  }

  /** The order of effects that keeps ownership retryable, and Docker's own refusals. */
  ghost predicate Allowed(w: World, e: Effect) {
    match e
    case Create(k, item) =>
      && k !in w.items && item.labels.Some?
      && var l := item.labels.value;
         && l.cluster in w.receipts && w.receipts[l.cluster].owner == l.owner && ValidRecord(w.receipts[l.cluster])
         && k.name in ResourceNames(w.receipts[l.cluster], k.kind)
    case SetRunning(k, _) => k in w.items && k.kind == Container
    case Remove(k) => k in w.items && !w.items[k].running && !Referenced(w, k)
    case Seal(r) => r.cluster !in w.receipts && ValidRecord(r)
    case Unbind(c) => c in w.bindings
    case Retire(c) =>
      && c !in w.bindings
      && forall k :: k in w.items && w.items[k].labels.Some? ==> w.items[k].labels.value.cluster != c
  }

  function After(w: World, e: Effect): World
    requires e.SetRunning? ==> e.key in w.items
  {
    match e
    case Create(k, item) => w.(items := w.items[k := item])
    case SetRunning(k, running) => w.(items := w.items[k := w.items[k].(running := running)])
    case Remove(k) => w.(items := w.items - {k})
    case Seal(r) => w.(receipts := w.receipts[r.cluster := r])
    case Unbind(c) => w.(bindings := w.bindings - {c})
    case Retire(c) => w.(receipts := w.receipts - {c})
  }

  lemma {:induction false} EffectKeepsInv(w: World, e: Effect)
    requires Inv(w) && Allowed(w, e)
    ensures Inv(After(w, e))
  {
    var w' := After(w, e);
    forall k ensures Answers(w', k) {
      assert Answers(w, k);
    }
  }

  /** Every run of commands, cut off anywhere by a crash, is a chain of allowed effects. */
  ghost predicate IsHistory(h: seq<World>) {
    |h| > 0 && Inv(h[0]) && forall i {:trigger LinkAt(h, i)} :: LinkAt(h, i)
  }

  ghost predicate LinkAt(h: seq<World>, i: int) {
    0 < i < |h| ==> Steps(h[i - 1], h[i])
  }

  ghost predicate Steps(w: World, w': World) {
    exists e :: Allowed(w, e) && w' == After(w, e)
  }

  lemma {:induction false} OwnershipOverEveryHistory(h: seq<World>, i: nat)
    requires IsHistory(h) && i < |h|
    ensures Inv(h[i])
  {
    if i > 0 {
      OwnershipOverEveryHistory(h, i - 1);
      assert LinkAt(h, i);
      var e :| Allowed(h[i - 1], e) && h[i] == After(h[i - 1], e);
      EffectKeepsInv(h[i - 1], e);
    }
  }

  lemma {:induction false} HistoryExtends(h: seq<World>, e: Effect)
    requires IsHistory(h) && Allowed(h[|h| - 1], e)
    ensures IsHistory(h + [After(h[|h| - 1], e)]) && Inv(After(h[|h| - 1], e))
  {
    OwnershipOverEveryHistory(h, |h| - 1);
    EffectKeepsInv(h[|h| - 1], e);
    var h' := h + [After(h[|h| - 1], e)];
    forall i ensures LinkAt(h', i) {
      assert LinkAt(h, i);
      assert i == |h| ==> Steps(h'[i - 1], h'[i]);
    }
  }

  /** Nothing of other owners changed. */
  ghost predicate OthersUntouched(w: World, w': World, r: Record) {
    && (forall k {:trigger SameAt(w, w', r, k)} :: SameAt(w, w', r, k))
    && (forall c :: c != r.cluster ==>
          (c in w.receipts <==> c in w'.receipts) && (c in w.receipts ==> w'.receipts[c] == w.receipts[c]))
    && (forall c :: c != r.cluster ==>
          (c in w.bindings <==> c in w'.bindings) && (c in w.bindings ==> w'.bindings[c] == w.bindings[c]))
  }

  ghost predicate SameAt(w: World, w': World, r: Record, k: Key) {
    && (k in w.items && !OwnedBy(w.items[k], r) ==> k in w'.items && w'.items[k] == w.items[k])
    && (k in w'.items && !OwnedBy(w'.items[k], r) ==> k in w.items && w.items[k] == w'.items[k])
  }

  lemma {:induction false} UntouchedTransitive(a: World, b: World, c: World, r: Record)
    requires OthersUntouched(a, b, r) && OthersUntouched(b, c, r)
    ensures OthersUntouched(a, c, r)
  {
    forall k ensures SameAt(a, c, r, k) {
      assert SameAt(a, b, r, k) && SameAt(b, c, r, k);
    }
  }

  /** Node i is there as sealed: owned, configured from the receipt and running. */
  ghost predicate Up(w: World, r: Record, i: nat)
    requires i < 10
  {
    var k := Key(Container, NodeName(r.cluster, i));
    k in w.items && OwnedBy(w.items[k], r) && w.items[k].config == Some(Expected(r, i)) && w.items[k].running
  }

  lemma NodeNamesDiffer(cluster: string, i: nat, j: nat)
    requires i < 10 && j < 10 && i != j
    ensures NodeName(cluster, i) != NodeName(cluster, j)
  {
    var a, b := NodeName(cluster, i), NodeName(cluster, j);
    assert a[|a| - 1] == Digit(i)[0] && b[|b| - 1] == Digit(j)[0];
  }

  ghost predicate SameContainer(w: World, w': World, k: Key) {
    k.kind == Container ==> (k in w.items <==> k in w'.items) && (k in w.items ==> w'.items[k] == w.items[k])
  }

  lemma {:induction false} OtherNodesStay(first: World, before: World, now: World, r: Record, i: nat)
    requires ValidRecord(r) && 1 <= i <= r.nodes
    requires forall k {:trigger SameContainer(before, now, k)} ::
               k != Key(Container, NodeName(r.cluster, i)) ==> SameContainer(before, now, k)
    ensures forall j: nat :: 1 <= j <= r.nodes && j != i && Up(before, r, j) ==> Up(now, r, j)
    ensures forall j: nat :: i < j <= r.nodes && SameContainer(first, before, Key(Container, NodeName(r.cluster, j)))
              ==> SameContainer(first, now, Key(Container, NodeName(r.cluster, j)))
  {
    forall j: nat | 1 <= j <= r.nodes && j != i
      ensures SameContainer(before, now, Key(Container, NodeName(r.cluster, j)))
    {
      NodeNamesDiffer(r.cluster, i, j);
    }
  }

  /** No resource of this kind carries the owner's labels. */
  ghost predicate Gone(w: World, r: Record, kind: Kind) {
    forall k :: k in w.items && k.kind == kind ==> !OwnedBy(w.items[k], r)
  }

  lemma GoneWhenUnlisted(w: World, r: Record, kind: Kind)
    requires Inv(w) && Sealed(w, r) && ValidRecord(r) && Owned(w, r, kind) == {}
    ensures Gone(w, r, kind)
  {
    forall k | k in w.items && k.kind == kind ensures !OwnedBy(w.items[k], r) {
      if OwnedBy(w.items[k], r) {
        ListingIsComplete(w, r, k);
        assert false;
      }
    }
  }

  lemma {:induction false} NothingLeftToRetire(w: World, r: Record)
    requires Inv(w) && Sealed(w, r) && Gone(w, r, Container) && Gone(w, r, Network) && Gone(w, r, Volume)
    requires r.cluster !in w.bindings
    ensures Allowed(w, Retire(r.cluster))
  {
    forall k | k in w.items && w.items[k].labels.Some? ensures w.items[k].labels.value.cluster != r.cluster {
      assert Answers(w, k);
      assert !OwnedBy(w.items[k], r);
    }
  }

  /** Only stopped resources of one kind were removed, and nothing else changed. */
  ghost predicate OnlyRemoved(w: World, w': World, kind: Kind) {
    && w'.receipts == w.receipts && w'.bindings == w.bindings && w'.items.Keys <= w.items.Keys
    && (forall k :: k in w'.items ==> w'.items[k] == w.items[k])
    && (forall k :: k in w.items && k !in w'.items ==> k.kind == kind && !w.items[k].running)
  }

  lemma OnlyRemovedExtends(w: World, w': World, kind: Kind, key: Key)
    requires OnlyRemoved(w, w', kind) && key in w'.items && key.kind == kind && !w'.items[key].running
    ensures OnlyRemoved(w, After(w', Remove(key)), kind)
  {
  }

  lemma OwnedAfterRemoval(w: World, r: Record, kind: Kind, key: Key)
    requires ValidRecord(r) && key in Owned(w, r, kind)
    ensures Owned(After(w, Remove(key)), r, kind) == Owned(w, r, kind) - {key}
  {
  }

  /** Only the running state of some containers of this owner changed. */
  ghost predicate OnlyStopped(w: World, w': World, r: Record, left: set<Key>)
    requires ValidRecord(r)
  {
    && w'.receipts == w.receipts && w'.bindings == w.bindings && w'.items.Keys == w.items.Keys
    && left <= Owned(w', r, Container)
    && (forall k :: k in Owned(w', r, Container) && k !in left ==> !w'.items[k].running)
  }

  lemma OnlyStoppedExtends(w: World, w': World, r: Record, left: set<Key>, key: Key)
    requires ValidRecord(r) && OnlyStopped(w, w', r, left) && key in left
    ensures !w'.items[key].running ==> OnlyStopped(w, w', r, left - {key})
    ensures var w'' := After(w', SetRunning(key, false));
            OnlyStopped(w, w'', r, left - {key}) && OnlyStopped(w, w'', r, left)
  {
    var w'' := After(w', SetRunning(key, false));
    assert Owned(w'', r, Container) == Owned(w', r, Container);
  }

  /** No container was stopped, and only stopped ones were removed. */
  ghost predicate StopsNothing(w: World, w': World) {
    && (forall k :: k in w'.items ==> k in w.items && w'.items[k] == w.items[k])
    && (forall k :: k in w.items && k !in w'.items ==> !w.items[k].running)
  }

  /** Inputs that a first request leaves out take their defaults. */
  predicate IsDefaulted(request: Request, r: Record) {
    && (request.nodes.None? ==> r.nodes == 1) && (request.portBase.None? ==> r.portBase == 9090)
    && (request.image.None? ==> r.image == "crowdb-node:dev")
    && (request.cpus.None? ==> r.cpus == 1_000_000_000) && (request.memory.None? ==> r.memory == 1536)
  }

  // ---- the operator ----

  class Operator {
    var world: World
    var history: seq<World>  // every durable state so far

    ghost predicate Valid()
      reads this
    {
      IsHistory(history) && history[|history| - 1] == world && Inv(world)
    }

    /**
     A call that may fail before its effect, or report failure after it, as a timeout does.
     */
    method Attempt(r: Record, e: Effect) returns (ok: bool)
      requires Valid() && Allowed(world, e)
      requires match e
               case Create(_, item) => OwnedBy(item, r)
               case SetRunning(k, _) => OwnedBy(world.items[k], r)
               case Remove(k) => OwnedBy(world.items[k], r)
               case Seal(s) => s.cluster == r.cluster
               case Unbind(c) => c == r.cluster
               case Retire(c) => c == r.cluster
      modifies this
      ensures Valid() && OthersUntouched(old(world), world, r)
      ensures ok ==> world == After(old(world), e)
      ensures world == old(world) || world == After(old(world), e)
    {
      var happens: bool := *;
      ok := *;
      if happens {
        HistoryExtends(history, e);
        world := After(world, e);
        history := history + [world];
      } else {
        ok := false;
      }
    }

    /** A private file is unlinked or written at once, or the call fails without effect. */
    method LocalFile(r: Record, e: Effect) returns (ok: bool)
      requires Valid() && Allowed(world, e)
      requires match e
               case Seal(s) => s.cluster == r.cluster
               case Unbind(c) => c == r.cluster
               case Retire(c) => c == r.cluster
               case _ => false
      modifies this
      ensures Valid() && OthersUntouched(old(world), world, r)
      ensures world == if ok then After(old(world), e) else old(world)
    {
      ok := *;
      if ok {
        HistoryExtends(history, e);
        world := After(world, e);
        history := history + [world];
      }
    }

    /** Reach the retained daemon; it may be unreachable or another one. */
    method CheckDaemon() returns (ok: bool)
    {
      ok := *;
    }

    /** Find the owned network or volume, or create it with the owner's labels. */
    method Ensure(r: Record, kind: Kind, name: string) returns (ok: bool)
      requires Valid() && ValidRecord(r) && Sealed(world, r) && name in ResourceNames(r, kind) && kind != Container
      modifies this
      ensures Valid() && Sealed(world, r) && OthersUntouched(old(world), world, r)
      ensures ok ==> Key(kind, name) in world.items && OwnedBy(world.items[Key(kind, name)], r)
      ensures forall k {:trigger SameContainer(old(world), world, k)} :: SameContainer(old(world), world, k)
    {
      var key := Key(kind, name);
      if key in world.items {
        return OwnedBy(world.items[key], r);
      }
      var reached := CheckDaemon();
      if !reached { return false; }
      ok := Attempt(r, Create(key, Item(Some(r.Mark()), None, false)));
    }

    /**
     Adopt the sealed receipt when the request agrees with it, or seal a new one under a
     fresh owner. The image identity is absent when no suitable image is loaded.
     */
    method Accept(request: Request, owner: string, imageId: Option<string>) returns (res: Result<Record>)
      requires Valid()
      modifies this
      ensures Valid() && old(world).items == world.items
      ensures res.Ok? ==> Sealed(world, res.value) && ValidRecord(res.value) && request.Agrees(res.value)
      ensures request.cluster in old(world).receipts ==>
                world == old(world) && (res.Ok? ==> res.value == world.receipts[request.cluster])
      ensures request.cluster !in old(world).receipts && res.Ok? ==>
                && world == After(old(world), Seal(res.value))
                && IsDefaulted(request, res.value) && res.value.owner == owner
      ensures res.Error? ==> world == old(world)
    {
      var reached := CheckDaemon();
      if !reached { return Error("Docker endpoint differs from the retained receipt"); }
      if request.cluster in world.receipts {
        var previous := world.receipts[request.cluster];
        if !request.Agrees(previous) {
          return Error("inputs differ from retained cluster inputs");
        }
        return Ok(previous);
      }
      if imageId.None? { return Error("image is not loaded"); }
      var r := Record(request.cluster, owner, request.nodes.GetOr(1), request.portBase.GetOr(9090),
                      request.image.GetOr("crowdb-node:dev"), imageId.value,
                      request.cpus.GetOr(1_000_000_000), request.memory.GetOr(1536));
      if !ValidRecord(r) { return Error("invalid cluster inputs"); }
      var ok := LocalFile(r, Seal(r));
      if !ok { return Error("receipt not sealed"); }
      res := Ok(r);
    }

    /** Verify and start the listed container of a node, or run a new one and verify it. */
    method StartNode(r: Record, i: nat, listed: map<Key, Item>) returns (ok: bool)
      requires Valid() && ValidRecord(r) && Sealed(world, r) && 1 <= i <= r.nodes
      requires var k := Key(Container, NodeName(r.cluster, i));
               (k in listed <==> k in world.items) && (k in listed ==> world.items[k] == listed[k])
      modifies this
      ensures Valid() && Sealed(world, r) && OthersUntouched(old(world), world, r)
      ensures ok ==> Up(world, r, i)
      ensures forall k {:trigger SameContainer(old(world), world, k)} ::
                k != Key(Container, NodeName(r.cluster, i)) ==> SameContainer(old(world), world, k)
    {
      var key := Key(Container, NodeName(r.cluster, i));
      assert NodeName(r.cluster, i) in ResourceNames(r, Container);
      assert DataName(r.cluster, i) in ResourceNames(r, Volume);
      ghost var w0 := world;
      ok := Ensure(r, Volume, DataName(r.cluster, i));
      if !ok { return; }
      ghost var w1 := world;
      assert SameContainer(w0, w1, key);
      var config := Expected(r, i);
      if key in listed {
        var item := listed[key];
        if !OwnedBy(item, r) || item.config != Some(config) { return false; }
        if !item.running {
          ok := CheckDaemon();
          if !ok { return; }
          ok := Attempt(r, SetRunning(key, true));
        }
      } else {
        ok := CheckDaemon();
        if !ok { return; }
        var starts := *;
        ok := Attempt(r, Create(key, Item(Some(r.Mark()), Some(config), starts)));
        ok := ok && starts;
      }
      UntouchedTransitive(w0, w1, world, r);
      forall k | k != key ensures SameContainer(w0, world, k) {
        assert SameContainer(w0, w1, k);
      }
    }

    /** Create or restart every node of a sealed cluster. */
    method Run(r: Record) returns (ok: bool)
      requires Valid() && ValidRecord(r) && Sealed(world, r)
      modifies this
      ensures Valid() && Sealed(world, r) && OthersUntouched(old(world), world, r)
      ensures ok ==> forall i: nat :: 1 <= i <= r.nodes ==> Up(world, r, i)
    {
      ok := CheckDaemon();
      if !ok { return; }
      ok := Ensure(r, Network, NetworkName(r.cluster));
      if !ok { return; }
      ghost var first := world;
      var listed := world.items;
      var i := 1;
      while i <= r.nodes
        invariant 1 <= i <= r.nodes + 1
        invariant Valid() && Sealed(world, r) && OthersUntouched(old(world), world, r)
        invariant forall j: nat :: 1 <= j < i ==> Up(world, r, j)
        invariant forall j: nat :: i <= j <= r.nodes ==>
              SameContainer(first, world, Key(Container, NodeName(r.cluster, j)))
      {
        ghost var before := world;
        ok := StartNode(r, i, listed);
        UntouchedTransitive(old(world), before, world, r);
        if !ok { return; }
        OtherNodesStay(first, before, world, r, i);
        i := i + 1;
      }
    }

    /** Stop every running container of the owner. */
    method Stop(r: Record) returns (ok: bool)
      requires Valid() && ValidRecord(r) && Sealed(world, r)
      modifies this
      ensures Valid() && OthersUntouched(old(world), world, r)
      ensures world.receipts == old(world).receipts && world.bindings == old(world).bindings
      ensures world.items.Keys == old(world).items.Keys
      ensures ok ==> forall k :: k in Owned(world, r, Container) ==> !world.items[k].running
    {
      ok := CheckDaemon();
      var todo := Owned(world, r, Container);
      while ok && todo != {}
        invariant Valid() && OthersUntouched(old(world), world, r)
        invariant OnlyStopped(old(world), world, r, todo)
        decreases todo, ok
      {
        var key :| key in todo;
        OnlyStoppedExtends(old(world), world, r, todo, key);
        ok := CheckDaemon();
        if ok && world.items[key].running {
          ok := StopOne(r, key);
        }
        if ok {
          todo := todo - {key};
        }
      }
    }

    method StopOne(r: Record, key: Key) returns (ok: bool)
      requires Valid() && key in world.items && key.kind == Container && OwnedBy(world.items[key], r)
      modifies this
      ensures Valid()
      ensures forall w :: OthersUntouched(w, old(world), r) ==> OthersUntouched(w, world, r)
      ensures world == After(old(world), SetRunning(key, false)) || (!ok && world == old(world))
    {
      ok := Attempt(r, SetRunning(key, false));
      forall w | OthersUntouched(w, old(world), r)
        ensures OthersUntouched(w, world, r)
      {
        UntouchedTransitive(w, old(world), world, r);
      }
    }

    /** Remove every listed resource of one kind; refuse those in use. */
    method RemoveAll(r: Record, kind: Kind) returns (ok: bool)
      requires Valid() && ValidRecord(r) && Sealed(world, r)
      modifies this
      ensures Valid() && OthersUntouched(old(world), world, r) && OnlyRemoved(old(world), world, kind)
      ensures ok ==> Gone(world, r, kind)
    {
      ok := true;
      var todo := Owned(world, r, kind);
      while ok && todo != {}
        invariant Valid() && OthersUntouched(old(world), world, r) && OnlyRemoved(old(world), world, kind)
        invariant ok ==> todo == Owned(world, r, kind)
        decreases todo, ok
      {
        var key :| key in todo;
        OwnedAfterRemoval(world, r, kind, key);
        if !world.items[key].running {
          OnlyRemovedExtends(old(world), world, kind, key);
        }
        ok := RemoveOne(r, key);
        todo := todo - {key};
      }
      if ok {
        GoneWhenUnlisted(world, r, kind);
      }
    }

    method RemoveOne(r: Record, key: Key) returns (ok: bool)
      requires Valid() && key in world.items && OwnedBy(world.items[key], r)
      modifies this
      ensures Valid()
      ensures forall w :: OthersUntouched(w, old(world), r) ==> OthersUntouched(w, world, r)
      ensures world == old(world) || (world == After(old(world), Remove(key)) && !old(world).items[key].running)
      ensures ok ==> world == After(old(world), Remove(key))
    {
      ok := CheckDaemon();
      if !ok || world.items[key].running || Referenced(world, key) {
        return false;
      }
      ok := Attempt(r, Remove(key));
      forall w | OthersUntouched(w, old(world), r)
        ensures OthersUntouched(w, world, r)
      {
        UntouchedTransitive(w, old(world), world, r);
      }
    }

    /** Remove what runs, then what it used, then the binding, and the receipt last. */
    method Clean(r: Record, deleteData: bool, stopRunning: bool) returns (ok: bool)
      requires Valid() && ValidRecord(r) && Sealed(world, r)
      modifies this
      ensures Valid() && OthersUntouched(old(world), world, r)
      ensures !ok ==> Sealed(world, r)
      ensures ok ==> Gone(world, r, Container) && Gone(world, r, Network)
      ensures ok && deleteData ==> Gone(world, r, Volume)
      ensures ok && deleteData ==> r.cluster !in world.receipts && r.cluster !in world.bindings
      ensures !deleteData ==> Sealed(world, r) && world.bindings == old(world).bindings
      ensures !deleteData ==> forall k :: k in old(world).items && k.kind == Volume ==> k in world.items
      ensures !stopRunning ==> StopsNothing(old(world), world)
    {
      if deleteData && r.cluster in world.bindings && world.bindings[r.cluster] != r.owner {
        return false;
      }
      ok := CheckDaemon();
      if !ok { return; }
      if stopRunning {
        ok := Stop(r);
        if !ok { return; }
      } else if exists k :: k in Owned(world, r, Container) && world.items[k].running {
        return false;
      }
      ghost var w1 := world;
      ok := RemoveRuntime(r);
      UntouchedTransitive(old(world), w1, world, r);
      if !ok || !deleteData { return; }
      ghost var w2 := world;
      ok := DeleteData(r);
      UntouchedTransitive(old(world), w2, world, r);
    }

    /** Remove the containers and then the bridge they were attached to. */
    method RemoveRuntime(r: Record) returns (ok: bool)
      requires Valid() && ValidRecord(r) && Sealed(world, r)
      modifies this
      ensures Valid() && OthersUntouched(old(world), world, r)
      ensures Sealed(world, r) && world.bindings == old(world).bindings
      ensures StopsNothing(old(world), world)
      ensures forall k :: k in old(world).items && k.kind == Volume ==> k in world.items
      ensures ok ==> Gone(world, r, Container) && Gone(world, r, Network)
    {
      ok := RemoveAll(r, Container);
      if !ok { return; }
      ghost var w1 := world;
      ok := RemoveAll(r, Network);
      UntouchedTransitive(old(world), w1, world, r);
    }

    /** Delete the volumes and retire ownership. */
    method DeleteData(r: Record) returns (ok: bool)
      requires Valid() && ValidRecord(r) && Sealed(world, r) && Gone(world, r, Container) && Gone(world, r, Network)
      modifies this
      ensures Valid() && OthersUntouched(old(world), world, r)
      ensures if ok then r.cluster !in world.receipts && r.cluster !in world.bindings else Sealed(world, r)
      ensures Gone(world, r, Container) && Gone(world, r, Network) && (ok ==> Gone(world, r, Volume))
      ensures StopsNothing(old(world), world)
    {
      ok := RemoveAll(r, Volume);
      if !ok { return; }
      if r.cluster in world.bindings {
        ghost var w1 := world;
        ok := LocalFile(r, Unbind(r.cluster));
        UntouchedTransitive(old(world), w1, world, r);
        if !ok { return; }
      }
      NothingLeftToRetire(world, r);
      ghost var w2 := world;
      ok := LocalFile(r, Retire(r.cluster));
      UntouchedTransitive(old(world), w2, world, r);
    }
  }
}
