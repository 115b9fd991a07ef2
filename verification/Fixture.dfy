/**
 The life of one owned test cluster: Docker resources are recorded before they are created,
 teardown removes what was recorded, and the run's status is written to its timing file.
 Docker commands may fail with or without their effect, and others may remove resources.
 */
module Fixture {
  import opened Common

  /** The resources of one run, all carrying its label. */
  datatype Resource = Network | Node(index: nat) | Namespace(index: nat)

  datatype Status = Pass | Failed | NotExecuted

  /** What ended the body: an ordinary error, or a case that declared itself not executed. */
  datatype Failure = CaseFailed | CaseNotExecuted

  datatype Closing = Closed | CleanupFailed | TimingsFailed

  class Cluster {
    /** The daemon serves every command it need not refuse, and nobody else removes resources. */
    const calm: bool
    var containers: seq<Resource>
    var servers: seq<Resource>
    var networkCreated: bool
    var closed: bool
    var status: Status
    var report: Option<Status>       // the status in the timing file, if that file is readable
    var owned: set<Resource>         // the run's labelled resources in the daemon

    ghost predicate RecordedAt(r: Resource)
      reads this
    {
      if r.Network? then networkCreated else r in containers
    }

    /** Every resource of the run that exists was recorded. */
    ghost predicate Recorded()
      reads this
    {
      forall r <- owned :: RecordedAt(r)
    }

    /** Until teardown has succeeded, neither the status nor the file claims success. */
    ghost predicate Pending()
      reads this
    {
      !closed ==> status == Failed && (report == None || report == Some(Failed))
    }

    ghost predicate Valid()
      reads this
    {
      Recorded() && Pending() && Network !in containers
    }

    constructor (calm: bool)
      ensures Valid() && !closed && owned == {} && this.calm == calm
    {
      this.calm := calm;
      containers, servers, networkCreated, closed := [], [], false, false;
      status, report, owned := Failed, None, {};
    }

    // ---- commands ----

    /** A command without effect on the run's resources, such as a listing or an inspection. */
    method Query() returns (ok: bool)
      modifies this`owned
      ensures owned <= old(owned)
      ensures calm ==> ok && owned == old(owned)
    {
      ok := true;
      if !calm {
        ok := *;
        var left: set<Resource> := *;
        owned := owned * left;
      }
    }

    /** A create or run command. A request that fails may still have taken effect. */
    method Create(r: Resource) returns (ok: bool)
      modifies this`owned
      ensures owned <= old(owned) + {r}
      ensures calm ==> ok == (r !in old(owned)) && owned == old(owned) + {r}
    {
      ok := Query();
      var happens := ok;
      if !calm {
        happens := *;
      }
      ok := ok && r !in owned;
      if happens {
        owned := owned + {r};
      }
    }

    /** A removal: forced for a container, refused for a network that is still in use. */
    method Delete(r: Resource) returns (ok: bool)
      modifies this`owned
      ensures owned <= old(owned)
      ensures ok ==> r !in owned
      ensures calm ==> ok == (r in old(owned) && (r == Network ==> old(owned) == {Network}))
      ensures calm ==> owned == if ok then old(owned) - {r} else old(owned)
    {
      ok := Query();
      var refused := r !in owned || (r == Network && owned != {Network});
      var happens := ok;
      if !calm {
        happens := *;
      }
      if happens && !refused {
        owned := owned - {r};
      }
      ok := ok && !refused && r !in owned;
    }

    /** Write the timing file; a failed write keeps the old content or leaves it unreadable. */
    method WriteTimings() returns (ok: bool)
      modifies this`report
      ensures if ok then report == Some(status) else report == old(report) || report == None
    {
      ok := *;
      if ok {
        report := Some(status);
      } else {
        var unreadable := *;
        report := if unreadable then None else report;
      }
    }

    // ---- allocation ----

    method CreateNetwork(fits: bool) returns (ok: bool)
      requires Valid()
      modifies this`owned, this`networkCreated
      ensures Valid()
    {
      networkCreated := true;
      if !fits {
        return false;
      }
      ok := Create(Network);
    }

    /** Start one node, inside its own retained network namespace when `preserve` asks for it. */
    method StartNode(index: nat, addressed: bool, running: bool, preserve: bool) returns (ok: bool)
      requires Valid()
      modifies this`owned, this`containers, this`servers
      ensures Valid() && old(containers) <= containers
      ensures ok ==> (addressed || running) && Node(index) in containers && Node(index) in servers
      ensures ok && preserve ==> addressed && running && Namespace(index) in containers
    {
      if !running && !addressed {
        return false;
      }
      if preserve {
        if !addressed || !running {
          return false;
        }
        containers := containers + [Namespace(index)];
        ok := Create(Namespace(index));
        if !ok {
          return;
        }
        ok := Query();
        if !ok {
          return;
        }
      }
      containers := containers + [Node(index)];
      servers := servers + [Node(index)];
      ok := Create(Node(index));
      if ok {
        ok := Query();
      }
    }

    method Start(nodes: nat, fits: bool, addressed: bool, preserve: bool) returns (failure: Option<Failure>)
      requires Valid()
      modifies this`owned, this`containers, this`servers, this`networkCreated
      ensures Valid()
    {
      failure := Some(CaseFailed);
      var ok := CreateNetwork(fits);
      for index := 0 to nodes
        invariant Valid()
      {
        var dataReady := *;
        if !ok || !dataReady {
          return;
        }
        ok := StartNode(index, addressed, true, preserve);
      }
      var ready := *;
      if ok && ready {
        failure := None;
      }
    }

    // ---- teardown ----

    /** List the resource by label and name, and remove it if it is there. */
    method Dispose(r: Resource) returns (ok: bool)
      modifies this`owned
      ensures owned <= old(owned) && (ok ==> r !in owned)
      ensures calm ==> ok == (r == Network && Network in old(owned) ==> old(owned) == {Network})
      ensures calm ==> owned == if ok then old(owned) - {r} else old(owned)
    {
      ok := Query();
      if ok && r in owned {
        ok := Delete(r);
      }
    }

    /** Remove the recorded containers, newest first; a failure does not stop the others. */
    method DisposeContainers() returns (ok: bool)
      requires Network !in containers
      modifies this`owned
      ensures owned <= old(owned)
      ensures ok ==> forall r <- containers :: r !in owned
      ensures calm ==> ok
    {
      ok := true;
      var i := |containers|;
      while i > 0
        invariant 0 <= i <= |containers| && owned <= old(owned)
        invariant ok ==> forall k :: i <= k < |containers| ==> containers[k] !in owned
        invariant calm ==> ok
      {
        i := i - 1;
        var gone := Dispose(containers[i]);
        ok := ok && gone;
      }
    }

    /**
     Tear down. When this returns without an error nothing of the run is left, except that a
     cluster that was already closed is left alone.
     */
    method Close() returns (r: Closing)
      requires Recorded() && Network !in containers
      modifies this`owned, this`closed, this`status, this`report
      ensures Recorded() && owned <= old(owned)
      ensures r == Closed ==> (owned == {} <==> !(old(closed) && old(owned) != {}))
      ensures old(closed) ==> r == Closed && closed
      ensures old(closed) ==> owned == old(owned) && status == old(status) && report == old(report)
      ensures !old(closed) ==> closed == (r != CleanupFailed) && (closed ==> owned == {})
      ensures status == if closed then old(status) else Failed
      ensures !old(closed) && r == Closed ==> report == Some(status)
      ensures r == TimingsFailed ==> report == old(report) || report == None
      ensures r == CleanupFailed ==> report == old(report) || report == None || report == Some(Failed)
      ensures calm ==> closed
    {
      if closed {
        return Closed;
      }
      var ok := DisposeContainers();
      if networkCreated {
        var gone := Dispose(Network);
        ok := ok && gone;
      }
      assert ok ==> owned == {} by {
        assert forall r <- owned :: RecordedAt(r);
      }
      closed := ok;
      if !ok {
        status := Failed;
      }
      var written := WriteTimings();
      r := if !ok then CleanupFailed else if written then Closed else TimingsFailed;
    }

    /** Collect logs and write the timing file; only file errors escape. */
    method Diagnostics() returns (ok: bool)
      requires Valid()
      modifies this`report, this`owned
      ensures Valid() && owned <= old(owned) && (report == old(report) || report == None || report == Some(status))
    {
      for i := 0 to |containers|
        invariant Valid() && owned <= old(owned) && report == old(report)
      {
        var _ := Query();
      }
      ok := *;
      if ok {
        ok := WriteTimings();
      }
    }

    /**
     Leave the fixture. `raised` says that leaving raises an error of its own, `collected` that
     diagnostics succeeded and `finished` that teardown, with its timing file, did.
     */
    method Exit(error: Option<Failure>) returns (raised: bool, ghost collected: bool, ghost finished: bool)
      requires Valid()
      modifies this`owned, this`closed, this`status, this`report
      ensures Valid()
      ensures old(closed) ==> collected && closed && owned == old(owned)
      ensures !old(closed) && closed ==> owned == {}
      ensures finished ==> closed
      ensures calm ==> closed
      // the status in memory
      ensures status == Pass <==> error == None && collected && closed
      ensures status == NotExecuted <==> error == Some(CaseNotExecuted) && collected && (old(closed) || finished)
      // the status on disk, and what the caller sees
      ensures raised <==> (if old(closed) then !finished else error != Some(CaseFailed) && !(collected && finished))
      ensures old(report) != Some(Pass) ==> (report == Some(Pass) <==> error == None && !raised)
    {
      var notExecuted := error == Some(CaseNotExecuted);
      var verdict := if notExecuted then NotExecuted else if error.None? then Pass else Failed;
      collected, finished := true, true;
      if closed {
        status := verdict;
        var written := WriteTimings();
        raised, finished := !written, written;
        return;
      }
      var clean := Diagnostics();
      collected := clean;
      status := if !clean then Failed else verdict;
      var closing := Close();
      finished := closing == Closed;
      if closing != Closed && notExecuted {
        status := Failed;
        var _ := WriteTimings();
      }
      raised := error != Some(CaseFailed) && (closing != Closed || !clean);
    }

    /** The body starts any number of further nodes. */
    method StartMore(nodes: nat, addressed: bool, preserve: bool)
      requires Valid()
      modifies this`owned, this`containers, this`servers
      ensures Valid()
    {
      var more: nat :| more >= 0;
      for index := 0 to more
        invariant Valid()
      {
        var _ := StartNode(nodes + index, addressed, true, preserve);
      }
    }

    /**
     One whole case: enter, a body that may allocate, close the cluster itself and allocate again,
     leave. `late` says that the body closed the cluster and ended with resources all the same.
     */
    method RunCase(nodes: nat, fits: bool, addressed: bool, preserve: bool) returns (succeeded: bool, late: bool)
      requires Valid() && !closed
      modifies this
      ensures Valid()
      ensures succeeded <==> report == Some(Pass)
      ensures succeeded ==> status == Pass
      ensures closed ==> (owned == {} <==> !late)
      ensures succeeded || calm ==> closed
    {
      late := false;
      var failure := Start(nodes, fits, addressed, preserve);
      if failure.None? {
        failure := *;
        StartMore(nodes, addressed, preserve);
        var closes := *;
        if closes {
          var closing := Close();
          failure := if closing == Closed then failure else Some(CaseFailed);
          StartMore(nodes, addressed, preserve);
          late := closed && owned != {};
        }
      }
      var raised, _, _ := Exit(failure);
      succeeded := failure.None? && !raised;
    }
  }
}
