/** Deleting the recorded data of a host node without touching supplied media. */
module HostData {
  import opened Common

  /** Paths are relative to the data directory, which is the empty path. */
  type Path = seq<string>

  const MARKER: Path := ["container-storage.json"]

  datatype Kind = Directory | Regular(content: string) | Special | Device

  /** What a directory scan learns of an entry without following links. */
  datatype Node = Node(kind: Kind, foreign: bool)

  type Tree = map<Path, Node>

  /** Inputs fixed when a cleanup is selected. */
  datatype Plan = Plan(protected: set<Path>, mounts: set<Path>, declaration: string)

  ghost predicate HasParent(t: Tree, p: Path) {
    p != [] ==> p[..|p| - 1] in t && t[p[..|p| - 1]].kind.Directory?
  }

  ghost predicate WellFormed(t: Tree) {
    forall p {:trigger HasParent(t, p)} :: p in t ==> HasParent(t, p)
  }

  /** Entries the walk never looks at, together with everything below them. */
  predicate Stop(plan: Plan, p: Path) {
    p in plan.protected || p == MARKER
  }

  predicate Skipped(plan: Plan, p: Path) {
    p != [] && (Stop(plan, p) || Skipped(plan, p[..|p| - 1]))
  }

  predicate LeadsToProtected(plan: Plan, p: Path) {
    exists q :: q in plan.protected && p < q
  }

  /** Nested mounts, foreign file systems and device nodes stop a cleanup. */
  predicate Blocks(plan: Plan, p: Path, n: Node) {
    p in plan.mounts || n.foreign || n.kind.Device?
  }

  /** What a removing walk leaves: protected media, the way to them, and the marker. */
  predicate Kept(plan: Plan, p: Path, n: Node) {
    p == [] || Skipped(plan, p) || (n.kind.Directory? && LeadsToProtected(plan, p))
  }

  /** The entries strictly below a directory, and those at or below an entry. */
  ghost function Under(t: Tree, path: Path): set<Path> {
    set p | p in t && path < p
  }

  ghost function AtOrUnder(t: Tree, path: Path): set<Path> {
    set p | p in t && path <= p
  }

  ghost predicate Blocked(plan: Plan, t: Tree, region: set<Path>) {
    exists p :: p in t && p in region && !Skipped(plan, p) && Blocks(plan, p, t[p])
  }

  ghost predicate Removable(plan: Plan, t: Tree, region: set<Path>) {
    exists p :: p in t && p in region && !Kept(plan, p, t[p])
  }

  /** The tree with everything removable in a region gone. */
  ghost function Pruned(plan: Plan, t: Tree, region: set<Path>): Tree {
    map p | p in t && (p in region ==> Kept(plan, p, t[p])) :: t[p]
  }

  ghost predicate SubTree(a: Tree, b: Tree) {
    forall p :: p in a ==> p in b && a[p] == b[p]
  }

  /** What a removal in a region may pass through on its way from t. */
  ghost predicate PartlyPruned(plan: Plan, t: Tree, region: set<Path>, now: Tree) {
    WellFormed(now) && SubTree(Pruned(plan, t, region), now) && SubTree(now, t)
  }

  function Children(t: Tree, path: Path): set<Path> {
    set p | p in t && |p| == |path| + 1 && path < p
  }

  // ---- facts about paths ----

  lemma {:induction false} PrefixPresent(t: Tree, p: Path, n: nat)
    requires WellFormed(t) && p in t && n < |p|
    ensures p[..n] in t && t[p[..n]].kind.Directory?
  {
    var parent := p[..|p| - 1];
    assert HasParent(t, p);
    if n < |p| - 1 {
      PrefixPresent(t, parent, n);
      assert parent[..n] == p[..n];
    }
  }

  lemma {:induction false} SkippedBelow(plan: Plan, p: Path, q: Path)
    requires p <= q && Skipped(plan, p)
    ensures Skipped(plan, q)
  {
    if p != q { SkippedBelow(plan, p, q[..|q| - 1]); }
  }

  /** A skipped path below an unskipped directory means a protected path below it. */
  lemma {:induction false} SkippedMeansProtected(plan: Plan, p: Path, q: Path)
    requires p != [] && p < q && !Skipped(plan, p) && Skipped(plan, q)
    ensures LeadsToProtected(plan, p)
  {
    if !Stop(plan, q) {
      var parent := q[..|q| - 1];
      assert Skipped(plan, parent) && p <= parent;
      assert p != parent && |p| < |parent|;
      SkippedMeansProtected(plan, p, parent);
    }
  }

  /** So a walked directory that leads to nothing protected ends up empty. */
  lemma {:induction false} NothingKeptBelow(plan: Plan, p: Path, q: Path, n: Node)
    requires p != [] && p < q && !Skipped(plan, p) && !LeadsToProtected(plan, p)
    ensures !Kept(plan, q, n)
  {
    if Skipped(plan, q) { SkippedMeansProtected(plan, p, q); }
  }

  /** Entries at or under the given children of path. */
  ghost function Below(t: Tree, path: Path, children: set<Path>): set<Path> {
    set p | p in t && |p| > |path| && p[..|path| + 1] in children
  }

  lemma {:induction false} ChildrenCoverUnder(t: Tree, path: Path)
    requires WellFormed(t)
    ensures Below(t, path, Children(t, path)) == Under(t, path)
  {
    forall p | p in Under(t, path) ensures p in Below(t, path, Children(t, path)) {
      if |p| == |path| + 1 {
        assert p[..|path| + 1] == p;
      } else {
        PrefixPresent(t, p, |path| + 1);
      }
    }
  }

  lemma {:induction false} OneMoreChild(t: Tree, path: Path, done: set<Path>, c: Path)
    requires |c| == |path| + 1 && path < c
    ensures Below(t, path, done + {c}) == Below(t, path, done) + AtOrUnder(t, c)
  {
    forall p | p in t ensures c <= p <==> |p| > |path| && p[..|path| + 1] == c {}
  }

  // ---- pruning one region after another ----

  lemma {:induction false} PruneTwice(plan: Plan, t: Tree, a: set<Path>, b: set<Path>)
    ensures Pruned(plan, Pruned(plan, t, a), b) == Pruned(plan, t, a + b)
  {}

  lemma {:induction false} PartlyTwice(plan: Plan, t: Tree, a: set<Path>, b: set<Path>, now: Tree)
    requires PartlyPruned(plan, Pruned(plan, t, a), b, now)
    ensures PartlyPruned(plan, t, a + b, now)
  {
    PruneTwice(plan, t, a, b);
  }

  lemma {:induction false} PartlyWidens(plan: Plan, t: Tree, a: set<Path>, b: set<Path>, now: Tree)
    requires a <= b && PartlyPruned(plan, t, a, now)
    ensures PartlyPruned(plan, t, b, now)
  {}

  // ---- the walk ----

  /** What is durable on the host at one moment. */
  datatype Durable = Durable(files: Tree, binding: bool, receipt: bool)

  /** The outcome of a dry or removing pass over a region, starting from tree t. */
  ghost predicate Handled(plan: Plan, t: Tree, region: set<Path>, remove: bool, r: Result<bool>, now: Tree,
                          passed: seq<Tree>) {
    && (r.Error? <==> Blocked(plan, t, region))
    && (r.Ok? ==> (r.value <==> Removable(plan, t, region)))
    && (remove && r.Ok? ==> now == Pruned(plan, t, region))
    && (!remove ==> now == t && passed == [])
    && PartlyPruned(plan, t, region, now)
    && PassedWell(plan, t, region, passed)
  }

  /** Every tree on the way is a partly pruned one. */
  ghost predicate PassedWell(plan: Plan, t: Tree, region: set<Path>, passed: seq<Tree>) {
    forall i {:trigger PassedAt(plan, t, region, passed, i)} :: PassedAt(plan, t, region, passed, i)
  }

  ghost predicate PassedAt(plan: Plan, t: Tree, region: set<Path>, passed: seq<Tree>, i: int) {
    0 <= i < |passed| ==> PartlyPruned(plan, t, region, passed[i])
  }

  lemma {:induction false} SkippingIsHandled(plan: Plan, t: Tree, c: Path, remove: bool)
    requires WellFormed(t) && c in t && c != [] && Stop(plan, c)
    ensures Handled(plan, t, AtOrUnder(t, c), remove, Ok(false), t, [])
  {
    forall p | p in AtOrUnder(t, c) ensures Skipped(plan, p) {
      SkippedBelow(plan, c, p);
    }
  }

  lemma {:induction false} RefusingIsHandled(plan: Plan, t: Tree, c: Path, remove: bool, reason: string)
    requires WellFormed(t) && c in t && !Skipped(plan, c) && Blocks(plan, c, t[c])
    ensures Handled(plan, t, AtOrUnder(t, c), remove, Error(reason), t, [])
  {}

  lemma {:induction false} FileHasNothingBelow(t: Tree, c: Path)
    requires WellFormed(t) && c in t && !t[c].kind.Directory?
    ensures AtOrUnder(t, c) == {c}
  {
    forall p | p in AtOrUnder(t, c) ensures p == c {
      assert p[..|c|] == c;
      if |p| > |c| {
        PrefixPresent(t, p, |c|);
        assert false;
      }
    }
  }

  lemma {:induction false} UnlinkingIsHandled(plan: Plan, t: Tree, c: Path, remove: bool, now: Tree, passed: seq<Tree>)
    requires WellFormed(t) && c in t && c != [] && !Skipped(plan, c) && !Blocks(plan, c, t[c]) && !t[c].kind.Directory?
    requires if remove then now == t - {c} && WellFormed(now) && passed == [now] else now == t && passed == []
    ensures Handled(plan, t, AtOrUnder(t, c), remove, Ok(true), now, passed)
  {
    FileHasNothingBelow(t, c);
    assert c in t && c in AtOrUnder(t, c) && !Kept(plan, c, t[c]);
    if remove { assert now == Pruned(plan, t, {c}); }
  }

  lemma {:induction false} DirectoryRegion(t: Tree, c: Path)
    requires c in t
    ensures AtOrUnder(t, c) == Under(t, c) + {c}
  {
    forall p | p in AtOrUnder(t, c) ensures p in Under(t, c) || p == c {
      assert p[..|c|] == c;
    }
  }

  lemma {:induction false} KeptEntryAddsNothing(plan: Plan, t: Tree, region: set<Path>, c: Path)
    requires c in t && !Blocks(plan, c, t[c])
    ensures Blocked(plan, t, region + {c}) <==> Blocked(plan, t, region)
    ensures Kept(plan, c, t[c]) ==> (Removable(plan, t, region + {c}) <==> Removable(plan, t, region))
    ensures Kept(plan, c, t[c]) ==> Pruned(plan, t, region + {c}) == Pruned(plan, t, region)
  {
    if Blocked(plan, t, region) {
      var p :| p in t && p in region && !Skipped(plan, p) && Blocks(plan, p, t[p]);
      assert p in region + {c};
    }
    if Removable(plan, t, region) {
      var p :| p in t && p in region && !Kept(plan, p, t[p]);
      assert p in region + {c};
    }
  }

  lemma {:induction false} PassedWidens(plan: Plan, t: Tree, a: set<Path>, b: set<Path>, passed: seq<Tree>)
    requires a <= b && PassedWell(plan, t, a, passed)
    ensures PassedWell(plan, t, b, passed)
  {
    forall i ensures PassedAt(plan, t, b, passed, i) {
      assert PassedAt(plan, t, a, passed, i);
      if 0 <= i < |passed| { PartlyWidens(plan, t, a, b, passed[i]); }
    }
  }

  lemma {:induction false} PassedAppend(plan: Plan, t: Tree, region: set<Path>, a: seq<Tree>, b: seq<Tree>)
    requires PassedWell(plan, t, region, a) && PassedWell(plan, t, region, b)
    ensures PassedWell(plan, t, region, a + b)
  {
    forall i ensures PassedAt(plan, t, region, a + b, i) {
      assert PassedAt(plan, t, region, a, i) && PassedAt(plan, t, region, b, i - |a|);
    }
  }

  lemma {:induction false} PassedTwice(plan: Plan, t: Tree, a: set<Path>, b: set<Path>, passed: seq<Tree>)
    requires PassedWell(plan, Pruned(plan, t, a), b, passed)
    ensures PassedWell(plan, t, a + b, passed)
  {
    forall i ensures PassedAt(plan, t, a + b, passed, i) {
      assert PassedAt(plan, Pruned(plan, t, a), b, passed, i);
      if 0 <= i < |passed| { PartlyTwice(plan, t, a, b, passed[i]); }
    }
  }

  /** A directory that stays: its own outcome is that of its contents. */
  lemma {:induction false} KeepingDirectoryIsHandled(plan: Plan, t: Tree, c: Path, remove: bool, r: Result<bool>,
                                                     now: Tree, passed: seq<Tree>)
    requires Handled(plan, t, Under(t, c), remove, r, now, passed)
    requires c in t && t[c].kind.Directory? && !Blocks(plan, c, t[c])
    requires r.Error? || LeadsToProtected(plan, c)
    ensures Handled(plan, t, AtOrUnder(t, c), remove, r, now, passed)
  {
    DirectoryRegion(t, c);
    KeptEntryAddsNothing(plan, t, Under(t, c), c);
    PartlyWidens(plan, t, Under(t, c), AtOrUnder(t, c), now);
    PassedWidens(plan, t, Under(t, c), AtOrUnder(t, c), passed);
  }

  /** A directory that goes: its contents went first, so it is empty. */
  lemma {:induction false} EmptiedDirectory(plan: Plan, t: Tree, c: Path, now: Tree)
    requires now == Pruned(plan, t, Under(t, c))
    requires c in t && c != [] && !Skipped(plan, c) && !LeadsToProtected(plan, c)
    ensures c in now && Children(now, c) == {} && now - {c} == Pruned(plan, t, AtOrUnder(t, c))
  {
    forall q | q in t && c < q ensures !Kept(plan, q, t[q]) {
      NothingKeptBelow(plan, c, q, t[q]);
    }
    DirectoryRegion(t, c);
  }

  lemma {:induction false} RemovingDirectoryIsHandled(plan: Plan, t: Tree, c: Path, remove: bool, mid: Tree, now: Tree,
                                                      inner: Result<bool>, passed: seq<Tree>)
    requires Handled(plan, t, Under(t, c), remove, inner, mid, passed) && inner.Ok?
    requires c in t && c != [] && t[c].kind.Directory? && !Blocks(plan, c, t[c])
    requires !Skipped(plan, c) && !LeadsToProtected(plan, c)
    requires if remove then now == mid - {c} && WellFormed(now) else now == mid
    ensures Handled(plan, t, AtOrUnder(t, c), remove, Ok(true), now, if remove then passed + [now] else passed)
  {
    var region := AtOrUnder(t, c);
    DirectoryRegion(t, c);
    KeptEntryAddsNothing(plan, t, Under(t, c), c);
    assert c in region && !Kept(plan, c, t[c]);
    PassedWidens(plan, t, Under(t, c), region, passed);
    if remove {
      EmptiedDirectory(plan, t, c, mid);
      assert PartlyPruned(plan, t, region, now);
      PassedAppend(plan, t, region, passed, [now]);
    } else {
      PartlyWidens(plan, t, Under(t, c), region, now);
    }
  }

  // ---- a walk is its visits, one after another ----

  lemma {:induction false} OtherRegionUntouched(plan: Plan, t: Tree, d: set<Path>, c: Path)
    requires AtOrUnder(t, c) !! d
    ensures AtOrUnder(Pruned(plan, t, d), c) == AtOrUnder(t, c)
    ensures Blocked(plan, Pruned(plan, t, d), AtOrUnder(t, c)) <==> Blocked(plan, t, AtOrUnder(t, c))
    ensures Removable(plan, Pruned(plan, t, d), AtOrUnder(t, c)) <==> Removable(plan, t, AtOrUnder(t, c))
  {
    var t', region := Pruned(plan, t, d), AtOrUnder(t, c);
    assert forall p :: p in region ==> p in t' && t'[p] == t[p];
    if Blocked(plan, t, region) {
      var p :| p in t && p in region && !Skipped(plan, p) && Blocks(plan, p, t[p]);
      assert p in t';
    }
    if Removable(plan, t, region) {
      var p :| p in t && p in region && !Kept(plan, p, t[p]);
      assert p in t';
    }
  }

  lemma {:induction false} RegionsAdd(plan: Plan, t: Tree, a: set<Path>, b: set<Path>)
    ensures Blocked(plan, t, a + b) <==> Blocked(plan, t, a) || Blocked(plan, t, b)
    ensures Removable(plan, t, a + b) <==> Removable(plan, t, a) || Removable(plan, t, b)
  {
    if Blocked(plan, t, a) || Blocked(plan, t, b) {
      var p :| p in t && (p in a || p in b) && !Skipped(plan, p) && Blocks(plan, p, t[p]);
      assert p in a + b;
    }
    if Removable(plan, t, a) || Removable(plan, t, b) {
      var p :| p in t && (p in a || p in b) && !Kept(plan, p, t[p]);
      assert p in a + b;
    }
  }

  /** Handling region a and then the disjoint region of entry c handles both. */
  lemma {:induction false} HandledInTurn(plan: Plan, t: Tree, a: set<Path>, c: Path, remove: bool,
                                         first: Result<bool>, mid: Tree, passed: seq<Tree>,
                                         second: Result<bool>, now: Tree, more: seq<Tree>)
    requires Handled(plan, t, a, remove, first, mid, passed) && first.Ok? && AtOrUnder(t, c) !! a
    requires Handled(plan, mid, AtOrUnder(mid, c), remove, second, now, more)
    ensures Handled(plan, t, a + AtOrUnder(t, c), remove,
                    if second.Ok? then Ok(first.value || second.value) else second, now, passed + more)
  {
    var b := AtOrUnder(t, c);
    RegionsAdd(plan, t, a, b);
    if remove {
      OtherRegionUntouched(plan, t, a, c);
      PruneTwice(plan, t, a, b);
      PartlyTwice(plan, t, a, b, now);
      PassedTwice(plan, t, a, b, more);
    } else {
      PartlyWidens(plan, t, b, a + b, now);
      PassedWidens(plan, t, b, a + b, more);
    }
    PassedWidens(plan, t, a, a + b, passed);
    PassedAppend(plan, t, a + b, passed, more);
  }

  lemma {:induction false} NothingIsHandled(plan: Plan, t: Tree, remove: bool)
    requires WellFormed(t)
    ensures Handled(plan, t, {}, remove, Ok(false), t, [])
  {
    assert Pruned(plan, t, {}) == t;
  }

  lemma {:induction false} FailureWidens(plan: Plan, t: Tree, a: set<Path>, b: set<Path>, remove: bool,
                                         r: Result<bool>, now: Tree, passed: seq<Tree>)
    requires Handled(plan, t, a, remove, r, now, passed) && r.Error? && a <= b
    ensures Handled(plan, t, b, remove, r, now, passed)
  {
    RegionsAdd(plan, t, a, b);
    assert a + b == b;
    PartlyWidens(plan, t, a, b, now);
    PassedWidens(plan, t, a, b, passed);
  }

  /** One more visited child, as the walk sees it. */
  lemma {:induction false} VisitExtendsWalk(plan: Plan, t: Tree, path: Path, all: set<Path>, todo: set<Path>, c: Path,
                                            remove: bool, removable: bool, mid: Tree, passed: seq<Tree>,
                                            part: Result<bool>, now: Tree, more: seq<Tree>)
    requires WellFormed(t) && all == Children(t, path) && todo <= all && c in todo
    requires Handled(plan, t, Below(t, path, all - todo), remove, Ok(removable), mid, passed)
    requires Handled(plan, mid, AtOrUnder(mid, c), remove, part, now, more)
    ensures part.Ok? ==> Handled(plan, t, Below(t, path, all - (todo - {c})), remove,
                                 Ok(removable || part.value), now, passed + more)
    ensures part.Error? ==> Handled(plan, t, Under(t, path), remove, part, now, passed + more)
  {
    var done := all - todo;
    NextChild(plan, t, path, done, c, t);
    HandledInTurn(plan, t, Below(t, path, done), c, remove, Ok(removable), mid, passed, part, now, more);
    OneMoreChild(t, path, done, c);
    assert all - (todo - {c}) == done + {c};
    ChildrenCoverUnder(t, path);
    if part.Error? {
      FailureWidens(plan, t, Below(t, path, done + {c}), Under(t, path), remove, part, now, passed + more);
    }
  }

  lemma {:induction false} Regroup<A>(a: seq<A>, b: seq<A>, c: seq<A>)
    ensures (a + b) + c == a + (b + c)
  {}

  /** The next scanned child is still there, whatever the walk removed before it. */
  lemma {:induction false} NextChild(plan: Plan, t: Tree, path: Path, done: set<Path>, c: Path, mid: Tree)
    requires c in Children(t, path) && c !in done && done <= Children(t, path)
    requires mid == t || mid == Pruned(plan, t, Below(t, path, done))
    ensures c in mid && c[..|c| - 1] == path
    ensures AtOrUnder(t, c) !! Below(t, path, done)
    ensures Under(mid, c) < Under(t, path)
  {
    forall p | p in t && c <= p ensures p[..|path| + 1] == c {}
    assert c[..|path| + 1] == c;
    assert c in Under(t, path) && c !in Under(mid, c);
    forall p | p in Under(mid, c) ensures p in Under(t, path) {}
  }

  // ---- a whole removal ----

  ghost function All(t: Tree): set<Path> {
    Under(t, [])
  }

  /** Without the marker nothing may be removable; with it, it must name the accepted media. */
  ghost predicate Validates(plan: Plan, t: Tree) {
    && !Blocked(plan, t, All(t))
    && (if MARKER in t then t[MARKER].kind == Regular(plan.declaration) else !Removable(plan, t, All(t)))
  }

  predicate KeepsRoot(plan: Plan) {
    [] in plan.mounts || LeadsToProtected(plan, [])
  }

  /** The final tree: only what is kept stays, and of that not the marker. */
  ghost function Cleaned(plan: Plan, t: Tree): Tree {
    map p | p in t && (if p == [] then KeepsRoot(plan) else p != MARKER && Kept(plan, p, t[p])) :: t[p]
  }

  /** A host on which a cleanup can be selected and run. */
  ghost predicate Ready(plan: Plan, d: Durable) {
    && d.receipt && WellFormed(d.files)
    && ([] in d.files ==> d.files[[]].kind.Directory? && Validates(plan, d.files))
  }

  lemma {:induction false} CleanedAlike(plan: Plan, t: Tree, now: Tree)
    requires PartlyPruned(plan, t, All(t), now)
    ensures Cleaned(plan, now) == Cleaned(plan, t)
  {
    forall p | p in t && Kept(plan, p, t[p]) ensures p in now && now[p] == t[p] {
      assert p in Pruned(plan, t, All(t));
    }
  }

  lemma {:induction false} StillUnblocked(plan: Plan, t: Tree, now: Tree)
    requires SubTree(now, t) && !Blocked(plan, t, All(t))
    ensures !Blocked(plan, now, All(now))
  {}

  /** A crash between two deletions of the walk leaves a tree that validates and ends the same. */
  lemma {:induction false} PartlyPrunedIsReady(plan: Plan, t: Tree, now: Tree, binding: bool)
    requires Ready(plan, Durable(t, binding, true)) && [] in t && PartlyPruned(plan, t, All(t), now)
    ensures Ready(plan, Durable(now, binding, true)) && Cleaned(plan, now) == Cleaned(plan, t)
  {
    CleanedAlike(plan, t, now);
    StillUnblocked(plan, t, now);
    var kept := Pruned(plan, t, All(t));
    assert [] in kept;
    if MARKER in t {
      assert MARKER in kept;
    }
  }

  /** Once the walk is over the marker guards nothing any more. */
  lemma {:induction false} UnmarkedIsReady(plan: Plan, t: Tree, binding: bool)
    requires Ready(plan, Durable(t, binding, true)) && [] in t
    ensures var now := Pruned(plan, t, All(t)) - {MARKER};
            WellFormed(now) ==> Ready(plan, Durable(now, binding, true)) && Cleaned(plan, now) == Cleaned(plan, t)
  {
    var now := Pruned(plan, t, All(t)) - {MARKER};
    StillUnblocked(plan, t, now);
    forall p | p in now && p in All(now) ensures Kept(plan, p, now[p]) {
      assert p in t && p in All(t);
    }
  }

  lemma {:induction false} SkippedUnderRoot(plan: Plan, t: Tree, p: Path)
    requires WellFormed(t) && p in t && (MARKER in t ==> !t[MARKER].kind.Directory?)
    requires Skipped(plan, p) && p != MARKER
    ensures LeadsToProtected(plan, [])
  {
    if Stop(plan, p) {
      assert [] < p;
    } else {
      assert HasParent(t, p);
      SkippedUnderRoot(plan, t, p[..|p| - 1]);
    }
  }

  /** A root that leads to nothing protected is empty by then, and nothing is left to clean. */
  lemma {:induction false} RootIsEmpty(plan: Plan, t: Tree, now: Tree)
    requires now == Pruned(plan, t, All(t)) - {MARKER} && [] in t
    requires WellFormed(t) && (MARKER in t ==> !t[MARKER].kind.Directory?)
    ensures !LeadsToProtected(plan, []) ==> Children(now, []) == {}
    ensures Cleaned(plan, t) == if KeepsRoot(plan) then now else now - {[]}
  {
    forall p | p in now && p != [] ensures p in All(t) && LeadsToProtected(plan, []) {
      assert p in All(t);
      if Skipped(plan, p) { SkippedUnderRoot(plan, t, p); }
    }
  }

  lemma {:induction false} NoRootNoFiles(t: Tree)
    requires WellFormed(t) && [] !in t
    ensures t == map[]
  {
    if p :| p in t {
      assert p != [] && p[..0] == [];
      PrefixPresent(t, p, 0);
      assert false;
    }
  }

  /** Before the receipt is gone, a cleanup can start again and leads to the same tree. */
  ghost predicate Retryable(plan: Plan, t: Tree, d: Durable) {
    Ready(plan, d) && Cleaned(plan, d.files) == Cleaned(plan, t)
  }

  ghost predicate RetryableTree(plan: Plan, t: Tree, binding: bool, passed: seq<Tree>, i: int) {
    0 <= i < |passed| ==> Retryable(plan, t, Durable(passed[i], binding, true))
  }

  ghost predicate AllRetryable(plan: Plan, t: Tree, binding: bool, passed: seq<Tree>) {
    forall i {:trigger RetryableTree(plan, t, binding, passed, i)} :: RetryableTree(plan, t, binding, passed, i)
  }

  lemma {:induction false} WalkIsRetryable(plan: Plan, t: Tree, binding: bool, passed: seq<Tree>)
    requires Ready(plan, Durable(t, binding, true)) && [] in t && PassedWell(plan, t, All(t), passed)
    ensures AllRetryable(plan, t, binding, passed)
  {
    forall i ensures RetryableTree(plan, t, binding, passed, i) {
      assert PassedAt(plan, t, All(t), passed, i);
      if 0 <= i < |passed| { PartlyPrunedIsReady(plan, t, passed[i], binding); }
    }
  }

  lemma {:induction false} RetryableAppend(plan: Plan, t: Tree, binding: bool, passed: seq<Tree>, next: Tree)
    requires AllRetryable(plan, t, binding, passed) && Retryable(plan, t, Durable(next, binding, true))
    ensures AllRetryable(plan, t, binding, passed + [next])
  {
    forall i ensures RetryableTree(plan, t, binding, passed + [next], i) {
      assert RetryableTree(plan, t, binding, passed, i);
    }
  }

  class Host {
    var files: Tree
    var binding: bool
    var receipt: bool
    var trail: seq<Tree>  // the tree after every deletion: a crash leaves one of them

    method Unlink(p: Path)
      requires p in files && !files[p].kind.Directory? && WellFormed(files)
      modifies this`files, this`trail
      ensures files == old(files) - {p} && WellFormed(files)
      ensures trail == old(trail) + [files]
    {
      forall q | q in files && q != p ensures HasParent(files - {p}, q) {
        assert HasParent(files, q);
      }
      files := files - {p};
      trail := trail + [files];
    }

    /** The system call refuses a directory that still has entries. */
    method Rmdir(p: Path) returns (ok: bool)
      requires p in files && files[p].kind.Directory? && WellFormed(files)
      modifies this`files, this`trail
      ensures ok <==> Children(old(files), p) == {}
      ensures !ok ==> files == old(files) && trail == old(trail)
      ensures ok ==> files == old(files) - {p} && trail == old(trail) + [files]
      ensures WellFormed(files)
    {
      ok := Children(files, p) == {};
      if ok {
        forall q | q in files && q != p ensures HasParent(files - {p}, q) {
          assert HasParent(files, q) && q !in Children(files, p);
        }
        files := files - {p};
        trail := trail + [files];
      }
    }

    /** Handle one scanned entry: skip it, refuse it, or remove it with its contents. */
    method Visit(plan: Plan, current: Path, remove: bool) returns (r: Result<bool>, ghost passed: seq<Tree>)
      requires WellFormed(files) && current in files && current != [] && !Skipped(plan, current[..|current| - 1])
      modifies this`files, this`trail
      ensures Handled(plan, old(files), AtOrUnder(old(files), current), remove, r, files, passed)
      ensures trail == old(trail) + passed
      decreases Under(files, current), 1
    {
      ghost var t := files;
      passed := [];
      if Stop(plan, current) {
        SkippingIsHandled(plan, t, current, remove);
        return Ok(false), [];
      }
      var node := files[current];
      if current in plan.mounts || node.foreign || (!node.kind.Directory? && node.kind.Device?) {
        RefusingIsHandled(plan, t, current, remove, "host data contains a nested mount or an unrecorded device");
        return Error("host data contains a nested mount or an unrecorded device"), [];
      }
      if !node.kind.Directory? {
        if remove {
          Unlink(current);
          passed := [files];
        }
        UnlinkingIsHandled(plan, t, current, remove, files, passed);
        return Ok(true), passed;
      }
      r, passed := Walk(plan, current, remove);
      if r.Error? || LeadsToProtected(plan, current) {
        KeepingDirectoryIsHandled(plan, t, current, remove, r, files, passed);
        return;
      }
      ghost var mid, inner, within := files, r, passed;
      if remove {
        EmptiedDirectory(plan, t, current, files);
        var ok := Rmdir(current);
        Regroup(old(trail), passed, [files]);
        passed := passed + [files];
        if !ok { return Error("directory not empty"), passed; }
      }
      RemovingDirectoryIsHandled(plan, t, current, remove, mid, files, inner, within);
      r := Ok(true);
    }

    /**
     Walk a directory in any order of its entries. Dry and removing walks fail on exactly
     the same trees, and answer whether anything is removable.
     */
    method Walk(plan: Plan, path: Path, remove: bool) returns (r: Result<bool>, ghost passed: seq<Tree>)
      requires WellFormed(files) && path in files && files[path].kind.Directory? && !Skipped(plan, path)
      modifies this`files, this`trail
      ensures Handled(plan, old(files), Under(old(files), path), remove, r, files, passed)
      ensures trail == old(trail) + passed
      decreases Under(files, path), 0
    {
      ghost var t := files;
      var removable := false;
      var todo := Children(files, path);
      ghost var all := todo;
      passed := [];
      NothingIsHandled(plan, t, remove);
      assert Below(t, path, all - todo) == {};
      while todo != {}
        invariant todo <= all
        invariant Handled(plan, t, Below(t, path, all - todo), remove, Ok(removable), files, passed)
        invariant trail == old(trail) + passed
        decreases todo
      {
        var current :| current in todo;
        ghost var mid := files;
        NextChild(plan, t, path, all - todo, current, mid);
        var part, more := Visit(plan, current, remove);
        VisitExtendsWalk(plan, t, path, all, todo, current, remove, removable, mid, passed, part, files, more);
        Regroup(old(trail), passed, more);
        passed := passed + more;
        if part.Error? {
          return part, passed;
        }
        todo := todo - {current};
        removable := removable || part.value;
      }
      assert all - todo == all;
      ChildrenCoverUnder(t, path);
      r := Ok(removable);
    }

    method Validate(plan: Plan) returns (ok: bool)
      requires WellFormed(files) && [] in files && files[[]].kind.Directory?
      modifies this`files, this`trail
      ensures ok <==> Validates(plan, files)
      ensures files == old(files) && trail == old(trail)
    {
      if MARKER in files && files[MARKER].kind != Regular(plan.declaration) {
        return false;
      }
      var dry, _ := Walk(plan, [], false);
      ok := dry.Ok? && (MARKER in files || !dry.value);
    }

    ghost function Now(): Durable
      reads this
    {
      Durable(files, binding, receipt)
    }

    /** Validate again, empty the directory, drop the marker and last the directory itself. */
    method RemoveData(plan: Plan) returns (ok: bool, ghost passed: seq<Tree>)
      requires WellFormed(files) && [] in files && files[[]].kind.Directory?
      modifies this`files, this`trail
      ensures ok <==> Validates(plan, old(files))
      ensures !ok ==> files == old(files) && passed == []
      ensures ok ==> files == Cleaned(plan, old(files)) && AllRetryable(plan, old(files), binding, passed)
      ensures trail == old(trail) + passed && WellFormed(files)
      ensures ok ==> Retryable(plan, old(files), Durable(files, binding, true))
    {
      ghost var t := files;
      passed := [];
      ok := Validate(plan);
      if !ok { return; }
      var walked;
      walked, passed := Walk(plan, [], true);
      WalkIsRetryable(plan, t, binding, passed);
      UnmarkedIsReady(plan, t, binding);
      RootIsEmpty(plan, t, files - {MARKER});
      if MARKER in files {
        Unlink(MARKER);
        RetryableAppend(plan, t, binding, passed, files);
        Regroup(old(trail), passed, [files]);
        passed := passed + [files];
      } else {
        assert files == files - {MARKER};
      }
      if !KeepsRoot(plan) {
        var gone := Rmdir([]);
        assert files == Cleaned(plan, t);
        assert Cleaned(plan, files) == files;
        RetryableAppend(plan, t, binding, passed, files);
        Regroup(old(trail), passed, [files]);
        passed := passed + [files];
      }
    }

    /**
     Remove the recorded data, then the target binding, then the receipt. A crash leaves
     one of the trees passed with the binding in place, or the final tree with only the
     receipt left, or the final host: all but the last are ready for another cleanup,
     which ends in the same tree.
     */
    method Remove(plan: Plan, existed: bool) returns (r: Result<bool>, ghost passed: seq<Tree>)
      requires WellFormed(files)
      modifies this
      ensures r.Ok? <==> Ready(plan, old(Now())) && existed == ([] in old(files))
      ensures r.Error? ==> Now() == old(Now()) && passed == []
      ensures trail == old(trail) + passed
      ensures r.Ok? ==> files == Cleaned(plan, old(files)) && !binding && !receipt
      ensures r.Ok? ==> AllRetryable(plan, old(files), old(binding), passed)
      ensures r.Ok? ==> forall b :: Retryable(plan, old(files), Durable(files, b, true))
    {
      passed := [];
      if !receipt {
        return Error("no accepted host ownership receipt"), passed;
      }
      if existed {
        if [] !in files || !files[[]].kind.Directory? {
          return Error("host data directory changed before cleanup"), passed;
        }
        var ok;
        ok, passed := RemoveData(plan);
        if !ok {
          return Error("host data directory does not validate"), passed;
        }
      } else if [] in files {
        return Error("host data directory appeared after cleanup selection"), passed;
      } else {
        NoRootNoFiles(files);
      }
      binding := false;
      receipt := false;
      r := Ok(true);
    }
  }

  // ---- what the final tree keeps ----

  ghost predicate AtOrUnderProtected(plan: Plan, p: Path) {
    exists q :: q in plan.protected && q != [] && q <= p
  }

  lemma {:induction false} ProtectedIsSkipped(plan: Plan, p: Path)
    requires AtOrUnderProtected(plan, p)
    ensures Skipped(plan, p)
  {
    var q :| q in plan.protected && q != [] && q <= p;
    SkippedBelow(plan, q, p);
  }

  lemma {:induction false} SkippedSplits(plan: Plan, p: Path)
    requires Skipped(plan, p)
    ensures AtOrUnderProtected(plan, p) || MARKER <= p
  {
    if !Stop(plan, p) { SkippedSplits(plan, p[..|p| - 1]); }
  }

  /** An entry outlives a removing walk exactly for one of three reasons. */
  lemma {:induction false} SurvivorsOfWalk(plan: Plan, t: Tree, p: Path)
    requires WellFormed(t) && p in t && p != [] && (MARKER in t ==> !t[MARKER].kind.Directory?)
    ensures p in Pruned(plan, t, All(t)) <==>
              || AtOrUnderProtected(plan, p)
              || (t[p].kind.Directory? && LeadsToProtected(plan, p))
              || p == MARKER
  {
    assert p in All(t);
    if AtOrUnderProtected(plan, p) { ProtectedIsSkipped(plan, p); }
    if Skipped(plan, p) {
      SkippedSplits(plan, p);
      if MARKER <= p && p != MARKER {
        assert p[..1] == MARKER;
        PrefixPresent(t, p, 1);
      }
    }
  }

  /** A removal spares all protected entries, unless the marker itself is one of them. */
  lemma {:induction false} RemovalSparesProtected(plan: Plan, t: Tree)
    requires Ready(plan, Durable(t, true, true))
    ensures (forall p :: p in t && AtOrUnderProtected(plan, p) ==> p in Cleaned(plan, t))
            <==> !(MARKER in t && MARKER in plan.protected)
  {
    forall p | p in t && AtOrUnderProtected(plan, p) ensures p in Cleaned(plan, t) || p == MARKER {
      ProtectedIsSkipped(plan, p);
    }
    if MARKER in t && AtOrUnderProtected(plan, MARKER) {
      var q :| q in plan.protected && q != [] && q <= MARKER;
      assert q == MARKER;
    }
    if MARKER in t && MARKER in plan.protected {
      assert AtOrUnderProtected(plan, MARKER);
    }
  }
}
