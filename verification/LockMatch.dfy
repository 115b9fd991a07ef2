/**
 Comparison of two Cargo locks that may differ only in development dependencies. Lock and
 manifest tables are records; fields the comparison never looks into are opaque text.
 */
module LockMatch {
  import opened Common

  datatype Package = Package(name: string, version: string, source: Option<string>,
                             rest: map<string, string>, dependencies: Option<seq<string>>)

  datatype Key = Key(name: string, version: string, source: Option<string>)

  datatype Lock = Lock(packages: seq<Package>, rest: map<string, string>)

  /** A dependency is a version text or a table, which may rename the crate. */
  datatype Specification = Version(text: string) | Table(package: Option<string>, rest: string)

  type Dependencies = map<string, Specification>

  datatype Section = Section(dependencies: Option<Dependencies>, build: Option<Dependencies>, rest: string)

  datatype Example = Example(path: string, requiredFeatures: Option<seq<string>>, rest: string)

  datatype Manifest = Manifest(name: Option<string>, test: Option<string>, dev: Option<Dependencies>,
                               examples: Option<seq<Example>>, features: Option<map<string, seq<string>>>,
                               main: Section, targets: Option<map<string, Section>>, rest: map<string, string>)

  type Manifests = map<string, (Manifest, Manifest)>

  // ---- manifests ----

  predicate StartsWith(s: string, prefix: string) {
    |prefix| <= |s| && s[..|prefix|] == prefix
  }

  predicate TestOnly(e: Example) {
    StartsWith(e.path, "tests/common/") && e.requiredFeatures == Some(["test-util"])
  }

  function Shipped(examples: seq<Example>): seq<Example> {
    if examples == [] then []
    else (if TestOnly(examples[0]) then [] else [examples[0]]) + Shipped(examples[1..])
  }

  function ShippedFeatures(features: map<string, seq<string>>): map<string, seq<string>> {
    if "test-util" in features && features["test-util"] == [] then features - {"test-util"} else features
  }

  /** The manifest without the parts that only tests use. */
  function ProductionManifest(m: Manifest): Manifest {
    var shipped := Shipped(m.examples.GetOr([]));
    var features := ShippedFeatures(m.features.GetOr(map[]));
    m.(test := None, dev := None,
       examples := if shipped == [] then None else Some(shipped),
       features := if m.name != Some("crowdb-console-shared") then m.features
                   else if features == map[] then None else Some(features))
  }

  function CrateName(alias: string, specification: Specification): string {
    if specification.Table? then specification.package.GetOr(alias) else alias
  }

  function Crates(dependencies: Option<Dependencies>): set<string> {
    var table := dependencies.GetOr(map[]);
    set alias <- table :: CrateName(alias, table[alias])
  }

  function SectionCrates(s: Section): set<string> {
    Crates(s.dependencies) + Crates(s.build)
  }

  ghost predicate InTarget(m: Manifest, crate: string) {
    exists t <- m.targets.GetOr(map[]) :: crate in SectionCrates(m.targets.GetOr(map[])[t])
  }

  /** The crate is a normal, build or target dependency of the manifest. */
  ghost predicate Produces(m: Manifest, crate: string) {
    crate in SectionCrates(m.main) || InTarget(m, crate)
  }

  ghost predicate DevOnly(pair: (Manifest, Manifest), crate: string) {
    && (crate in Crates(pair.0.dev) || crate in Crates(pair.1.dev))
    && !Produces(pair.0, crate) && !Produces(pair.1, crate)
  }

  // ---- locks ----

  predicate Ignored(p: Package) {
    p.name == "e2e-test" || p.name == "crowdb-test-harness"
  }

  function KeyOf(p: Package): Key {
    Key(p.name, p.version, p.source)
  }

  /** The compared packages by key; a later entry replaces an earlier one. */
  function Packages(packages: seq<Package>): (r: map<Key, Package>)
    ensures forall k <- r :: KeyOf(r[k]) == k && !Ignored(r[k]) && r[k] in packages
  {
    if packages == [] then map[]
    else
      var before, p := Packages(packages[..|packages| - 1]), packages[|packages| - 1];
      if Ignored(p) then before else before[KeyOf(p) := p]
  }

  predicate Blank(c: char) {
    c == ' ' || c == '\t' || c == '\n' || c == '\r'
  }

  function Word(s: string): string {
    if s == "" || Blank(s[0]) then "" else [s[0]] + Word(s[1..])
  }

  /** The first word of a dependency entry names its crate. */
  function FirstWord(s: string): string {
    if s != "" && Blank(s[0]) then FirstWord(s[1..]) else Word(s)
  }

  function Edges(p: Package): set<string> {
    set d <- p.dependencies.GetOr([])
  }

  ghost predicate OneSided(p: Package, q: Package, edge: string) {
    (edge in Edges(p)) != (edge in Edges(q))
  }

  ghost predicate EdgesMatch(p: Package, q: Package, pair: (Manifest, Manifest)) {
    forall edge {:trigger OneSided(p, q, edge)} :: OneSided(p, q, edge) ==> DevOnly(pair, FirstWord(edge))
  }

  ghost predicate PackagesMatch(p: Package, q: Package, manifests: Manifests) {
    || p == q
    || (&& p.rest == q.rest
        && p.name in manifests
        && ProductionManifest(manifests[p.name].0) == ProductionManifest(manifests[p.name].1)
        && EdgesMatch(p, q, manifests[p.name]))
  }

  ghost predicate Matches(before: Lock, after: Lock, manifests: Manifests) {
    var (was, now) := (Packages(before.packages), Packages(after.packages));
    && was.Keys == now.Keys
    && (forall k <- was :: PackagesMatch(was[k], now[k], manifests))
    && before.rest == after.rest
  }

  // ---- the comparison ----

  method CollectCrates(dependencies: Option<Dependencies>, collected: set<string>) returns (r: set<string>)
    ensures r == collected + Crates(dependencies)
  {
    var table := dependencies.GetOr(map[]);
    r := collected;
    var aliases := table.Keys;
    while aliases != {}
      invariant aliases <= table.Keys
      invariant r == collected + set alias <- table | alias !in aliases :: CrateName(alias, table[alias])
    {
      var alias :| alias in aliases;
      r := r + {CrateName(alias, table[alias])};
      aliases := aliases - {alias};
    }
  }

  method CollectProduction(m: Manifest, collected: set<string>) returns (r: set<string>)
    ensures forall crate :: crate in r <==> crate in collected || Produces(m, crate)
  {
    r := CollectCrates(m.main.dependencies, collected);
    r := CollectCrates(m.main.build, r);
    var targets := m.targets.GetOr(map[]);
    ghost var main := r;
    var left := targets.Keys;
    while left != {}
      invariant left <= targets.Keys
      invariant forall crate :: crate in r <==>
                  crate in main || exists t <- targets :: t !in left && crate in SectionCrates(targets[t])
    {
      var t :| t in left;
      r := CollectCrates(targets[t].dependencies, r);
      r := CollectCrates(targets[t].build, r);
      left := left - {t};
    }
  }

  /** The development dependencies of a pair that neither manifest uses in production. */
  method CollectDevOnly(pair: (Manifest, Manifest)) returns (dev: set<string>)
    ensures forall crate :: crate in dev <==> DevOnly(pair, crate)
  {
    dev := CollectCrates(pair.0.dev, {});
    var production := CollectProduction(pair.0, {});
    dev := CollectCrates(pair.1.dev, dev);
    production := CollectProduction(pair.1, production);
    dev := dev - production;
  }

  method ComparePackages(p: Package, q: Package, manifests: Manifests) returns (r: bool)
    requires KeyOf(p) == KeyOf(q)
    ensures r <==> PackagesMatch(p, q, manifests)
  {
    if p == q {
      return true;
    }
    if p.rest != q.rest || p.name !in manifests {
      return false;
    }
    var pair := manifests[p.name];
    if ProductionManifest(pair.0) != ProductionManifest(pair.1) {
      return false;
    }
    var dev := CollectDevOnly(pair);
    var changed := (Edges(p) - Edges(q)) + (Edges(q) - Edges(p));
    assert forall edge :: OneSided(p, q, edge) <==> edge in changed;
    r := forall edge <- changed :: FirstWord(edge) in dev;
  }

  method LockMatches(before: Lock, after: Lock, manifests: Manifests) returns (r: bool)
    ensures r <==> Matches(before, after, manifests)
  {
    var was, now := Packages(before.packages), Packages(after.packages);
    if was.Keys != now.Keys {
      return false;
    }
    var left := was.Keys;
    while left != {}
      invariant left <= was.Keys
      invariant forall k <- was :: k !in left ==> PackagesMatch(was[k], now[k], manifests)
    {
      var k :| k in left;
      var same := ComparePackages(was[k], now[k], manifests);
      if !same {
        return false;
      }
      left := left - {k};
    }
    r := before.rest == after.rest;
  }

  // ---- properties ----

  lemma MatchesIsReflexive(lock: Lock, manifests: Manifests)
    ensures Matches(lock, lock, manifests)
  {
  }

  function Swapped(manifests: Manifests): Manifests {
    map name <- manifests :: (manifests[name].1, manifests[name].0)
  }

  lemma PackagesMatchSwaps(p: Package, q: Package, manifests: Manifests)
    requires KeyOf(p) == KeyOf(q) && PackagesMatch(p, q, manifests)
    ensures PackagesMatch(q, p, Swapped(manifests))
  {
    if p != q {
      var (pair, swapped) := (manifests[p.name], Swapped(manifests)[p.name]);
      forall edge | OneSided(q, p, edge)
        ensures DevOnly(swapped, FirstWord(edge))
      {
        assert OneSided(p, q, edge);
        assert DevOnly(pair, FirstWord(edge));
      }
    }
  }

  lemma MatchesSwaps(before: Lock, after: Lock, manifests: Manifests)
    requires Matches(before, after, manifests)
    ensures Matches(after, before, Swapped(manifests))
  {
    var (was, now) := (Packages(before.packages), Packages(after.packages));
    forall k <- now
      ensures PackagesMatch(now[k], was[k], Swapped(manifests))
    {
      PackagesMatchSwaps(was[k], now[k], manifests);
    }
  }

  /** Swapping the locks together with the manifest pairs never changes the answer. */
  lemma MatchesIsSymmetric(before: Lock, after: Lock, manifests: Manifests)
    ensures Matches(before, after, manifests) <==> Matches(after, before, Swapped(manifests))
  {
    if Matches(before, after, manifests) {
      MatchesSwaps(before, after, manifests);
    }
    if Matches(after, before, Swapped(manifests)) {
      MatchesSwaps(after, before, Swapped(manifests));
      assert Swapped(Swapped(manifests)) == manifests;
    }
  }

  /** An edge that counts for production: any edge of a package that is not in the source tree. */
  ghost predicate ProductionEdge(p: Package, manifests: Manifests, edge: string) {
    && edge in Edges(p)
    && (p.name in manifests ==>
          Produces(manifests[p.name].0, FirstWord(edge)) || Produces(manifests[p.name].1, FirstWord(edge)))
  }

  /** One step along a production edge of the package with this key. */
  ghost predicate Leads(packages: map<Key, Package>, manifests: Manifests, resolve: string -> Key, k: Key, next: Key) {
    k in packages && exists edge :: ProductionEdge(packages[k], manifests, edge) && resolve(edge) == next
  }

  /** The keys reached from a root along at most n production edges. */
  ghost predicate Reaches(packages: map<Key, Package>, manifests: Manifests, resolve: string -> Key, root: Key, n: nat,
                          k: Key) {
    || k == root
    || (n > 0 && exists mid :: Reaches(packages, manifests, resolve, root, n - 1, mid)
                               && Leads(packages, manifests, resolve, mid, k))
  }

  lemma ProductionEdgesAreKept(p: Package, q: Package, manifests: Manifests, edge: string)
    requires KeyOf(p) == KeyOf(q) && PackagesMatch(p, q, manifests)
    ensures ProductionEdge(p, manifests, edge) <==> ProductionEdge(q, manifests, edge)
  {
    if p != q {
      assert OneSided(p, q, edge) ==> DevOnly(manifests[p.name], FirstWord(edge));
    }
  }

  lemma StepsAreKept(before: Lock, after: Lock, manifests: Manifests, resolve: string -> Key, k: Key, next: Key)
    requires Matches(before, after, manifests)
    ensures Leads(Packages(before.packages), manifests, resolve, k, next) <==>
            Leads(Packages(after.packages), manifests, resolve, k, next)
  {
    var (was, now) := (Packages(before.packages), Packages(after.packages));
    if k in was {
      forall edge
        ensures ProductionEdge(was[k], manifests, edge) <==> ProductionEdge(now[k], manifests, edge)
      {
        ProductionEdgesAreKept(was[k], now[k], manifests, edge);
      }
    }
  }

  /** Accepted locks have the same production dependency graph: every package reaches the same packages. */
  lemma {:induction false} ProductionGraphIsKept(before: Lock, after: Lock, manifests: Manifests,
                                                 resolve: string -> Key, root: Key, n: nat, k: Key)
    requires Matches(before, after, manifests)
    ensures Reaches(Packages(before.packages), manifests, resolve, root, n, k) <==>
            Reaches(Packages(after.packages), manifests, resolve, root, n, k)
  {
    if n > 0 {
      forall mid
        ensures Reaches(Packages(before.packages), manifests, resolve, root, n - 1, mid) <==>
                Reaches(Packages(after.packages), manifests, resolve, root, n - 1, mid)
        ensures Leads(Packages(before.packages), manifests, resolve, mid, k) <==>
                Leads(Packages(after.packages), manifests, resolve, mid, k)
      {
        ProductionGraphIsKept(before, after, manifests, resolve, root, n - 1, mid);
        StepsAreKept(before, after, manifests, resolve, mid, k);
      }
    }
  }

  lemma {:induction false} ShippedIsStable(examples: seq<Example>)
    ensures Shipped(Shipped(examples)) == Shipped(examples)
  {
    if examples != [] {
      ShippedIsStable(examples[1..]);
      if TestOnly(examples[0]) {
        assert Shipped(examples) == Shipped(examples[1..]);
      } else {
        assert Shipped(examples)[1..] == Shipped(examples[1..]);
      }
    }
  }

  /** Taking the production part twice changes nothing, and it keeps every production dependency. */
  lemma ProductionManifestIsStable(m: Manifest, crate: string)
    ensures ProductionManifest(ProductionManifest(m)) == ProductionManifest(m)
    ensures Produces(ProductionManifest(m), crate) <==> Produces(m, crate)
    ensures Crates(ProductionManifest(m).dev) == {}
  {
    ShippedIsStable(m.examples.GetOr([]));
  }
}
