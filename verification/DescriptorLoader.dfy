/**
  Loading a file descriptor into a pool, dependencies first.
 */
module DescriptorLoader {

  type FileName = string

  /** For every known file the files it depends on, in order. */
  type Graph = map<FileName, seq<FileName>>

  predicate WellFormed(g: Graph) {
    forall f | f in g :: forall i | 0 <= i < |g[f]| :: g[f][i] in g
  }

  // ---- Paths ----

  predicate IsPath(g: Graph, p: seq<FileName>) {
    && |p| > 0
    && (forall i | 0 <= i < |p| :: p[i] in g)
    && (forall i | 0 < i < |p| :: p[i] in g[p[i - 1]])
  }

  ghost predicate Reaches(g: Graph, a: FileName, b: FileName) {
    exists p :: IsPath(g, p) && p[0] == a && p[|p| - 1] == b
  }

  ghost predicate Acyclic(g: Graph) {
    forall p | IsPath(g, p) && |p| > 1 :: p[0] != p[|p| - 1]
  }

  /** `p` leads through files missing from `pool` and ends on a file it has visited before. */
  ghost predicate IsTrap(g: Graph, pool: set<FileName>, p: seq<FileName>) {
    && IsPath(g, p)
    && (forall i | 0 <= i < |p| :: p[i] !in pool)
    && exists i :: 0 <= i < |p| - 1 && p[i] == p[|p| - 1]
  }

  /** A cycle of missing files is reached from `f` through missing files. */
  ghost predicate Blocked(g: Graph, pool: set<FileName>, f: FileName) {
    exists p :: IsTrap(g, pool, p) && p[0] == f
  }

  lemma AcyclicIsNeverBlocked(g: Graph, pool: set<FileName>, f: FileName)
    requires Acyclic(g)
    ensures !Blocked(g, pool, f)
  {
    forall p | IsPath(g, p)
      ensures !IsTrap(g, pool, p)
    {
      forall i | 0 <= i < |p| - 1
        ensures p[i] != p[|p| - 1]
      {
        Subpath(g, p, i, |p|);
        var q := p[i..];
        assert q[0] == p[i] && q[|q| - 1] == p[|p| - 1];
      }
    }
  }

  /** The files that `f` depends on, itself included. */
  ghost function Reachable(g: Graph, f: FileName): set<FileName> {
    set x | x in g && Reaches(g, f, x)
  }

  ghost function ReachableFromAny(g: Graph, fs: seq<FileName>): set<FileName> {
    set x | x in g && exists i :: 0 <= i < |fs| && Reaches(g, fs[i], x)
  }

  lemma ExtendPath(g: Graph, p: seq<FileName>, d: FileName)
    requires IsPath(g, p) && d in g && d in g[p[|p| - 1]]
    ensures IsPath(g, p + [d])
  {
    var q := p + [d];
    forall i | 0 < i < |q|
      ensures q[i] in g[q[i - 1]]
    {
      assert q[i - 1] == p[i - 1];
    }
  }

  lemma PrependPath(g: Graph, f: FileName, p: seq<FileName>)
    requires f in g && IsPath(g, p) && p[0] in g[f]
    ensures IsPath(g, [f] + p)
  {
    var q := [f] + p;
    forall i | 0 < i < |q|
      ensures q[i] in g[q[i - 1]]
    {
      assert q[i] == p[i - 1];
      assert i > 1 ==> q[i - 1] == p[i - 2];
    }
  }

  lemma Subpath(g: Graph, p: seq<FileName>, i: nat, j: nat)
    requires IsPath(g, p) && i < j <= |p|
    ensures IsPath(g, p[i..j])
  {
    var q := p[i..j];
    forall k | 0 < k < |q|
      ensures q[k] in g[q[k - 1]]
    {
      assert q[k] == p[i + k] && q[k - 1] == p[i + k - 1];
    }
  }

  /** A file depends on itself and on what its dependencies depend on. */
  lemma ReachableStep(g: Graph, f: FileName)
    requires f in g
    ensures Reachable(g, f) == {f} + ReachableFromAny(g, g[f])
  {
    forall x | x in Reachable(g, f)
      ensures x == f || x in ReachableFromAny(g, g[f])
    {
      var p :| IsPath(g, p) && p[0] == f && p[|p| - 1] == x;
      if |p| > 1 {
        Subpath(g, p, 1, |p|);
        var q := p[1..];
        assert q[0] in g[f] && q[|q| - 1] == x;
        var i :| 0 <= i < |g[f]| && g[f][i] == q[0];
        assert Reaches(g, g[f][i], x);
      }
    }
    forall x | x in {f} + ReachableFromAny(g, g[f])
      ensures x in Reachable(g, f)
    {
      if x == f {
        assert IsPath(g, [f]);
      } else {
        var i :| 0 <= i < |g[f]| && Reaches(g, g[f][i], x);
        var p :| IsPath(g, p) && p[0] == g[f][i] && p[|p| - 1] == x;
        PrependPath(g, f, p);
        assert ([f] + p)[|p|] == x;
      }
    }
  }

  lemma JoinPaths(g: Graph, p: seq<FileName>, q: seq<FileName>)
    requires IsPath(g, p) && IsPath(g, q) && q[0] in g[p[|p| - 1]]
    ensures IsPath(g, p + q)
  {
    var r := p + q;
    forall i | 0 < i < |r|
      ensures r[i] in g[r[i - 1]]
    {
      if i < |p| {
        assert r[i] == p[i] && r[i - 1] == p[i - 1];
      } else {
        assert r[i] == q[i - |p|];
        assert r[i - 1] == if i == |p| then p[|p| - 1] else q[i - |p| - 1];
      }
    }
  }

  /** The files that a load is inside of: a path of missing files with no cycle ahead. */
  ghost predicate Stack(g: Graph, base: set<FileName>, path: seq<FileName>) {
    && IsPath(g, path)
    && (forall i | 0 <= i < |path| :: path[i] !in base)
    && !Blocked(g, base, path[0])
  }

  /** `f` is about to be loaded for the sake of the files on `path` before it. */
  ghost predicate Descends(g: Graph, base: set<FileName>, path: seq<FileName>, f: FileName) {
    && IsPath(g, path) && path[|path| - 1] == f && !Blocked(g, base, path[0])
    && forall i | 0 <= i < |path| - 1 :: path[i] !in base
  }

  lemma PushOnStack(g: Graph, base: set<FileName>, path: seq<FileName>, f: FileName)
    requires Descends(g, base, path, f)
    ensures |path| > 0 && path[|path| - 1] == f && (f !in base ==> Stack(g, base, path))
  {
  }

  lemma Descend(g: Graph, base: set<FileName>, path: seq<FileName>, d: FileName)
    requires Stack(g, base, path) && d in g && d in g[path[|path| - 1]]
    ensures Descends(g, base, path + [d], d)
  {
    ExtendPath(g, path, d);
  }

  /** The termination measure: a stack cannot be longer than the graph. */
  lemma StackIsShort(g: Graph, base: set<FileName>, p: seq<FileName>)
    requires Stack(g, base, p)
    ensures |p| <= |g|
  {
    forall i, j | 0 <= i < j < |p|
      ensures p[i] != p[j]
    {
      Subpath(g, p, 0, j + 1);
      var q := p[0..j + 1];
      assert q[i] == p[i] && q[|q| - 1] == p[j];
      assert !IsTrap(g, base, q);
    }
    DistinctIsSmall(p, g.Keys);
  }

  /** Loading the dependencies of the top of the stack does not build the top itself. */
  lemma TopIsNotAhead(g: Graph, base: set<FileName>, path: seq<FileName>, pool: set<FileName>)
    requires Stack(g, base, path) && base <= pool && DependencyClosed(g, pool)
    requires path[|path| - 1] !in pool
    ensures path[|path| - 1] !in ReachableFromAny(g, g[path[|path| - 1]])
  {
    var f := path[|path| - 1];
    forall i | 0 <= i < |g[f]|
      ensures !Reaches(g, g[f][i], f)
    {
      forall p | IsPath(g, p) && p[0] == g[f][i]
        ensures p[|p| - 1] != f
      {
        if p[|p| - 1] == f {
          forall k | 0 <= k < |p|
            ensures p[k] !in pool
          {
            if p[k] in pool {
              Subpath(g, p, k, |p|);
              var q := p[k..];
              ClosedAlong(g, pool, q, |q| - 1);
            }
          }
          JoinPaths(g, path, p);
          var r := path + p;
          assert r[|path| - 1] == r[|r| - 1];
          assert IsTrap(g, base, r);
        }
      }
    }
  }

  lemma {:induction false} DistinctIsSmall(p: seq<FileName>, s: set<FileName>)
    requires forall i | 0 <= i < |p| :: p[i] in s
    requires forall i, j | 0 <= i < j < |p| :: p[i] != p[j]
    ensures |p| <= |s|
  {
    if p != [] {
      var x := p[|p| - 1];
      DistinctIsSmall(p[..|p| - 1], s - {x});
    }
  }

  // ---- The order of building ----

  ghost predicate DependencyClosed(g: Graph, pool: set<FileName>) {
    forall f | f in pool && f in g :: forall i | 0 <= i < |g[f]| :: g[f][i] in pool
  }

  /**
    `news` can be built one by one on top of `base`: each is new, and all its dependencies
    are there when its turn comes.
   */
  ghost predicate BuildOrder(g: Graph, base: set<FileName>, news: seq<FileName>) {
    forall i | 0 <= i < |news| ::
      && news[i] in g
      && news[i] !in base
      && (forall j | 0 <= j < i :: news[j] != news[i])
      && forall k | 0 <= k < |g[news[i]]| :: g[news[i]][k] in base || g[news[i]][k] in news[..i]
  }

  function Elements(s: seq<FileName>): set<FileName> {
    set x | x in s
  }

  lemma BuildOrderConcat(g: Graph, base: set<FileName>, a: seq<FileName>, b: seq<FileName>)
    requires BuildOrder(g, base, a) && BuildOrder(g, base + Elements(a), b)
    ensures BuildOrder(g, base, a + b)
  {
    var c := a + b;
    forall i | 0 <= i < |c|
      ensures c[i] in g && c[i] !in base && forall j | 0 <= j < i :: c[j] != c[i]
      ensures forall k | 0 <= k < |g[c[i]]| :: g[c[i]][k] in base || g[c[i]][k] in c[..i]
    {
      if i < |a| {
        assert c[i] == a[i] && c[..i] == a[..i];
      } else {
        assert c[i] == b[i - |a|] && c[..i] == a + b[..i - |a|];
      }
    }
  }

  lemma ClosedReaches(g: Graph, pool: set<FileName>, f: FileName)
    requires DependencyClosed(g, pool) && f in pool
    ensures Reachable(g, f) <= pool
  {
    forall x | x in Reachable(g, f)
      ensures x in pool
    {
      var p :| IsPath(g, p) && p[0] == f && p[|p| - 1] == x;
      ClosedAlong(g, pool, p, |p| - 1);
    }
  }

  lemma {:induction false} ClosedAlong(g: Graph, pool: set<FileName>, p: seq<FileName>, n: nat)
    requires DependencyClosed(g, pool) && IsPath(g, p) && p[0] in pool && n < |p|
    ensures p[n] in pool
  {
    if n > 0 {
      ClosedAlong(g, pool, p, n - 1);
    }
  }

  class DescriptorPool {
    var files: set<FileName>
    /** The files built through this object, in order. */
    var built: seq<FileName>

    constructor ()
      ensures files == {} && built == []
    {
      files, built := {}, [];
    }

    /** `BuildFile` refuses a file that is there already or whose imports are not. */
    method BuildFile(name: FileName, imports: seq<FileName>) returns (ok: bool)
      modifies this
      ensures ok <==> name !in old(files) && forall i | 0 <= i < |imports| :: imports[i] in old(files)
      ensures files == old(files) + (if ok then {name} else {})
      ensures built == old(built) + (if ok then [name] else [])
    {
      ok := name !in files && forall i | 0 <= i < |imports| :: imports[i] in files;
      if ok {
        files := files + {name};
        built := built + [name];
      } else {
        assert built == built + [];
      }
    }
  }

  /** `news` are the files that loading `f` added, in the order in which they were built. */
  ghost predicate Loaded(g: Graph, f: FileName, before: set<FileName>, after: set<FileName>, news: seq<FileName>) {
    && DependencyClosed(g, after)
    && after == before + Reachable(g, f)
    && after == before + Elements(news)
    && BuildOrder(g, before, news)
    && (f in g ==> InDependencyOrder(g, g[f], |g[f]|, news))
  }

  /**
    Files are built dependency by dependency: what the first `i` dependencies need comes before
    everything else, for every `i` up to `n`.
   */
  ghost predicate InDependencyOrder(g: Graph, deps: seq<FileName>, n: nat, news: seq<FileName>)
    requires n <= |deps|
  {
    forall i, a, b | 0 <= i <= n && 0 <= a < b < |news| ::
      news[b] in ReachableFromAny(g, deps[..i]) ==> news[a] in ReachableFromAny(g, deps[..i])
  }

  /**
    Loads `f` and what it depends on. `path` is the chain of files being loaded, `base` the
    pool when the outermost load began.
   */
  method Load(g: Graph, f: FileName, pool: DescriptorPool, ghost base: set<FileName>, ghost path: seq<FileName>)
    returns (ghost news: seq<FileName>)
    requires WellFormed(g) && f in g && DependencyClosed(g, pool.files) && base <= pool.files
    requires Descends(g, base, path, f)
    modifies pool
    ensures Loaded(g, f, old(pool.files), pool.files, news)
    ensures pool.built == old(pool.built) + news
    ensures f in old(pool.files) ==> news == []
    decreases |g| + 1 - |path|
  {
    hide *;
    news := [];
    if f in pool.files {
      AlreadyLoaded(g, f, pool.files);
      return;
    }
    PushOnStack(g, base, path, f);
    StackIsShort(g, base, path);
    TopIsNotAhead(g, base, path, pool.files);
    NoneLoaded(g, g[f], pool.files);
    var deps := g[f];
    for i := 0 to |deps|
      invariant SomeLoaded(g, deps, i, old(pool.files), pool.files, news)
      invariant DependencyClosed(g, pool.files) && base <= pool.files
      invariant pool.built == old(pool.built) + news
    {
      DependencyIsKnown(g, f, i);
      Descend(g, base, path, deps[i]);
      ghost var before := pool.files;
      ghost var more := Load(g, deps[i], pool, base, path + [deps[i]]);
      OneMoreLoaded(g, deps, i, old(pool.files), before, news, pool.files, more);
      news := news + more;
    }
    AllLoaded(g, f, old(pool.files), pool.files, news);
    var ok := pool.BuildFile(f, deps);
    news := news + [f];
  }

  /** The first `n` of `deps` have been loaded. */
  ghost predicate SomeLoaded(g: Graph, deps: seq<FileName>, n: nat, before: set<FileName>, after: set<FileName>, news: seq<FileName>)
    requires n <= |deps|
  {
    && DependencyClosed(g, after)
    && after == before + ReachableFromAny(g, deps[..n])
    && after == before + Elements(news)
    && BuildOrder(g, before, news)
    && InDependencyOrder(g, deps, n, news)
  }

  lemma AlreadyLoaded(g: Graph, f: FileName, pool: set<FileName>)
    requires DependencyClosed(g, pool) && f in pool
    ensures Loaded(g, f, pool, pool, [])
  {
    ClosedReaches(g, pool, f);
  }

  lemma DependencyIsKnown(g: Graph, f: FileName, i: nat)
    requires WellFormed(g) && f in g && i < |g[f]|
    ensures g[f][i] in g
  {
  }

  lemma NoneLoaded(g: Graph, deps: seq<FileName>, pool: set<FileName>)
    requires DependencyClosed(g, pool)
    ensures SomeLoaded(g, deps, 0, pool, pool, [])
  {
  }

  lemma OneMoreLoaded(g: Graph, deps: seq<FileName>, i: nat, before: set<FileName>, middle: set<FileName>, news: seq<FileName>,
                      after: set<FileName>, more: seq<FileName>)
    requires i < |deps| && SomeLoaded(g, deps, i, before, middle, news) && Loaded(g, deps[i], middle, after, more)
    ensures SomeLoaded(g, deps, i + 1, before, after, news + more)
    ensures DependencyClosed(g, after) && middle <= after
  {
    hide InDependencyOrder;
    NewsAreNew(g, before, news);
    NewsAreNew(g, middle, more);
    hide BuildOrder, DependencyClosed;
    OneMoreDependency(g, deps, i);
    FewerDependencies(g, deps, i);
    hide ReachableFromAny, Reachable;
    BuildOrderConcat(g, before, news, more);
    ElementsConcat(news, more);
    OrderOneMore(g, deps, i, before, news, more);
  }

  lemma NewsAreNew(g: Graph, base: set<FileName>, news: seq<FileName>)
    requires BuildOrder(g, base, news)
    ensures Elements(news) !! base
  {
  }

  lemma FewerDependencies(g: Graph, deps: seq<FileName>, n: nat)
    requires n <= |deps|
    ensures forall i | 0 <= i <= n :: ReachableFromAny(g, deps[..i]) <= ReachableFromAny(g, deps[..n])
  {
    forall i, x | 0 <= i <= n && x in ReachableFromAny(g, deps[..i])
      ensures x in ReachableFromAny(g, deps[..n])
    {
      var k :| 0 <= k < i && Reaches(g, deps[..i][k], x);
      assert deps[..n][k] == deps[..i][k];
    }
  }

  lemma OrderOneMore(g: Graph, deps: seq<FileName>, n: nat, before: set<FileName>, news: seq<FileName>, more: seq<FileName>)
    requires n < |deps| && InDependencyOrder(g, deps, n, news)
    requires Elements(more) !! ReachableFromAny(g, deps[..n]) && Elements(news + more) <= ReachableFromAny(g, deps[..n + 1])
    requires forall i | 0 <= i <= n :: ReachableFromAny(g, deps[..i]) <= ReachableFromAny(g, deps[..n])
    ensures InDependencyOrder(g, deps, n + 1, news + more)
  {
    hide ReachableFromAny;
    var all := news + more;
    assert forall c | 0 <= c < |more| :: more[c] in Elements(more);
    forall i, a, b | 0 <= i <= n + 1 && 0 <= a < b < |all| && all[b] in ReachableFromAny(g, deps[..i])
      ensures all[a] in ReachableFromAny(g, deps[..i])
    {
      if i == n + 1 {
        assert all[a] in Elements(all);
      } else {
        assert b < |news|;
        assert all[a] == news[a] && all[b] == news[b];
      }
    }
  }

  /** With all dependencies loaded, `f` is still missing, can be built, and then is loaded. */
  lemma AllLoaded(g: Graph, f: FileName, before: set<FileName>, middle: set<FileName>, news: seq<FileName>)
    requires WellFormed(g) && f in g && f !in before && f !in ReachableFromAny(g, g[f])
    requires SomeLoaded(g, g[f], |g[f]|, before, middle, news)
    ensures f !in middle && forall i | 0 <= i < |g[f]| :: g[f][i] in middle
    ensures Loaded(g, f, before, middle + {f}, news + [f])
  {
    hide WellFormed, DependencyClosed, BuildOrder, ReachableFromAny, Reachable, Elements;
    assert g[f][..|g[f]|] == g[f];
    ReachableStep(g, f);
    DependenciesAreThere(g, f);
    assert f !in before + Elements(news);
    ClosedUnderAdding(g, middle, f);
    ElementsConcat(news, [f]);
    ElementsOne(f);
    BuildOrderLast(g, before, news, f);
    OrderLast(g, g[f], news, f);
  }

  lemma OrderLast(g: Graph, deps: seq<FileName>, news: seq<FileName>, f: FileName)
    requires InDependencyOrder(g, deps, |deps|, news) && f !in ReachableFromAny(g, deps)
    ensures InDependencyOrder(g, deps, |deps|, news + [f])
  {
    FewerDependencies(g, deps, |deps|);
    assert deps[..|deps|] == deps;
    hide ReachableFromAny;
    var all := news + [f];
    forall i, a, b | 0 <= i <= |deps| && 0 <= a < b < |all| && all[b] in ReachableFromAny(g, deps[..i])
      ensures all[a] in ReachableFromAny(g, deps[..i])
    {
      assert b < |news| && all[a] == news[a] && all[b] == news[b];
    }
  }

  lemma ElementsOne(f: FileName)
    ensures Elements([f]) == {f}
  {
  }

  lemma ClosedUnderAdding(g: Graph, pool: set<FileName>, f: FileName)
    requires DependencyClosed(g, pool) && f in g && forall i | 0 <= i < |g[f]| :: g[f][i] in pool
    ensures DependencyClosed(g, pool + {f})
  {
  }

  lemma ElementsConcat(a: seq<FileName>, b: seq<FileName>)
    ensures Elements(a + b) == Elements(a) + Elements(b)
  {
  }

  lemma OneMoreDependency(g: Graph, deps: seq<FileName>, i: nat)
    requires i < |deps|
    ensures ReachableFromAny(g, deps[..i + 1]) == ReachableFromAny(g, deps[..i]) + Reachable(g, deps[i])
  {
    var a, b := deps[..i], deps[..i + 1];
    forall x | x in ReachableFromAny(g, b)
      ensures x in ReachableFromAny(g, a) + Reachable(g, deps[i])
    {
      var k :| 0 <= k < |b| && Reaches(g, b[k], x);
      assert k < i ==> a[k] == b[k];
    }
    forall x | x in ReachableFromAny(g, a) + Reachable(g, deps[i])
      ensures x in ReachableFromAny(g, b)
    {
      if x in Reachable(g, deps[i]) {
        assert b[i] == deps[i];
      } else {
        var k :| 0 <= k < |a| && Reaches(g, a[k], x);
        assert b[k] == a[k];
      }
    }
  }

  lemma DependenciesAreThere(g: Graph, f: FileName)
    requires WellFormed(g) && f in g
    ensures forall i | 0 <= i < |g[f]| :: g[f][i] in ReachableFromAny(g, g[f])
  {
    forall i | 0 <= i < |g[f]|
      ensures g[f][i] in ReachableFromAny(g, g[f])
    {
      assert IsPath(g, [g[f][i]]);
      assert Reaches(g, g[f][i], g[f][i]);
    }
  }

  lemma BuildOrderLast(g: Graph, base: set<FileName>, news: seq<FileName>, f: FileName)
    requires BuildOrder(g, base, news) && f in g && f !in base + Elements(news)
    requires forall k | 0 <= k < |g[f]| :: g[f][k] in base + Elements(news)
    ensures BuildOrder(g, base, news + [f])
  {
    var one := [f];
    assert one[..0] == [];
    assert BuildOrder(g, base + Elements(news), one);
    BuildOrderConcat(g, base, news, one);
  }

  /** The call that a program makes. */
  method LoadFileDescriptors(g: Graph, f: FileName, pool: DescriptorPool) returns (ghost news: seq<FileName>)
    requires WellFormed(g) && f in g && DependencyClosed(g, pool.files) && !Blocked(g, pool.files, f)
    modifies pool
    ensures Loaded(g, f, old(pool.files), pool.files, news)
    ensures pool.built == old(pool.built) + news
    ensures f in old(pool.files) ==> news == []
    ensures LoadWithin(g, f, old(pool.files), |g|) == Pool(pool.files)
  {
    hide LoadWithin;
    LoadEndsIff(g, f, pool.files);
    assert IsPath(g, [f]);
    news := Load(g, f, pool, pool.files, [f]);
  }

  /** Loading the same file again finds it and builds nothing. */
  method LoadTwice(g: Graph, f: FileName, pool: DescriptorPool)
    requires WellFormed(g) && f in g && DependencyClosed(g, pool.files) && !Blocked(g, pool.files, f)
    modifies pool
    ensures pool.files == old(pool.files) + Reachable(g, f)
    ensures exists news :: Loaded(g, f, old(pool.files), pool.files, news) && pool.built == old(pool.built) + news
  {
    ghost var news := LoadFileDescriptors(g, f, pool);
    ghost var files, built := pool.files, pool.built;
    ReachableStep(g, f);
    assert f in pool.files && !Blocked(g, pool.files, f);
    ghost var none := LoadFileDescriptors(g, f, pool);
    assert none == [] && Elements(none) == {};
    assert pool.files == files && pool.built == built;
  }

  // ---- No other graph can be loaded ----

  /** In a build order dependencies come earlier. */
  lemma {:induction false} OrderAlong(g: Graph, base: set<FileName>, news: seq<FileName>, p: seq<FileName>, i: nat, j: nat)
    requires BuildOrder(g, base, news) && IsPath(g, p)
    requires forall k | 0 <= k < |p| :: p[k] in news && p[k] !in base
    requires i < j < |p|
    ensures forall a, b | 0 <= a < |news| && 0 <= b < |news| && news[a] == p[i] && news[b] == p[j] :: b < a
    decreases j - i
  {
    forall a, b | 0 <= a < |news| && 0 <= b < |news| && news[a] == p[i] && news[b] == p[j]
      ensures b < a
    {
      var c :| 0 <= c < |news| && news[c] == p[i + 1];
      assert p[i + 1] in g[p[i]];
      assert p[i + 1] in news[..a];
      var d :| 0 <= d < a && news[d] == p[i + 1];
      Distinct(g, base, news, c, d);
      if i + 1 < j {
        OrderAlong(g, base, news, p, i + 1, j);
      } else {
        Distinct(g, base, news, b, d);
      }
    }
  }

  lemma Distinct(g: Graph, base: set<FileName>, news: seq<FileName>, a: nat, b: nat)
    requires BuildOrder(g, base, news) && a < |news| && b < |news| && news[a] == news[b]
    ensures a == b
  {
  }

  lemma TrapWouldBeBuilt(g: Graph, f: FileName, pool: set<FileName>, after: set<FileName>, news: seq<FileName>, p: seq<FileName>, k: nat)
    requires Loaded(g, f, pool, after, news) && IsTrap(g, pool, p) && p[0] == f && k < |p|
    ensures p[k] in news
  {
    hide BuildOrder, DependencyClosed;
    Subpath(g, p, 0, k + 1);
    var q := p[0..k + 1];
    assert q[0] == f && q[|q| - 1] == p[k];
    assert p[k] in Reachable(g, f);
  }

  /**
    If a cycle of missing files is ahead, no sequence of builds loads `f`: the condition of
    `LoadFileDescriptors` leaves out nothing that can be loaded.
   */
  lemma BlockedCannotBeLoaded(g: Graph, pool: set<FileName>, f: FileName, after: set<FileName>, news: seq<FileName>)
    requires Blocked(g, pool, f)
    ensures !Loaded(g, f, pool, after, news)
  {
    if Loaded(g, f, pool, after, news) {
      var p :| IsTrap(g, pool, p) && p[0] == f;
      hide Reachable, DependencyClosed, BuildOrder, IsPath, Reaches;
      forall k: nat | k < |p|
        ensures p[k] in news
      {
        TrapWouldBeBuilt(g, f, pool, after, news, p, k);
      }
      var i :| 0 <= i < |p| - 1 && p[i] == p[|p| - 1];
      var a :| 0 <= a < |news| && news[a] == p[i];
      OrderAlong(g, pool, news, p, i, |p| - 1);
      assert false;
    }
  }

  // ---- The recursion ends if and only if the file is not blocked ----

  datatype Outcome = Deeper | Pool(files: set<FileName>)

  /** What `BuildFile` does to the set of files. */
  function Built(g: Graph, f: FileName, pool: set<FileName>): set<FileName>
    requires f in g
  {
    if f !in pool && forall i | 0 <= i < |g[f]| :: g[f][i] in pool then pool + {f} else pool
  }

  /** The pool that loading `f` leaves, if no call is nested deeper than `depth`. */
  function LoadWithin(g: Graph, f: FileName, pool: set<FileName>, depth: nat): Outcome
    requires WellFormed(g) && f in g
    decreases depth, 0
  {
    if f in pool then Pool(pool)
    else if depth == 0 then Deeper
    else
      var o := LoadAllWithin(g, g[f], pool, depth - 1);
      if o.Deeper? then Deeper else Pool(Built(g, f, o.files))
  }

  /** The loop over the dependencies. */
  function LoadAllWithin(g: Graph, fs: seq<FileName>, pool: set<FileName>, depth: nat): Outcome
    requires WellFormed(g) && forall i | 0 <= i < |fs| :: fs[i] in g
    decreases depth, 1 + |fs|
  {
    if fs == [] then
      Pool(pool)
    else
      var o := LoadAllWithin(g, fs[..|fs| - 1], pool, depth);
      if o.Deeper? then Deeper else LoadWithin(g, fs[|fs| - 1], o.files, depth)
  }

  /** Every file of `b` depends on a file of `b`. */
  ghost predicate Stuck(g: Graph, b: set<FileName>) {
    forall f | f in b :: f in g && exists i :: 0 <= i < |g[f]| && g[f][i] in b
  }

  /** A load that ends builds none of a stuck set of missing files, and was not asked for one. */
  lemma {:induction false} StuckIsNeverBuilt(g: Graph, f: FileName, pool: set<FileName>, depth: nat, b: set<FileName>)
    requires WellFormed(g) && f in g && Stuck(g, b) && b !! pool
    ensures var o := LoadWithin(g, f, pool, depth); o.Pool? ==> f !in b && b !! o.files
    decreases depth, 0
  {
    hide LoadAllWithin, WellFormed;
    if f !in pool && depth > 0 {
      AllKnown(g, f);
      StuckAll(g, g[f], pool, depth - 1, b);
      if f in b {
        var i :| 0 <= i < |g[f]| && g[f][i] in b;
      }
      hide Stuck;
    }
  }

  lemma {:induction false} StuckAll(g: Graph, fs: seq<FileName>, pool: set<FileName>, depth: nat, b: set<FileName>)
    requires WellFormed(g) && (forall i | 0 <= i < |fs| :: fs[i] in g) && Stuck(g, b) && b !! pool
    ensures var o := LoadAllWithin(g, fs, pool, depth);
            o.Pool? ==> b !! o.files && forall i | 0 <= i < |fs| :: fs[i] !in b
    decreases depth, 1 + |fs|
  {
    hide LoadWithin, WellFormed, Stuck;
    if fs != [] {
      var front := fs[..|fs| - 1];
      StuckAll(g, front, pool, depth, b);
      var o := LoadAllWithin(g, front, pool, depth);
      if o.Pool? {
        StuckIsNeverBuilt(g, fs[|fs| - 1], o.files, depth, b);
        assert forall i | 0 <= i < |front| :: front[i] == fs[i];
      }
    }
  }

  lemma TrapIsStuck(g: Graph, pool: set<FileName>, p: seq<FileName>)
    requires IsTrap(g, pool, p)
    ensures Stuck(g, Elements(p)) && Elements(p) !! pool
  {
    forall f | f in Elements(p)
      ensures f in g && exists i :: 0 <= i < |g[f]| && g[f][i] in Elements(p)
    {
      var k :| 0 <= k < |p| && p[k] == f;
      var last :| 0 <= last < |p| - 1 && p[last] == p[|p| - 1];
      var j := if k < |p| - 1 then k + 1 else last + 1;
      assert p[j] in g[p[j - 1]] && p[j - 1] == f;
      var i :| 0 <= i < |g[f]| && g[f][i] == p[j];
      assert g[f][i] in Elements(p);
    }
  }

  /** On a stack with no cycle ahead, as many nested calls as there are files are enough. */
  lemma {:induction false} DeepEnough(g: Graph, f: FileName, pool: set<FileName>, depth: nat, base: set<FileName>, path: seq<FileName>)
    requires WellFormed(g) && f in g && DependencyClosed(g, pool) && base <= pool
    requires Descends(g, base, path, f) && depth + |path| >= |g| + 1
    ensures LoadWithin(g, f, pool, depth) == Pool(pool + Reachable(g, f))
    ensures DependencyClosed(g, pool + Reachable(g, f))
    decreases depth, 0
  {
    hide IsPath, Blocked, Reachable, ReachableFromAny, DependencyClosed, WellFormed, Stack, Descends;
    if f in pool {
      AlreadyLoaded(g, f, pool);
      assert pool + Reachable(g, f) == pool;
    } else {
      PushOnStack(g, base, path, f);
      StackIsShort(g, base, path);
      TopIsNotAhead(g, base, path, pool);
      DependenciesAreThere(g, f);
      AllKnown(g, f);
      DeepEnoughAll(g, g[f], pool, depth - 1, base, path, f);
      ReachableStep(g, f);
      var middle := pool + ReachableFromAny(g, g[f]);
      ClosedUnderAdding(g, middle, f);
      assert middle + {f} == pool + Reachable(g, f);
    }
  }

  lemma AllKnown(g: Graph, f: FileName)
    requires WellFormed(g) && f in g
    ensures forall i | 0 <= i < |g[f]| :: g[f][i] in g
  {
  }

  lemma {:induction false} DeepEnoughAll(g: Graph, fs: seq<FileName>, pool: set<FileName>, depth: nat, base: set<FileName>,
                                         path: seq<FileName>, f: FileName)
    requires WellFormed(g) && f in g && fs <= g[f] && (forall i | 0 <= i < |fs| :: fs[i] in g)
    requires DependencyClosed(g, pool) && base <= pool
    requires Stack(g, base, path) && |path| > 0 && path[|path| - 1] == f && depth + |path| >= |g|
    ensures LoadAllWithin(g, fs, pool, depth) == Pool(pool + ReachableFromAny(g, fs))
    ensures DependencyClosed(g, pool + ReachableFromAny(g, fs))
    decreases depth, 1 + |fs|
  {
    hide IsPath, Blocked, Reachable, ReachableFromAny, DependencyClosed, WellFormed, Stack, Descends, Reaches;
    if fs == [] {
      NoDependency(g);
      assert pool + ReachableFromAny(g, fs) == pool;
    } else {
      var n := |fs| - 1;
      var d := fs[n];
      DeepEnoughAll(g, fs[..n], pool, depth, base, path, f);
      var middle := pool + ReachableFromAny(g, fs[..n]);
      Descend(g, base, path, d);
      DeepEnough(g, d, middle, depth, base, path + [d]);
      OneMoreDependency(g, fs, n);
      assert fs[..n + 1] == fs;
      assert middle + Reachable(g, d) == pool + ReachableFromAny(g, fs);
    }
  }

  lemma NoDependency(g: Graph)
    ensures ReachableFromAny(g, []) == {}
  {
  }

  /** Some bound on the nesting is enough: the call returns. */
  ghost predicate LoadEnds(g: Graph, f: FileName, pool: set<FileName>)
    requires WellFormed(g) && f in g
  {
    exists depth: nat :: LoadWithin(g, f, pool, depth).Pool?
  }

  /**
    From a closed pool the recursion ends if and only if no cycle of missing files is ahead.
    When it ends, nesting as deep as there are files is enough, and the pool it leaves is the
    old pool and everything reachable.
   */
  lemma LoadEndsIff(g: Graph, f: FileName, pool: set<FileName>)
    requires WellFormed(g) && f in g && DependencyClosed(g, pool)
    ensures LoadEnds(g, f, pool) <==> !Blocked(g, pool, f)
    ensures LoadEnds(g, f, pool) ==> LoadWithin(g, f, pool, |g|) == Pool(pool + Reachable(g, f))
  {
    hide LoadWithin, WellFormed, DependencyClosed, Reachable;
    if Blocked(g, pool, f) {
      forall depth: nat
        ensures !LoadWithin(g, f, pool, depth).Pool?
      {
        BlockedGoesDeeper(g, f, pool, depth);
      }
    } else {
      assert IsPath(g, [f]);
      hide Blocked;
      DeepEnough(g, f, pool, |g|, pool, [f]);
    }
  }

  lemma BlockedGoesDeeper(g: Graph, f: FileName, pool: set<FileName>, depth: nat)
    requires WellFormed(g) && f in g && Blocked(g, pool, f)
    ensures LoadWithin(g, f, pool, depth).Deeper?
  {
    hide LoadWithin, WellFormed;
    var p :| IsTrap(g, pool, p) && p[0] == f;
    TrapIsStuck(g, pool, p);
    StuckIsNeverBuilt(g, f, pool, depth, Elements(p));
  }
}
