/** The map view's pin layout and clustering engine (components/JobMap.tsx).
    Every job is drawn at a position computed from its index in the list;
    at zoom levels 1 and 2 the positions are bucketed on a square grid and
    every bucket holding two or more jobs is drawn as one cluster marker. */
module JobMap {
  import opened Types

  const MinZoom := 1
  const MaxZoom := 3

  /** A screen position, as percentages of the map's height and width. */
  datatype Position = Position(top: int, left: int)

  /** A grid cell: the integer parts of left / size and top / size. */
  datatype CellKey = CellKey(gridX: int, gridY: int)

  /** A cluster marker: the cell it stands for, how many jobs it holds,
      the mean position of those jobs, and the jobs themselves. */
  datatype Cluster = Cluster(id: CellKey, count: int, avgTop: real, avgLeft: real, jobs: seq<Job>)

  /** The position of the job at index `idx`; the same formula serves for
      bucketing, for the cluster means and for drawing single pins. */
  function PinPosition(idx: nat): (p: Position)
    ensures p.top == 20 || p.top == 40 || p.top == 60
    ensures 15 <= p.left <= 80 && p.left % 5 == 0
  {
    TopOffset(idx);
    LeftOffset(idx);
    Position(20 + (idx * 20) % 60, 15 + (idx * 25) % 70)
  }

  // the vertical offset cycles through 0, 20, 40
  lemma TopOffset(idx: nat)
    ensures (idx * 20) % 60 == 20 * (idx % 3)
  {
    var q, k := idx / 3, idx % 3;
    var x := idx * 20;
    assert x == 60 * q + 20 * k;
    assert x == 60 * (x / 60) + x % 60;
    assert -60 < 60 * (q - x / 60) < 60;
  }

  // the horizontal offset is a multiple of 5 below 70
  lemma LeftOffset(idx: nat)
    ensures (idx * 25) % 70 == 5 * ((idx * 5) % 14)
  {
    var y := idx * 5;
    var q, k := y / 14, y % 14;
    var x := idx * 25;
    assert x == 70 * q + 5 * k;
    assert x == 70 * (x / 70) + x % 70;
    assert -70 < 70 * (q - x / 70) < 70;
  }

  /** Positions repeat every 42 indices: jobs 42 places apart are drawn
      on top of each other. */
  lemma PinPositionPeriodic(idx: nat)
    ensures PinPosition(idx + 42) == PinPosition(idx)
  {
    var a, b := idx * 20, idx * 25;
    assert (idx + 42) * 20 == a + 840;
    assert (idx + 42) * 25 == b + 1050;
    ShiftedRemainders(a, b);
  }

  // adding a whole number of periods leaves the remainders unchanged
  lemma ShiftedRemainders(a: int, b: int)
    ensures (a + 840) % 60 == a % 60 && (b + 1050) % 70 == b % 70
  {
  }

  /** The grid cell size at a zoom level: 25 at zoom 1, 12 otherwise. */
  function CellSize(zoom: int): (size: int)
    ensures size > 0
    ensures size == 25 <==> zoom == 1
    ensures zoom != 1 ==> size == 12
  {
    if zoom == 1 then 25 else 12
  }

  /** The cell of the job at index `idx` on the grid of a zoom level. */
  function CellOf(idx: nat, zoom: int): CellKey
  {
    var p := PinPosition(idx);
    // dividing by the literal size keeps the division linear for the solver
    if CellSize(zoom) == 25 then CellKey(p.left / 25, p.top / 25) else CellKey(p.left / 12, p.top / 12)
  }

  /** The cell is the integer part of the position divided by the zoom
      level's cell size: the cell of that size whose square holds the
      position. */
  lemma CellOfIsFloor(idx: nat, zoom: int)
    ensures var k, p, g := CellOf(idx, zoom), PinPosition(idx), CellSize(zoom);
      && 0 <= k.gridX && g * k.gridX <= p.left < g * (k.gridX + 1)
      && 0 <= k.gridY && g * k.gridY <= p.top < g * (k.gridY + 1)
  {
  }

  /** The cells that the first `n` jobs occupy, in order of first use:
      the order in which the grid's keys are inserted and enumerated. */
  function CellsUpTo(n: nat, zoom: int): (cells: seq<CellKey>)
    ensures NoDuplicates(cells)
  {
    if n == 0 then []
    else
      var earlier := CellsUpTo(n - 1, zoom);
      if CellOf(n - 1, zoom) in earlier then earlier else earlier + [CellOf(n - 1, zoom)]
  }

  // no more cells than jobs
  lemma {:induction false} CellsUpToLength(n: nat, zoom: int)
    ensures |CellsUpTo(n, zoom)| <= n
  {
    if n > 0 {
      CellsUpToLength(n - 1, zoom);
    }
  }

  /** The cells listed are exactly those that some of the first `n` jobs use. */
  lemma {:induction false} CellsUpToUsed(n: nat, zoom: int)
    ensures forall k :: k in CellsUpTo(n, zoom) <==> exists i :: 0 <= i < n && CellOf(i, zoom) == k
  {
    if n > 0 {
      CellsUpToUsed(n - 1, zoom);
    }
  }

  /** The jobs among the first `n` whose cell is `key`, in list order:
      the contents of that grid bucket. */
  function Members(jobs: seq<Job>, n: nat, zoom: int, key: CellKey): (ms: seq<Job>)
    requires n <= |jobs|
    ensures |ms| <= n
    ensures IsSubsequence(ms, jobs[..n])
    ensures forall i :: 0 <= i < n && CellOf(i, zoom) == key ==> jobs[i] in ms
    ensures forall m :: m in ms ==> m in jobs
  {
    if n == 0 then []
    else
      var earlier := Members(jobs, n - 1, zoom, key);
      assert jobs[..n] == jobs[..n - 1] + [jobs[n - 1]];
      if CellOf(n - 1, zoom) == key then
        SubsequenceExtend(earlier, jobs[..n - 1], jobs[n - 1]);
        earlier + [jobs[n - 1]]
      else
        SubsequenceSkip(earlier, jobs[..n - 1], jobs[n - 1]);
        earlier
  }

  /** Every member of a bucket comes from a job in that cell. */
  lemma {:induction false} MembersInCell(jobs: seq<Job>, n: nat, zoom: int, key: CellKey)
    requires n <= |jobs|
    ensures forall m :: m in Members(jobs, n, zoom, key) ==>
      exists i :: 0 <= i < n && jobs[i] == m && CellOf(i, zoom) == key
  {
    if n > 0 {
      MembersInCell(jobs, n - 1, zoom, key);
    }
  }

  /** The index of the first occurrence of `job` in `jobs`. */
  function IndexOf(jobs: seq<Job>, job: Job): (i: nat)
    requires job in jobs
    ensures i < |jobs| && jobs[i] == job
    ensures forall k :: 0 <= k < i ==> jobs[k] != job
  {
    if jobs[0] == job then 0 else 1 + IndexOf(jobs[1..], job)
  }

  /** When ids are unique, a job's first occurrence is its own index. */
  lemma IndexOfUnique(jobs: seq<Job>, i: nat)
    requires UniqueIds(jobs) && i < |jobs|
    ensures IndexOf(jobs, jobs[i]) == i
  {
  }

  /** The componentwise sum of the positions of `members`, each taken at
      the index where it first occurs in `jobs`. */
  function PositionSum(jobs: seq<Job>, members: seq<Job>): (s: Position)
    requires forall m :: m in members ==> m in jobs
    ensures 20 * |members| <= s.top <= 60 * |members|
    ensures 15 * |members| <= s.left <= 80 * |members|
  {
    if members == [] then Position(0, 0)
    else
      var earlier := PositionSum(jobs, members[..|members| - 1]);
      var p := PinPosition(IndexOf(jobs, members[|members| - 1]));
      Position(earlier.top + p.top, earlier.left + p.left)
  }

  /** The cluster for a bucket whose members' positions add up to `sum`:
      its count and the mean of those positions. */
  function MakeCluster(key: CellKey, members: seq<Job>, sum: Position): (c: Cluster)
    requires members != []
    ensures c.id == key && c.jobs == members && c.count == |members|
  {
    var count := |members| as real;
    Cluster(key, |members|, sum.top as real / count, sum.left as real / count, members)
  }

  /** A cluster's position is the arithmetic mean of its members' positions
      and so lies within the range of pin positions. */
  lemma MakeClusterMean(key: CellKey, members: seq<Job>, sum: Position)
    requires members != []
    requires 20 * |members| <= sum.top <= 60 * |members|
    requires 15 * |members| <= sum.left <= 80 * |members|
    ensures var c := MakeCluster(key, members, sum);
      && c.avgTop * (c.count as real) == sum.top as real
      && c.avgLeft * (c.count as real) == sum.left as real
      && 20.0 <= c.avgTop <= 60.0 && 15.0 <= c.avgLeft <= 80.0
  {
    MeanBounds(sum.top, |members|, 20, 60);
    MeanBounds(sum.left, |members|, 15, 80);
  }

  // a sum of n values in [lo, hi] has its mean in [lo, hi]
  lemma MeanBounds(sum: int, n: nat, lo: int, hi: int)
    requires n > 0 && lo * n <= sum <= hi * n
    ensures (sum as real / n as real) * n as real == sum as real
    ensures lo as real <= sum as real / n as real <= hi as real
  {
    var mean := sum as real / n as real;
    assert mean * n as real == sum as real;
    assert (lo as real) * (n as real) <= mean * (n as real) <= (hi as real) * (n as real);
  }

  /** The cluster contributed by one grid bucket: one exactly when the
      bucket holds two or more jobs. */
  function ClusterAt(jobs: seq<Job>, key: CellKey, zoom: int): (r: seq<Cluster>)
    ensures |r| <= 1
    ensures |r| == 1 <==> |Members(jobs, |jobs|, zoom, key)| >= 2
    ensures forall c :: c in r ==> c.id == key && c.jobs == Members(jobs, |jobs|, zoom, key) && c.count == |c.jobs|
  {
    var ms := Members(jobs, |jobs|, zoom, key);
    if |ms| > 1 then
      assert forall m :: m in ms ==> m in jobs;
      [MakeCluster(key, ms, PositionSum(jobs, ms))]
    else []
  }

  /** The clusters of the buckets `keys`, in the order of `keys`. */
  function ClustersOf(jobs: seq<Job>, keys: seq<CellKey>, zoom: int): (cs: seq<Cluster>)
    ensures |cs| <= |keys|
  {
    if keys == [] then []
    else
      var front := keys[..|keys| - 1];
      var last := keys[|keys| - 1];
      assert keys == front + [last];
      ClustersOf(jobs, front, zoom) + ClusterAt(jobs, last, zoom)
  }

  /** Every bucket of two or more jobs among `keys` becomes a cluster. */
  lemma {:induction false} EveryBigBucketClustered(jobs: seq<Job>, keys: seq<CellKey>, zoom: int, k: CellKey)
    requires k in keys && |Members(jobs, |jobs|, zoom, k)| >= 2
    ensures exists c :: c in ClustersOf(jobs, keys, zoom) && c.id == k
  {
    var front := keys[..|keys| - 1];
    var last := keys[|keys| - 1];
    assert keys == front + [last];
    if k != last {
      EveryBigBucketClustered(jobs, front, zoom, k);
      var c :| c in ClustersOf(jobs, front, zoom) && c.id == k;
      assert c in ClustersOf(jobs, keys, zoom);
    } else {
      assert ClusterAt(jobs, last, zoom)[0] in ClustersOf(jobs, keys, zoom);
    }
  }

  /** The ids of a list of clusters, in order. */
  function ClusterIds(cs: seq<Cluster>): (ids: seq<CellKey>)
    ensures |ids| == |cs| && forall p :: 0 <= p < |cs| ==> ids[p] == cs[p].id
  {
    seq(|cs|, p requires 0 <= p < |cs| => cs[p].id)
  }

  /** The clusters' ids follow the order of the buckets they come from. */
  lemma {:induction false} ClusterIdsInKeyOrder(jobs: seq<Job>, keys: seq<CellKey>, zoom: int)
    ensures IsSubsequence(ClusterIds(ClustersOf(jobs, keys, zoom)), keys)
  {
    if keys != [] {
      var front := keys[..|keys| - 1];
      var last := keys[|keys| - 1];
      ClusterIdsInKeyOrder(jobs, front, zoom);
      var earlier := ClusterIds(ClustersOf(jobs, front, zoom));
      var at := ClusterAt(jobs, last, zoom);
      assert keys == front + [last];
      var cs := ClustersOf(jobs, keys, zoom);
      assert cs == ClustersOf(jobs, front, zoom) + at;
      if at == [] {
        assert cs == ClustersOf(jobs, front, zoom);
        SubsequenceSkip(earlier, front, last);
      } else {
        assert ClusterIds(cs) == earlier + [last] by {
          assert cs[|cs| - 1] == at[0];
          assert cs[..|cs| - 1] == ClustersOf(jobs, front, zoom);
        }
        SubsequenceExtend(earlier, front, last);
      }
    }
  }

  /** Distinct buckets give clusters with distinct ids. */
  lemma ClusterIdsDistinct(jobs: seq<Job>, keys: seq<CellKey>, zoom: int)
    requires NoDuplicates(keys)
    ensures NoDuplicates(ClusterIds(ClustersOf(jobs, keys, zoom)))
  {
    ClusterIdsInKeyOrder(jobs, keys, zoom);
    SubsequenceNoDuplicates(ClusterIds(ClustersOf(jobs, keys, zoom)), keys);
  }

  /** The cluster markers at a zoom level (the `clusters` memo). */
  function Clusters(jobs: seq<Job>, zoom: int): (r: seq<Cluster>)
    ensures zoom >= MaxZoom ==> r == []
    ensures |r| <= |jobs|
  {
    if zoom >= MaxZoom then []
    else
      CellsUpToLength(|jobs|, zoom);
      ClustersOf(jobs, CellsUpTo(|jobs|, zoom), zoom)
  }

  /** The clusters computed step by step as the map view does: one pass
      puts every job into the bucket of its cell, a second pass turns each
      bucket of two or more jobs into a cluster at the mean of its members'
      positions. */
  method ComputeClusters(jobs: seq<Job>, zoom: int) returns (result: seq<Cluster>)
    ensures result == Clusters(jobs, zoom)
  {
    if zoom >= MaxZoom {
      return [];
    }
    var grid, order := BuildGrid(jobs, zoom);
    assert order == CellsUpTo(|jobs|, zoom);
    result := [];
    var e := 0;
    while e < |order|
      invariant 0 <= e <= |order|
      invariant result == ClustersOf(jobs, order[..e], zoom)
    {
      var key := order[e];
      var clusterJobs := grid[key];
      ClustersOfStep(jobs, order, e, zoom);
      if |clusterJobs| > 1 {
        assert forall m :: m in clusterJobs ==> m in jobs;
        var sum := SumPositions(jobs, clusterJobs);
        var count := |clusterJobs|;
        var cluster := Cluster(key, count, sum.top as real / count as real, sum.left as real / count as real, clusterJobs);
        assert [cluster] == ClusterAt(jobs, key, zoom);
        result := result + [cluster];
      }
      e := e + 1;
    }
    assert order[..e] == order;
  }

  /** The grid after the first `n` jobs have been bucketed: its keys are
      the cells used so far, in insertion order, each holding its bucket. */
  ghost predicate GridHolds(jobs: seq<Job>, n: nat, zoom: int, grid: map<CellKey, seq<Job>>, order: seq<CellKey>)
    requires n <= |jobs|
  {
    && order == CellsUpTo(n, zoom)
    && (forall k :: k in grid <==> k in order)
    && (forall k :: k in grid ==> grid[k] == Members(jobs, n, zoom, k))
  }

  /** The first pass: the grid of buckets keyed by cell, and its keys in
      insertion order. */
  method BuildGrid(jobs: seq<Job>, zoom: int) returns (grid: map<CellKey, seq<Job>>, order: seq<CellKey>)
    ensures GridHolds(jobs, |jobs|, zoom, grid, order)
  {
    var size := CellSize(zoom);
    grid, order := map[], [];
    var n := 0;
    while n < |jobs|
      invariant 0 <= n <= |jobs|
      invariant GridHolds(jobs, n, zoom, grid, order)
    {
      var p := PinPosition(n);
      var key := CellKey(p.left / size, p.top / size);
      assert key == CellOf(n, zoom);
      var grid', order' := grid, order;
      if key !in grid {
        grid' := grid[key := []];
        order' := order + [key];
      }
      GridStep(jobs, n, zoom, grid, order, grid', order');
      grid, order := grid'[key := grid'[key] + [jobs[n]]], order';
      n := n + 1;
    }
  }

  // bucketing job `n` into the grid keeps the grid exact; `grid'` and
  // `order'` are the grid and order once the job's cell has been added
  lemma GridStep(jobs: seq<Job>, n: nat, zoom: int, grid: map<CellKey, seq<Job>>, order: seq<CellKey>,
                 grid': map<CellKey, seq<Job>>, order': seq<CellKey>)
    requires n < |jobs| && GridHolds(jobs, n, zoom, grid, order)
    requires CellOf(n, zoom) in grid ==> grid' == grid && order' == order
    requires CellOf(n, zoom) !in grid ==> grid' == grid[CellOf(n, zoom) := []] && order' == order + [CellOf(n, zoom)]
    ensures CellOf(n, zoom) in grid'
    ensures GridHolds(jobs, n + 1, zoom, grid'[CellOf(n, zoom) := grid'[CellOf(n, zoom)] + [jobs[n]]], order')
  {
    var key := CellOf(n, zoom);
    var next := grid'[key := grid'[key] + [jobs[n]]];
    assert next.Keys == grid'.Keys + {key};
    GridKeysStep(n, zoom, grid, order, grid', order', next);
    if key !in grid {
      MembersOfUnlistedCell(jobs, n, zoom, key);
    }
    GridBucketsStep(jobs, n, zoom, grid, grid', next);
  }

  // the keys part of the step above
  lemma GridKeysStep(n: nat, zoom: int, grid: map<CellKey, seq<Job>>, order: seq<CellKey>,
                     grid': map<CellKey, seq<Job>>, order': seq<CellKey>, next: map<CellKey, seq<Job>>)
    requires order == CellsUpTo(n, zoom) && forall k :: k in grid <==> k in order
    requires CellOf(n, zoom) in grid ==> grid' == grid && order' == order
    requires CellOf(n, zoom) !in grid ==> grid' == grid[CellOf(n, zoom) := []] && order' == order + [CellOf(n, zoom)]
    requires next.Keys == grid'.Keys + {CellOf(n, zoom)}
    ensures order' == CellsUpTo(n + 1, zoom)
    ensures forall k :: k in next <==> k in order'
  {
  }

  // the buckets part of the step above
  lemma GridBucketsStep(jobs: seq<Job>, n: nat, zoom: int, grid: map<CellKey, seq<Job>>,
                        grid': map<CellKey, seq<Job>>, next: map<CellKey, seq<Job>>)
    requires n < |jobs|
    requires forall k :: k in grid ==> grid[k] == Members(jobs, n, zoom, k)
    requires CellOf(n, zoom) in grid ==> grid' == grid
    requires CellOf(n, zoom) !in grid ==> grid' == grid[CellOf(n, zoom) := []] && Members(jobs, n, zoom, CellOf(n, zoom)) == []
    requires next == grid'[CellOf(n, zoom) := grid'[CellOf(n, zoom)] + [jobs[n]]]
    ensures forall k :: k in next ==> next[k] == Members(jobs, n + 1, zoom, k)
  {
    var key := CellOf(n, zoom);
    forall k | k in next
      ensures next[k] == Members(jobs, n + 1, zoom, k)
    {
      MembersStep(jobs, n, zoom, k);
      if k == key {
        assert grid'[key] == Members(jobs, n, zoom, key);
      } else {
        assert next[k] == grid[k];
      }
    }
  }

  /** The componentwise sum of the members' positions, each looked up at
      the member's first index in `jobs`. */
  method SumPositions(jobs: seq<Job>, members: seq<Job>) returns (sum: Position)
    requires forall m :: m in members ==> m in jobs
    ensures sum == PositionSum(jobs, members)
  {
    var sumTop, sumLeft := 0, 0;
    var m := 0;
    while m < |members|
      invariant 0 <= m <= |members|
      invariant PositionSum(jobs, members[..m]) == Position(sumTop, sumLeft)
    {
      var p := PinPosition(IndexOf(jobs, members[m]));
      sumTop := sumTop + p.top;
      sumLeft := sumLeft + p.left;
      PositionSumStep(jobs, members, m);
      m := m + 1;
    }
    assert members[..m] == members;
    sum := Position(sumTop, sumLeft);
  }

  // a cell not yet listed among the grid's keys has an empty bucket
  lemma {:induction false} MembersOfUnlistedCell(jobs: seq<Job>, n: nat, zoom: int, key: CellKey)
    requires n <= |jobs| && key !in CellsUpTo(n, zoom)
    ensures Members(jobs, n, zoom, key) == []
  {
    if n > 0 {
      MembersOfUnlistedCell(jobs, n - 1, zoom, key);
    }
  }

  // one more job enters the bucket of its own cell
  lemma MembersStep(jobs: seq<Job>, n: nat, zoom: int, key: CellKey)
    requires n < |jobs|
    ensures Members(jobs, n + 1, zoom, key)
      == Members(jobs, n, zoom, key) + (if CellOf(n, zoom) == key then [jobs[n]] else [])
  {
  }

  // one more bucket is turned into its cluster, if any
  lemma ClustersOfStep(jobs: seq<Job>, keys: seq<CellKey>, e: nat, zoom: int)
    requires e < |keys|
    ensures ClustersOf(jobs, keys[..e + 1], zoom) == ClustersOf(jobs, keys[..e], zoom) + ClusterAt(jobs, keys[e], zoom)
  {
    assert keys[..e + 1][..e] == keys[..e];
  }

  // one more member's position is added to the sum
  lemma PositionSumStep(jobs: seq<Job>, members: seq<Job>, m: nat)
    requires m < |members| && forall x :: x in members ==> x in jobs
    ensures PositionSum(jobs, members[..m + 1])
      == var p := PinPosition(IndexOf(jobs, members[m]));
         var s := PositionSum(jobs, members[..m]);
         Position(s.top + p.top, s.left + p.left)
  {
    assert members[..m + 1][..m] == members[..m];
  }

  /** The ids of all jobs that belong to some cluster. */
  function ClusteredIds(clusters: seq<Cluster>): (ids: set<string>)
    ensures forall c, j :: c in clusters && j in c.jobs ==> j.id in ids
    ensures forall id :: id in ids ==> exists c, j :: c in clusters && j in c.jobs && j.id == id
  {
    set c, j | c in clusters && j in c.jobs :: j.id
  }

  /** The jobs whose id is not in `ids`, in list order. */
  function WithoutIds(jobs: seq<Job>, ids: set<string>): (r: seq<Job>)
    ensures IsSubsequence(r, jobs)
    ensures forall j :: j in r <==> j in jobs && j.id !in ids
  {
    if jobs == [] then []
    else
      var front := jobs[..|jobs| - 1];
      var last := jobs[|jobs| - 1];
      var earlier := WithoutIds(front, ids);
      assert jobs == front + [last];
      if last.id !in ids then
        SubsequenceExtend(earlier, front, last);
        earlier + [last]
      else
        SubsequenceSkip(earlier, front, last);
        earlier
  }

  /** The jobs drawn as single pins (the `individualPins` memo). */
  function IndividualPins(jobs: seq<Job>, clusters: seq<Cluster>, zoom: int): (r: seq<Job>)
    ensures IsSubsequence(r, jobs)
    ensures zoom >= MaxZoom ==> r == jobs
    ensures forall j :: j in r <==> j in jobs && (zoom >= MaxZoom || j.id !in ClusteredIds(clusters))
  {
    if zoom < MaxZoom then WithoutIds(jobs, ClusteredIds(clusters))
    else
      SubsequenceReflexive(jobs);
      jobs
  }

  /** The index of the first job with the given id, or -1 (`findIndex`). */
  function FindIndexById(jobs: seq<Job>, id: string): (i: int)
    ensures -1 <= i < |jobs|
    ensures i == -1 <==> forall k :: 0 <= k < |jobs| ==> jobs[k].id != id
    ensures i >= 0 ==> jobs[i].id == id && forall k :: 0 <= k < i ==> jobs[k].id != id
  {
    if jobs == [] then -1
    else if jobs[0].id == id then 0
    else
      var rest := FindIndexById(jobs[1..], id);
      if rest == -1 then -1 else rest + 1
  }

  /** Where a single pin is drawn: at the position of the first job with
      its id. */
  function DrawnPinPosition(jobs: seq<Job>, job: Job): (p: Position)
    requires job in jobs
    ensures p.top == 20 || p.top == 40 || p.top == 60
    ensures 15 <= p.left <= 80 && p.left % 5 == 0
  {
    PinPosition(FindIndexById(jobs, job.id))
  }

  /** With unique ids, the drawn position of a job, the position its bucket
      was computed from and the position counted in its cluster's mean are
      one and the same. */
  lemma SamePositionEverywhere(jobs: seq<Job>, i: nat)
    requires UniqueIds(jobs) && i < |jobs|
    ensures DrawnPinPosition(jobs, jobs[i]) == PinPosition(i)
    ensures PinPosition(IndexOf(jobs, jobs[i])) == PinPosition(i)
  {
  }

  /** At the highest zoom there are no clusters and every job is a pin. */
  lemma NoClusteringAtMaxZoom(jobs: seq<Job>, zoom: int)
    requires zoom >= MaxZoom
    ensures Clusters(jobs, zoom) == []
    ensures IndividualPins(jobs, Clusters(jobs, zoom), zoom) == jobs
  {
  }

  /** An empty list or a single job never forms a cluster. */
  lemma FewJobsNoClusters(jobs: seq<Job>, zoom: int)
    requires |jobs| <= 1
    ensures Clusters(jobs, zoom) == []
  {
    if zoom < MaxZoom {
      SmallBucketsNoClusters(jobs, CellsUpTo(|jobs|, zoom), zoom);
    }
  }

  // buckets of at most one job contribute no cluster
  lemma {:induction false} SmallBucketsNoClusters(jobs: seq<Job>, keys: seq<CellKey>, zoom: int)
    requires |jobs| <= 1
    ensures ClustersOf(jobs, keys, zoom) == []
  {
    if keys != [] {
      SmallBucketsNoClusters(jobs, keys[..|keys| - 1], zoom);
    }
  }

  /** Every cluster is a bucket of two or more jobs that all sit in its
      cell, and its position is the mean of theirs. */
  lemma ClusterShape(jobs: seq<Job>, zoom: int, c: Cluster)
    requires c in Clusters(jobs, zoom)
    ensures zoom < MaxZoom
    ensures c.count == |c.jobs| >= 2
    ensures forall m :: m in c.jobs ==> exists i :: 0 <= i < |jobs| && jobs[i] == m && CellOf(i, zoom) == c.id
    ensures c.avgTop == PositionSum(jobs, c.jobs).top as real / c.count as real
    ensures c.avgLeft == PositionSum(jobs, c.jobs).left as real / c.count as real
    ensures 20.0 <= c.avgTop <= 60.0 && 15.0 <= c.avgLeft <= 80.0
  {
    var keys := CellsUpTo(|jobs|, zoom);
    ClusterInClustersOf(jobs, keys, zoom, c);
    var ms := Members(jobs, |jobs|, zoom, c.id);
    MembersInCell(jobs, |jobs|, zoom, c.id);
    MakeClusterMean(c.id, ms, PositionSum(jobs, ms));
  }

  // a cluster is the bucket of its own cell
  lemma ClusterIsBucket(jobs: seq<Job>, zoom: int, c: Cluster)
    requires c in Clusters(jobs, zoom)
    ensures zoom < MaxZoom
    ensures c.jobs == Members(jobs, |jobs|, zoom, c.id) && |c.jobs| >= 2
  {
    ClusterInClustersOf(jobs, CellsUpTo(|jobs|, zoom), zoom, c);
  }

  // a cluster of ClustersOf is the MakeCluster of its own bucket
  lemma {:induction false} ClusterInClustersOf(jobs: seq<Job>, keys: seq<CellKey>, zoom: int, c: Cluster)
    requires c in ClustersOf(jobs, keys, zoom)
    ensures c.id in keys
    ensures |Members(jobs, |jobs|, zoom, c.id)| > 1
    ensures c == MakeCluster(c.id, Members(jobs, |jobs|, zoom, c.id), PositionSum(jobs, Members(jobs, |jobs|, zoom, c.id)))
  {
    var front := keys[..|keys| - 1];
    if c in ClustersOf(jobs, front, zoom) {
      ClusterInClustersOf(jobs, front, zoom, c);
    }
  }

  /** With unique ids, single pins and cluster members partition the jobs:
      each job is either a single pin or in a cluster, never both; it is in
      a cluster exactly when its bucket holds two or more jobs, and then in
      exactly one cluster. */
  lemma Partition(jobs: seq<Job>, zoom: int, i: nat)
    requires UniqueIds(jobs) && zoom < MaxZoom && i < |jobs|
    ensures var cs := Clusters(jobs, zoom);
      && (jobs[i] in IndividualPins(jobs, cs, zoom) <==> !exists c :: c in cs && jobs[i] in c.jobs)
      && ((exists c :: c in cs && jobs[i] in c.jobs) <==> |Members(jobs, |jobs|, zoom, CellOf(i, zoom))| >= 2)
      && forall p, q :: 0 <= p < |cs| && 0 <= q < |cs| && jobs[i] in cs[p].jobs && jobs[i] in cs[q].jobs ==> p == q
  {
    PinIffUnclustered(jobs, zoom, i);
    ClusteredIffBigBucket(jobs, zoom, i);
    AtMostOneCluster(jobs, zoom, i);
  }

  // a cluster holding jobs[i] is the cluster of its cell
  lemma ClusterOfJob(jobs: seq<Job>, zoom: int, i: nat, c: Cluster)
    requires UniqueIds(jobs) && i < |jobs|
    requires c in Clusters(jobs, zoom) && jobs[i] in c.jobs
    ensures c.id == CellOf(i, zoom)
  {
    ClusterIsBucket(jobs, zoom, c);
    MembersInCell(jobs, |jobs|, zoom, c.id);
    var j :| 0 <= j < |jobs| && jobs[j] == jobs[i] && CellOf(j, zoom) == c.id;
  }

  // the first part of Partition
  lemma PinIffUnclustered(jobs: seq<Job>, zoom: int, i: nat)
    requires UniqueIds(jobs) && zoom < MaxZoom && i < |jobs|
    ensures var cs := Clusters(jobs, zoom);
      jobs[i] in IndividualPins(jobs, cs, zoom) <==> !exists c :: c in cs && jobs[i] in c.jobs
  {
    var cs := Clusters(jobs, zoom);
    // the id of jobs[i] is clustered only through jobs[i] itself
    if jobs[i].id in ClusteredIds(cs) {
      var c, m :| c in cs && m in c.jobs && m.id == jobs[i].id;
      ClusterIsBucket(jobs, zoom, c);
      MembersInCell(jobs, |jobs|, zoom, c.id);
      var j :| 0 <= j < |jobs| && jobs[j] == m && CellOf(j, zoom) == c.id;
      assert jobs[i] in c.jobs;
    }
  }

  // the second part of Partition
  lemma ClusteredIffBigBucket(jobs: seq<Job>, zoom: int, i: nat)
    requires UniqueIds(jobs) && zoom < MaxZoom && i < |jobs|
    ensures var cs := Clusters(jobs, zoom);
      (exists c :: c in cs && jobs[i] in c.jobs) <==> |Members(jobs, |jobs|, zoom, CellOf(i, zoom))| >= 2
  {
    var cs := Clusters(jobs, zoom);
    var key := CellOf(i, zoom);
    if c :| c in cs && jobs[i] in c.jobs {
      ClusterOfJob(jobs, zoom, i, c);
      ClusterIsBucket(jobs, zoom, c);
    }
    if |Members(jobs, |jobs|, zoom, key)| >= 2 {
      BigBucketIsCluster(jobs, zoom, i);
    }
  }

  // the cluster that a job's big bucket becomes holds that job
  lemma BigBucketIsCluster(jobs: seq<Job>, zoom: int, i: nat)
    requires zoom < MaxZoom && i < |jobs| && |Members(jobs, |jobs|, zoom, CellOf(i, zoom))| >= 2
    ensures exists c :: c in Clusters(jobs, zoom) && jobs[i] in c.jobs
  {
    var key := CellOf(i, zoom);
    CellsUpToUsed(|jobs|, zoom);
    assert key in CellsUpTo(|jobs|, zoom);
    EveryBigBucketClustered(jobs, CellsUpTo(|jobs|, zoom), zoom, key);
    var c :| c in Clusters(jobs, zoom) && c.id == key;
    ClusterIsBucket(jobs, zoom, c);
    assert jobs[i] in c.jobs;
  }

  // the third part of Partition
  lemma AtMostOneCluster(jobs: seq<Job>, zoom: int, i: nat)
    requires UniqueIds(jobs) && zoom < MaxZoom && i < |jobs|
    ensures var cs := Clusters(jobs, zoom);
      forall p, q :: 0 <= p < |cs| && 0 <= q < |cs| && jobs[i] in cs[p].jobs && jobs[i] in cs[q].jobs ==> p == q
  {
    var keys := CellsUpTo(|jobs|, zoom);
    var cs := Clusters(jobs, zoom);
    ClusterIdsDistinct(jobs, keys, zoom);
    var ids := ClusterIds(cs);
    forall p, q | 0 <= p < |cs| && 0 <= q < |cs| && jobs[i] in cs[p].jobs && jobs[i] in cs[q].jobs
      ensures p == q
    {
      ClusterOfJob(jobs, zoom, i, cs[p]);
      ClusterOfJob(jobs, zoom, i, cs[q]);
      assert ids[p] == ids[q];
    }
  }

  /** Cluster members and single pins are in list order, without repeats. */
  lemma OrderKept(jobs: seq<Job>, zoom: int)
    requires UniqueIds(jobs)
    ensures IsSubsequence(IndividualPins(jobs, Clusters(jobs, zoom), zoom), jobs)
    ensures NoDuplicates(IndividualPins(jobs, Clusters(jobs, zoom), zoom))
    ensures forall c :: c in Clusters(jobs, zoom) ==> IsSubsequence(c.jobs, jobs) && NoDuplicates(c.jobs)
  {
    assert NoDuplicates(jobs);
    var pins := IndividualPins(jobs, Clusters(jobs, zoom), zoom);
    if zoom < MaxZoom {
      SubsequenceNoDuplicates(pins, jobs);
    } else {
      SubsequenceReflexive(jobs);
    }
    forall c | c in Clusters(jobs, zoom)
      ensures IsSubsequence(c.jobs, jobs) && NoDuplicates(c.jobs)
    {
      ClusterIsBucket(jobs, zoom, c);
      assert jobs[..|jobs|] == jobs;
      SubsequenceNoDuplicates(c.jobs, jobs);
    }
  }

  /** Two jobs that share a cell at zoom 2 share one at zoom 1 as well:
      zooming in splits clusters and never merges pins. */
  lemma ZoomInNeverMerges(i: nat, j: nat)
    requires CellOf(i, 2) == CellOf(j, 2)
    ensures CellOf(i, 1) == CellOf(j, 1)
  {
    var p, q := PinPosition(i), PinPosition(j);
    CoarserCell(p.left, q.left);
    CoarserCell(p.top, q.top);
  }

  // among multiples of 5 in [15, 80], equal twelfths imply equal 25ths
  lemma CoarserCell(a: int, b: int)
    requires 15 <= a <= 80 && a % 5 == 0 && 15 <= b <= 80 && b % 5 == 0
    requires a / 12 == b / 12
    ensures a / 25 == b / 25
  {
    var x, y := a / 5, b / 5;
    assert a == 5 * x && b == 5 * y;
    assert 3 <= x <= 16 && 3 <= y <= 16;
  }

  /** Every zoom-2 cluster lies inside a zoom-1 cluster: zooming out only
      merges clusters, zooming in only splits them. */
  lemma ClustersRefineWhenZoomingIn(jobs: seq<Job>, c: Cluster)
    requires c in Clusters(jobs, 2)
    ensures exists outer :: outer in Clusters(jobs, 1) && forall m :: m in c.jobs ==> m in outer.jobs
  {
    var key := CoarseCell(jobs, c);
    EveryBigBucketClustered(jobs, CellsUpTo(|jobs|, 1), 1, key);
    var outer :| outer in Clusters(jobs, 1) && outer.id == key;
    ClusterIsBucket(jobs, 1, outer);
    CoarseCellHoldsCluster(jobs, c, key);
  }

  // the zoom-1 cell that holds every job of a zoom-2 cluster's cell; its
  // bucket holds two or more jobs
  lemma CoarseCell(jobs: seq<Job>, c: Cluster) returns (key: CellKey)
    requires c in Clusters(jobs, 2)
    ensures forall i :: 0 <= i < |jobs| && CellOf(i, 2) == c.id ==> CellOf(i, 1) == key
    ensures key in CellsUpTo(|jobs|, 1)
    ensures |Members(jobs, |jobs|, 1, key)| >= 2
  {
    ClusterIsBucket(jobs, 2, c);
    var i0, i1 := TwoIndices(jobs, |jobs|, 2, c.id);
    key := CellOf(i0, 1);
    SameCoarseCell(i0);
    TwoMembers(jobs, |jobs|, 1, key, i0, i1);
    CellListed(|jobs|, 1, i0);
  }

  // jobs sharing a zoom-2 cell with job `i0` share its zoom-1 cell
  lemma SameCoarseCell(i0: nat)
    ensures forall i: nat {:trigger CellOf(i, 1)} :: CellOf(i, 2) == CellOf(i0, 2) ==> CellOf(i, 1) == CellOf(i0, 1)
  {
    forall i: nat | CellOf(i, 2) == CellOf(i0, 2)
      ensures CellOf(i, 1) == CellOf(i0, 1)
    {
      ZoomInNeverMerges(i, i0);
    }
  }

  // the cell of each of the first `n` jobs is among the grid's keys
  lemma {:induction false} CellListed(n: nat, zoom: int, i: nat)
    requires i < n
    ensures CellOf(i, zoom) in CellsUpTo(n, zoom)
  {
    if i < n - 1 {
      CellListed(n - 1, zoom, i);
    }
  }

  // every job of the zoom-2 cluster is in the bucket of its coarse cell
  lemma CoarseCellHoldsCluster(jobs: seq<Job>, c: Cluster, key: CellKey)
    requires c in Clusters(jobs, 2)
    requires forall i :: 0 <= i < |jobs| && CellOf(i, 2) == c.id ==> CellOf(i, 1) == key
    ensures forall m :: m in c.jobs ==> m in Members(jobs, |jobs|, 1, key)
  {
    ClusterIsBucket(jobs, 2, c);
    MembersInCell(jobs, |jobs|, 2, c.id);
  }

  // a bucket of two or more jobs holds jobs from two distinct indices
  lemma {:induction false} TwoIndices(jobs: seq<Job>, n: nat, zoom: int, key: CellKey) returns (i0: nat, i1: nat)
    requires n <= |jobs| && |Members(jobs, n, zoom, key)| >= 2
    ensures i0 < i1 < n && CellOf(i0, zoom) == key && CellOf(i1, zoom) == key
  {
    var last: nat := n - 1;
    MembersStep(jobs, last, zoom, key);
    var earlier := Members(jobs, last, zoom, key);
    if CellOf(last, zoom) == key && |earlier| >= 1 {
      i0 := MemberIndex(jobs, last, zoom, key, earlier[0]);
      i1 := last;
    } else {
      i0, i1 := TwoIndices(jobs, last, zoom, key);
    }
  }

  // the index a member of a bucket comes from
  lemma MemberIndex(jobs: seq<Job>, n: nat, zoom: int, key: CellKey, m: Job) returns (i: nat)
    requires n <= |jobs| && m in Members(jobs, n, zoom, key)
    ensures i < n && jobs[i] == m && CellOf(i, zoom) == key
  {
    MembersInCell(jobs, n, zoom, key);
    i :| 0 <= i < n && jobs[i] == m && CellOf(i, zoom) == key;
  }

  // two distinct indices in a cell make a bucket of two or more jobs
  lemma {:induction false} TwoMembers(jobs: seq<Job>, n: nat, zoom: int, key: CellKey, i0: nat, i1: nat)
    requires n <= |jobs| && i0 < i1 < n && CellOf(i0, zoom) == key && CellOf(i1, zoom) == key
    ensures |Members(jobs, n, zoom, key)| >= 2
  {
    var last: nat := n - 1;
    MembersStep(jobs, last, zoom, key);
    if i1 == last {
      assert jobs[i0] in Members(jobs, last, zoom, key);
    } else {
      TwoMembers(jobs, last, zoom, key, i0, i1);
    }
  }

  /** The zoom level of the map: starts at 1 and stays within [1, 3]. */
  class MapZoom {
    var zoom: int

    ghost predicate Valid()
      reads this
    {
      MinZoom <= zoom <= MaxZoom
    }

    constructor ()
      ensures Valid() && zoom == MinZoom
    {
      zoom := MinZoom;
    }

    /** The zoom-in button: one level up, at most 3. */
    method ZoomIn()
      requires Valid()
      modifies this
      ensures Valid()
      ensures zoom == if old(zoom) + 1 < MaxZoom then old(zoom) + 1 else MaxZoom
    {
      zoom := if zoom + 1 < MaxZoom then zoom + 1 else MaxZoom;
    }

    /** The zoom-out button: one level down, at least 1. */
    method ZoomOut()
      requires Valid()
      modifies this
      ensures Valid()
      ensures zoom == if old(zoom) - 1 > MinZoom then old(zoom) - 1 else MinZoom
    {
      zoom := if zoom - 1 > MinZoom then zoom - 1 else MinZoom;
    }

    /** Clicking a cluster marker zooms in; the map does not pan. */
    method ClickCluster(c: Cluster)
      requires Valid()
      modifies this
      ensures Valid()
      ensures zoom == if old(zoom) + 1 < MaxZoom then old(zoom) + 1 else MaxZoom
    {
      ZoomIn();
    }
  }
}
