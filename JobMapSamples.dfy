/** The map view worked out on the four sample jobs. */
module JobMapSamples {
  import opened Types
  import opened JobMap
  import opened Fixtures

  /** At zoom 1 the first and the fourth job share cell (0, 0) and form one
      cluster at their mean position; the other two are single pins. */
  lemma SampleAtZoom1(now: string)
    ensures var jobs := MockJobs(now);
      && Clusters(jobs, 1) == [Cluster(CellKey(0, 0), 2, 20.0, 17.5, [jobs[0], jobs[3]])]
      && IndividualPins(jobs, Clusters(jobs, 1), 1) == [jobs[1], jobs[2]]
  {
    SamplePositions();
    SampleClusters(MockJobs(now), 1, CellKey(0, 0), CellKey(1, 1), CellKey(2, 2));
  }

  /** At zoom 2 the grouping is the same, in cell (1, 1). */
  lemma SampleAtZoom2(now: string)
    ensures var jobs := MockJobs(now);
      && Clusters(jobs, 2) == [Cluster(CellKey(1, 1), 2, 20.0, 17.5, [jobs[0], jobs[3]])]
      && IndividualPins(jobs, Clusters(jobs, 2), 2) == [jobs[1], jobs[2]]
  {
    SamplePositions();
    SampleClusters(MockJobs(now), 2, CellKey(1, 1), CellKey(3, 3), CellKey(5, 5));
  }

  /** At zoom 3 nothing is clustered and every job is a single pin. */
  lemma SampleAtZoom3(now: string)
    ensures Clusters(MockJobs(now), 3) == []
    ensures IndividualPins(MockJobs(now), Clusters(MockJobs(now), 3), 3) == MockJobs(now)
  {
  }

  // where the first four jobs are drawn
  lemma SamplePositions()
    ensures PinPosition(0) == Position(20, 15) && PinPosition(1) == Position(40, 40)
    ensures PinPosition(2) == Position(60, 65) && PinPosition(3) == Position(20, 20)
  {
  }

  // four jobs with distinct ids, the first and the last in cell a, the
  // second alone in b and the third alone in c, at the sample positions
  lemma SampleClusters(jobs: seq<Job>, zoom: int, a: CellKey, b: CellKey, c: CellKey)
    requires |jobs| == 4 && UniqueIds(jobs) && zoom < MaxZoom
    requires PinPosition(0) == Position(20, 15) && PinPosition(3) == Position(20, 20)
    requires CellOf(0, zoom) == a && CellOf(1, zoom) == b && CellOf(2, zoom) == c && CellOf(3, zoom) == a
    requires a != b && a != c && b != c
    ensures Clusters(jobs, zoom) == [Cluster(a, 2, 20.0, 17.5, [jobs[0], jobs[3]])]
    ensures IndividualPins(jobs, Clusters(jobs, zoom), zoom) == [jobs[1], jobs[2]]
  {
    SampleCells(zoom, a, b, c);
    SampleBuckets(jobs, zoom, a, b, c);
    SampleSum(jobs);
    SampleClusterList(jobs, zoom, a, b, c);
    SamplePins(jobs, Clusters(jobs, zoom));
  }

  // the one cluster, once the buckets and the sum are known
  lemma SampleClusterList(jobs: seq<Job>, zoom: int, a: CellKey, b: CellKey, c: CellKey)
    requires |jobs| == 4 && zoom < MaxZoom && CellsUpTo(4, zoom) == [a, b, c]
    requires Members(jobs, 4, zoom, a) == [jobs[0], jobs[3]]
    requires Members(jobs, 4, zoom, b) == [jobs[1]] && Members(jobs, 4, zoom, c) == [jobs[2]]
    requires PositionSum(jobs, [jobs[0], jobs[3]]) == Position(40, 35)
    ensures Clusters(jobs, zoom) == [Cluster(a, 2, 20.0, 17.5, [jobs[0], jobs[3]])]
  {
    var cluster := Cluster(a, 2, 20.0, 17.5, [jobs[0], jobs[3]]);
    assert ClusterAt(jobs, a, zoom) == [cluster];
    var keys := [a, b, c];
    ClustersOfStep(jobs, keys, 0, zoom);
    ClustersOfStep(jobs, keys, 1, zoom);
    ClustersOfStep(jobs, keys, 2, zoom);
    assert keys[..3] == keys;
  }

  // the cells in order of first use
  lemma SampleCells(zoom: int, a: CellKey, b: CellKey, c: CellKey)
    requires CellOf(0, zoom) == a && CellOf(1, zoom) == b && CellOf(2, zoom) == c && CellOf(3, zoom) == a
    requires a != b && a != c && b != c
    ensures CellsUpTo(4, zoom) == [a, b, c]
  {
    assert CellsUpTo(1, zoom) == [a];
    assert CellsUpTo(2, zoom) == [a, b];
    assert CellsUpTo(3, zoom) == [a, b, c];
  }

  // the three buckets
  lemma SampleBuckets(jobs: seq<Job>, zoom: int, a: CellKey, b: CellKey, c: CellKey)
    requires |jobs| == 4
    requires CellOf(0, zoom) == a && CellOf(1, zoom) == b && CellOf(2, zoom) == c && CellOf(3, zoom) == a
    requires a != b && a != c && b != c
    ensures Members(jobs, 4, zoom, a) == [jobs[0], jobs[3]]
    ensures Members(jobs, 4, zoom, b) == [jobs[1]]
    ensures Members(jobs, 4, zoom, c) == [jobs[2]]
  {
    forall k | k in {a, b, c}
      ensures Members(jobs, 4, zoom, k) ==
        (if CellOf(0, zoom) == k then [jobs[0]] else []) + (if CellOf(1, zoom) == k then [jobs[1]] else []) +
        (if CellOf(2, zoom) == k then [jobs[2]] else []) + (if CellOf(3, zoom) == k then [jobs[3]] else [])
    {
      MembersStep(jobs, 0, zoom, k);
      MembersStep(jobs, 1, zoom, k);
      MembersStep(jobs, 2, zoom, k);
      MembersStep(jobs, 3, zoom, k);
    }
  }

  // the positions of the first and the fourth job add up to (40, 35)
  lemma SampleSum(jobs: seq<Job>)
    requires |jobs| == 4 && UniqueIds(jobs)
    requires PinPosition(0) == Position(20, 15) && PinPosition(3) == Position(20, 20)
    ensures PositionSum(jobs, [jobs[0], jobs[3]]) == Position(40, 35)
  {
    IndexOfUnique(jobs, 0);
    IndexOfUnique(jobs, 3);
    assert [jobs[0], jobs[3]][..1] == [jobs[0]];
    assert [jobs[0]][..0] == [];
  }

  // the second and the third job are the ones left as pins
  lemma SamplePins(jobs: seq<Job>, cs: seq<Cluster>)
    requires |jobs| == 4 && UniqueIds(jobs)
    requires |cs| == 1 && cs[0].jobs == [jobs[0], jobs[3]]
    ensures WithoutIds(jobs, ClusteredIds(cs)) == [jobs[1], jobs[2]]
  {
    SampleClusteredIds(cs[0]);
    assert cs == [cs[0]];
    assert jobs[1].id != jobs[0].id && jobs[1].id != jobs[3].id;
    assert jobs[2].id != jobs[0].id && jobs[2].id != jobs[3].id;
    SampleFilter(jobs, ClusteredIds(cs));
  }

  // the ids in a single cluster of two
  lemma SampleClusteredIds(c: Cluster)
    requires |c.jobs| == 2
    ensures ClusteredIds([c]) == {c.jobs[0].id, c.jobs[1].id}
  {
    assert c.jobs[0] in c.jobs && c.jobs[1] in c.jobs;
  }

  // filtering out the ids of the first and the fourth job
  lemma SampleFilter(jobs: seq<Job>, ids: set<string>)
    requires |jobs| == 4 && jobs[0].id in ids && jobs[3].id in ids
    requires jobs[1].id !in ids && jobs[2].id !in ids
    ensures WithoutIds(jobs, ids) == [jobs[1], jobs[2]]
  {
    assert jobs[..4] == jobs;
    assert jobs[..0] == [];
    WithoutIdsStep(jobs, ids, 0);
    WithoutIdsStep(jobs, ids, 1);
    WithoutIdsStep(jobs, ids, 2);
    WithoutIdsStep(jobs, ids, 3);
  }

  // filtering one more job of the list
  lemma WithoutIdsStep(jobs: seq<Job>, ids: set<string>, n: nat)
    requires n < |jobs|
    ensures WithoutIds(jobs[..n + 1], ids)
      == WithoutIds(jobs[..n], ids) + (if jobs[n].id in ids then [] else [jobs[n]])
  {
    assert jobs[..n + 1][..n] == jobs[..n];
  }
}
