/** `MemGuard::top_memory_consumers`. */
module MemGuard {
  import opened Sorting

  datatype ProcessMemoryUsage = ProcessMemoryUsage(pid: int, comm: string, rssKb: nat)

  function Rss(p: ProcessMemoryUsage): real {
    p.rssKb as real
  }

  /** The largest consumers: as many as asked for, in descending order, and nothing left out
      exceeds anything kept. */
  method TopMemoryConsumers(processes: seq<ProcessMemoryUsage>, limit: nat) returns (results: seq<ProcessMemoryUsage>)
    ensures |results| == if |processes| < limit then |processes| else limit
    ensures Descending(results, Rss)
    ensures multiset(results) <= multiset(processes)
    ensures forall kept <- results :: forall left <- multiset(processes) - multiset(results) ::
      left.rssKb <= kept.rssKb
  {
    var sorted := SortDescending(processes, Rss);
    results := if |sorted| > limit then sorted[..limit] else sorted;
    assert sorted == results + sorted[|results|..];
    forall kept <- results, left <- multiset(processes) - multiset(results) ensures left.rssKb <= kept.rssKb {
      assert left in sorted[|results|..];
      var i :| 0 <= i < |results| && sorted[i] == kept;
      var j :| |results| <= j < |sorted| && sorted[j] == left;
      assert Rss(sorted[i]) >= Rss(sorted[j]);
    }
  }
}
