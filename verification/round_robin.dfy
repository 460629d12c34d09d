/** The round-robin strategy: a bounded, health-aware scan driven by a cursor
    that is incremented once per probe. */
module RoundRobin {
  import opened Common

  const NoHealthyBackend: string := "No healthy backend servers available"

  /** The result of one selection call: the chosen backend or the failure, the
      cursor after the call, and the indices probed, in order. */
  datatype Selection = Selection(outcome: Result<Server, string>, cursor: nat, probed: seq<nat>)

  /** The index a probe takes once the cursor has been incremented to `next`. */
  function CandidateIndex(next: nat, n: nat): (i: nat)
    requires n > 0
    ensures i < n
  {
    next % n
  }

  /** The scan loop after `done` probes, with the cursor at `cursor`. */
  function ScanFrom(servers: seq<Server>, healthy: HealthOracle, cursor: nat, done: nat): (s: Selection)
    requires done <= |servers|
    ensures |s.probed| <= |servers| - done
    ensures s.cursor == cursor + |s.probed|
    ensures forall k :: 0 <= k < |s.probed| ==> s.probed[k] == (cursor + k + 1) % |servers|
    ensures forall k :: 0 <= k < |s.probed| - 1 ==> !healthy(servers[s.probed[k]])
    ensures |s.probed| > 0 ==> (healthy(servers[s.probed[|s.probed| - 1]]) <==> s.outcome.Success?)
    ensures s.outcome.Success? ==>
      |s.probed| > 0 && s.outcome.value == servers[s.probed[|s.probed| - 1]]
    ensures s.outcome.Failure? ==>
      s.outcome.error == NoHealthyBackend && |s.probed| == |servers| - done
    decreases |servers| - done
  {
    if done == |servers| then
      Selection(Failure(NoHealthyBackend), cursor, [])
    else
      var next := cursor + 1;
      var index := CandidateIndex(next, |servers|);
      if healthy(servers[index]) then
        Selection(Success(servers[index]), next, [index])
      else
        var rest := ScanFrom(servers, healthy, next, done + 1);
        var probed := [index] + rest.probed;
        assert forall k :: 1 <= k < |probed| ==> probed[k] == rest.probed[k - 1];
        Selection(rest.outcome, rest.cursor, probed)
  }

  /** One call of the strategy: at most `|servers|` probes, the k-th (counting
      from 0) at index `(cursor + k + 1) % |servers|`, returning the first
      backend the prober accepts. */
  function GetBackendServer(servers: seq<Server>, healthy: HealthOracle, cursor: nat): (s: Selection)
    ensures |s.probed| <= |servers|
    ensures s.cursor == cursor + |s.probed|
    ensures forall k :: 0 <= k < |s.probed| ==> s.probed[k] < |servers|
    ensures forall k :: 0 <= k < |s.probed| ==> s.probed[k] == (cursor + k + 1) % |servers|
    ensures forall k :: 0 <= k < |s.probed| - 1 ==> !healthy(servers[s.probed[k]])
    ensures s.outcome.Success? ==>
      && |s.probed| > 0
      && s.outcome.value == servers[s.probed[|s.probed| - 1]]
      && healthy(s.outcome.value)
      && s.outcome.value in servers
    ensures s.outcome.Failure? ==>
      && s.outcome.error == NoHealthyBackend
      && |s.probed| == |servers|
      && forall k :: 0 <= k < |s.probed| ==> !healthy(servers[s.probed[k]])
  {
    ScanFrom(servers, healthy, cursor, 0)
  }

  /** `n` consecutive cursor values, taken modulo `n`, hit every index: the
      returned `k` is the probe of a full scan that lands on `j`. */
  lemma ProbeReaching(cursor: nat, n: nat, j: nat) returns (k: nat)
    requires j < n
    ensures k < n && (cursor + k + 1) % n == j
  {
    var r := (cursor + 1) % n;
    var q := (cursor + 1) / n;
    assert cursor + 1 == q * n + r;
    if r <= j {
      k := j - r;
      ModOfMultiplePlus(cursor + k + 1, q, n, j);
    } else {
      k := j + n - r;
      assert cursor + k + 1 == (q + 1) * n + j;
      ModOfMultiplePlus(cursor + k + 1, q + 1, n, j);
    }
  }

  /** The residue of `q * n + j` modulo `n` is `j`. */
  lemma ModOfMultiplePlus(x: int, q: int, n: nat, j: nat)
    requires j < n
    requires x == q * n + j
    ensures x % n == j
  {
    var d := q - x / n;
    assert d * n == x % n - j;
    if d > 0 {
      MultipleAtLeast(d, n);
    } else if d < 0 {
      MultipleAtLeast(-d, n);
    }
  }

  lemma MultipleAtLeast(d: nat, n: nat)
    requires d > 0
    ensures d * n >= n
  {
  }

  /** If any listed backend is healthy, the scan finds one. */
  lemma HealthyServerIsFound(servers: seq<Server>, healthy: HealthOracle, cursor: nat, j: nat)
    requires j < |servers| && healthy(servers[j])
    ensures GetBackendServer(servers, healthy, cursor).outcome.Success?
  {
    var s := GetBackendServer(servers, healthy, cursor);
    if s.outcome.Failure? {
      var k := ProbeReaching(cursor, |servers|, j);
      FailedScanProbedUnhealthy(s, servers, healthy, k);
    }
  }

  /** The scan fails exactly when no listed backend is healthy. */
  lemma FailsIffNoneHealthy(servers: seq<Server>, healthy: HealthOracle, cursor: nat)
    ensures GetBackendServer(servers, healthy, cursor).outcome.Failure? <==>
            forall j :: 0 <= j < |servers| ==> !healthy(servers[j])
  {
    if exists j :: 0 <= j < |servers| && healthy(servers[j]) {
      var j :| 0 <= j < |servers| && healthy(servers[j]);
      HealthyServerIsFound(servers, healthy, cursor, j);
    }
  }

  /** A failed scan probed index `s.probed[k]` and found it unhealthy. */
  lemma FailedScanProbedUnhealthy(s: Selection, servers: seq<Server>, healthy: HealthOracle, k: nat)
    requires s.outcome.Failure? && |s.probed| == |servers|
    requires forall i :: 0 <= i < |s.probed| ==> s.probed[i] < |servers| && !healthy(servers[s.probed[i]])
    requires k < |servers|
    ensures s.probed[k] < |servers| && !healthy(servers[s.probed[k]])
  {
  }

  /** The results of successive single-threaded calls, the cursor they leave
      and the number of probes they made. */
  datatype Calls = Calls(outcomes: seq<Result<Server, string>>, cursor: nat, probes: nat)

  /** `m` single-threaded calls, the cursor threaded from each to the next. */
  function CallRepeatedly(servers: seq<Server>, healthy: HealthOracle, cursor: nat, m: nat): (rs: Calls)
    ensures |rs.outcomes| == m
    // the cursor advances by exactly the probes made, at least one per call
    ensures rs.cursor == cursor + rs.probes
    ensures |servers| > 0 ==> rs.probes >= m
    ensures |servers| == 0 ==> rs.probes == 0
    decreases m
  {
    if m == 0 then Calls([], cursor, 0)
    else
      var first := GetBackendServer(servers, healthy, cursor);
      var rest := CallRepeatedly(servers, healthy, first.cursor, m - 1);
      Calls([first.outcome] + rest.outcomes, rest.cursor, |first.probed| + rest.probes)
  }

  /** With every backend healthy, a call makes one probe, at the next index. */
  lemma AllHealthyOneProbe(servers: seq<Server>, healthy: HealthOracle, cursor: nat)
    requires |servers| > 0
    requires forall j :: 0 <= j < |servers| ==> healthy(servers[j])
    ensures GetBackendServer(servers, healthy, cursor)
            == Selection(Success(servers[(cursor + 1) % |servers|]), cursor + 1, [(cursor + 1) % |servers|])
  {
  }

  /** With every backend healthy, `m` calls make one probe each, so the cursor
      ends at `cursor + m`. */
  lemma {:induction false} AllHealthyCursor(servers: seq<Server>, healthy: HealthOracle, cursor: nat, m: nat)
    requires |servers| > 0
    requires forall j :: 0 <= j < |servers| ==> healthy(servers[j])
    ensures CallRepeatedly(servers, healthy, cursor, m).cursor == cursor + m
    decreases m
  {
    if m > 0 {
      AllHealthyOneProbe(servers, healthy, cursor);
      AllHealthyCursor(servers, healthy, cursor + 1, m - 1);
    }
  }

  /** With every backend healthy, successive calls rotate through the list:
      the i-th call returns `servers[(cursor + i + 1) % n]`. */
  lemma {:induction false} AllHealthyRotation(servers: seq<Server>, healthy: HealthOracle, cursor: nat, m: nat)
    requires |servers| > 0
    requires forall j :: 0 <= j < |servers| ==> healthy(servers[j])
    ensures forall i :: 0 <= i < m ==>
      CallRepeatedly(servers, healthy, cursor, m).outcomes[i] == Success(servers[(cursor + i + 1) % |servers|])
    decreases m
  {
    if m > 0 {
      AllHealthyOneProbe(servers, healthy, cursor);
      AllHealthyRotation(servers, healthy, cursor + 1, m - 1);
      RotationStep(servers, cursor, GetBackendServer(servers, healthy, cursor).outcome,
                   CallRepeatedly(servers, healthy, cursor + 1, m - 1).outcomes,
                   CallRepeatedly(servers, healthy, cursor, m).outcomes);
    }
  }

  /** One call in front of a rotation from the next cursor is a rotation. */
  lemma RotationStep(servers: seq<Server>, cursor: nat, first: Result<Server, string>,
                     rest: seq<Result<Server, string>>, all: seq<Result<Server, string>>)
    requires |servers| > 0
    requires all == [first] + rest
    requires first == Success(servers[(cursor + 1) % |servers|])
    requires forall i :: 0 <= i < |rest| ==> rest[i] == Success(servers[(cursor + 1 + i + 1) % |servers|])
    ensures forall i :: 0 <= i < |all| ==> all[i] == Success(servers[(cursor + i + 1) % |servers|])
  {
    forall i | 1 <= i < |all|
      ensures all[i] == Success(servers[(cursor + i + 1) % |servers|])
    {
      assert all[i] == rest[i - 1];
    }
  }
}
