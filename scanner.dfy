/** backend/internal/security/scanner.go: a vulnerability scanner that, for
    a registered agent, records one fixed finding per scan, and a fixed
    compliance report. The agent registry is given to the scanner; the clock
    is a parameter. */
module Scanner {
  import opened Common
  import AgentManager

  datatype Vulnerability = Vulnerability(id: string, name: string, description: string, severity: string,
                                         cve: string, fix: string)

  datatype ScanSummary = ScanSummary(total: int, critical: int, high: int, medium: int, low: int)

  /** `timestamp` is in Unix seconds. */
  datatype ScanResult = ScanResult(id: string, agentId: string, timestamp: int,
                                   vulnerabilities: seq<Vulnerability>, summary: ScanSummary)

  datatype ComplianceControl = ComplianceControl(id: string, description: string, status: string, remediation: string)

  datatype ComplianceReport = ComplianceReport(standard: string, agentId: string, timestamp: int, passed: int,
                                               failed: int, notApplicable: int, controls: seq<ComplianceControl>)

  /** The finding every scan reports. */
  const Heartbleed: Vulnerability := Vulnerability("vuln-1", "Heartbleed", "OpenSSL TLS heartbeat extension vulnerability",
                                                   "critical", "CVE-2014-0160", "Upgrade OpenSSL to 1.0.1g or later")

  /** The number of findings of a severity. */
  function CountSeverity(vs: seq<Vulnerability>, severity: string): nat
  {
    if vs == [] then 0
    else CountSeverity(vs[..|vs| - 1], severity) + (if vs[|vs| - 1].severity == severity then 1 else 0)
  }

  /** A summary agrees with its findings when it counts them in total and
      by severity. */
  predicate Consistent(r: ScanResult)
  {
    && r.summary.total == |r.vulnerabilities|
    && r.summary.critical == CountSeverity(r.vulnerabilities, "critical")
    && r.summary.high == CountSeverity(r.vulnerabilities, "high")
    && r.summary.medium == CountSeverity(r.vulnerabilities, "medium")
    && r.summary.low == CountSeverity(r.vulnerabilities, "low")
  }

  /** The result of a scan of the agent at time `now`, with the id
      "scan-<agent>-<now>". */
  function ScanOf(agentId: string, now: int): (r: ScanResult)
    ensures Consistent(r)
    ensures r.summary.total == 1 && r.summary.critical == 1
  {
    assert [Heartbleed][..0] == [];
    ScanResult(StampedId("scan-", agentId, now), agentId, now, [Heartbleed], ScanSummary(1, 1, 0, 0, 0))
  }

  class VulnerabilityScanner {
    const registry: AgentManager.Manager
    var scanResults: map<string, seq<ScanResult>>

    constructor (registry: AgentManager.Manager)
      ensures this.registry == registry && scanResults == map[]
    {
      this.registry := registry;
      scanResults := map[];
    }

    /** Scans a registered agent: appends one result to its history and
        returns it. An unknown agent is "agent not found" and the history is
        left as it was. */
    method Scan(agentID: string, now: int) returns (r: Result<ScanResult>)
      modifies this
      ensures agentID !in registry.agents ==> r == Err("agent not found") && scanResults == old(scanResults)
      ensures agentID in registry.agents ==> r == Ok(ScanOf(agentID, now))
      ensures agentID in registry.agents ==>
        scanResults == old(scanResults)[agentID := Entries(old(scanResults), agentID) + [r.value]]
    {
      var found := registry.GetAgent(agentID);
      if found.None? {
        return Err("agent not found");
      }
      var result := ScanOf(agentID, now);
      scanResults := scanResults[agentID := Entries(scanResults, agentID) + [result]];
      r := Ok(result);
    }

    /** The agent's results in scan order; an agent never scanned is an
        error. */
    method GetScanHistory(agentID: string) returns (r: Result<seq<ScanResult>>)
      ensures agentID !in scanResults ==> r == Err("no scan results found for agent " + agentID)
      ensures agentID in scanResults ==> r == Ok(scanResults[agentID])
    {
      if agentID !in scanResults {
        return Err("no scan results found for agent " + agentID);
      }
      r := Ok(scanResults[agentID]);
    }

    /** A fixed report for the requested standard and agent; it never
        fails. */
    method GetComplianceReport(agentID: string, standard: string, now: int) returns (r: Result<ComplianceReport>)
      ensures r.Ok? && r.value.standard == standard && r.value.agentId == agentID && r.value.timestamp == now
      ensures r.value.passed == 42 && r.value.failed == 3 && r.value.notApplicable == 5
      ensures |r.value.controls| == 2
    {
      r := Ok(ComplianceReport(standard, agentID, now, 42, 3, 5, [
        ComplianceControl("encryption-at-rest", "Data must be encrypted at rest", "passed", ""),
        ComplianceControl("password-policy", "Enforce strong password policy", "failed",
                          "Implement password policy requiring 12+ characters")
      ]));
    }
  }

  /** Every result in a history built by scans agrees with its summary, and
      a scan makes the history of a registered agent grow by exactly one. */
  method ScanTwice(registry: AgentManager.Manager, agentID: string, t1: int, t2: int)
    returns (history: Result<seq<ScanResult>>)
    requires agentID in registry.agents
    ensures history.Ok? && |history.value| == 2
    ensures forall r :: r in history.value ==> Consistent(r) && r.agentId == agentID
    ensures history.value[0].timestamp == t1 && history.value[1].timestamp == t2
  {
    var s := new VulnerabilityScanner(registry);
    var _ := s.Scan(agentID, t1);
    var _ := s.Scan(agentID, t2);
    history := s.GetScanHistory(agentID);
  }
}
