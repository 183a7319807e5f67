/** The partition-migration records of the cluster package: the migration and job
    status values, the migration with its job headers, the node sets a migration
    involves, and the acknowledgement records of the migration and reload commands. */
module ClusterMigration {
  import opened Wrappers

  // ---------------------------------------------------------------------------
  // Status values

  datatype PartitionMigrationStatus =
    | StatusNew | StatusReloadingGW | StatusReloadingRouter | StatusMigrating | StatusCompleted
  {
    /** The string the status is stored as. */
    function String(): string
    {
      match this
      case StatusNew => "new"
      case StatusReloadingGW => "reloading-gw"
      case StatusReloadingRouter => "reloading-router"
      case StatusMigrating => "migrating"
      case StatusCompleted => "completed"
    }
  }

  /** The status a stored string names, if any. Go converts any string to the status
      type and has no such function: it is a proof aid, the inverse of String() that
      shows the five status strings are pairwise distinct. */
  function ParsePartitionMigrationStatus(s: string): Option<PartitionMigrationStatus>
  {
    if s == "new" then Some(StatusNew)
    else if s == "reloading-gw" then Some(StatusReloadingGW)
    else if s == "reloading-router" then Some(StatusReloadingRouter)
    else if s == "migrating" then Some(StatusMigrating)
    else if s == "completed" then Some(StatusCompleted)
    else None
  }

  /** The five status strings are pairwise distinct: reading a status's string gives
      the status back, and a string reads as a status only when it is that status's
      string. */
  lemma PartitionMigrationStatusRoundTrip(st: PartitionMigrationStatus, s: string)
    ensures ParsePartitionMigrationStatus(st.String()) == Some(st)
    ensures ParsePartitionMigrationStatus(s) == Some(st) <==> s == st.String()
  {
  }

  /** Distinct statuses are stored as distinct strings. */
  lemma PartitionMigrationStatusStringInjective(a: PartitionMigrationStatus, b: PartitionMigrationStatus)
    ensures a.String() == b.String() ==> a == b
  {
    PartitionMigrationStatusRoundTrip(a, b.String());
    PartitionMigrationStatusRoundTrip(b, b.String());
  }

  datatype PartitionMigrationJobStatus = JobStatusNew | JobStatusMoved | JobStatusCompleted
  {
    /** The string the job status is stored as. */
    function String(): string
    {
      match this
      case JobStatusNew => "new"
      case JobStatusMoved => "moved"
      case JobStatusCompleted => "completed"
    }
  }

  /** The job status a stored string names, if any. Like ParsePartitionMigrationStatus,
      a proof aid with no Go counterpart: it inverts String() to show the three job
      status strings are pairwise distinct. */
  function ParsePartitionMigrationJobStatus(s: string): Option<PartitionMigrationJobStatus>
  {
    if s == "new" then Some(JobStatusNew)
    else if s == "moved" then Some(JobStatusMoved)
    else if s == "completed" then Some(JobStatusCompleted)
    else None
  }

  /** The three job status strings are pairwise distinct, and reading one gives its
      job status back. */
  lemma PartitionMigrationJobStatusRoundTrip(st: PartitionMigrationJobStatus, s: string)
    ensures ParsePartitionMigrationJobStatus(st.String()) == Some(st)
    ensures ParsePartitionMigrationJobStatus(s) == Some(st) <==> s == st.String()
  {
  }

  /** Distinct job statuses are stored as distinct strings. */
  lemma PartitionMigrationJobStatusStringInjective(a: PartitionMigrationJobStatus, b: PartitionMigrationJobStatus)
    ensures a.String() == b.String() ==> a == b
  {
    PartitionMigrationJobStatusRoundTrip(a, b.String());
    PartitionMigrationJobStatusRoundTrip(b, b.String());
  }

  // ---------------------------------------------------------------------------
  // Distinct elements

  predicate NoDuplicates(s: seq<int>)
  {
    forall i, j :: 0 <= i < j < |s| ==> s[i] != s[j]
  }

  /** The distinct elements of `s`, each once. The migration takes them from the keys
      of a map, whose order is unspecified; this model keeps the last occurrence of
      each element, and its contracts speak only of membership and duplicates. */
  function Distinct(s: seq<int>): (r: seq<int>)
    ensures forall x :: x in r <==> x in s
    ensures NoDuplicates(r)
    ensures |r| <= |s|
  {
    if s == [] then []
    else
      var rest := Distinct(s[1..]);
      if s[0] in rest then rest else [s[0]] + rest
  }

  // ---------------------------------------------------------------------------
  // Migration, jobs and acknowledgements

  /** The basic information of a job: it moves `partitions` from the source node to
      the target node (both node indices). */
  datatype PartitionMigrationJobHeader = PartitionMigrationJobHeader(
    jobID: string,
    sourceNode: int,
    targetNode: int,
    partitions: seq<string>)

  /** A job of a migration. */
  datatype PartitionMigrationJob = PartitionMigrationJob(
    header: PartitionMigrationJobHeader,
    migrationID: string,
    status: PartitionMigrationJobStatus)

  /** A node's acknowledgement of a migration. */
  datatype PartitionMigrationAck = PartitionMigrationAck(nodeIndex: int, nodeName: string)

  /** A migration of a set of partitions, made of jobs. */
  datatype PartitionMigration = PartitionMigration(
    id: string,
    status: PartitionMigrationStatus,
    jobs: seq<PartitionMigrationJobHeader>,
    ackKey: string)
  {
    /** The source node of every job, in job order. */
    function JobSourceNodes(): seq<int>
    {
      seq(|jobs|, i requires 0 <= i < |jobs| => jobs[i].sourceNode)
    }

    /** The target node of every job, in job order. */
    function JobTargetNodes(): seq<int>
    {
      seq(|jobs|, i requires 0 <= i < |jobs| => jobs[i].targetNode)
    }

    /** SourceNodes: the distinct source nodes of the jobs. Every job's source node is
        in it, every element is some job's source node, and none occurs twice. */
    function SourceNodes(): (nodes: seq<int>)
      ensures forall job :: job in jobs ==> job.sourceNode in nodes
      ensures forall n :: n in nodes ==> exists job :: job in jobs && job.sourceNode == n
      ensures NoDuplicates(nodes)
    {
      var sources := JobSourceNodes();
      assert forall i :: 0 <= i < |jobs| ==> sources[i] == jobs[i].sourceNode;
      Distinct(sources)
    }

    /** TargetNodes: the distinct target nodes of the jobs, in the same sense. */
    function TargetNodes(): (nodes: seq<int>)
      ensures forall job :: job in jobs ==> job.targetNode in nodes
      ensures forall n :: n in nodes ==> exists job :: job in jobs && job.targetNode == n
      ensures NoDuplicates(nodes)
    {
      var targets := JobTargetNodes();
      assert forall i :: 0 <= i < |jobs| ==> targets[i] == jobs[i].targetNode;
      Distinct(targets)
    }

    /** Ack: the acknowledgement of node `nodeIndex` named `nodeName`; the migration
        itself is a value and stays as it is. */
    function Ack(nodeIndex: int, nodeName: string): (ack: PartitionMigrationAck)
      ensures ack.nodeIndex == nodeIndex && ack.nodeName == nodeName
    {
      PartitionMigrationAck(nodeIndex, nodeName)
    }
  }

  /** A gateway node's acknowledgement of a reload. */
  datatype ReloadGatewayAck = ReloadGatewayAck(nodeIndex: int, nodeName: string)

  /** A command to reload the gateway nodes `nodes` during a migration. */
  datatype ReloadGatewayCommand = ReloadGatewayCommand(nodes: seq<int>, ackKey: string)
  {
    function Ack(nodeIndex: int, nodeName: string): (ack: ReloadGatewayAck)
      ensures ack.nodeIndex == nodeIndex && ack.nodeName == nodeName
    {
      ReloadGatewayAck(nodeIndex, nodeName)
    }
  }

  /** The router's acknowledgement of a reload: it carries the node name only. */
  datatype ReloadRouterAck = ReloadRouterAck(nodeName: string)

  /** A command to reload the router after a migration. */
  datatype ReloadRouterCommand = ReloadRouterCommand(ackKey: string)
  {
    function Ack(nodeName: string): (ack: ReloadRouterAck)
      ensures ack.nodeName == nodeName
    {
      ReloadRouterAck(nodeName)
    }
  }

  // ---------------------------------------------------------------------------
  // Node sets

  /** A migration without jobs involves no node. */
  lemma NoJobsNoNodes(m: PartitionMigration)
    requires m.jobs == []
    ensures m.SourceNodes() == [] && m.TargetNodes() == []
  {
  }

  /** A node that is the source of one job and the target of another is in both
      node lists. */
  lemma SourceAndTargetNode(m: PartitionMigration, a: PartitionMigrationJobHeader, b: PartitionMigrationJobHeader)
    requires a in m.jobs && b in m.jobs && a.sourceNode == b.targetNode
    ensures a.sourceNode in m.SourceNodes() && a.sourceNode in m.TargetNodes()
  {
  }

  /** The two jobs of a migration: from node 0 to node 1, and from node 0 to node 2. */
  const JobsFromNodeZero := [
    PartitionMigrationJobHeader("job-1", 0, 1, ["ws1-0", "ws1-1"]),
    PartitionMigrationJobHeader("job-2", 0, 2, ["ws1-2", "ws1-3"])]

  /** With those jobs the sources are {0}, compared as sets. */
  lemma SourcesOfJobsFromNodeZero(m: PartitionMigration)
    requires m.jobs == JobsFromNodeZero
    ensures (set n | n in m.SourceNodes()) == {0}
  {
    assert m.JobSourceNodes() == [0, 0];
  }

  /** With those jobs the targets are {1, 2}, compared as sets. */
  lemma TargetsOfJobsFromNodeZero(m: PartitionMigration)
    requires m.jobs == JobsFromNodeZero
    ensures (set n | n in m.TargetNodes()) == {1, 2}
  {
    assert m.JobTargetNodes() == [1, 2];
  }
}
