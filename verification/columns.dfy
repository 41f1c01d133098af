/** Optional values, used wherever the program returns an Option or an error the caller only tests for. */
module Options {
  datatype Option<+T> = None | Some(value: T)
}

/** The Kanban columns, the agent roles that work them and the stage a task file records. */
module Columns {
  import opened Options

  datatype Column =
    | Prioritized | Designing | CodingBuffer | Coding | ReviewBuffer | Reviewing
    | SecurityAuditBuffer | Auditing | DeploymentBuffer | Deploying | Done

  datatype Role = Prioritizer | Designer | Coder | Reviewer | Auditor | Infrarian

  const ALL_ROLES: set<Role> := {Prioritizer, Designer, Coder, Reviewer, Auditor, Infrarian}

  lemma EveryRole(r: Role)
    ensures r in ALL_ROLES
  {
    match r { case Prioritizer => case Designer => case Coder => case Reviewer => case Auditor => case Infrarian => }
  }

  /** A stage as stored: one per column plus three legacy names. */
  datatype Stage = Backlog | InProgress | WaitingForReview | At(column: Column)

  const ALL_COLUMNS: seq<Column> :=
    [Prioritized, Designing, CodingBuffer, Coding, ReviewBuffer, Reviewing,
     SecurityAuditBuffer, Auditing, DeploymentBuffer, Deploying, Done]

  function Index(c: Column): nat {
    match c
    case Prioritized => 0 case Designing => 1 case CodingBuffer => 2 case Coding => 3
    case ReviewBuffer => 4 case Reviewing => 5 case SecurityAuditBuffer => 6 case Auditing => 7
    case DeploymentBuffer => 8 case Deploying => 9 case Done => 10
  }

  function Next(c: Column): Option<Column> {
    match c
    case Prioritized => Some(Designing) case Designing => Some(CodingBuffer)
    case CodingBuffer => Some(Coding) case Coding => Some(ReviewBuffer)
    case ReviewBuffer => Some(Reviewing) case Reviewing => Some(SecurityAuditBuffer)
    case SecurityAuditBuffer => Some(Auditing) case Auditing => Some(DeploymentBuffer)
    case DeploymentBuffer => Some(Deploying) case Deploying => Some(Done)
    case Done => None
  }

  function Prev(c: Column): Option<Column> {
    match c
    case Prioritized => None case Designing => Some(Prioritized)
    case CodingBuffer => Some(Designing) case Coding => Some(CodingBuffer)
    case ReviewBuffer => Some(Coding) case Reviewing => Some(ReviewBuffer)
    case SecurityAuditBuffer => Some(Reviewing) case Auditing => Some(SecurityAuditBuffer)
    case DeploymentBuffer => Some(Auditing) case Deploying => Some(DeploymentBuffer)
    case Done => Some(Deploying)
  }

  predicate IsBuffer(c: Column) {
    c.CodingBuffer? || c.ReviewBuffer? || c.SecurityAuditBuffer? || c.DeploymentBuffer?
  }

  function RoleOf(c: Column): Option<Role> {
    match c
    case Prioritized => Some(Prioritizer) case Designing => Some(Designer)
    case Coding => Some(Coder) case Reviewing => Some(Reviewer)
    case Auditing => Some(Auditor) case Deploying => Some(Infrarian)
    case _ => None
  }

  function WorkColumn(r: Role): Column {
    match r
    case Prioritizer => Prioritized case Designer => Designing case Coder => Coding
    case Reviewer => Reviewing case Auditor => Auditing case Infrarian => Deploying
  }

  /** The column a role's finished task is moved to. */
  function Target(r: Role): Column {
    Next(WorkColumn(r)).value
  }

  function ToColumn(g: Stage): Column {
    match g
    case Backlog => Prioritized
    case InProgress => Coding
    case WaitingForReview => ReviewBuffer
    case At(c) => c
  }

  /**
   * Where a stored stage is shown: each column's own stage there, and of the legacy names the backlog with
   * the prioritizer, work in progress with the coder, and what waits for review where the coder passes work on.
   */
  lemma StagesShow(c: Column)
    ensures ToColumn(At(c)) == c
    ensures ToColumn(Backlog) == WorkColumn(Prioritizer) && ToColumn(InProgress) == WorkColumn(Coder)
    ensures ToColumn(WaitingForReview) == Target(Coder)
  {
  }

  /** `Next` and `Prev` are the neighbours in the pipeline order and undo each other. */
  lemma NeighboursInOrder(c: Column)
    ensures Index(c) < |ALL_COLUMNS| && ALL_COLUMNS[Index(c)] == c
    ensures Next(c) == (if Index(c) + 1 < |ALL_COLUMNS| then Some(ALL_COLUMNS[Index(c) + 1]) else None)
    ensures Prev(c) == (if Index(c) > 0 then Some(ALL_COLUMNS[Index(c) - 1]) else None)
    ensures Next(c).Some? ==> Prev(Next(c).value) == Some(c)
    ensures Prev(c).Some? ==> Next(Prev(c).value) == Some(c)
  {
    match c {
      case Prioritized => case Designing => case CodingBuffer => case Coding => case ReviewBuffer =>
      case Reviewing => case SecurityAuditBuffer => case Auditing => case DeploymentBuffer =>
      case Deploying => case Done =>
    }
  }

  /**
   * Which column each role feeds.  Work columns and roles correspond one to one, no two roles
   * feed the same column, every buffer and Done are fed by exactly one role, and a buffer is
   * always followed by a work column.
   */
  lemma FeedersAreUnique(c: Column, r1: Role, r2: Role)
    ensures RoleOf(WorkColumn(r1)) == Some(r1)
    ensures RoleOf(c).Some? ==> WorkColumn(RoleOf(c).value) == c
    ensures WorkColumn(r1) == WorkColumn(r2) || Target(r1) == Target(r2) ==> r1 == r2
    ensures IsBuffer(c) || c == Done ==> exists r :: Target(r) == c
    ensures IsBuffer(c) ==> RoleOf(c).None? && Next(c).Some? && RoleOf(Next(c).value).Some?
                            && Prev(c).Some? && RoleOf(Prev(c).value).Some?
  {
    if IsBuffer(c) || c == Done {
      var feeder := RoleOf(Prev(c).value).value;
      assert Target(feeder) == c;
    }
  }

  /** Both neighbours of a buffer are work columns, one index to its right and to its left. */
  lemma BufferNeighbours(c: Column)
    requires IsBuffer(c)
    ensures Next(c).Some? && RoleOf(Next(c).value).Some? && Index(Next(c).value) == Index(c) + 1
    ensures Prev(c).Some? && RoleOf(Prev(c).value).Some? && Index(Prev(c).value) == Index(c) - 1
  {
  }
}
