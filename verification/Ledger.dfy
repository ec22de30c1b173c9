/** The durable rows of the approval ledger and the effect of each of its transactions: every
    `with self.connect()` block is one atomic step on one proposal's file. */
module Ledger {
  import opened Wrappers
  import opened Actions
  import opened Isoformat

  type Id = nat

  datatype Work = Typed(request: Request) | Generic(plan: Plan)

  /** The fingerprint of a request or plan together with its preflight; the hash is injective. */
  datatype Fingerprint =
    | TypedPrint(request: Request, snapshot: Snapshot)
    | GenericPrint(plan: Plan, preflight: GenericSnapshot)

  datatype Row = Row(work: Work, status: Status, expiresAt: string, fingerprint: Fingerprint,
                     approvedBy: Option<int>, consumedAt: Option<string>, reason: Option<string>)

  /** The row of a proposal, its row in `action_runs` (at most one: `proposal_id` is UNIQUE), and its
      rows in `action_events`, in order. */
  datatype File = File(row: Row, run: Option<Status>, events: seq<Event>) {
    /** The first UPDATE of an approval matches. */
    predicate Approvable(now: string) {
      row.status == PENDING && Before(now, row.expiresAt)
    }

    function Approve(approver: int, now: string): File {
      if Approvable(now) then
        this.(row := row.(status := APPROVED, approvedBy := Some(approver), consumedAt := Some(now)))
      else if row.status == PENDING && !Before(now, row.expiresAt) then
        this.(row := row.(status := EXPIRED))
      else this
    }

    function Reject(actor: int, now: string): File {
      if Approvable(now) then this.(row := row.(status := REJECTED, approvedBy := Some(actor))) else this
    }

    function SetStatus(status: Status, reason: Option<string>): File {
      this.(row := row.(status := status, reason := reason))
    }

    function CreateRun(): File {
      this.(run := Some(EXECUTING))
    }

    function FinishRun(status: Status): File {
      this.(run := Some(status))
    }

    function AddEvent(event: Event): File {
      this.(events := events + [event])
    }

    /** `reconcile_actions`, at the start of a process. */
    function Reconcile(): File {
      var f := if row.status == PENDING then SetStatus(INTERRUPTED, Some("PROCESS_RESTARTED"))
               else if InFlight(row.status) || row.status == APPROVED then
                 SetStatus(INTERRUPTED_UNKNOWN, Some("PROCESS_RESTARTED_AFTER_APPROVAL"))
               else this;
      if f.run.Some? && InFlight(f.run.value) then f.(run := Some(INTERRUPTED_UNKNOWN)) else f
    }
  }

  predicate InFlight(status: Status) {
    || status.EXECUTING? || status.COMMAND_DISPATCHED? || status.WAITING_FOR_HOST_DOWN?
    || status.WAITING_FOR_HOST_UP? || status.VERIFYING?
  }

  predicate Terminal(status: Status) {
    !InFlight(status) && !status.PENDING? && !status.APPROVED?
  }

  /** `Database`, as far as the approval ledger goes. */
  class Database {
    var files: map<Id, File>
    var nextId: Id  // AUTOINCREMENT: ids are never used again

    ghost predicate Valid()
      reads this
    {
      forall id :: id in files ==> id < nextId
    }

    constructor ()
      ensures Valid() && files == map[]
    {
      files, nextId := map[], 0;
    }

    method CreateProposal(row: Row) returns (id: Id)
      requires Valid()
      modifies this
      ensures Valid() && id !in old(files)
      ensures files == old(files)[id := File(row, None, [])]
    {
      id := nextId;
      files := files[id := File(row, None, [])];
      nextId := nextId + 1;
    }

    method ApproveActionProposal(id: Id, approver: int, timestamp: string) returns (won: bool)
      requires Valid()
      modifies this`files
      ensures Valid()
      ensures won <==> id in old(files) && old(files)[id].Approvable(timestamp)
      ensures files == if id in old(files) then old(files)[id := old(files)[id].Approve(approver, timestamp)]
                       else old(files)
    {
      won := false;
      if id in files {
        var f := files[id];
        if f.row.status == PENDING && Before(timestamp, f.row.expiresAt) {
          f := f.(row := f.row.(status := APPROVED, approvedBy := Some(approver), consumedAt := Some(timestamp)));
          won := true;
        }
        if !won && f.row.status == PENDING && (timestamp == f.row.expiresAt || Before(f.row.expiresAt, timestamp)) {
          f := f.(row := f.row.(status := EXPIRED));
        }
        OneComesFirst(timestamp, f.row.expiresAt);
        files := files[id := f];
      }
    }

    method RejectActionProposal(id: Id, actor: int, timestamp: string) returns (won: bool)
      requires Valid()
      modifies this`files
      ensures Valid()
      ensures won <==> id in old(files) && old(files)[id].Approvable(timestamp)
      ensures files == if id in old(files) then old(files)[id := old(files)[id].Reject(actor, timestamp)]
                       else old(files)
    {
      won := id in files && files[id].row.status == PENDING && Before(timestamp, files[id].row.expiresAt);
      if won {
        var f := files[id];
        files := files[id := f.(row := f.row.(status := REJECTED, approvedBy := Some(actor)))];
      }
      assert id in old(files) && !won ==> old(files)[id := old(files)[id]] == old(files);
    }

    method SetProposalStatus(id: Id, status: Status, reason: Option<string>)
      requires Valid() && id in files
      modifies this`files
      ensures Valid() && files == old(files)[id := old(files)[id].SetStatus(status, reason)]
      ensures files[id].row.status == status && files[id].row.reason == reason
    {
      var f := files[id];
      files := files[id := f.(row := f.row.(status := status, reason := reason))];
    }

    /** Fails, as the UNIQUE constraint does, when the proposal already has a run. */
    method CreateActionRun(id: Id) returns (created: bool)
      requires Valid() && id in files
      modifies this`files
      ensures Valid() && (created <==> old(files)[id].run.None?)
      ensures files == if created then old(files)[id := old(files)[id].CreateRun()] else old(files)
      ensures created ==> files[id].run == Some(EXECUTING)
    {
      created := files[id].run.None?;
      if created {
        files := files[id := files[id].(run := Some(EXECUTING))];
      }
    }

    method FinishActionRun(id: Id, status: Status)
      requires Valid() && id in files
      modifies this`files
      ensures Valid() && files == old(files)[id := old(files)[id].FinishRun(status)]
      ensures files[id].run == Some(status)
    {
      files := files[id := files[id].(run := Some(status))];
    }

    method AddActionEvent(id: Id, event: Event)
      requires Valid() && id in files
      modifies this`files
      ensures Valid() && files == old(files)[id := old(files)[id].AddEvent(event)]
      ensures files[id].events == old(files)[id].events + [event]
    {
      files := files[id := files[id].(events := files[id].events + [event])];
    }

    /** Returns the number of proposals that were still pending. */
    method ReconcileActions() returns (pending: nat)
      requires Valid()
      modifies this`files
      ensures Valid()
      ensures files == map id | id in old(files) :: old(files)[id].Reconcile()
      ensures pending == |set id | id in old(files) && old(files)[id].row.status == PENDING|
      ensures forall id :: id in files ==> Terminal(files[id].row.status)
    {
      pending := |set id | id in files && files[id].row.status == PENDING|;
      files := map id | id in files :: files[id].Reconcile();
    }
  }

  /** Approval and expiry split the pending rows at their moment of expiry, in time and not only in
      text: a row approved now is not expired, one not approved is, and no row is left between. */
  lemma ApproveOrExpire(f: File, approver: int, now: Moment, expires: Moment)
    requires f.row.status == PENDING && f.row.expiresAt == Iso(expires)
    requires Isoformat.Valid(now) && Isoformat.Valid(expires)
    ensures f.Approve(approver, Iso(now)).row ==
            if Instant(now) < Instant(expires) then
              f.row.(status := APPROVED, approvedBy := Some(approver), consumedAt := Some(Iso(now)))
            else f.row.(status := EXPIRED)
    ensures f.Reject(approver, Iso(now)).row ==
            if Instant(now) < Instant(expires) then f.row.(status := REJECTED, approvedBy := Some(approver)) else f.row
  {
    TextOrderIsTimeOrder(now, expires);
  }

  /** What a restart makes of a file, status by status: a pending proposal was interrupted, one that was
      approved or under way may have had its effect, and all others stay; a run under way likewise. */
  lemma ReconcileMeans(f: File)
    ensures var under := {EXECUTING, COMMAND_DISPATCHED, WAITING_FOR_HOST_DOWN, WAITING_FOR_HOST_UP, VERIFYING};
            var r := f.Reconcile();
            && r.events == f.events
            && r.run == (if f.run.Some? && f.run.value in under then Some(INTERRUPTED_UNKNOWN) else f.run)
            && r.row == (if f.row.status == PENDING then
                           f.row.(status := INTERRUPTED, reason := Some("PROCESS_RESTARTED"))
                         else if f.row.status in under + {APPROVED} then
                           f.row.(status := INTERRUPTED_UNKNOWN, reason := Some("PROCESS_RESTARTED_AFTER_APPROVAL"))
                         else f.row)
  {
  }

  /** A second reconciliation changes nothing. */
  lemma ReconcileIsIdempotent(f: File)
    ensures f.Reconcile().Reconcile() == f.Reconcile()
  {
  }
}
