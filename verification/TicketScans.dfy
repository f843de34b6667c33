/**
 Door scans of event tickets: `validateScan` and `confirmScan` racing with each other and with cancellations.

 `log` is history in commit order: every audit row about a ticket, and every cancellation.
 */
module TicketScans {
  import opened Wrappers

  datatype ScanStatus = Valid | Duplicate | Invalid | Cancelled

  datatype Ticket = Ticket(event: Option<nat>, cancelled: bool)
  datatype Entry = Recorded(ticket: nat, status: ScanStatus) | TicketCancelled(ticket: nat)

  datatype Kind = Validate | Confirm
  datatype Stage = Arrived | WantsRow | RowLocked | Counted(duplicate: bool) | Answered(status: ScanStatus)
  datatype Scan = Scan(kind: Kind, ticket: nat, event: nat, stage: Stage)

  datatype State = State(tickets: seq<Ticket>, log: seq<Entry>, scans: map<nat, Scan>)

  predicate OfEvent(s: State, ticket: nat, event: nat) {
    ticket < |s.tickets| && s.tickets[ticket].event == Some(event)
  }

  predicate HasValid(log: seq<Entry>, ticket: nat) {
    Recorded(ticket, Valid) in log
  }

  predicate Holds(scan: Scan, ticket: nat) {
    scan.ticket == ticket && (scan.stage.RowLocked? || scan.stage.Counted?)
  }

  predicate RowFree(s: State, ticket: nat) {
    forall j :: j in s.scans ==> !Holds(s.scans[j], ticket)
  }

  datatype Step =
    | AddTicket(row: Ticket)
    | Begin(id: nat, kind: Kind, ticket: nat, event: nat)
    | Advance(id: nat)
    | CancelTicket(ticket: nat)

  predicate StepOk(s: State, step: Step) {
    match step
    case AddTicket(t) => !t.cancelled
    case Begin(id, _, _, _) => id !in s.scans
    case Advance(id) =>
      && id in s.scans && !s.scans[id].stage.Answered?
      // The row lock is only requested when the row exists for this event.
      && (s.scans[id].stage.WantsRow? && OfEvent(s, s.scans[id].ticket, s.scans[id].event) ==> RowFree(s, s.scans[id].ticket))
    case CancelTicket(t) => t < |s.tickets| && RowFree(s, t)
  }

  function Move(s: State, id: nat, stage: Stage): State
    requires id in s.scans
  {
    s.(scans := s.scans[id := s.scans[id].(stage := stage)])
  }

  function Record(s: State, id: nat, status: ScanStatus): State
    requires id in s.scans
  {
    Move(s, id, Answered(status)).(log := s.log + [Recorded(s.scans[id].ticket, status)])
  }

  function AdvanceScan(s: State, id: nat): State
    requires id in s.scans
  {
    var scan := s.scans[id];
    match scan.stage
    case Arrived =>
      if scan.kind == Validate then Move(s, id, WantsRow)
      else if !OfEvent(s, scan.ticket, scan.event) then Move(s, id, Answered(Invalid))
      else if s.tickets[scan.ticket].cancelled then Move(s, id, Answered(Cancelled))
      else Move(s, id, WantsRow)
    case WantsRow =>
      if OfEvent(s, scan.ticket, scan.event) then Move(s, id, RowLocked) else Move(s, id, Answered(Invalid))
    case RowLocked =>
      if !OfEvent(s, scan.ticket, scan.event) then Move(s, id, Answered(Invalid))
      else if s.tickets[scan.ticket].cancelled
      then if scan.kind == Validate then Record(s, id, Cancelled) else Move(s, id, Answered(Cancelled))
      else Move(s, id, Counted(HasValid(s.log, scan.ticket)))
    case Counted(duplicate) => Record(s, id, if duplicate then Duplicate else Valid)
    case Answered(_) => s
  }

  function Do(s: State, step: Step): State
    requires StepOk(s, step)
  {
    match step
    case AddTicket(t) => s.(tickets := s.tickets + [t])
    case Begin(id, kind, ticket, event) => s.(scans := s.scans[id := Scan(kind, ticket, event, Arrived)])
    case Advance(id) => AdvanceScan(s, id)
    case CancelTicket(t) =>
      s.(tickets := s.tickets[t := s.tickets[t].(cancelled := true)], log := s.log + [TicketCancelled(t)])
  }

  predicate RunOk(s: State, steps: seq<Step>)
    decreases |steps|
  {
    steps == [] || (StepOk(s, steps[0]) && RunOk(Do(s, steps[0]), steps[1..]))
  }

  function Run(s: State, steps: seq<Step>): State
    requires RunOk(s, steps)
    decreases |steps|
  {
    if steps == [] then s else Run(Do(s, steps[0]), steps[1..])
  }

  // ---------- Invariant ----------

  ghost predicate ScanOk(s: State, scan: Scan) {
    scan.stage.RowLocked? || scan.stage.Counted? ==>
      && OfEvent(s, scan.ticket, scan.event)
      && (scan.stage.Counted? ==>
            !s.tickets[scan.ticket].cancelled && (scan.stage.duplicate <==> HasValid(s.log, scan.ticket)))
  }

  ghost predicate LogOk(s: State) {
    && (forall j, k :: 0 <= j < k < |s.log| && s.log[j] == Recorded(s.log[j].ticket, Valid) ==> s.log[k] != s.log[j])
    && (forall j, k :: 0 <= j < k < |s.log| && s.log[j].TicketCancelled? ==> s.log[k] != Recorded(s.log[j].ticket, Valid))
    && (forall k :: 0 <= k < |s.log| && s.log[k].TicketCancelled? ==>
          s.log[k].ticket < |s.tickets| && s.tickets[s.log[k].ticket].cancelled)
  }

  ghost predicate Inv(s: State) {
    && LogOk(s)
    && (forall j :: j in s.scans ==> ScanOk(s, s.scans[j]))
    && LocksExclusive(s)
  }

  ghost predicate LocksExclusive(s: State) {
    forall i, j :: i in s.scans && j in s.scans && i != j ==>
      !(Holds(s.scans[i], s.scans[i].ticket) && Holds(s.scans[j], s.scans[i].ticket))
  }

  lemma MoveKeeps(s: State, id: nat, stage: Stage)
    requires Inv(s) && id in s.scans && ScanOk(s, s.scans[id].(stage := stage))
    requires stage.RowLocked? || stage.Counted? ==>
               Holds(s.scans[id], s.scans[id].ticket) || RowFree(s, s.scans[id].ticket)
    ensures Inv(Move(s, id, stage))
  {
  }

  /** The audit row of a scan that holds the ticket's row lock. */
  lemma RecordKeeps(s: State, id: nat, status: ScanStatus)
    requires Inv(s) && id in s.scans && Holds(s.scans[id], s.scans[id].ticket)
    requires OfEvent(s, s.scans[id].ticket, s.scans[id].event)
    requires status == Valid ==> !HasValid(s.log, s.scans[id].ticket) && !s.tickets[s.scans[id].ticket].cancelled
    ensures Inv(Record(s, id, status))
  {
    var s' := Record(s, id, status);
    var t := s.scans[id].ticket;
    assert s'.log[|s.log|] == Recorded(t, status);
    forall j | j in s'.scans ensures ScanOk(s', s'.scans[j]) {
      if j != id {
        assert ScanOk(s, s.scans[j]);
        assert Holds(s.scans[j], s.scans[j].ticket) ==> s.scans[j].ticket != t;
      }
    }
    RecordLogOk(s, t, status);
  }

  lemma RecordLogOk(s: State, t: nat, status: ScanStatus)
    requires LogOk(s) && t < |s.tickets|
    requires status == Valid ==> !HasValid(s.log, t) && !s.tickets[t].cancelled
    ensures LogOk(s.(log := s.log + [Recorded(t, status)]))
  {
  }

  lemma AdvanceKeeps(s: State, id: nat)
    requires Inv(s) && StepOk(s, Advance(id))
    ensures Inv(AdvanceScan(s, id))
  {
    var scan, s' := s.scans[id], AdvanceScan(s, id);
    assert ScanOk(s, scan);
    if s'.log == s.log {
      MoveKeeps(s, id, s'.scans[id].stage);
    } else {
      RecordKeeps(s, id, s'.scans[id].stage.status);
    }
  }

  lemma CancelKeeps(s: State, t: nat)
    requires Inv(s) && StepOk(s, CancelTicket(t))
    ensures Inv(Do(s, CancelTicket(t)))
  {
    var s' := Do(s, CancelTicket(t));
    forall j | j in s'.scans ensures ScanOk(s', s'.scans[j]) {
      assert ScanOk(s, s.scans[j]);
    }
  }

  lemma DoKeeps(s: State, step: Step)
    requires Inv(s) && StepOk(s, step)
    ensures Inv(Do(s, step))
  {
    var s' := Do(s, step);
    match step {
      case Advance(id) => AdvanceKeeps(s, id);
      case CancelTicket(t) => CancelKeeps(s, t);
      case _ =>
        forall j | j in s'.scans ensures ScanOk(s', s'.scans[j]) {
          assert j in s.scans && s'.scans[j] == s.scans[j] ==> ScanOk(s, s.scans[j]);
        }
    }
  }

  lemma {:induction false} RunKeeps(s: State, steps: seq<Step>)
    requires Inv(s) && RunOk(s, steps)
    ensures Inv(Run(s, steps))
    decreases |steps|
  {
    if steps != [] {
      DoKeeps(s, steps[0]);
      RunKeeps(Do(s, steps[0]), steps[1..]);
    }
  }

  // ---------- Main results ----------

  /** Over any interleaving a ticket is admitted at most once, and never after its cancellation. */
  lemma AdmittedOnceAndNotAfterCancelling(start: State, steps: seq<Step>, ticket: nat, j: nat, k: nat)
    requires Inv(start) && RunOk(start, steps)
    requires j < |Run(start, steps).log| && k < |Run(start, steps).log|
    ensures var log := Run(start, steps).log;
            && (log[j] == Recorded(ticket, Valid) && log[k] == Recorded(ticket, Valid) ==> j == k)
            && (log[j] == TicketCancelled(ticket) && log[k] == Recorded(ticket, Valid) ==> k < j)
  {
    RunKeeps(start, steps);
    assert LogOk(Run(start, steps));
  }

  datatype Preview = Ready | PreviewDuplicate | PreviewCancelled | PreviewInvalid

  function PreviewScan(s: State, ticket: nat, event: nat): Preview {
    if !OfEvent(s, ticket, event) then PreviewInvalid
    else if s.tickets[ticket].cancelled then PreviewCancelled
    else if HasValid(s.log, ticket) then PreviewDuplicate
    else Ready
  }

  predicate Predicts(p: Preview, status: ScanStatus) {
    match p
    case Ready => status == Valid
    case PreviewDuplicate => status == Duplicate
    case PreviewCancelled => status == Cancelled
    case PreviewInvalid => status == Invalid
  }

  /**
   Whenever a confirmation answers, previewing the ticket at that very instant predicts the answer, and only that
   answer: ready iff valid, duplicate iff duplicate, cancelled iff cancelled, invalid iff invalid.
   */
  lemma PreviewPredictsConfirm(start: State, steps: seq<Step>, id: nat)
    requires Inv(start) && RunOk(start, steps) && StepOk(Run(start, steps), Advance(id))
    requires Run(start, steps).scans[id].kind == Confirm
    ensures var s := Run(start, steps); var scan, after := s.scans[id], AdvanceScan(s, id).scans[id];
            after.stage.Answered? ==> Predicts(PreviewScan(s, scan.ticket, scan.event), after.stage.status)
  {
    RunKeeps(start, steps);
    var s := Run(start, steps);
    assert ScanOk(s, s.scans[id]);
  }

  /** A scan in a quiet system answers in at most four steps what the preview says, of either kind. */
  lemma ScanAlone(s: State, id: nat) returns (steps: seq<Step>)
    requires Inv(s) && id in s.scans && s.scans[id].stage == Arrived
    requires forall j :: j in s.scans && j != id ==> !s.scans[j].stage.RowLocked? && !s.scans[j].stage.Counted?
    ensures RunOk(s, steps) && |steps| <= 4 && id in Run(s, steps).scans
    ensures var after := Run(s, steps).scans[id];
            after.stage.Answered?
            && Predicts(PreviewScan(s, s.scans[id].ticket, s.scans[id].event), after.stage.status)
  {
    steps := FinishAlone(s, id, 4);
    var p := PreviewScan(s, s.scans[id].ticket, s.scans[id].event);
    assert Heading(s, id, p);
    assert Heading(Run(s, steps), id, p);
  }

  function Remaining(stage: Stage): nat {
    match stage case Arrived => 4 case WantsRow => 3 case RowLocked => 2 case Counted(_) => 1 case Answered(_) => 0
  }

  ghost predicate Heading(s: State, id: nat, p: Preview)
    requires id in s.scans
  {
    var scan := s.scans[id];
    match scan.stage
    case Answered(status) => Predicts(p, status)
    case _ => PreviewScan(s, scan.ticket, scan.event) == p
  }

  lemma {:induction false} FinishAlone(s: State, id: nat, n: nat) returns (steps: seq<Step>)
    requires Inv(s) && id in s.scans && Remaining(s.scans[id].stage) <= n
    requires forall j :: j in s.scans && j != id ==> !s.scans[j].stage.RowLocked? && !s.scans[j].stage.Counted?
    ensures RunOk(s, steps) && |steps| <= n && id in Run(s, steps).scans && Run(s, steps).scans[id].stage.Answered?
    ensures forall p :: Heading(s, id, p) ==> Heading(Run(s, steps), id, p)
    decreases n
  {
    if s.scans[id].stage.Answered? {
      return [];
    }
    assert ScanOk(s, s.scans[id]);
    var step := Advance(id);
    assert StepOk(s, step);
    var s' := Do(s, step);
    DoKeeps(s, step);
    var rest := FinishAlone(s', id, n - 1);
    steps := [step] + rest;
    assert steps[1..] == rest;
  }
}
