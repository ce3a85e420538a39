/** The return-request workflow of the admin Returns page: the status labels,
    the successor table that decides which status changes the page offers, and
    the status-update dialog. */
module ReturnsPage {
  import opened Js

  datatype ReturnStatus =
    | Requested | Approved | Rejected | PickupScheduled | PickedUp
    | Received | Inspected | RefundInitiated | RefundCompleted | Cancelled

  /** The status as the backend spells it. */
  function Name(s: ReturnStatus): string {
    match s
    case Requested => "requested"
    case Approved => "approved"
    case Rejected => "rejected"
    case PickupScheduled => "pickup_scheduled"
    case PickedUp => "picked_up"
    case Received => "received"
    case Inspected => "inspected"
    case RefundInitiated => "refund_initiated"
    case RefundCompleted => "refund_completed"
    case Cancelled => "cancelled"
  }

  /** Reads a raw status; `None` for a value the page does not know. */
  function Parse(raw: string): (r: Option<ReturnStatus>)
    ensures r.Some? ==> Name(r.value) == raw
  {
    if raw == "requested" then Some(Requested)
    else if raw == "approved" then Some(Approved)
    else if raw == "rejected" then Some(ReturnStatus.Rejected)
    else if raw == "pickup_scheduled" then Some(PickupScheduled)
    else if raw == "picked_up" then Some(PickedUp)
    else if raw == "received" then Some(Received)
    else if raw == "inspected" then Some(Inspected)
    else if raw == "refund_initiated" then Some(RefundInitiated)
    else if raw == "refund_completed" then Some(RefundCompleted)
    else if raw == "cancelled" then Some(Cancelled)
    else None
  }

  /** Every status reads back from its name, so names are distinct. */
  lemma ParseName(s: ReturnStatus)
    ensures Parse(Name(s)) == Some(s)
  {
  }

  /** The MUI chip colours used by the table. */
  datatype ChipColor = Warning | Success | Error | Info | Secondary | Primary | Default

  /** An entry of `RETURN_STATUS_CONFIG`. */
  datatype Chip = Chip(caption: string, color: ChipColor)

  function Config(s: ReturnStatus): Chip {
    match s
    case Requested => Chip("Requested", Warning)
    case Approved => Chip("Approved", Success)
    case Rejected => Chip("Rejected", Error)
    case PickupScheduled => Chip("Pickup Scheduled", Info)
    case PickedUp => Chip("Picked Up", Secondary)
    case Received => Chip("Received", Primary)
    case Inspected => Chip("Inspected", Info)
    case RefundInitiated => Chip("Refund Initiated", Success)
    case RefundCompleted => Chip("Refund Completed", Success)
    case Cancelled => Chip("Cancelled", Default)
  }

  /** The status chip of a row: its configured entry, or the raw value in the default colour. */
  function StatusChip(raw: string): (c: Chip)
    ensures Parse(raw).None? ==> c == Chip(raw, Default)
    ensures Parse(raw).Some? ==> c == Config(Parse(raw).value) && c.caption != ""
  {
    match Parse(raw)
    case Some(s) => Config(s)
    case None => Chip(raw, Default)
  }

  /** `STATUS_TRANSITIONS`; a status without an entry has no successors. */
  function Transitions(s: ReturnStatus): seq<ReturnStatus> {
    match s
    case Requested => [Approved, ReturnStatus.Rejected]
    case Approved => [PickupScheduled]
    case PickupScheduled => [PickedUp]
    case PickedUp => [Received]
    case Received => [Inspected]
    case Inspected => [RefundInitiated, ReturnStatus.Rejected]
    case RefundInitiated => [RefundCompleted]
    case _ => []
  }

  predicate Terminal(s: ReturnStatus) {
    Transitions(s) == []
  }

  /** Requested and Inspected are the only branching statuses; Rejected,
      RefundCompleted and Cancelled the only terminal ones; all others have one successor. */
  lemma Shape(s: ReturnStatus)
    ensures |Transitions(s)| == 2 <==> s == Requested || s == Inspected
    ensures Terminal(s) <==> s == ReturnStatus.Rejected || s == RefundCompleted || s == Cancelled
    ensures |Transitions(s)| <= 2
  {
  }

  /** Nothing ever moves a return to Cancelled. */
  lemma CancelledNeverTarget(s: ReturnStatus)
    ensures Cancelled !in Transitions(s)
  {
  }

  /** `STATUS_TRANSITIONS[row.status]` on the raw value: present only for a
      known status with a table entry. Its truthiness decides whether the
      row's update button and the details dialog's Update Status button show. */
  function TransitionsFor(raw: string): (r: Option<seq<ReturnStatus>>)
    ensures r.Some? <==> Parse(raw).Some? && !Terminal(Parse(raw).value)
    ensures r.Some? ==> r.value == Transitions(Parse(raw).value)
  {
    match Parse(raw)
    case Some(s) => if Terminal(s) then None else Some(Transitions(s))
    case None => None
  }

  /** One option of the New Status menu. */
  datatype MenuItem = MenuItem(value: string, caption: string)

  /** The label of a menu item: `RETURN_STATUS_CONFIG[status]?.caption || status`. */
  function MenuLabel(s: ReturnStatus): string {
    OrElse(Some(Config(s).caption), Name(s))
  }

  function MenuOf(succ: seq<ReturnStatus>): (m: seq<MenuItem>)
    ensures |m| == |succ|
    ensures forall i :: 0 <= i < |m| ==> m[i] == MenuItem(Name(succ[i]), Config(succ[i]).caption)
  {
    if succ == [] then [] else [MenuItem(Name(succ[0]), MenuLabel(succ[0]))] + MenuOf(succ[1..])
  }

  /** The New Status menu for a return whose raw status is `raw`. */
  function Menu(raw: string): seq<MenuItem> {
    match TransitionsFor(raw)
    case Some(succ) => MenuOf(succ)
    case None => []
  }

  /** The menu lists exactly the successors of the current status, in table
      order; a terminal or unknown status gets an empty menu. */
  lemma MenuIsSuccessors(raw: string)
    ensures Parse(raw).None? ==> Menu(raw) == []
    ensures Parse(raw).Some? ==> var succ := Transitions(Parse(raw).value);
      |Menu(raw)| == |succ|
      && forall i :: 0 <= i < |succ| ==> Parse(Menu(raw)[i].value) == Some(succ[i])
  {
    match Parse(raw)
    case None =>
    case Some(s) =>
      forall i | 0 <= i < |Transitions(s)|
        ensures Parse(Menu(raw)[i].value) == Some(Transitions(s)[i])
      {
        ParseName(Transitions(s)[i]);
      }
  }

  // ----- The successor relation is acyclic -----

  /** The position of a status along the workflow; every transition increases it. */
  function Rank(s: ReturnStatus): (n: nat)
    ensures n <= 9
  {
    match s
    case Requested => 0
    case Approved => 1
    case PickupScheduled => 2
    case PickedUp => 3
    case Received => 4
    case Inspected => 5
    case RefundInitiated => 6
    case RefundCompleted => 7
    case Rejected => 8
    case Cancelled => 9
  }

  lemma RankIncreases(s: ReturnStatus, t: ReturnStatus)
    requires t in Transitions(s)
    ensures Rank(s) < Rank(t)
  {
  }

  /** A sequence of statuses each of which the page lets the admin move to from the previous one. */
  predicate IsPath(p: seq<ReturnStatus>) {
    forall i :: 0 <= i < |p| - 1 ==> p[i + 1] in Transitions(p[i])
  }

  lemma {:induction false} PathRanks(p: seq<ReturnStatus>, i: nat)
    requires IsPath(p) && i < |p|
    ensures Rank(p[0]) + i <= Rank(p[i])
  {
    if i > 0 {
      PathRanks(p, i - 1);
      RankIncreases(p[i - 1], p[i]);
    }
  }

  /** No status is ever reached again, and no sequence of updates is longer than ten statuses. */
  lemma NoCycles(p: seq<ReturnStatus>)
    requires IsPath(p)
    ensures |p| <= 10
    ensures forall i, j :: 0 <= i < j < |p| ==> p[i] != p[j]
  {
    if |p| > 0 {
      PathRanks(p, |p| - 1);
    }
    forall i, j | 0 <= i < j < |p|
      ensures p[i] != p[j]
    {
      PathsFromAnyPoint(p, i);
      PathRanks(p[i..], j - i);
    }
  }

  lemma PathsFromAnyPoint(p: seq<ReturnStatus>, i: nat)
    requires IsPath(p) && i < |p|
    ensures IsPath(p[i..]) && p[i..][0] == p[i]
  {
    forall k | 0 <= k < |p[i..]| - 1
      ensures p[i..][k + 1] in Transitions(p[i..][k])
    {
      assert p[i..][k] == p[i + k] && p[i..][k + 1] == p[i + k + 1];
    }
  }

  /** Cancelled never appears on a path that does not start there. */
  lemma {:induction false} NoCancelledOnPath(p: seq<ReturnStatus>, i: nat)
    requires IsPath(p) && i < |p| && p[0] != Cancelled
    ensures p[i] != Cancelled
  {
    if i > 0 {
      CancelledNeverTarget(p[i - 1]);
    }
  }

  /** Every sequence of updates that starts at Requested and cannot go on ends
      in Rejected or RefundCompleted. */
  lemma CompletedPathsEnd(p: seq<ReturnStatus>)
    requires IsPath(p) && |p| > 0 && p[0] == Requested && Terminal(p[|p| - 1])
    ensures p[|p| - 1] == ReturnStatus.Rejected || p[|p| - 1] == RefundCompleted
  {
    NoCancelledOnPath(p, |p| - 1);
    Shape(p[|p| - 1]);
  }

  // ----- The status-update dialog -----

  /** A row of the returns table. */
  datatype ReturnRow = ReturnRow(returnId: string, status: string)

  /** The body of `updateReturnStatus(returnId, {status, notes})`. */
  datatype StatusRequest = StatusRequest(returnId: string, status: string, notes: string)

  /** A status the dialog may hold as the new one: empty, or a successor of the selected return's. */
  predicate Offered(selected: Option<ReturnRow>, status: string) {
    status == "" ||
    (selected.Some? && Parse(selected.value.status).Some? && Parse(status).Some?
     && Parse(status).value in Transitions(Parse(selected.value.status).value))
  }

  class ReturnsDialog {
    var selected: Option<ReturnRow>
    var newStatus: string
    var notes: string
    var statusDialogOpen: bool
    var detailsOpen: bool
    var updating: bool

    /** The new status is always one the menu offered. */
    ghost predicate Valid()
      reads this
    {
      Offered(selected, newStatus)
    }

    constructor ()
      ensures Valid() && selected.None? && newStatus == "" && notes == ""
      ensures !statusDialogOpen && !detailsOpen && !updating
    {
      selected, newStatus, notes := None, "", "";
      statusDialogOpen, detailsOpen, updating := false, false, false;
    }

    /** The Update button is disabled: `!newStatus || updating`. */
    predicate UpdateDisabled()
      reads this
    {
      newStatus == "" || updating
    }

    /** `handleStatusUpdate(row)`: select the row, clear the new status and the notes, open the dialog. */
    method OpenStatusDialog(row: ReturnRow)
      modifies this
      ensures Valid()
      ensures selected == Some(row) && newStatus == "" && notes == "" && statusDialogOpen
      ensures detailsOpen == old(detailsOpen) && updating == old(updating)
      ensures UpdateDisabled()
    {
      selected := Some(row);
      newStatus := "";
      notes := "";
      statusDialogOpen := true;
    }

    /** Picking entry `i` of the New Status menu. */
    method ChooseStatus(i: nat)
      requires Valid() && selected.Some? && i < |Menu(selected.value.status)|
      modifies this`newStatus
      ensures Valid()
      ensures newStatus == Menu(selected.value.status)[i].value
    {
      MenuIsSuccessors(selected.value.status);
      newStatus := Menu(selected.value.status)[i].value;
    }

    /** Typing in the Admin Notes field. */
    method SetNotes(text: string)
      modifies this`notes
      ensures notes == text
    {
      notes := text;
    }

    /** `handleUpdateStatus()`: nothing is sent while the new status is empty;
        otherwise the request carries it and the notes, and a successful update
        closes both dialogs. `updating` is false again at the end. */
    method UpdateStatus(succeeded: bool) returns (sent: Option<StatusRequest>)
      requires Valid()
      modifies this`statusDialogOpen, this`detailsOpen, this`updating
      ensures Valid()
      ensures old(newStatus) == "" ==> sent.None? && statusDialogOpen == old(statusDialogOpen)
                                       && detailsOpen == old(detailsOpen) && updating == old(updating)
      ensures old(newStatus) != "" ==>
        sent == Some(StatusRequest(selected.value.returnId, newStatus, notes))
        && Parse(newStatus).value in Transitions(Parse(selected.value.status).value)
        && !updating
        && (succeeded ==> !statusDialogOpen && !detailsOpen)
        && (!succeeded ==> statusDialogOpen == old(statusDialogOpen) && detailsOpen == old(detailsOpen))
    {
      if newStatus == "" {
        return None;
      }
      updating := true;
      sent := Some(StatusRequest(selected.value.returnId, newStatus, notes));
      if succeeded {
        statusDialogOpen := false;
        detailsOpen := false;
      }
      updating := false;
    }
  }
}
