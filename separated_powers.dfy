/** The tabbed governance page (app/seperatedpowers/page.tsx). One tab proposes a
    decision with a title and a description; the other lists the decisions with a
    status badge and the buttons for the next step. There is no current role: both
    tabs are always reachable, and the one update handler checks neither role nor
    current status. */
module SeparatedPowers {
  import opened JsString

  datatype Status = Proposed | Approved | Rejected | Executed

  /** The status as the page stores and labels it. */
  function StatusText(s: Status): string {
    match s
    case Proposed => "proposed"
    case Approved => "approved"
    case Rejected => "rejected"
    case Executed => "executed"
  }

  datatype Decision = Decision(id: int, title: string, description: string, status: Status)

  /** The form's `newDecision` object. */
  datatype Draft = Draft(title: string, description: string)

  /** The component's state: `decisions` and `newDecision`. */
  datatype Board = Board(decisions: seq<Decision>, newDecision: Draft)

  /** The state of the first render. */
  const Initial: Board := Board([], Draft("", ""))

  /** Entry i carries id i + 1. */
  predicate IdsSequential(ds: seq<Decision>) {
    forall i :: 0 <= i < |ds| ==> ds[i].id == i + 1
  }

  /** `decisions.map(d => d.id === id ? { ...d, status } : d)`: the same entries in
      the same order, with the status of those whose id matches replaced. */
  function MapStatus(ds: seq<Decision>, id: int, status: Status): (r: seq<Decision>)
    ensures |r| == |ds|
    ensures forall i :: 0 <= i < |ds| ==>
              r[i].id == ds[i].id && r[i].title == ds[i].title && r[i].description == ds[i].description
    ensures forall i :: 0 <= i < |ds| ==> r[i].status == if ds[i].id == id then status else ds[i].status
  {
    if ds == [] then []
    else [if ds[0].id == id then ds[0].(status := status) else ds[0]] + MapStatus(ds[1..], id, status)
  }

  /** `proposeDecision`: when both fields are non-empty strings, append
      `{ id: length + 1, title, description, status: 'proposed' }` and reset both
      fields to ""; otherwise nothing changes. There is no trimming, so text made
      only of spaces is accepted. */
  function Propose(b: Board): (c: Board)
    ensures b.newDecision.title != "" && b.newDecision.description != "" ==>
              c.decisions == b.decisions
                + [Decision(|b.decisions| + 1, b.newDecision.title, b.newDecision.description, Proposed)]
              && c.newDecision == Draft("", "")
    ensures b.newDecision.title == "" || b.newDecision.description == "" ==> c == b
    ensures IdsSequential(b.decisions) ==> IdsSequential(c.decisions)
  {
    if b.newDecision.title != "" && b.newDecision.description != "" then
      var d := b.newDecision;
      Board(b.decisions + [Decision(|b.decisions| + 1, d.title, d.description, Proposed)], Draft("", ""))
    else
      b
  }

  /** With sequential ids, a known id rewrites the status of exactly one entry. */
  lemma MapStatusTouchesOne(ds: seq<Decision>, k: nat, status: Status)
    requires IdsSequential(ds) && k < |ds|
    ensures MapStatus(ds, k + 1, status) == ds[k := ds[k].(status := status)]
  {
    var r, e := MapStatus(ds, k + 1, status), ds[k := ds[k].(status := status)];
    assert forall i :: 0 <= i < |ds| ==> r[i] == e[i];
  }

  /** An id that no entry carries leaves the list as it was. */
  lemma MapStatusUnknownId(ds: seq<Decision>, id: int, status: Status)
    requires forall i :: 0 <= i < |ds| ==> ds[i].id != id
    ensures MapStatus(ds, id, status) == ds
  {
    var r := MapStatus(ds, id, status);
    assert forall i :: 0 <= i < |ds| ==> r[i] == ds[i];
  }

  /** `updateDecisionStatus(id, status)`: the form is untouched and the list keeps
      its length and ids. Neither a role nor the current status is checked. */
  function UpdateStatus(b: Board, id: int, status: Status): (c: Board)
    ensures c.newDecision == b.newDecision && |c.decisions| == |b.decisions|
    ensures IdsSequential(b.decisions) ==> IdsSequential(c.decisions)
  {
    b.(decisions := MapStatus(b.decisions, id, status))
  }

  /** With sequential ids, a known id changes that one entry's status and nothing
      else, and an unknown id changes nothing. */
  lemma UpdateChangesOnlyMatch(b: Board, id: int, status: Status)
    requires IdsSequential(b.decisions)
    ensures 1 <= id <= |b.decisions| ==>
              UpdateStatus(b, id, status).decisions
                == b.decisions[id - 1 := b.decisions[id - 1].(status := status)]
    ensures !(1 <= id <= |b.decisions|) ==> UpdateStatus(b, id, status) == b
  {
    if 1 <= id <= |b.decisions| {
      MapStatusTouchesOne(b.decisions, id - 1, status);
    } else {
      MapStatusUnknownId(b.decisions, id, status);
    }
  }

  /** The handler itself accepts any status for any entry, even moving an executed
      decision back to 'proposed'; only the buttons keep the order. */
  lemma UpdateIgnoresCurrentStatus(b: Board, k: nat, status: Status)
    requires IdsSequential(b.decisions) && k < |b.decisions|
    ensures UpdateStatus(b, k + 1, status).decisions[k].status == status
  {
  }

  /** The badge variant of each status. */
  function BadgeVariant(s: Status): string {
    if s == Proposed then "default"
    else if s == Approved then "secondary"
    else if s == Rejected then "destructive"
    else "outline"
  }

  /** The variant is defined for every status and no two statuses share one, the
      last branch catching exactly 'executed'. */
  lemma BadgeVariantDistinct(s: Status, t: Status)
    ensures BadgeVariant(s) == BadgeVariant(t) ==> s == t
    ensures BadgeVariant(s) == "outline" <==> s == Executed
  {
  }

  /** The badge text: the status with its first character upper-cased. */
  function BadgeLabel(s: Status): (r: string)
    ensures |r| == |StatusText(s)| && r[1..] == StatusText(s)[1..]
    ensures 'A' <= r[0] <= 'Z' && LowerChar(r[0]) == StatusText(s)[0]
  {
    Capitalize(StatusText(s))
  }

  /** The four labels as displayed. */
  lemma BadgeLabelShown(s: Status)
    ensures BadgeLabel(s) == match s
                             case Proposed => "Proposed"
                             case Approved => "Approved"
                             case Rejected => "Rejected"
                             case Executed => "Executed"
  {
  }

  /** The Approve and Reject buttons render on a 'proposed' entry. */
  predicate ShowsApproveReject(d: Decision) {
    d.status == Proposed
  }

  /** The Execute button renders on an 'approved' entry. */
  predicate ShowsExecute(d: Decision) {
    d.status == Approved
  }

  /** What a user can do: type a title or a description, propose, or click an
      entry's button. */
  datatype Action =
    | EditTitle(title: string)
    | EditDescription(description: string)
    | ClickPropose
    | ClickApprove(id: int)
    | ClickReject(id: int)
    | ClickExecute(id: int)

  /** The control for the action is on screen in one of the two tabs: the form
      always, an entry's buttons under the conditions above, carrying that entry's id. */
  predicate Rendered(b: Board, a: Action) {
    match a
    case EditTitle(_) => true
    case EditDescription(_) => true
    case ClickPropose => true
    case ClickApprove(id) =>
      exists i :: 0 <= i < |b.decisions| && b.decisions[i].id == id && ShowsApproveReject(b.decisions[i])
    case ClickReject(id) =>
      exists i :: 0 <= i < |b.decisions| && b.decisions[i].id == id && ShowsApproveReject(b.decisions[i])
    case ClickExecute(id) =>
      exists i :: 0 <= i < |b.decisions| && b.decisions[i].id == id && ShowsExecute(b.decisions[i])
  }

  /** The state after the action's setter or handler has run. */
  function Apply(b: Board, a: Action): Board {
    match a
    case EditTitle(t) => b.(newDecision := b.newDecision.(title := t))
    case EditDescription(t) => b.(newDecision := b.newDecision.(description := t))
    case ClickPropose => Propose(b)
    case ClickApprove(id) => UpdateStatus(b, id, Approved)
    case ClickReject(id) => UpdateStatus(b, id, Rejected)
    case ClickExecute(id) => UpdateStatus(b, id, Executed)
  }

  /** One rendered transition: 'proposed' to 'approved' or 'rejected', and
      'approved' to 'executed'. */
  predicate StatusStep(before: Status, after: Status) {
    || (before == Proposed && (after == Approved || after == Rejected))
    || (before == Approved && after == Executed)
  }

  /** Zero or more rendered transitions. */
  predicate StatusReachable(before: Status, after: Status) {
    before == after || StatusStep(before, after) || (before == Proposed && after == Executed)
  }

  /** 'rejected' and 'executed' expose no button at all. */
  lemma TerminalStatusesHaveNoActions(b: Board, i: nat)
    requires i < |b.decisions| && (b.decisions[i].status == Rejected || b.decisions[i].status == Executed)
    ensures !ShowsApproveReject(b.decisions[i]) && !ShowsExecute(b.decisions[i])
  {
  }

  /** The update behind a rendered button: the entry with the id moves by one
      rendered transition and nothing else changes. */
  lemma RenderedUpdateFollowsLifecycle(b: Board, k: nat, status: Status)
    requires IdsSequential(b.decisions) && k < |b.decisions|
    requires StatusStep(b.decisions[k].status, status)
    ensures var after := UpdateStatus(b, k + 1, status).decisions;
      && IdsSequential(after) && |after| == |b.decisions|
      && forall i :: 0 <= i < |b.decisions| ==>
           after[i].id == b.decisions[i].id && after[i].title == b.decisions[i].title
           && after[i].description == b.decisions[i].description
           && (after[i].status == b.decisions[i].status || StatusStep(b.decisions[i].status, after[i].status))
  {
    UpdateChangesOnlyMatch(b, k + 1, status);
  }

  /** An action on a rendered control keeps the ids sequential, never removes an
      entry, keeps titles and descriptions, moves each existing status by at most
      one rendered transition, and adds entries only as 'proposed'. */
  lemma RenderedStepFollowsLifecycle(b: Board, a: Action)
    requires IdsSequential(b.decisions) && Rendered(b, a)
    ensures IdsSequential(Apply(b, a).decisions)
    ensures |b.decisions| <= |Apply(b, a).decisions|
    ensures forall i :: 0 <= i < |b.decisions| ==>
              var before, after := b.decisions[i], Apply(b, a).decisions[i];
              after.id == before.id && after.title == before.title && after.description == before.description
              && (after.status == before.status || StatusStep(before.status, after.status))
    ensures forall i :: |b.decisions| <= i < |Apply(b, a).decisions| ==>
              Apply(b, a).decisions[i].status == Proposed
  {
    match a
    case ClickApprove(id) =>
      var k :| 0 <= k < |b.decisions| && b.decisions[k].id == id && ShowsApproveReject(b.decisions[k]);
      RenderedUpdateFollowsLifecycle(b, k, Approved);
    case ClickReject(id) =>
      var k :| 0 <= k < |b.decisions| && b.decisions[k].id == id && ShowsApproveReject(b.decisions[k]);
      RenderedUpdateFollowsLifecycle(b, k, Rejected);
    case ClickExecute(id) =>
      var k :| 0 <= k < |b.decisions| && b.decisions[k].id == id && ShowsExecute(b.decisions[k]);
      RenderedUpdateFollowsLifecycle(b, k, Executed);
    case _ =>
  }

  /** Every action in the sequence is on a rendered control when it is taken. */
  predicate Legal(b: Board, trace: seq<Action>)
    decreases |trace|
  {
    trace == [] || (Rendered(b, trace[0]) && Legal(Apply(b, trace[0]), trace[1..]))
  }

  /** The state after the actions of the sequence, in order. */
  function Run(b: Board, trace: seq<Action>): Board
    decreases |trace|
  {
    if trace == [] then b else Run(Apply(b, trace[0]), trace[1..])
  }

  /** Over any sequence of actions on rendered controls, ids stay sequential, no
      entry disappears, and every status only moves forward. */
  lemma {:induction false} LegalRunFollowsLifecycle(b: Board, trace: seq<Action>)
    requires IdsSequential(b.decisions) && Legal(b, trace)
    ensures IdsSequential(Run(b, trace).decisions)
    ensures |b.decisions| <= |Run(b, trace).decisions|
    ensures forall i :: 0 <= i < |b.decisions| ==>
              StatusReachable(b.decisions[i].status, Run(b, trace).decisions[i].status)
    decreases |trace|
  {
    if trace != [] {
      RenderedStepFollowsLifecycle(b, trace[0]);
      LegalRunFollowsLifecycle(Apply(b, trace[0]), trace[1..]);
    }
  }

  /** 'rejected' and 'executed' are terminal under the rendered transitions. */
  lemma TerminalStatusesStay(b: Board, trace: seq<Action>, i: nat)
    requires IdsSequential(b.decisions) && Legal(b, trace)
    requires i < |b.decisions| && (b.decisions[i].status == Rejected || b.decisions[i].status == Executed)
    ensures i < |Run(b, trace).decisions|
    ensures Run(b, trace).decisions[i].status == b.decisions[i].status
  {
    LegalRunFollowsLifecycle(b, trace);
  }

  /** Under the rendered transitions no entry returns to 'proposed'. */
  lemma NoReturnToProposed(b: Board, trace: seq<Action>, i: nat)
    requires IdsSequential(b.decisions) && Legal(b, trace)
    requires i < |b.decisions| && b.decisions[i].status != Proposed
    ensures i < |Run(b, trace).decisions|
    ensures Run(b, trace).decisions[i].status != Proposed
  {
    LegalRunFollowsLifecycle(b, trace);
  }

  /** Every state the page reaches from its first render has sequential ids. */
  lemma ReachableIdsSequential(trace: seq<Action>)
    requires Legal(Initial, trace)
    ensures IdsSequential(Run(Initial, trace).decisions)
  {
    LegalRunFollowsLifecycle(Initial, trace);
  }

  /** The component, holding `decisions` and `newDecision`; each handler replaces
      them through their setters. */
  class DAOGovernance {
    var decisions: seq<Decision>
    var newDecision: Draft

    function State(): Board
      reads this
    {
      Board(decisions, newDecision)
    }

    constructor ()
      ensures State() == Initial
    {
      decisions := [];
      newDecision := Draft("", "");
    }

    /** The title input's `onChange`. */
    method SetTitle(title: string)
      modifies this
      ensures State() == Apply(old(State()), EditTitle(title))
    {
      newDecision := newDecision.(title := title);
    }

    /** The description textarea's `onChange`. */
    method SetDescription(description: string)
      modifies this
      ensures State() == Apply(old(State()), EditDescription(description))
    {
      newDecision := newDecision.(description := description);
    }

    method ProposeDecision()
      modifies this
      ensures State() == Propose(old(State()))
    {
      if newDecision.title != "" && newDecision.description != "" {
        decisions := decisions
          + [Decision(|decisions| + 1, newDecision.title, newDecision.description, Proposed)];
        newDecision := Draft("", "");
      }
    }

    method UpdateDecisionStatus(id: int, status: Status)
      modifies this
      ensures State() == UpdateStatus(old(State()), id, status)
    {
      decisions := MapStatus(decisions, id, status);
    }
  }
}
