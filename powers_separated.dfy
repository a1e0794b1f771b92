/** The two-role governance page (app/powersseperated/page.tsx). Role A proposes
    decisions; role B approves, rejects and executes them. The handlers check
    only the current role; the order Proposed, then Approved or Rejected, then
    Executed is kept only by which buttons the page renders. */
module PowersSeparated {
  import opened JsString

  datatype Role = A | B

  datatype ProposalStatus = Proposed | Approved | Executed | Rejected

  datatype Proposal = Proposal(id: int, description: string, status: ProposalStatus)

  /** The component's state: `currentRole`, `proposals` and `newProposal`. */
  datatype Page = Page(currentRole: Role, proposals: seq<Proposal>, newProposal: string)

  /** The state of the first render. */
  const Initial: Page := Page(A, [], "")

  /** Entry i carries id i + 1, so the ids are 1..n, distinct and ascending. */
  predicate IdsSequential(ps: seq<Proposal>) {
    forall i :: 0 <= i < |ps| ==> ps[i].id == i + 1
  }

  /** `proposals.map(p => p.id === id ? { ...p, status } : p)`: the same entries in
      the same order, with the status of those whose id matches replaced. */
  function MapStatus(ps: seq<Proposal>, id: int, status: ProposalStatus): (r: seq<Proposal>)
    ensures |r| == |ps|
    ensures forall i :: 0 <= i < |ps| ==> r[i].id == ps[i].id && r[i].description == ps[i].description
    ensures forall i :: 0 <= i < |ps| ==> r[i].status == if ps[i].id == id then status else ps[i].status
  {
    if ps == [] then []
    else [if ps[0].id == id then ps[0].(status := status) else ps[0]] + MapStatus(ps[1..], id, status)
  }

  /** With sequential ids, a known id rewrites the status of exactly one entry. */
  lemma MapStatusTouchesOne(ps: seq<Proposal>, k: nat, status: ProposalStatus)
    requires IdsSequential(ps) && k < |ps|
    ensures MapStatus(ps, k + 1, status) == ps[k := ps[k].(status := status)]
  {
    var r, e := MapStatus(ps, k + 1, status), ps[k := ps[k].(status := status)];
    assert forall i :: 0 <= i < |ps| ==> r[i] == e[i];
  }

  /** An id that no entry carries leaves the list as it was. */
  lemma MapStatusUnknownId(ps: seq<Proposal>, id: int, status: ProposalStatus)
    requires forall i :: 0 <= i < |ps| ==> ps[i].id != id
    ensures MapStatus(ps, id, status) == ps
  {
    var r := MapStatus(ps, id, status);
    assert forall i :: 0 <= i < |ps| ==> r[i] == ps[i];
  }

  /** `proposeDecision`: for role A and an input that is not blank after trimming,
      append `{ id: length + 1, description, status: "Proposed" }` with the input
      as typed, and clear the input; otherwise nothing changes. */
  function Propose(p: Page): (q: Page)
    ensures q.currentRole == p.currentRole
    ensures p.currentRole == A && !IsBlank(p.newProposal) ==>
              q.proposals == p.proposals + [Proposal(|p.proposals| + 1, p.newProposal, Proposed)]
              && q.newProposal == ""
    ensures p.currentRole == B || IsBlank(p.newProposal) ==> q == p
    ensures IdsSequential(p.proposals) ==> IdsSequential(q.proposals)
  {
    TrimEmptyIffBlank(p.newProposal);
    if p.currentRole == A && Trim(p.newProposal) != "" then
      var newId := |p.proposals| + 1;
      p.(proposals := p.proposals + [Proposal(newId, p.newProposal, Proposed)], newProposal := "")
    else
      p
  }

  /** The common shape of the approve, execute and reject handlers: under role B
      rewrite the status of the entries with the given id, under role A do nothing.
      Neither the current status nor the existence of the id is checked. */
  function Decide(p: Page, id: int, status: ProposalStatus): (q: Page)
    ensures q.currentRole == p.currentRole && q.newProposal == p.newProposal
    ensures |q.proposals| == |p.proposals|
    ensures p.currentRole == A ==> q == p
    ensures IdsSequential(p.proposals) ==> IdsSequential(q.proposals)
  {
    if p.currentRole == B then p.(proposals := MapStatus(p.proposals, id, status)) else p
  }

  /** `approveDecision(id)` */
  function Approve(p: Page, id: int): Page { Decide(p, id, Approved) }

  /** `executeDecision(id)` */
  function Execute(p: Page, id: int): Page { Decide(p, id, Executed) }

  /** `rejectDecision(id)` */
  function Reject(p: Page, id: int): Page { Decide(p, id, Rejected) }

  /** Under role B with sequential ids, a handler for a known id changes the status
      of that one entry and nothing else; an unknown id changes nothing. */
  lemma DecideChangesOnlyMatch(p: Page, id: int, status: ProposalStatus)
    requires p.currentRole == B && IdsSequential(p.proposals)
    ensures 1 <= id <= |p.proposals| ==>
              Decide(p, id, status).proposals
                == p.proposals[id - 1 := p.proposals[id - 1].(status := status)]
    ensures !(1 <= id <= |p.proposals|) ==> Decide(p, id, status) == p
  {
    if 1 <= id <= |p.proposals| {
      MapStatusTouchesOne(p.proposals, id - 1, status);
    } else {
      MapStatusUnknownId(p.proposals, id, status);
    }
  }

  /** The handlers trust the buttons: executing a proposal that was never approved
      marks it Executed, although the page renders no Execute button for it. */
  lemma ExecuteSkipsApproval(p: Page, k: nat)
    requires p.currentRole == B && IdsSequential(p.proposals)
    requires k < |p.proposals| && p.proposals[k].status == Proposed
    ensures Execute(p, k + 1).proposals[k].status == Executed
    ensures !Rendered(p, ClickExecute(k + 1))
  {
  }

  /** The status as the page displays it: the string value of the status type. */
  function StatusName(status: ProposalStatus): string {
    match status
    case Proposed => "Proposed"
    case Approved => "Approved"
    case Executed => "Executed"
    case Rejected => "Rejected"
  }

  /** `getStatusColor`: the badge classes of each status. */
  function StatusColor(status: ProposalStatus): string {
    match status
    case Proposed => "bg-yellow-100 text-yellow-800"
    case Approved => "bg-blue-100 text-blue-800"
    case Executed => "bg-green-100 text-green-800"
    case Rejected => "bg-red-100 text-red-800"
  }

  /** Every status has a class string and no two statuses share one. */
  lemma StatusColorDistinct(s: ProposalStatus, t: ProposalStatus)
    ensures StatusColor(s) != ""
    ensures StatusColor(s) == StatusColor(t) ==> s == t
  {
  }

  /** The input and the Propose button render only for role A. */
  predicate ShowsProposeForm(role: Role) {
    role == A
  }

  /** The Approve and Reject buttons of an entry render for role B on a Proposed entry. */
  predicate ShowsApproveReject(role: Role, pr: Proposal) {
    role == B && pr.status == Proposed
  }

  /** The Execute button of an entry renders for role B on an Approved entry. */
  predicate ShowsExecute(role: Role, pr: Proposal) {
    role == B && pr.status == Approved
  }

  /** What a user can do on the page: pick a role, type into the input, or click a button. */
  datatype Action =
    | ChooseRole(role: Role)
    | Edit(text: string)
    | ClickPropose
    | ClickApprove(id: int)
    | ClickReject(id: int)
    | ClickExecute(id: int)

  /** The control for the action is on screen: the role selector always, the input
      and Propose button for role A, and an entry's buttons under the conditions
      above, each carrying that entry's id. */
  predicate Rendered(p: Page, a: Action) {
    match a
    case ChooseRole(_) => true
    case Edit(_) => ShowsProposeForm(p.currentRole)
    case ClickPropose => ShowsProposeForm(p.currentRole)
    case ClickApprove(id) =>
      exists i :: 0 <= i < |p.proposals| && p.proposals[i].id == id && ShowsApproveReject(p.currentRole, p.proposals[i])
    case ClickReject(id) =>
      exists i :: 0 <= i < |p.proposals| && p.proposals[i].id == id && ShowsApproveReject(p.currentRole, p.proposals[i])
    case ClickExecute(id) =>
      exists i :: 0 <= i < |p.proposals| && p.proposals[i].id == id && ShowsExecute(p.currentRole, p.proposals[i])
  }

  /** The state after the action's setter or handler has run. */
  function Apply(p: Page, a: Action): Page {
    match a
    case ChooseRole(r) => p.(currentRole := r)
    case Edit(t) => p.(newProposal := t)
    case ClickPropose => Propose(p)
    case ClickApprove(id) => Approve(p, id)
    case ClickReject(id) => Reject(p, id)
    case ClickExecute(id) => Execute(p, id)
  }

  /** One rendered transition of a status: Proposed to Approved or Rejected, and
      Approved to Executed. */
  predicate StatusStep(before: ProposalStatus, after: ProposalStatus) {
    || (before == Proposed && (after == Approved || after == Rejected))
    || (before == Approved && after == Executed)
  }

  /** Zero or more rendered transitions. */
  predicate StatusReachable(before: ProposalStatus, after: ProposalStatus) {
    before == after || StatusStep(before, after) || (before == Proposed && after == Executed)
  }

  /** The handler behind a rendered button of role B: the entry with the id moves
      by one rendered transition and nothing else changes. */
  lemma RenderedDecisionFollowsLifecycle(p: Page, k: nat, status: ProposalStatus)
    requires p.currentRole == B && IdsSequential(p.proposals) && k < |p.proposals|
    requires StatusStep(p.proposals[k].status, status)
    ensures var after := Decide(p, k + 1, status).proposals;
      && IdsSequential(after) && |after| == |p.proposals|
      && forall i :: 0 <= i < |p.proposals| ==>
           after[i].id == p.proposals[i].id && after[i].description == p.proposals[i].description
           && (after[i].status == p.proposals[i].status || StatusStep(p.proposals[i].status, after[i].status))
  {
    DecideChangesOnlyMatch(p, k + 1, status);
  }

  /** A user action on a rendered control keeps the ids sequential, never removes an
      entry, keeps every description, moves each existing status by at most one
      rendered transition, and adds entries only as Proposed. */
  lemma RenderedStepFollowsLifecycle(p: Page, a: Action)
    requires IdsSequential(p.proposals) && Rendered(p, a)
    ensures IdsSequential(Apply(p, a).proposals)
    ensures |p.proposals| <= |Apply(p, a).proposals|
    ensures forall i :: 0 <= i < |p.proposals| ==>
              var before, after := p.proposals[i], Apply(p, a).proposals[i];
              after.id == before.id && after.description == before.description
              && (after.status == before.status || StatusStep(before.status, after.status))
    ensures forall i :: |p.proposals| <= i < |Apply(p, a).proposals| ==>
              Apply(p, a).proposals[i].status == Proposed
  {
    match a
    case ClickApprove(id) =>
      var k :| 0 <= k < |p.proposals| && p.proposals[k].id == id && ShowsApproveReject(p.currentRole, p.proposals[k]);
      RenderedDecisionFollowsLifecycle(p, k, Approved);
    case ClickReject(id) =>
      var k :| 0 <= k < |p.proposals| && p.proposals[k].id == id && ShowsApproveReject(p.currentRole, p.proposals[k]);
      RenderedDecisionFollowsLifecycle(p, k, Rejected);
    case ClickExecute(id) =>
      var k :| 0 <= k < |p.proposals| && p.proposals[k].id == id && ShowsExecute(p.currentRole, p.proposals[k]);
      RenderedDecisionFollowsLifecycle(p, k, Executed);
    case _ =>
  }

  /** Every action in the sequence is on a rendered control when it is taken. */
  predicate Legal(p: Page, trace: seq<Action>)
    decreases |trace|
  {
    trace == [] || (Rendered(p, trace[0]) && Legal(Apply(p, trace[0]), trace[1..]))
  }

  /** The state after the actions of the sequence, in order. */
  function Run(p: Page, trace: seq<Action>): Page
    decreases |trace|
  {
    if trace == [] then p else Run(Apply(p, trace[0]), trace[1..])
  }

  /** Over any sequence of actions on rendered controls, the ids stay sequential,
      no entry disappears, and every entry's status only moves forward along the
      rendered transitions. */
  lemma {:induction false} LegalRunFollowsLifecycle(p: Page, trace: seq<Action>)
    requires IdsSequential(p.proposals) && Legal(p, trace)
    ensures IdsSequential(Run(p, trace).proposals)
    ensures |p.proposals| <= |Run(p, trace).proposals|
    ensures forall i :: 0 <= i < |p.proposals| ==>
              StatusReachable(p.proposals[i].status, Run(p, trace).proposals[i].status)
    decreases |trace|
  {
    if trace != [] {
      var q := Apply(p, trace[0]);
      RenderedStepFollowsLifecycle(p, trace[0]);
      LegalRunFollowsLifecycle(q, trace[1..]);
    }
  }

  /** Rejected and Executed are terminal under the rendered transitions. */
  lemma TerminalStatusesStay(p: Page, trace: seq<Action>, i: nat)
    requires IdsSequential(p.proposals) && Legal(p, trace)
    requires i < |p.proposals| && (p.proposals[i].status == Rejected || p.proposals[i].status == Executed)
    ensures i < |Run(p, trace).proposals|
    ensures Run(p, trace).proposals[i].status == p.proposals[i].status
  {
    LegalRunFollowsLifecycle(p, trace);
  }

  /** Under the rendered transitions no entry returns to Proposed. */
  lemma NoReturnToProposed(p: Page, trace: seq<Action>, i: nat)
    requires IdsSequential(p.proposals) && Legal(p, trace)
    requires i < |p.proposals| && p.proposals[i].status != Proposed
    ensures i < |Run(p, trace).proposals|
    ensures Run(p, trace).proposals[i].status != Proposed
  {
    LegalRunFollowsLifecycle(p, trace);
  }

  /** Every state the page reaches from its first render has sequential ids. */
  lemma ReachableIdsSequential(trace: seq<Action>)
    requires Legal(Initial, trace)
    ensures IdsSequential(Run(Initial, trace).proposals)
  {
    LegalRunFollowsLifecycle(Initial, trace);
  }

  /** The component, holding its three pieces of state; each handler replaces them
      through their setters. */
  class DAOGovernance {
    var currentRole: Role
    var proposals: seq<Proposal>
    var newProposal: string

    function State(): Page
      reads this
    {
      Page(currentRole, proposals, newProposal)
    }

    constructor ()
      ensures State() == Initial
    {
      currentRole := A;
      proposals := [];
      newProposal := "";
    }

    /** The role selector's `onValueChange`. */
    method SetCurrentRole(role: Role)
      modifies this
      ensures State() == Apply(old(State()), ChooseRole(role))
    {
      currentRole := role;
    }

    /** The input's `onChange`. */
    method SetNewProposal(text: string)
      modifies this
      ensures State() == Apply(old(State()), Edit(text))
    {
      newProposal := text;
    }

    method ProposeDecision()
      modifies this
      ensures State() == Propose(old(State()))
    {
      if currentRole == A && Trim(newProposal) != "" {
        var newId := |proposals| + 1;
        proposals := proposals + [Proposal(newId, newProposal, Proposed)];
        newProposal := "";
      }
    }

    method ApproveDecision(id: int)
      modifies this
      ensures State() == Approve(old(State()), id)
    {
      if currentRole == B {
        proposals := MapStatus(proposals, id, Approved);
      }
    }

    method ExecuteDecision(id: int)
      modifies this
      ensures State() == Execute(old(State()), id)
    {
      if currentRole == B {
        proposals := MapStatus(proposals, id, Executed);
      }
    }

    method RejectDecision(id: int)
      modifies this
      ensures State() == Reject(old(State()), id)
    {
      if currentRole == B {
        proposals := MapStatus(proposals, id, Rejected);
      }
    }
  }
}
