/** The handler-only copy of the two-role page (app/seperatedpowers/pagepowers.tsx).
    It declares the same state and the four handlers, writing the propose guard
    with its two conjuncts in the other order, and renders nothing. */
module PagePowers {
  import opened JsString

  datatype Roles = A | B

  datatype ProposalStatus = Rejected | Approved | Executed | Proposed

  datatype Proposal = Proposal(id: int, description: string, status: ProposalStatus)

  /** The component's state: `currentRole`, `proposals` and `newProposal`. */
  datatype Page = Page(currentRole: Roles, proposals: seq<Proposal>, newProposal: string)

  /** Entry i carries id i + 1. */
  predicate IdsSequential(ps: seq<Proposal>) {
    forall i :: 0 <= i < |ps| ==> ps[i].id == i + 1
  }

  /** `proposals.map(p => p.id === id ? { ...p, status } : p)` */
  function MapStatus(ps: seq<Proposal>, id: int, status: ProposalStatus): (r: seq<Proposal>)
    ensures |r| == |ps|
    ensures forall i :: 0 <= i < |ps| ==> r[i].id == ps[i].id && r[i].description == ps[i].description
    ensures forall i :: 0 <= i < |ps| ==> r[i].status == if ps[i].id == id then status else ps[i].status
  {
    if ps == [] then []
    else [if ps[0].id == id then ps[0].(status := status) else ps[0]] + MapStatus(ps[1..], id, status)
  }

  /** `proposeDecision`: for a non-blank input and role A, append
      `{ id: length + 1, description, status: "Proposed" }` and clear the input;
      otherwise nothing changes. */
  function Propose(p: Page): (q: Page)
    ensures !IsBlank(p.newProposal) && p.currentRole == A ==>
              q == Page(A, p.proposals + [Proposal(|p.proposals| + 1, p.newProposal, Proposed)], "")
    ensures IsBlank(p.newProposal) || p.currentRole == B ==> q == p
    ensures IdsSequential(p.proposals) ==> IdsSequential(q.proposals)
  {
    TrimEmptyIffBlank(p.newProposal);
    if Trim(p.newProposal) != "" && p.currentRole == A then
      p.(proposals := p.proposals + [Proposal(|p.proposals| + 1, p.newProposal, Proposed)], newProposal := "")
    else
      p
  }

  /** `approveDecision(id)`: under role B the entries with the id become Approved,
      under role A nothing changes. */
  function Approve(p: Page, id: int): Page
  {
    if p.currentRole == B then p.(proposals := MapStatus(p.proposals, id, Approved)) else p
  }

  /** `rejectDecision(id)`: under role B the entries with the id become Rejected,
      under role A nothing changes. */
  function Reject(p: Page, id: int): Page
  {
    if p.currentRole == B then p.(proposals := MapStatus(p.proposals, id, Rejected)) else p
  }

  /** `executeDecision(id)`: under role B the entries with the id become Executed,
      under role A nothing changes. */
  function Execute(p: Page, id: int): Page
  {
    if p.currentRole == B then p.(proposals := MapStatus(p.proposals, id, Executed)) else p
  }

  /** Under role A the three handlers change nothing. */
  lemma HandlersIgnoredUnderA(p: Page, id: int)
    requires p.currentRole == A
    ensures Approve(p, id) == p && Reject(p, id) == p && Execute(p, id) == p
  {
  }

  /** With sequential ids, the `map` rewrites exactly the entry at position id - 1,
      or nothing when no entry carries the id. */
  lemma MapStatusMatchesOne(ps: seq<Proposal>, id: int, status: ProposalStatus)
    requires IdsSequential(ps)
    ensures MapStatus(ps, id, status)
              == if 1 <= id <= |ps| then ps[id - 1 := ps[id - 1].(status := status)] else ps
  {
    var r := MapStatus(ps, id, status);
    var e := if 1 <= id <= |ps| then ps[id - 1 := ps[id - 1].(status := status)] else ps;
    assert forall i :: 0 <= i < |ps| ==> r[i] == e[i];
  }

  /** Under role B with sequential ids, each of the three handlers sets the status
      of the one entry with that id and changes nothing else, and changes nothing
      at all for an unknown id. */
  lemma HandlersChangeOnlyMatch(p: Page, id: int)
    requires p.currentRole == B && IdsSequential(p.proposals)
    ensures 1 <= id <= |p.proposals| ==>
              var ps, k := p.proposals, id - 1;
              && Approve(p, id) == p.(proposals := ps[k := ps[k].(status := Approved)])
              && Reject(p, id) == p.(proposals := ps[k := ps[k].(status := Rejected)])
              && Execute(p, id) == p.(proposals := ps[k := ps[k].(status := Executed)])
    ensures !(1 <= id <= |p.proposals|) ==>
              Approve(p, id) == p && Reject(p, id) == p && Execute(p, id) == p
  {
    MapStatusMatchesOne(p.proposals, id, Approved);
    MapStatusMatchesOne(p.proposals, id, Rejected);
    MapStatusMatchesOne(p.proposals, id, Executed);
  }

  /** The state of the first render. */
  function Initial(): Page {
    Page(A, [], "")
  }

  /** A call of one of the four handlers, the only code in the component that
      changes its state. */
  datatype Call = CallPropose | CallApprove(id: int) | CallReject(id: int) | CallExecute(id: int)

  function Apply(p: Page, c: Call): Page {
    match c
    case CallPropose => Propose(p)
    case CallApprove(id) => Approve(p, id)
    case CallReject(id) => Reject(p, id)
    case CallExecute(id) => Execute(p, id)
  }

  /** The handler calls, one after another. */
  function Run(p: Page, cs: seq<Call>): Page
    decreases |cs|
  {
    if cs == [] then p else Run(Apply(p, cs[0]), cs[1..])
  }

  /** The component never calls `setCurrentRole` and sets `newProposal` only to "",
      so from the first render every sequence of handler calls leaves the state as
      it was: role A, no proposals, an empty input. */
  lemma {:induction false} InitialStateIsOnlyReachable(cs: seq<Call>)
    ensures Run(Initial(), cs) == Initial()
    decreases |cs|
  {
    if cs != [] {
      assert IsBlank(Initial().newProposal);
      assert Apply(Initial(), cs[0]) == Initial();
      InitialStateIsOnlyReachable(cs[1..]);
    }
  }

  /** The component and its three handlers' setters. */
  class DAOGovernance {
    var currentRole: Roles
    var proposals: seq<Proposal>
    var newProposal: string

    function State(): Page
      reads this
    {
      Page(currentRole, proposals, newProposal)
    }

    constructor ()
      ensures State() == Initial()
    {
      currentRole := A;
      proposals := [];
      newProposal := "";
    }

    method ProposeDecision()
      modifies this
      ensures State() == Propose(old(State()))
    {
      if Trim(newProposal) != "" && currentRole == A {
        proposals := proposals + [Proposal(|proposals| + 1, newProposal, Proposed)];
        newProposal := "";
      }
    }

    method ApproveDecision(id: int)
      modifies this
      ensures State() == Approve(old(State()), id)
    {
      if currentRole == B {
        proposals := MapStatus(proposals, id, Approved);
      }
    }

    method RejectDecision(id: int)
      modifies this
      ensures State() == Reject(old(State()), id)
    {
      if currentRole == B {
        proposals := MapStatus(proposals, id, Rejected);
      }
    }

    method ExecuteDecision(id: int)
      modifies this
      ensures State() == Execute(old(State()), id)
    {
      if currentRole == B {
        proposals := MapStatus(proposals, id, Executed);
      }
    }
  }
}
