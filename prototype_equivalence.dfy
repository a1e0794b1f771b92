/** The three copies of the proposal lifecycle compared. The handler-only copy
    (app/seperatedpowers/pagepowers.tsx) behaves exactly as the two-role page
    (app/powersseperated/page.tsx) once their types are matched up; the tabbed
    page (app/seperatedpowers/page.tsx) agrees with the two-role page acting as
    role B when it updates a status, shows the same status labels, and differs
    from it when proposing. */
module PrototypeEquivalence {
  import opened JsString
  import PagePowers
  import PowersSeparated
  import SeparatedPowers

  // The handler-only copy against the two-role page

  function RoleOf(r: PagePowers.Roles): PowersSeparated.Role {
    match r
    case A => PowersSeparated.A
    case B => PowersSeparated.B
  }

  function StatusOf(s: PagePowers.ProposalStatus): PowersSeparated.ProposalStatus {
    match s
    case Rejected => PowersSeparated.Rejected
    case Approved => PowersSeparated.Approved
    case Executed => PowersSeparated.Executed
    case Proposed => PowersSeparated.Proposed
  }

  function ProposalOf(p: PagePowers.Proposal): PowersSeparated.Proposal {
    PowersSeparated.Proposal(p.id, p.description, StatusOf(p.status))
  }

  function ProposalsOf(ps: seq<PagePowers.Proposal>): (r: seq<PowersSeparated.Proposal>)
    ensures |r| == |ps| && forall i :: 0 <= i < |ps| ==> r[i] == ProposalOf(ps[i])
  {
    seq(|ps|, i requires 0 <= i < |ps| => ProposalOf(ps[i]))
  }

  function PageOf(p: PagePowers.Page): PowersSeparated.Page {
    PowersSeparated.Page(RoleOf(p.currentRole), ProposalsOf(p.proposals), p.newProposal)
  }

  /** The translation loses nothing: two states of the handler-only copy that
      translate alike are equal, so agreement below is not won by collapsing states. */
  lemma PageOfInjective(p: PagePowers.Page, q: PagePowers.Page)
    ensures PageOf(p) == PageOf(q) ==> p == q
  {
    if PageOf(p) == PageOf(q) {
      assert |p.proposals| == |ProposalsOf(p.proposals)| == |q.proposals|;
      forall i | 0 <= i < |p.proposals| ensures p.proposals[i] == q.proposals[i] {
        assert ProposalsOf(p.proposals)[i] == ProposalsOf(q.proposals)[i];
      }
    }
  }

  /** The two `map` expressions agree entry by entry. */
  lemma MapStatusAgrees(ps: seq<PagePowers.Proposal>, id: int, s: PagePowers.ProposalStatus)
    ensures ProposalsOf(PagePowers.MapStatus(ps, id, s))
         == PowersSeparated.MapStatus(ProposalsOf(ps), id, StatusOf(s))
  {
    var l, r := ProposalsOf(PagePowers.MapStatus(ps, id, s)), PowersSeparated.MapStatus(ProposalsOf(ps), id, StatusOf(s));
    assert forall i :: 0 <= i < |l| ==> l[i] == r[i];
  }

  /** The proposal invariant means the same on both sides. */
  lemma IdsSequentialAgrees(ps: seq<PagePowers.Proposal>)
    ensures PagePowers.IdsSequential(ps) <==> PowersSeparated.IdsSequential(ProposalsOf(ps))
  {
  }

  /** Appending translates entry by entry. */
  lemma ProposalsOfAppend(ps: seq<PagePowers.Proposal>, e: PagePowers.Proposal)
    ensures ProposalsOf(ps + [e]) == ProposalsOf(ps) + [ProposalOf(e)]
  {
    assert forall i :: 0 <= i < |ps| ==> (ps + [e])[i] == ps[i];
  }

  /** `proposeDecision` agrees, although the guard tests trim first and role second. */
  lemma ProposeAgrees(p: PagePowers.Page)
    ensures PageOf(PagePowers.Propose(p)) == PowersSeparated.Propose(PageOf(p))
  {
    if p.currentRole == PagePowers.A && !IsBlank(p.newProposal) {
      var ps := p.proposals;
      var e := PagePowers.Proposal(|ps| + 1, p.newProposal, PagePowers.Proposed);
      assert PagePowers.Propose(p) == PagePowers.Page(PagePowers.A, ps + [e], "");
      ProposalsOfAppend(ps, e);
      var q := PowersSeparated.Propose(PageOf(p));
      assert q.currentRole == PowersSeparated.A && q.newProposal == "";
      assert q.proposals == ProposalsOf(ps) + [ProposalOf(e)];
    } else {
      assert PagePowers.Propose(p) == p;
      assert PowersSeparated.Propose(PageOf(p)) == PageOf(p);
    }
  }

  /** `approveDecision`, `rejectDecision` and `executeDecision` agree for every state and id. */
  lemma DecisionHandlersAgree(p: PagePowers.Page, id: int)
    ensures PageOf(PagePowers.Approve(p, id)) == PowersSeparated.Approve(PageOf(p), id)
    ensures PageOf(PagePowers.Reject(p, id)) == PowersSeparated.Reject(PageOf(p), id)
    ensures PageOf(PagePowers.Execute(p, id)) == PowersSeparated.Execute(PageOf(p), id)
  {
    MapStatusAgrees(p.proposals, id, PagePowers.Approved);
    MapStatusAgrees(p.proposals, id, PagePowers.Rejected);
    MapStatusAgrees(p.proposals, id, PagePowers.Executed);
  }

  // The tabbed page against the two-role page

  function StatusOfDecision(s: SeparatedPowers.Status): PowersSeparated.ProposalStatus {
    match s
    case Proposed => PowersSeparated.Proposed
    case Approved => PowersSeparated.Approved
    case Rejected => PowersSeparated.Rejected
    case Executed => PowersSeparated.Executed
  }

  /** A decision seen as a proposal: its title dropped. */
  function ProposalOfDecision(d: SeparatedPowers.Decision): PowersSeparated.Proposal {
    PowersSeparated.Proposal(d.id, d.description, StatusOfDecision(d.status))
  }

  function ProposalsOfDecisions(ds: seq<SeparatedPowers.Decision>): (r: seq<PowersSeparated.Proposal>)
    ensures |r| == |ds| && forall i :: 0 <= i < |ds| ==> r[i] == ProposalOfDecision(ds[i])
  {
    seq(|ds|, i requires 0 <= i < |ds| => ProposalOfDecision(ds[i]))
  }

  /** `updateDecisionStatus(id, s)` does to the list what the two-role page's handler
      for s does under role B, for every list and id. */
  lemma UpdateAgreesWithRoleB(b: SeparatedPowers.Board, id: int, s: SeparatedPowers.Status, input: string)
    ensures ProposalsOfDecisions(SeparatedPowers.UpdateStatus(b, id, s).decisions)
         == PowersSeparated.Decide(PowersSeparated.Page(PowersSeparated.B, ProposalsOfDecisions(b.decisions), input),
                                   id, StatusOfDecision(s)).proposals
  {
    var l := ProposalsOfDecisions(SeparatedPowers.UpdateStatus(b, id, s).decisions);
    var r := PowersSeparated.MapStatus(ProposalsOfDecisions(b.decisions), id, StatusOfDecision(s));
    assert forall i :: 0 <= i < |l| ==> l[i] == r[i];
  }

  /** Both pages show the same text for a status: the tabbed page's capitalized
      badge label is the two-role page's status value. */
  lemma LabelsAgree(s: SeparatedPowers.Status)
    ensures SeparatedPowers.BadgeLabel(s) == PowersSeparated.StatusName(StatusOfDecision(s))
  {
    SeparatedPowers.BadgeLabelShown(s);
  }

  /** Proposing differs: the tabbed page accepts a description of spaces that the
      two-role page refuses, since only the latter trims. */
  lemma ProposeDiffersOnBlankText(ds: seq<SeparatedPowers.Decision>, title: string)
    requires title != ""
    ensures |SeparatedPowers.Propose(SeparatedPowers.Board(ds, SeparatedPowers.Draft(title, " "))).decisions| == |ds| + 1
    ensures forall page: PowersSeparated.Page :: page.newProposal == " " ==> PowersSeparated.Propose(page) == page
  {
    assert IsBlank(" ");
  }
}
