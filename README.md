# DAO governance front end: proposal lifecycle and role lookup

This project models the client-side logic of a DAO governance front end.

The first part is the proposal lifecycle, written three times as a React prototype:
- a two-role page: role A proposes, role B approves, rejects and executes;
- a tabbed page whose decisions have a title and a description;
- a handler-only copy of the two-role page.

Each page's state is a snapshot datatype of its `useState` values. Each handler is a
pure function on that snapshot. A class with the same fields has one method per
handler, each proved to leave the state that function gives. The buttons the page
renders are predicates. Any sequence of actions on rendered controls is proved to:
- keep the ids 1..n;
- never remove an entry;
- move a status only forward, from Proposed to Approved or Rejected, and from
  Approved to Executed.

The handlers themselves check only the role, or nothing at all, and the model shows
that too. A separate module proves that the handler-only copy behaves exactly like
the two-role page. It also proves where the tabbed page agrees with the two-role page
and where it differs. The handler-only copy never sets its role and sets its input
only to "", so from its first render no handler call changes its state; its
agreement with the two-role page is proved for every state all the same.

The second part is role lookup:
- `getRole`, in both of its copies, is the priority cascade Admin, Senior, Whale,
  Member, Guest, with 'Unknown' when a contract read throws.
- `fetchRoles` of the `useRoles` hook collects the held roles after the public role 4,
  and writes the hook's status, error and roles.

Contract reads are inputs. Each awaited read is a `Settled` value, either fulfilled
with a value or rejected with an error message. `hasRoleSince` is an oracle from a
role to such a value.

Modules:
- `JsString`: the JavaScript string operations the core uses: `trim`, `toLowerCase`,
  and the capitalising of a badge label.
- `Await`: `Settled` and `Option`.
- `PowersSeparated`, `SeparatedPowers`, `PagePowers`: the three prototypes.
- `PrototypeEquivalence`: compares the three prototypes.
- `BlockchainUtils`, `BlockchainUtils2`: the two copies of `getRole`.
- `UseRoles`: the `useRoles` hook.

## Model

| member | source | states |
|---|---|---|
| JsString.TrimStart | app/powersseperated/page.tsx:27 | The result is a suffix of the input; only whitespace or line terminators were removed; the result does not start with one |
| JsString.TrimEnd | app/powersseperated/page.tsx:27 | The result is a prefix of the input; only whitespace was removed; the result does not end with whitespace |
| JsString.Trim | app/powersseperated/page.tsx:27 | `trim` as `TrimStart` then `TrimEnd`, whose contracts state what each end loses; `TrimHasNoOuterWhiteSpace` and `TrimEmptyIffBlank` state what the result is |
| JsString.TrimHasNoOuterWhiteSpace | app/powersseperated/page.tsx:27 | A non-empty trimmed text neither starts nor ends with whitespace or a line terminator |
| JsString.TrimEmptyIffBlank | app/powersseperated/page.tsx:27 | `s.trim() !== ""` holds exactly when s has a character that is not whitespace or a line terminator |
| JsString.ToLowerCase | utils/blockchainUtils.ts:62 | Same length, each character lower-cased pointwise, no upper-case ASCII letter left |
| JsString.LowerEqualIffSameIgnoringCase | utils/blockchainUtils.ts:62 | Two strings lower-case to the same string exactly when they have the same length and agree character by character up to case |
| JsString.ToLowerCaseIdempotent | utils/blockchainUtils.ts:62 | Lower-casing twice is lower-casing once |
| JsString.Capitalize | app/seperatedpowers/page.tsx:127 | Same length; the first character is upper-cased and no longer a lower-case letter; the rest is unchanged |
| JsString.CapitalizeSameIgnoringCase | app/seperatedpowers/page.tsx:127 | Capitalizing changes the text only in case |
| PowersSeparated.MapStatus | app/powersseperated/page.tsx:37-39 | The `map` keeps length, order, ids and descriptions; it sets the new status exactly on the entries whose id matches |
| PowersSeparated.MapStatusTouchesOne | app/powersseperated/page.tsx:37-39 | With ids 1..n, a known id changes exactly that one entry |
| PowersSeparated.MapStatusUnknownId | app/powersseperated/page.tsx:37-39 | An id no entry carries leaves the list unchanged |
| PowersSeparated.Propose | app/powersseperated/page.tsx:26-32 | Role A with a non-blank input appends `{id: length + 1, the untrimmed text, Proposed}` and clears the input; role B or a blank input changes nothing; ids stay 1..n |
| PowersSeparated.Decide | app/powersseperated/page.tsx:34-62 | Approve, execute and reject keep the role, the input, the length and the ids; under role A they change nothing |
| PowersSeparated.DecideChangesOnlyMatch | app/powersseperated/page.tsx:35-40 | Under role B with ids 1..n, a known id changes only that entry's status; an unknown id changes nothing |
| PowersSeparated.Approve | app/powersseperated/page.tsx:34-42 | `Decide` with Approved: under role B the entry with the id becomes Approved and nothing else changes (`DecideChangesOnlyMatch`); under role A nothing changes |
| PowersSeparated.Execute | app/powersseperated/page.tsx:44-52 | `Decide` with Executed: under role B the entry with the id becomes Executed whatever its status (`DecideChangesOnlyMatch`, `ExecuteSkipsApproval`); under role A nothing changes |
| PowersSeparated.Reject | app/powersseperated/page.tsx:54-62 | `Decide` with Rejected: under role B the entry with the id becomes Rejected and nothing else changes (`DecideChangesOnlyMatch`); under role A nothing changes |
| PowersSeparated.ExecuteSkipsApproval | app/powersseperated/page.tsx:44-52 | The execute handler marks a Proposed entry Executed, although no Execute button is rendered for it |
| PowersSeparated.StatusColor | app/powersseperated/page.tsx:64-75 | The badge classes of each status; `StatusColorDistinct` states they are non-empty and pairwise distinct |
| PowersSeparated.StatusColorDistinct | app/powersseperated/page.tsx:64-75 | `getStatusColor` gives every status a non-empty class string, and no two statuses share one |
| PowersSeparated.ShowsProposeForm | app/powersseperated/page.tsx:123 | The input and the Propose button render exactly for role A |
| PowersSeparated.ShowsApproveReject | app/powersseperated/page.tsx:157 | An entry's Approve and Reject buttons render exactly for role B on a Proposed entry |
| PowersSeparated.ShowsExecute | app/powersseperated/page.tsx:167 | An entry's Execute button renders exactly for role B on an Approved entry |
| PowersSeparated.Rendered | app/powersseperated/page.tsx:103-171 | Which actions are on screen in a state; the lifecycle lemmas below hold for every action it admits |
| PowersSeparated.RenderedDecisionFollowsLifecycle | app/powersseperated/page.tsx:157-171 | A handler behind a rendered button of role B moves that entry by one rendered transition and changes nothing else |
| PowersSeparated.RenderedStepFollowsLifecycle | app/powersseperated/page.tsx:123-171 | One action on a rendered control keeps ids 1..n and all descriptions, removes no entry, adds entries only as Proposed, and moves each status by at most one rendered transition |
| PowersSeparated.LegalRunFollowsLifecycle | app/powersseperated/page.tsx:123-171 | Over any sequence of rendered actions, ids stay 1..n, no entry disappears, and every status only moves forward |
| PowersSeparated.TerminalStatusesStay | app/powersseperated/page.tsx:157-171 | Under rendered actions, Rejected and Executed entries keep their status |
| PowersSeparated.NoReturnToProposed | app/powersseperated/page.tsx:157-171 | Under rendered actions, an entry that has left Proposed never returns to it |
| PowersSeparated.ReachableIdsSequential | app/powersseperated/page.tsx:22-29 | Every state reachable from the first render has ids 1..n |
| PowersSeparated.DAOGovernance.constructor | app/powersseperated/page.tsx:22-24 | The first render: role A, no proposals, empty input |
| PowersSeparated.DAOGovernance.SetCurrentRole | app/powersseperated/page.tsx:103 | The role selector replaces only the role |
| PowersSeparated.DAOGovernance.SetNewProposal | app/powersseperated/page.tsx:128 | The input replaces only the input text |
| PowersSeparated.DAOGovernance.ProposeDecision | app/powersseperated/page.tsx:26-32 | The new state is `Propose` of the old one |
| PowersSeparated.DAOGovernance.ApproveDecision | app/powersseperated/page.tsx:34-42 | The new state is `Approve` of the old one |
| PowersSeparated.DAOGovernance.ExecuteDecision | app/powersseperated/page.tsx:44-52 | The new state is `Execute` of the old one |
| PowersSeparated.DAOGovernance.RejectDecision | app/powersseperated/page.tsx:54-62 | The new state is `Reject` of the old one |
| SeparatedPowers.MapStatus | app/seperatedpowers/page.tsx:37-39 | The `map` keeps length, order, ids, titles and descriptions; it sets the status exactly on the matching entries |
| SeparatedPowers.MapStatusTouchesOne | app/seperatedpowers/page.tsx:37-39 | With ids 1..n, a known id changes exactly that one entry |
| SeparatedPowers.MapStatusUnknownId | app/seperatedpowers/page.tsx:37-39 | An unknown id leaves the list unchanged |
| SeparatedPowers.Propose | app/seperatedpowers/page.tsx:25-34 | With both fields non-empty it appends `{id: length + 1, title, description, 'proposed'}` and resets both fields; with either empty it changes nothing; ids stay 1..n |
| SeparatedPowers.UpdateStatus | app/seperatedpowers/page.tsx:36-40 | The form is untouched; length and ids are kept |
| SeparatedPowers.UpdateChangesOnlyMatch | app/seperatedpowers/page.tsx:36-40 | With ids 1..n, a known id changes only that entry's status; an unknown id changes nothing |
| SeparatedPowers.UpdateIgnoresCurrentStatus | app/seperatedpowers/page.tsx:36-40 | Any status can be written to any entry, whatever its current status |
| SeparatedPowers.BadgeVariant | app/seperatedpowers/page.tsx:122-125 | The badge variant of each status; `BadgeVariantDistinct` states they are pairwise distinct and 'outline' is exactly 'executed' |
| SeparatedPowers.BadgeVariantDistinct | app/seperatedpowers/page.tsx:122-125 | Each status has its own badge variant, and 'outline' is exactly 'executed' |
| SeparatedPowers.BadgeLabel | app/seperatedpowers/page.tsx:127 | The label has the status's length and tail, and its first letter is the status's first letter upper-cased |
| SeparatedPowers.BadgeLabelShown | app/seperatedpowers/page.tsx:127 | The four labels read Proposed, Approved, Rejected and Executed |
| SeparatedPowers.TerminalStatusesHaveNoActions | app/seperatedpowers/page.tsx:129-143 | A 'rejected' or 'executed' entry shows no button |
| SeparatedPowers.ShowsApproveReject | app/seperatedpowers/page.tsx:129 | An entry's Approve and Reject buttons render exactly on a 'proposed' entry |
| SeparatedPowers.ShowsExecute | app/seperatedpowers/page.tsx:139 | An entry's Execute button renders exactly on an 'approved' entry |
| SeparatedPowers.RenderedUpdateFollowsLifecycle | app/seperatedpowers/page.tsx:129-143 | The update behind a rendered button moves that entry by one rendered transition and changes nothing else |
| SeparatedPowers.RenderedStepFollowsLifecycle | app/seperatedpowers/page.tsx:129-143 | One rendered action keeps ids, titles and descriptions, removes no entry, adds only 'proposed' entries, and moves each status by at most one rendered transition |
| SeparatedPowers.LegalRunFollowsLifecycle | app/seperatedpowers/page.tsx:129-143 | Over any sequence of rendered actions, ids stay 1..n, no entry disappears, and each status only moves forward |
| SeparatedPowers.TerminalStatusesStay | app/seperatedpowers/page.tsx:129-143 | 'rejected' and 'executed' entries keep their status under rendered actions |
| SeparatedPowers.NoReturnToProposed | app/seperatedpowers/page.tsx:129-143 | No entry returns to 'proposed' under rendered actions |
| SeparatedPowers.ReachableIdsSequential | app/seperatedpowers/page.tsx:22-31 | Every reachable state has ids 1..n |
| SeparatedPowers.DAOGovernance.constructor | app/seperatedpowers/page.tsx:22-23 | The first render: no decisions and an empty form |
| SeparatedPowers.DAOGovernance.SetTitle | app/seperatedpowers/page.tsx:76 | The title input replaces only the title |
| SeparatedPowers.DAOGovernance.SetDescription | app/seperatedpowers/page.tsx:86 | The description input replaces only the description |
| SeparatedPowers.DAOGovernance.ProposeDecision | app/seperatedpowers/page.tsx:25-34 | The new state is `Propose` of the old one |
| SeparatedPowers.DAOGovernance.UpdateDecisionStatus | app/seperatedpowers/page.tsx:36-40 | The new state is `UpdateStatus` of the old one |
| PagePowers.MapStatus | app/seperatedpowers/pagepowers.tsx:27 | The `map` keeps length, order, ids and descriptions; it sets the status exactly on the matching entries |
| PagePowers.Propose | app/seperatedpowers/pagepowers.tsx:17-23 | A non-blank input under role A appends `{id: length + 1, text, Proposed}` and clears the input; otherwise nothing changes; ids stay 1..n |
| PagePowers.Approve | app/seperatedpowers/pagepowers.tsx:25-29 | Under role B the entry with the id becomes Approved and nothing else changes (`HandlersChangeOnlyMatch`); under role A nothing changes (`HandlersIgnoredUnderA`) |
| PagePowers.Reject | app/seperatedpowers/pagepowers.tsx:31-35 | Under role B the entry with the id becomes Rejected and nothing else changes (`HandlersChangeOnlyMatch`); under role A nothing changes (`HandlersIgnoredUnderA`) |
| PagePowers.Execute | app/seperatedpowers/pagepowers.tsx:37-41 | Under role B the entry with the id becomes Executed and nothing else changes (`HandlersChangeOnlyMatch`); under role A nothing changes (`HandlersIgnoredUnderA`) |
| PagePowers.MapStatusMatchesOne | app/seperatedpowers/pagepowers.tsx:27 | With ids 1..n, the `map` rewrites exactly the entry at position id - 1, or nothing for an unknown id |
| PagePowers.HandlersIgnoredUnderA | app/seperatedpowers/pagepowers.tsx:25-41 | Under role A, approve, reject and execute change nothing |
| PagePowers.HandlersChangeOnlyMatch | app/seperatedpowers/pagepowers.tsx:25-41 | Under role B with ids 1..n, each handler sets the status of the one entry with that id and changes nothing else; an unknown id changes nothing |
| PagePowers.InitialStateIsOnlyReachable | app/seperatedpowers/pagepowers.tsx:13-41 | No code of the component sets the role or a non-empty input, so every sequence of handler calls from the first render leaves role A, no proposals and an empty input |
| PagePowers.DAOGovernance.constructor | app/seperatedpowers/pagepowers.tsx:13-15 | The initial state: role A, no proposals, empty input |
| PagePowers.DAOGovernance.ProposeDecision | app/seperatedpowers/pagepowers.tsx:17-23 | The new state is `Propose` of the old one |
| PagePowers.DAOGovernance.ApproveDecision | app/seperatedpowers/pagepowers.tsx:25-29 | The new state is `Approve` of the old one |
| PagePowers.DAOGovernance.RejectDecision | app/seperatedpowers/pagepowers.tsx:31-35 | The new state is `Reject` of the old one |
| PagePowers.DAOGovernance.ExecuteDecision | app/seperatedpowers/pagepowers.tsx:37-41 | The new state is `Execute` of the old one |
| PrototypeEquivalence.PageOfInjective | app/seperatedpowers/pagepowers.tsx:12-15 | The translation between the two copies' states loses nothing |
| PrototypeEquivalence.MapStatusAgrees | app/seperatedpowers/pagepowers.tsx:27 | The two copies' `map` expressions agree entry by entry |
| PrototypeEquivalence.IdsSequentialAgrees | app/seperatedpowers/pagepowers.tsx:19 | The id invariant means the same in both copies |
| PrototypeEquivalence.ProposeAgrees | app/seperatedpowers/pagepowers.tsx:17-23 | Propose gives the same result in both copies, whatever the order of the guard's conjuncts |
| PrototypeEquivalence.DecisionHandlersAgree | app/seperatedpowers/pagepowers.tsx:25-41 | Approve, reject and execute give the same results in both copies, for every state and id |
| PrototypeEquivalence.UpdateAgreesWithRoleB | app/seperatedpowers/page.tsx:36-40 | `updateDecisionStatus` rewrites the list as the two-role page's handler for that status does under role B |
| PrototypeEquivalence.LabelsAgree | app/seperatedpowers/page.tsx:127 | The tabbed page's badge label is the two-role page's status text |
| PrototypeEquivalence.ProposeDiffersOnBlankText | app/seperatedpowers/page.tsx:26 | A description of one space is accepted by the tabbed page and refused by the two-role page |
| BlockchainUtils.IsAdmin | utils/blockchainUtils.ts:62 | The admin test; `IsAdminIgnoresCase` states it holds exactly for a non-empty admin address equal to the caller's up to ASCII case |
| BlockchainUtils.IsAdminIgnoresCase | utils/blockchainUtils.ts:62 | The admin test holds exactly for a non-empty admin address equal to the caller's up to ASCII case |
| BlockchainUtils.Classify | utils/blockchainUtils.ts:58-85 | The result is one of the six names. Admin, Senior, Whale, Member and Guest each hold exactly when the cascade reaches that read and it answers accordingly. 'Unknown' holds exactly when a reached read rejects |
| BlockchainUtils.GetRole | utils/blockchainUtils.ts:53-86 | Rejects exactly when no contract exists, with 'Contract is not initialized'; otherwise resolves to `Classify` of the answers, one of the six names |
| BlockchainUtils.OnlyReachedReadsMatter | utils/blockchainUtils.ts:62-85 | Two sets of answers that agree on every read the cascade reaches give the same role |
| BlockchainUtils2.GetRole | blockChainUtils/blockchainUtils2.ts:17-52 | Always resolves, to `Classify` of the answers: one of the six names, and the same role as the other copy with an initialised contract |
| BlockchainUtils2.CopiesDifferOnlyWhenUninitialised | blockChainUtils/blockchainUtils2.ts:17-52 | The copies differ only when there is no contract: there the other copy rejects, while this one has no such case |
| UseRoles.Scan | hooks/useRoles.ts:36-39 | The loop's outcome: the held roles in the order asked, or the first query's rejection; the `Scan…` lemmas below state what it keeps and when it stops |
| UseRoles.ScanStopsAtRejection | hooks/useRoles.ts:36-39 | Once a query throws, no later role is asked and that error is the loop's outcome |
| UseRoles.ScanStep | hooks/useRoles.ts:36-39 | One more turn asks the next role, and its answer decides the outcome so far |
| UseRoles.ScanKeepsHeld | hooks/useRoles.ts:36-39 | When no query throws, the loop keeps exactly the held roles, ascending and each once |
| UseRoles.ScanFulfilledIffAllAnswer | hooks/useRoles.ts:36-39 | The loop completes exactly when every query answers |
| UseRoles.QueriedAllWhenAnswered | hooks/useRoles.ts:36-39 | When no query throws, every role is asked, in order |
| UseRoles.FirstRejectionDecides | hooks/useRoles.ts:36-39 | The first query that throws gives the outcome, and the roles asked end with it |
| UseRoles.Fetch | hooks/useRoles.ts:25-45 | The stored list, `[4]` and the held roles, or the first error thrown; `FetchedRoles` and `FetchFailsIffSomeStepThrows` state both outcomes |
| UseRoles.HeldRoles | hooks/useRoles.ts:32-39 | A completed loop keeps exactly the held roles among 0..3, ascending, at most four |
| UseRoles.FetchFailsIffSomeStepThrows | hooks/useRoles.ts:25-45 | `fetchRoles` fails exactly when set-up or one of the four queries throws; the error caught is the first thrown; on success all four roles were asked |
| UseRoles.FetchedRoles | hooks/useRoles.ts:32-40 | The stored list starts with 4 and holds role r in 0..3 exactly when `hasRoleSince` answers non-zero. It is ascending after the head, has no duplicates, and has 1 to 5 entries |
| UseRoles.AscendingBounded | hooks/useRoles.ts:32-39 | An ascending list of roles from 0..3 has at most four entries |
| UseRoles.Writes | hooks/useRoles.ts:24-46 | The order of the writes and queries of one call; `LoadingFirstSuccessLast` and `FailureKeepsRoles` state its shape, and `FetchRoles` is proved to perform exactly it |
| UseRoles.LoadingFirstSuccessLast | hooks/useRoles.ts:24-46 | "loading" is written before any query; the last write is "success" |
| UseRoles.FailureKeepsRoles | hooks/useRoles.ts:40-46 | After a caught error the roles are never written, and the "error" status is overwritten by "success" |
| UseRoles.RolesHook.constructor | hooks/useRoles.ts:14-16 | Status "idle", no error, no roles |
| UseRoles.RolesHook.SetStatus | hooks/useRoles.ts:14 | `setStatus` replaces only the status |
| UseRoles.RolesHook.SetError | hooks/useRoles.ts:15 | `setError` replaces only the error |
| UseRoles.RolesHook.SetRoles | hooks/useRoles.ts:16 | `setRoles` replaces only the role list |
| UseRoles.RolesHook.AskRoles | hooks/useRoles.ts:31-39 | The loop asks exactly the roles up to the first one that throws. Its outcome is `[4]` followed by the held roles, or that error |
| UseRoles.RolesHook.FetchRoles | hooks/useRoles.ts:18-48 | Writes status "loading", asks the roles, then stores the roles or stores status "error" and the error, and ends with status "success". The roles are replaced only on success, and the error only on failure |

## Left out

- The governance engine (propose, vote, complete, laws) is in an external smart contract. Only its interface is in the repository (context/abi.ts), so it is not part of this model.
- JSX, card and tab layout, framer-motion animation, icons (`getStatusIcon`) and CSS classes. Only `getStatusColor` and the badge variant and label are modelled as values, and the render conditions as predicates.
- The tabbed page's tab selection. Both tabs are treated as always reachable, so the form and the entry buttons are open to every action.
- Wallet, provider and transaction plumbing: `init`, `sendTransaction`, `joinAsMember` and the other transaction helpers. In `fetchRoles`, getting the provider, the signer and the contract is one `Settled<()>` input.
- `fetchRoles` assigns the module-level `contract` globally. That write is not modelled, and neither is the `if (contract)` test. The test always passes because the contract was just constructed.
- Console logging in `getRole` and `fetchRoles`.
- `getBalance` in both utility files: floating-point parsing of a formatted wei amount.
- JsString.ToLowerCase: maps only ASCII letters. JavaScript's `toLowerCase` also maps non-ASCII letters. Hex addresses are ASCII.
- JsString.Capitalize: upper-cases only ASCII letters. The badge statuses are ASCII.
- UseRoles.RolesHook.FetchRoles: each `hasRoleSince` answer, a `uint48` timestamp, is its integer value, and `response != 0` is integer inequality. The type the contract library decodes the answer into is not part of this model.
- React batching and async scheduling. The setters of one call are applied in the order of the statements. Each setter's `useState` update is an immediate field write, and calls do not interleave.
- The UI wrapper components (admin, senior, whale and member actions, joining, wallet connection, role-based UI), the home page, the theme files and the build scripts.
