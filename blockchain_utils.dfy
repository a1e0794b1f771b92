/** `getRole` of utils/blockchainUtils.ts: the role an address holds in the DAO
    contract, found by a strict priority cascade over the contract's answers. The
    answers to the awaited contract reads are inputs here, one per read, in the order the
    function awaits them; a read that the cascade never reaches has no effect. */
module BlockchainUtils {
  import opened JsString
  import opened Await

  /** How each read made for the address settles: `admin()`, `seniors(address)`,
      `whales(address)` and `members(address)`. */
  datatype Answers = Answers(admin: Settled<string>, seniors: Settled<bool>, whales: Settled<bool>, members: Settled<bool>)

  /** Every string `getRole` can resolve to. */
  const RoleNames: set<string> := {"Admin", "Senior", "Whale", "Member", "Guest", "Unknown"}

  /** The message of the error thrown when no contract instance exists. */
  const NotInitialized: string := "Contract is not initialized"

  /** `admin && admin.toLowerCase() === address.toLowerCase()`: a non-empty admin
      address equal to the caller's up to ASCII case. */
  predicate IsAdmin(admin: string, address: string) {
    admin != "" && ToLowerCase(admin) == ToLowerCase(address)
  }

  /** The admin test is case-insensitive equality of the two addresses. */
  lemma IsAdminIgnoresCase(admin: string, address: string)
    ensures IsAdmin(admin, address) <==>
              admin != "" && |admin| == |address|
              && forall i :: 0 <= i < |admin| ==> LowerChar(admin[i]) == LowerChar(address[i])
  {
    LowerEqualIffSameIgnoringCase(admin, address);
  }

  /** The cascade awaits read k (0 admin, 1 seniors, 2 whales, 3 members): every
      earlier read settled without returning a role. */
  predicate Reaches(answers: Answers, address: string, k: nat) {
    || k == 0
    || (&& answers.admin.Fulfilled? && !IsAdmin(answers.admin.value, address)
        && (|| k == 1
            || (&& answers.seniors == Fulfilled(false)
                && (|| k == 2
                    || (answers.whales == Fulfilled(false) && k == 3)))))
  }

  /** Read k rejected. */
  predicate ReadFailed(answers: Answers, k: nat) {
    match k
    case 0 => answers.admin.Rejected?
    case 1 => answers.seniors.Rejected?
    case 2 => answers.whales.Rejected?
    case 3 => answers.members.Rejected?
    case _ => false
  }

  /** The cascade awaits read k and that read rejects. */
  predicate FailsAt(answers: Answers, address: string, k: nat) {
    Reaches(answers, address, k) && ReadFailed(answers, k)
  }

  /** The body inside `try`: Admin, then Senior, Whale and Member by priority, else
      Guest, and 'Unknown' from the `catch` when an awaited read rejects. Each name
      holds exactly when the cascade reaches its read and that read says so. */
  function Classify(answers: Answers, address: string): (r: string)
    ensures r in RoleNames
    ensures r == "Admin" <==> answers.admin.Fulfilled? && IsAdmin(answers.admin.value, address)
    ensures r == "Senior" <==> Reaches(answers, address, 1) && answers.seniors == Fulfilled(true)
    ensures r == "Whale" <==> Reaches(answers, address, 2) && answers.whales == Fulfilled(true)
    ensures r == "Member" <==> Reaches(answers, address, 3) && answers.members == Fulfilled(true)
    ensures r == "Guest" <==> Reaches(answers, address, 3) && answers.members == Fulfilled(false)
    ensures r == "Unknown" <==>
              || FailsAt(answers, address, 0) || FailsAt(answers, address, 1)
              || FailsAt(answers, address, 2) || FailsAt(answers, address, 3)
  {
    match answers.admin
    case Rejected(_) => "Unknown"
    case Fulfilled(admin) =>
      if IsAdmin(admin, address) then "Admin"
      else
        match answers.seniors
        case Rejected(_) => "Unknown"
        case Fulfilled(isSenior) =>
          if isSenior then "Senior"
          else
            match answers.whales
            case Rejected(_) => "Unknown"
            case Fulfilled(isWhale) =>
              if isWhale then "Whale"
              else
                match answers.members
                case Rejected(_) => "Unknown"
                case Fulfilled(isMember) =>
                  if isMember then "Member" else "Guest"
  }

  /** `getRole(address)`: rejects with 'Contract is not initialized' when there is
      no contract instance, and otherwise resolves to the classification. */
  function GetRole(initialised: bool, answers: Answers, address: string): (r: Settled<string>)
    ensures r.Rejected? <==> !initialised
    ensures r.Rejected? ==> r.reason == NotInitialized
    ensures r.Fulfilled? ==> r.value in RoleNames
    ensures initialised ==> r == Fulfilled(Classify(answers, address))
  {
    if !initialised then Rejected(NotInitialized) else Fulfilled(Classify(answers, address))
  }

  /** Precedence is strict: two sets of answers that agree on every read the cascade
      reaches give the same role, whatever the later reads would have said. */
  lemma OnlyReachedReadsMatter(a: Answers, b: Answers, address: string)
    requires a.admin == b.admin
    requires Reaches(a, address, 1) ==> a.seniors == b.seniors
    requires Reaches(a, address, 2) ==> a.whales == b.whales
    requires Reaches(a, address, 3) ==> a.members == b.members
    ensures Classify(a, address) == Classify(b, address)
  {
  }
}
