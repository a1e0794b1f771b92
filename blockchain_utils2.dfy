/** `getRole` of blockChainUtils/blockchainUtils2.ts: the same cascade written
    against a web3 contract instance created when the module loads, so there is
    no uninitialised-contract case. */
module BlockchainUtils2 {
  import opened JsString
  import opened Await
  import BlockchainUtils

  /** `getRole(address)`: always resolves, to the same role as the other copy
      gives when its contract is initialised. */
  function GetRole(answers: BlockchainUtils.Answers, address: string): (r: string)
    ensures r in BlockchainUtils.RoleNames
    ensures r == BlockchainUtils.Classify(answers, address)
    ensures BlockchainUtils.GetRole(true, answers, address) == Fulfilled(r)
  {
    match answers.admin
    case Rejected(_) => "Unknown"
    case Fulfilled(admin) =>
      if admin != "" && ToLowerCase(admin) == ToLowerCase(address) then "Admin"
      else
        match answers.seniors
        case Rejected(_) => "Unknown"
        case Fulfilled(isSenior) =>
          if isSenior then "Senior"
          else
            match answers.whales
            case Rejected(_) => "Unknown"
            case Fulfilled(isWhale) =>
              if isWhale then "Whale"
              else
                match answers.members
                case Rejected(_) => "Unknown"
                case Fulfilled(isMember) =>
                  if isMember then "Member" else "Guest"
  }

  /** Only the missing initialisation check tells the two copies apart: without a
      contract instance the other copy rejects where this one still resolves. */
  lemma CopiesDifferOnlyWhenUninitialised(answers: BlockchainUtils.Answers, address: string)
    ensures BlockchainUtils.GetRole(false, answers, address).Rejected?
    ensures BlockchainUtils.GetRole(true, answers, address).Fulfilled?
    ensures BlockchainUtils.GetRole(true, answers, address).value == GetRole(answers, address)
  {
  }
}
