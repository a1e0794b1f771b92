/** `fetchRoles` of the `useRoles` hook (hooks/useRoles.ts): it marks the hook as
    loading, asks the contract's `hasRoleSince` about roles 0 to 3 for the wallet,
    collects the held ones after the public role 4, stores the list, and finally
    marks the hook as successful, also after an error was caught. The wallet's
    provider and the contract reads are inputs: how setting up the signer and the
    contract settles, and an oracle for `hasRoleSince(wallet.address, role)`. */
module UseRoles {
  import opened Await

  /** The hook's status values. */
  datatype Status = Idle | Loading | Success | Error

  /** The roles `fetchRoles` asks about, in order. */
  const AllRoles: seq<int> := [0, 1, 2, 3]

  /** The public role every address holds, at the head of every list. */
  const PublicRole: int := 4

  /** What one call does to the hook, in order: a setter runs or a role is asked about. */
  datatype Event =
    | StatusSet(status: Status)
    | ErrorSet(reason: string)
    | RolesSet(roles: seq<int>)
    | Asked(role: int)

  /** The role holds when `hasRoleSince` answers with a non-zero timestamp. */
  predicate Holds(since: int -> Settled<int>, role: int) {
    since(role).Fulfilled? && since(role).value != 0
  }

  /** The loop over `rs`, from the front: the held roles in the order asked, or the
      rejection of the first query that throws, which ends the loop. */
  function Scan(rs: seq<int>, since: int -> Settled<int>): Settled<seq<int>>
    decreases |rs|
  {
    if rs == [] then Fulfilled([])
    else
      match Scan(rs[..|rs| - 1], since)
      case Rejected(e) => Rejected(e)
      case Fulfilled(held) =>
        var role := rs[|rs| - 1];
        match since(role)
        case Rejected(e) => Rejected(e)
        case Fulfilled(v) => Fulfilled(if v != 0 then held + [role] else held)
  }

  /** The roles actually asked about: those of `rs` up to and including the first
      whose query throws. */
  function Queried(rs: seq<int>, since: int -> Settled<int>): seq<int>
    decreases |rs|
  {
    if rs == [] then []
    else if Scan(rs[..|rs| - 1], since).Rejected? then Queried(rs[..|rs| - 1], since)
    else Queried(rs[..|rs| - 1], since) + [rs[|rs| - 1]]
  }

  /** The role list `fetchRoles` stores, or the error it catches. */
  function Fetch(setup: Settled<()>, since: int -> Settled<int>): Settled<seq<int>> {
    match setup
    case Rejected(e) => Rejected(e)
    case Fulfilled(_) =>
      match Scan(AllRoles, since)
      case Rejected(e) => Rejected(e)
      case Fulfilled(held) => Fulfilled([PublicRole] + held)
  }

  /** One `Asked` event per role, in order. */
  function AskedEvents(rs: seq<int>): seq<Event> {
    seq(|rs|, i requires 0 <= i < |rs| => Asked(rs[i]))
  }

  /** Everything one call writes or asks, in order: "loading", the queries, then the
      role list, or "error" and the error, and last "success". */
  function Writes(setup: Settled<()>, since: int -> Settled<int>): seq<Event> {
    [StatusSet(Loading)]
    + (if setup.Fulfilled? then AskedEvents(Queried(AllRoles, since)) else [])
    + (match Fetch(setup, since)
       case Fulfilled(rs) => [RolesSet(rs)]
       case Rejected(e) => [StatusSet(Error), ErrorSet(e)])
    + [StatusSet(Success)]
  }

  /** Once a query in the first k roles throws, the rest are never asked and the
      loop's outcome is that rejection. */
  lemma {:induction false} ScanStopsAtRejection(rs: seq<int>, since: int -> Settled<int>, k: nat)
    requires k <= |rs| && Scan(rs[..k], since).Rejected?
    ensures Scan(rs, since) == Scan(rs[..k], since)
    ensures Queried(rs, since) == Queried(rs[..k], since)
    decreases |rs|
  {
    if k < |rs| {
      var front := rs[..|rs| - 1];
      assert front[..k] == rs[..k];
      ScanStopsAtRejection(front, since, k);
    } else {
      assert rs[..k] == rs;
    }
  }

  /** The first k + 1 elements are the first k and the next one. */
  lemma PrefixGrows(rs: seq<int>, k: nat)
    requires k < |rs|
    ensures rs[..k] + [rs[k]] == rs[..k + 1]
    ensures rs[..k + 1][..k] == rs[..k]
  {
  }

  /** One more turn of the loop after the first i roles answered: role i is asked,
      and its answer decides the outcome of the first i + 1. */
  lemma ScanStep(rs: seq<int>, since: int -> Settled<int>, i: nat)
    requires i < |rs| && Scan(rs[..i], since).Fulfilled?
    ensures Queried(rs[..i + 1], since) == Queried(rs[..i], since) + [rs[i]]
    ensures AskedEvents(Queried(rs[..i + 1], since)) == AskedEvents(Queried(rs[..i], since)) + [Asked(rs[i])]
    ensures Scan(rs[..i + 1], since) == match since(rs[i])
                                       case Rejected(e) => Rejected(e)
                                       case Fulfilled(v) =>
                                         Fulfilled(if v != 0 then Scan(rs[..i], since).value + [rs[i]]
                                                   else Scan(rs[..i], since).value)
  {
    PrefixGrows(rs, i);
  }

  /** When every query answers, the loop keeps exactly the held roles of `rs`, each
      at most once and in the order of `rs`; a held role is one of `rs`. */
  lemma {:induction false} ScanKeepsHeld(rs: seq<int>, since: int -> Settled<int>)
    requires forall i, j :: 0 <= i < j < |rs| ==> rs[i] < rs[j]
    requires Scan(rs, since).Fulfilled?
    ensures var held := Scan(rs, since).value;
      && (forall r :: r in held <==> r in rs && Holds(since, r))
      && (forall i, j :: 0 <= i < j < |held| ==> held[i] < held[j])
    decreases |rs|
  {
    if rs != [] {
      var front, role := rs[..|rs| - 1], rs[|rs| - 1];
      ScanKeepsHeld(front, since);
      var before := Scan(front, since).value;
      assert forall r :: r in front ==> r < role;
      assert forall r :: r in rs <==> r in front || r == role;
      if Holds(since, role) {
        var held := before + [role];
        assert Scan(rs, since).value == held;
        forall i, j | 0 <= i < j < |held| ensures held[i] < held[j] {
          if j == |held| - 1 {
            assert held[i] in before;
          }
        }
      }
    }
  }

  /** Every query of the loop answers exactly when none throws. */
  lemma {:induction false} ScanFulfilledIffAllAnswer(rs: seq<int>, since: int -> Settled<int>)
    ensures Scan(rs, since).Fulfilled? <==> forall i :: 0 <= i < |rs| ==> since(rs[i]).Fulfilled?
    decreases |rs|
  {
    if rs != [] {
      var front := rs[..|rs| - 1];
      ScanFulfilledIffAllAnswer(front, since);
      assert forall i :: 0 <= i < |front| ==> front[i] == rs[i];
    }
  }

  /** When no query throws, every role of `rs` is asked, in order. */
  lemma {:induction false} QueriedAllWhenAnswered(rs: seq<int>, since: int -> Settled<int>)
    requires Scan(rs, since).Fulfilled?
    ensures Queried(rs, since) == rs
    decreases |rs|
  {
    if rs != [] {
      var front := rs[..|rs| - 1];
      QueriedAllWhenAnswered(front, since);
      assert front + [rs[|rs| - 1]] == rs;
    }
  }

  /** The first query that throws ends the loop: its error is the outcome, and the
      roles asked are those before it and itself. */
  lemma FirstRejectionDecides(rs: seq<int>, since: int -> Settled<int>, k: nat)
    requires k < |rs| && since(rs[k]).Rejected?
    requires forall j :: 0 <= j < k ==> since(rs[j]).Fulfilled?
    ensures Scan(rs, since) == Rejected(since(rs[k]).reason)
    ensures Queried(rs, since) == rs[..k + 1]
  {
    var front := rs[..k];
    assert Scan(front, since).Fulfilled? && Queried(front, since) == front by {
      ScanFulfilledIffAllAnswer(front, since);
      QueriedAllWhenAnswered(front, since);
    }
    assert Scan(rs[..k + 1], since) == Rejected(since(rs[k]).reason) && Queried(rs[..k + 1], since) == rs[..k + 1] by {
      ScanStep(rs, since, k);
      PrefixGrows(rs, k);
    }
    ScanStopsAtRejection(rs, since, k + 1);
  }

  /** `fetchRoles` fails exactly when setting up throws or one of the four queries
      throws; the error caught is the set-up's, or else the first throwing query's,
      after which no role is asked. When it succeeds all four roles were asked. */
  lemma FetchFailsIffSomeStepThrows(setup: Settled<()>, since: int -> Settled<int>)
    ensures Fetch(setup, since).Rejected? <==>
              setup.Rejected? || exists k :: 0 <= k < 4 && since(k).Rejected?
    ensures setup.Rejected? ==> Fetch(setup, since) == Rejected(setup.reason)
    ensures setup.Fulfilled? ==>
              forall k :: 0 <= k < 4 && since(k).Rejected? && (forall j :: 0 <= j < k ==> since(j).Fulfilled?) ==>
                Fetch(setup, since) == Rejected(since(k).reason) && Queried(AllRoles, since) == AllRoles[..k + 1]
    ensures Fetch(setup, since).Fulfilled? ==> Queried(AllRoles, since) == AllRoles
  {
    ScanFulfilledIffAllAnswer(AllRoles, since);
    assert forall k :: 0 <= k < 4 ==> AllRoles[k] == k;
    if setup.Fulfilled? {
      forall k | 0 <= k < 4 && since(k).Rejected? && (forall j :: 0 <= j < k ==> since(j).Fulfilled?)
        ensures Fetch(setup, since) == Rejected(since(k).reason) && Queried(AllRoles, since) == AllRoles[..k + 1]
      {
        FirstRejectionDecides(AllRoles, since, k);
      }
      if Scan(AllRoles, since).Fulfilled? {
        QueriedAllWhenAnswered(AllRoles, since);
      }
    }
  }

  /** When the loop completes, it keeps exactly the held roles among 0..3, ascending,
      at most four of them. */
  lemma HeldRoles(since: int -> Settled<int>)
    requires Scan(AllRoles, since).Fulfilled?
    ensures var held := Scan(AllRoles, since).value;
      && (forall r :: r in held <==> 0 <= r < 4 && Holds(since, r))
      && (forall i, j :: 0 <= i < j < |held| ==> held[i] < held[j])
      && |held| <= 4
  {
    ScanKeepsHeld(AllRoles, since);
    var held := Scan(AllRoles, since).value;
    assert forall r :: r in AllRoles <==> 0 <= r < 4;
    assert forall i :: 0 <= i < |held| ==> held[i] in held;
    AscendingBounded(held, 0, 3);
  }

  /** The stored list starts with the public role 4, lists role r in 0..3 exactly when
      `hasRoleSince` answers it non-zero, is ascending after the head, has no
      duplicates and has between 1 and 5 entries. */
  lemma FetchedRoles(setup: Settled<()>, since: int -> Settled<int>)
    requires Fetch(setup, since).Fulfilled?
    ensures var roles := Fetch(setup, since).value;
      && |roles| >= 1 && roles[0] == PublicRole
      && (forall r :: 0 <= r < 4 ==> (r in roles <==> Holds(since, r)))
      && (forall r :: r in roles ==> 0 <= r <= 4)
      && (forall i, j :: 1 <= i < j < |roles| ==> roles[i] < roles[j])
      && (forall i, j :: 0 <= i < j < |roles| ==> roles[i] != roles[j])
      && |roles| <= 5
  {
    var held := Scan(AllRoles, since).value;
    var roles := [PublicRole] + held;
    assert Fetch(setup, since).value == roles;
    HeldRoles(since);
    assert forall r :: r in roles <==> r == PublicRole || r in held;
    assert forall i :: 1 <= i < |roles| ==> roles[i] == held[i - 1];
    assert forall i :: 1 <= i < |roles| ==> roles[i] in held;
  }

  /** An ascending list of integers between lo and hi has at most hi - lo + 1 entries. */
  lemma {:induction false} AscendingBounded(s: seq<int>, lo: int, hi: int)
    requires forall i, j :: 0 <= i < j < |s| ==> s[i] < s[j]
    requires forall i :: 0 <= i < |s| ==> lo <= s[i] <= hi
    ensures |s| <= if hi < lo then 0 else hi - lo + 1
    decreases |s|
  {
    if s != [] {
      assert forall i :: 0 <= i < |s[1..]| ==> s[1..][i] == s[i + 1];
      assert forall i :: 1 <= i < |s| ==> s[0] < s[i];
      AscendingBounded(s[1..], lo + 1, hi);
    }
  }

  /** The roles are asked about, when they are, only after "loading" is written,
      and the last write is always "success". */
  lemma LoadingFirstSuccessLast(setup: Settled<()>, since: int -> Settled<int>)
    ensures var w := Writes(setup, since);
      && w[0] == StatusSet(Loading)
      && (forall i :: 0 <= i < |w| && w[i].Asked? ==> 0 < i)
      && w[|w| - 1] == StatusSet(Success)
  {
  }

  /** When a step throws, the caught error's status "error" is written and then
      overwritten by "success", and the role list is never written. */
  lemma FailureKeepsRoles(setup: Settled<()>, since: int -> Settled<int>)
    requires Fetch(setup, since).Rejected?
    ensures var w := Writes(setup, since);
      && StatusSet(Error) in w && w[|w| - 1] == StatusSet(Success)
      && ErrorSet(Fetch(setup, since).reason) in w
      && forall i :: 0 <= i < |w| ==> !w[i].RolesSet?
  {
    var w := Writes(setup, since);
    var asked := if setup.Fulfilled? then AskedEvents(Queried(AllRoles, since)) else [];
    assert w == [StatusSet(Loading)] + asked + [StatusSet(Error), ErrorSet(Fetch(setup, since).reason)] + [StatusSet(Success)];
    assert w[|w| - 2] == ErrorSet(Fetch(setup, since).reason);
    assert w[|w| - 3] == StatusSet(Error);
  }

  lemma AppendAssoc(a: seq<Event>, b: seq<Event>, c: seq<Event>, d: seq<Event>, e: seq<Event>)
    ensures a + b + c + d + e == a + (b + c + d + e)
  {
  }

  /** The hook's state. `log` records, for the proofs only, every setter call and
      every query in order. */
  class RolesHook {
    var status: Status
    var error: Option<string>
    var roles: seq<int>
    ghost var log: seq<Event>

    constructor ()
      ensures status == Idle && error == None && roles == [] && log == []
    {
      status := Idle;
      error := None;
      roles := [];
      log := [];
    }

    /** `setStatus` */
    method SetStatus(s: Status)
      modifies this`status, this`log
      ensures status == s && log == old(log) + [StatusSet(s)]
    {
      status := s;
      log := log + [StatusSet(s)];
    }

    /** `setError` */
    method SetError(reason: string)
      modifies this`error, this`log
      ensures error == Some(reason) && log == old(log) + [ErrorSet(reason)]
    {
      error := Some(reason);
      log := log + [ErrorSet(reason)];
    }

    /** `setRoles` */
    method SetRoles(rs: seq<int>)
      modifies this`roles, this`log
      ensures roles == rs && log == old(log) + [RolesSet(rs)]
    {
      roles := rs;
      log := log + [RolesSet(rs)];
    }

    /** The `for await` loop of `fetchRoles`: asks about each role in turn, keeps
        those answered with a non-zero timestamp after the public role, and stops
        at the first query that throws. */
    method AskRoles(hasRoleSince: int -> Settled<int>) returns (outcome: Settled<seq<int>>)
      modifies this`log
      ensures outcome == Fetch(Fulfilled(()), hasRoleSince)
      ensures log == old(log) + AskedEvents(Queried(AllRoles, hasRoleSince))
    {
      var hasRoles := [PublicRole];
      var i := 0;
      ghost var held: seq<int> := [];
      ghost var asked: seq<int> := [];
      assert AllRoles[..0] == [];
      while i < |AllRoles|
        invariant 0 <= i <= |AllRoles|
        invariant hasRoles == [PublicRole] + held
        invariant Scan(AllRoles[..i], hasRoleSince) == Fulfilled(held)
        invariant asked == Queried(AllRoles[..i], hasRoleSince)
        invariant log == old(log) + AskedEvents(asked)
      {
        var role := AllRoles[i];
        var response := hasRoleSince(role);
        ScanStep(AllRoles, hasRoleSince, i);
        asked := asked + [role];
        log := log + [Asked(role)];
        if response.Rejected? {
          ScanStopsAtRejection(AllRoles, hasRoleSince, i + 1);
          return Rejected(response.reason);
        }
        if response.value != 0 {
          held := held + [role];
          hasRoles := hasRoles + [role];
        }
        i := i + 1;
      }
      assert AllRoles[..i] == AllRoles;
      return Fulfilled(hasRoles);
    }

    /** `fetchRoles(wallet)`, with `setup` standing for the provider, signer and
        contract set-up and `hasRoleSince` for the contract's answers about the wallet. */
    method FetchRoles(setup: Settled<()>, hasRoleSince: int -> Settled<int>)
      modifies this
      ensures log == old(log) + Writes(setup, hasRoleSince)
      ensures status == Success
      ensures roles == match Fetch(setup, hasRoleSince)
                       case Fulfilled(rs) => rs
                       case Rejected(_) => old(roles)
      ensures error == match Fetch(setup, hasRoleSince)
                       case Fulfilled(_) => old(error)
                       case Rejected(e) => Some(e)
    {
      ghost var fetched := Fetch(setup, hasRoleSince);
      ghost var asked := if setup.Fulfilled? then AskedEvents(Queried(AllRoles, hasRoleSince)) else [];
      ghost var tail := match fetched
                        case Fulfilled(rs) => [RolesSet(rs)]
                        case Rejected(e) => [StatusSet(Error), ErrorSet(e)];
      assert Writes(setup, hasRoleSince) == [StatusSet(Loading)] + asked + tail + [StatusSet(Success)];
      ghost var start := log;
      SetStatus(Loading);
      var outcome: Settled<seq<int>>;
      match setup {
        case Rejected(e) =>
          outcome := Rejected(e);
        case Fulfilled(_) =>
          outcome := AskRoles(hasRoleSince);
      }
      assert outcome == fetched;
      assert log == start + [StatusSet(Loading)] + asked;
      match outcome {
        case Fulfilled(rs) =>
          SetRoles(rs);
        case Rejected(e) =>
          SetStatus(Error);
          SetError(e);
      }
      assert log == start + [StatusSet(Loading)] + asked + tail;
      SetStatus(Success);
      AppendAssoc(start, [StatusSet(Loading)], asked, tail, [StatusSet(Success)]);
    }
  }
}
