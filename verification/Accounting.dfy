/**
  Whole-run accounting: every id and every piece of evidence is spent once, and crossing grants obey
  a ledger that can be recomputed from the history of accepted commands alone.
*/
module Accounting {
  import opened Types
  import opened Spec
  import opened Invariants

  datatype Entry = Entry(command: CommandK, action: Action)

  /** The accepted commands of a run with their actions, oldest first. */
  ghost function History(bg: Background, cmds: seq<CommandK>): seq<Entry> {
    if cmds == [] then []
    else
      var last := |cmds| - 1;
      var r := Step(Run(bg, cmds[..last]), bg, cmds[last]);
      History(bg, cmds[..last]) + (if r.Accepted? then [Entry(cmds[last], r.action)] else [])
  }

  predicate Distinct<T(==)>(xs: seq<T>) {
    forall i, k | 0 <= i < k < |xs| :: xs[i] != xs[k]
  }

  ghost function Elements<T>(xs: seq<T>): set<T> {
    set x | x in xs
  }

  // ---- One-use evidence ----

  function BegunBy(e: Entry): seq<InvocationId> {
    if e.action.BeganInvocation? then [e.action.inv] else []
  }

  function CrossedBy(e: Entry): seq<CrossingId> {
    if e.action.CrossedOutput? then [e.action.crossing] else []
  }

  /** The attestation an accepted command spends: an inspection, a quarantine resolution, or the
      conformance evidence of an endorsed crossing. */
  function SpentBy(e: Entry): seq<AttestationId> {
    match e.action
    case AuthorizedInspected(_, attestation, _) => [attestation]
    case SettledInvocation(_, _, _, _, _, _, Some(id)) => [id]
    case CrossedOutput(_, _, _, Endorsed, _) =>
      if e.command.CrossOutput? && e.command.input.evidence.Some? then [e.command.input.evidence.value.id] else []
    case _ => []
  }

  ghost function Gather<T(!new)>(h: seq<Entry>, of: Entry -> seq<T>): seq<T> {
    if h == [] then [] else Gather(h[..|h| - 1], of) + of(h[|h| - 1])
  }

  /** `after` is `before` plus at most one fresh element. */
  ghost predicate Adds<T>(before: set<T>, xs: seq<T>, after: set<T>) {
    (xs == [] && after == before) || (|xs| == 1 && xs[0] !in before && after == before + {xs[0]})
  }

  ghost predicate Spends(s: State, e: Entry, t: State) {
    && Adds(s.consumedIds, BegunBy(e), t.consumedIds)
    && Adds(s.consumedCrossings, CrossedBy(e), t.consumedCrossings)
    && Adds(s.consumedAttestations, SpentBy(e), t.consumedAttestations)
  }

  lemma BeginNextHistories(s: State, bg: Background, a: AgentId, inv: InvocationId, chal: ChallengeId, p: PolicyK,
                           egress: set<EgressKind>, ah: ContentHash, authorized: bool, verdict: Verdict)
    ensures var t := BeginNext(s, bg, a, inv, chal, p, egress, ah, authorized, verdict);
            && t.consumedIds == s.consumedIds + {inv}
            && t.consumedCrossings == s.consumedCrossings && t.consumedAttestations == s.consumedAttestations
  {
    if verdict == Allow {
    } else if bg.mode == Monitor {
    } else {
    }
  }

  lemma BeginNextSpends(s: State, bg: Background, c: CommandK, verdict: Verdict)
    requires c.BeginInvocation? && c.inv !in s.consumedIds
    ensures Spends(s, Entry(c, BeganInvocation(c.agent, c.inv, c.policy.tool, verdict, c.authorized)),
                   BeginNext(s, bg, c.agent, c.inv, c.challenge, c.policy, c.egress, c.argsHash, c.authorized, verdict))
  {
    BeginNextHistories(s, bg, c.agent, c.inv, c.challenge, c.policy, c.egress, c.argsHash, c.authorized, verdict);
    var e := Entry(c, BeganInvocation(c.agent, c.inv, c.policy.tool, verdict, c.authorized));
    assert BegunBy(e) == [c.inv] && CrossedBy(e) == [] && SpentBy(e) == [];
  }

  lemma BeginSpends(s: State, bg: Background, c: CommandK)
    requires c.BeginInvocation? && Step(s, bg, c).Accepted?
    ensures Spends(s, Entry(c, Step(s, bg, c).action), Step(s, bg, c).next)
  {
    BeginNextSpends(s, bg, c, VerdictOf(s, bg, c.agent, c.policy, c.egress, c.authorized));
  }

  lemma AuthorizeSpends(s: State, bg: Background, c: CommandK)
    requires c.AuthorizeInspected? && Step(s, bg, c).Accepted?
    ensures Spends(s, Entry(c, Step(s, bg, c).action), Step(s, bg, c).next)
  {
  }

  lemma SettleSpends(s: State, bg: Background, c: CommandK)
    requires c.SettleInvocation? && Step(s, bg, c).Accepted?
    ensures Spends(s, Entry(c, Step(s, bg, c).action), Step(s, bg, c).next)
  {
  }

  lemma CrossSpends(s: State, bg: Background, c: CommandK)
    requires c.CrossOutput? && Step(s, bg, c).Accepted?
    ensures Spends(s, Entry(c, Step(s, bg, c).action), Step(s, bg, c).next)
  {
    hide Holds, WithinBounds, Extend, Demote, SpendGrant, ReleasedConfs, ReleasedIntegs;
  }

  /** An accepted command adds exactly what it spends to each history, and it was unspent. */
  lemma StepSpends(s: State, bg: Background, c: CommandK)
    requires Step(s, bg, c).Accepted?
    ensures Spends(s, Entry(c, Step(s, bg, c).action), Step(s, bg, c).next)
  {
    hide BeginStep, AuthorizeStep, SettleStep, CrossStep, Holds, Extend, Demote, DropPending, DropChallenges, DropGrants;
    match c
    case BeginInvocation(_, _, _, _, _, _, _) => BeginSpends(s, bg, c);
    case AuthorizeInspected(_, _) => AuthorizeSpends(s, bg, c);
    case SettleInvocation(_, _, _) => SettleSpends(s, bg, c);
    case CrossOutput(_) => CrossSpends(s, bg, c);
    case _ =>
  }

  lemma AddsDistinct<T>(xs: seq<T>, before: set<T>, ys: seq<T>, after: set<T>)
    requires Distinct(xs) && Elements(xs) == before && Adds(before, ys, after)
    ensures Distinct(xs + ys) && Elements(xs + ys) == after
  {
    if ys != [] {
      assert xs + ys == xs + [ys[0]];
      forall i | 0 <= i < |xs| ensures xs[i] != ys[0] {
        assert xs[i] in Elements(xs);
      }
      forall x | x in after ensures x in xs + ys {
        assert x in Elements(xs) || x == ys[0];
      }
    } else {
      assert xs + ys == xs;
    }
  }

  /** The three consumed histories are exactly the ids that the accepted commands of the run used, and
      no id was used twice: no invocation begins twice, no crossing crosses twice, and no attestation is
      spent twice across inspection, quarantine resolution and endorsement together, whatever agents
      are revoked and delegated again in between. */
  lemma {:induction false} RunSpendsOnce(bg: Background, cmds: seq<CommandK>)
    ensures var h := History(bg, cmds); var s := Run(bg, cmds);
            && Distinct(Gather(h, BegunBy)) && Elements(Gather(h, BegunBy)) == s.consumedIds
            && Distinct(Gather(h, CrossedBy)) && Elements(Gather(h, CrossedBy)) == s.consumedCrossings
            && Distinct(Gather(h, SpentBy)) && Elements(Gather(h, SpentBy)) == s.consumedAttestations
  {
    if cmds != [] {
      var last := |cmds| - 1;
      RunSpendsOnce(bg, cmds[..last]);
      var before := Run(bg, cmds[..last]);
      var r := Step(before, bg, cmds[last]);
      var h := History(bg, cmds[..last]);
      if r.Accepted? {
        var e := Entry(cmds[last], r.action);
        StepSpends(before, bg, cmds[last]);
        assert History(bg, cmds) == h + [e];
        assert (h + [e])[..|h + [e]| - 1] == h;
        AddsDistinct(Gather(h, BegunBy), before.consumedIds, BegunBy(e), r.next.consumedIds);
        AddsDistinct(Gather(h, CrossedBy), before.consumedCrossings, CrossedBy(e), r.next.consumedCrossings);
        AddsDistinct(Gather(h, SpentBy), before.consumedAttestations, SpentBy(e), r.next.consumedAttestations);
      } else {
        assert History(bg, cmds) == h;
      }
    }
  }

  // ---- Crossing grants ----

  /** A live account: the latest provisioning and the endorsed crossings accepted since. */
  datatype Account = Account(provisioned: int, used: nat)

  predicate Endorses(e: Entry, key: CrossingKey) {
    && e.action.CrossedOutput? && e.action.branch == Endorsed
    && e.command.CrossOutput? && CrossingKey(e.command.input.rcv, e.command.input.assignment) == key
  }

  predicate Provisions(e: Entry, key: CrossingKey) {
    e.action.GrantedCrossing? && CrossingKey(e.action.agent, e.action.assignment) == key
  }

  predicate Destroys(e: Entry, key: CrossingKey) {
    || (e.action.Delegated? && e.action.grantee == key.agent)
    || (e.action.Revoked? && e.action.target == key.agent)
    || (e.action.CascadeRevoked? && e.action.child == key.agent)
  }

  function Post(account: Option<Account>, e: Entry, key: CrossingKey): Option<Account> {
    if Destroys(e, key) then None
    else if Provisions(e, key) then Some(Account(e.action.n as int, 0))
    else if Endorses(e, key) && account.Some? then Some(account.value.(used := account.value.used + 1))
    else account
  }

  /** The account of a holder and assignment, recomputed from the history. */
  function Ledger(h: seq<Entry>, key: CrossingKey): Option<Account> {
    if h == [] then None else Post(Ledger(h[..|h| - 1], key), h[|h| - 1], key)
  }

  function EndorsedCount(h: seq<Entry>, key: CrossingKey): nat {
    if h == [] then 0 else EndorsedCount(h[..|h| - 1], key) + (if Endorses(h[|h| - 1], key) then 1 else 0)
  }

  function ProvisionedTotal(h: seq<Entry>, key: CrossingKey): nat {
    if h == [] then 0
    else ProvisionedTotal(h[..|h| - 1], key) + (if Provisions(h[|h| - 1], key) then h[|h| - 1].action.n as int else 0)
  }

  /** The grant table agrees with an account. */
  ghost predicate Matches(grants: map<CrossingKey, CrossingGrant>, key: CrossingKey, account: Option<Account>) {
    match account
    case None => key !in grants
    case Some(a) =>
      && key in grants
      && grants[key].provisioned as int == a.provisioned
      && grants[key].remaining as int == a.provisioned - a.used
  }

  ghost predicate Posts(s: State, e: Entry, t: State, key: CrossingKey, account: Option<Account>) {
    && Matches(t.grants, key, Post(account, e, key))
    && (Endorses(e, key) ==> account.Some? && account.value.used < account.value.provisioned)
  }

  lemma BeginNextPosts(s: State, bg: Background, c: CommandK, verdict: Verdict, key: CrossingKey, account: Option<Account>)
    requires c.BeginInvocation? && Matches(s.grants, key, account)
    ensures Posts(s, Entry(c, BeganInvocation(c.agent, c.inv, c.policy.tool, verdict, c.authorized)),
                  BeginNext(s, bg, c.agent, c.inv, c.challenge, c.policy, c.egress, c.argsHash, c.authorized, verdict),
                  key, account)
  {
  }

  lemma CrossPosts(s: State, bg: Background, c: CommandK, key: CrossingKey, account: Option<Account>)
    requires c.CrossOutput? && Step(s, bg, c).Accepted? && Matches(s.grants, key, account)
    ensures Posts(s, Entry(c, Step(s, bg, c).action), Step(s, bg, c).next, key, account)
  {
    hide Holds, WithinBounds, Extend, Demote, ReleasedConfs, ReleasedIntegs;
  }

  lemma StructurePosts(s: State, bg: Background, c: CommandK, key: CrossingKey, account: Option<Account>)
    requires c.GrantCrossing? || c.Delegate? || c.Revoke? || c.CascadeRevoke?
    requires Step(s, bg, c).Accepted? && Matches(s.grants, key, account)
    ensures Posts(s, Entry(c, Step(s, bg, c).action), Step(s, bg, c).next, key, account)
  {
    hide DropPending, DropChallenges, IsParent, BeginStep, AuthorizeStep, SettleStep, CrossStep, IngestStep;
  }

  /** The other commands leave the grants and post nothing. */
  lemma OthersPost(s: State, bg: Background, c: CommandK, key: CrossingKey, account: Option<Account>)
    requires c.RegisterTool? || c.UnregisterTool? || c.GrantCapability? || c.Ingest? || c.AuthorizeInspected? || c.SettleInvocation?
    requires Step(s, bg, c).Accepted? && Matches(s.grants, key, account)
    ensures Posts(s, Entry(c, Step(s, bg, c).action), Step(s, bg, c).next, key, account)
  {
    hide BeginStep, CrossStep, DelegateStep, RevokeStep, CascadeRevokeStep, GrantCrossingStep, Holds, Extend, Demote, Matches,
         AuthorizeAdmits, ToolInUseBy;
  }

  lemma StepPosts(s: State, bg: Background, c: CommandK, key: CrossingKey, account: Option<Account>)
    requires Step(s, bg, c).Accepted? && Matches(s.grants, key, account)
    ensures Posts(s, Entry(c, Step(s, bg, c).action), Step(s, bg, c).next, key, account)
  {
    hide Posts, Matches, AuthorizeStep, SettleStep, CrossStep, DelegateStep, RevokeStep, CascadeRevokeStep, IngestStep, BeginNext,
         VerdictOf, DenialOf;
    match c
    case BeginInvocation(_, _, _, _, _, _, _) =>
      BeginNextPosts(s, bg, c, VerdictOf(s, bg, c.agent, c.policy, c.egress, c.authorized), key, account);
    case CrossOutput(_) => CrossPosts(s, bg, c, key, account);
    case _ =>
      if c.GrantCrossing? || c.Delegate? || c.Revoke? || c.CascadeRevoke? {
        StructurePosts(s, bg, c, key, account);
      } else {
        OthersPost(s, bg, c, key, account);
      }
  }

  /** In every run and for every key, a grant is live exactly when it was provisioned after the holder
      was last delegated or revoked; it then holds the latest provisioning, less one use per endorsed
      crossing accepted since. Over the whole run endorsed crossings never exceed what was provisioned,
      and a use is only ever taken from a positive balance. */
  lemma {:induction false} RunGrantsBalance(bg: Background, cmds: seq<CommandK>, key: CrossingKey)
    ensures var h := History(bg, cmds); var s := Run(bg, cmds);
            && Matches(s.grants, key, Ledger(h, key))
            && EndorsedCount(h, key) + (if key in s.grants then s.grants[key].remaining as int else 0) <= ProvisionedTotal(h, key)
  {
    hide Step;
    if cmds != [] {
      var last := |cmds| - 1;
      RunGrantsBalance(bg, cmds[..last], key);
      var before := Run(bg, cmds[..last]);
      var r := Step(before, bg, cmds[last]);
      var h := History(bg, cmds[..last]);
      if r.Accepted? {
        var e := Entry(cmds[last], r.action);
        StepPosts(before, bg, cmds[last], key, Ledger(h, key));
        assert History(bg, cmds) == h + [e];
        assert (h + [e])[..|h + [e]| - 1] == h;
      } else {
        assert History(bg, cmds) == h;
      }
    }
  }
}
