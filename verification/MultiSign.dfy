/** Online multi-sign: votes of administrators decide a proposal. */
module MultiSign {
  import opened Basics
  import opened Endorsement

  datatype Choice = Agree | Reject | Unknown

  datatype Vote = Vote(signer: Signer, choice: Choice)

  datatype Status = Processing | Passed | Refused

  /** The signers that voted `choice`, in order. */
  function Picked(votes: seq<Vote>, choice: Choice): seq<Signer> {
    if votes == [] then []
    else
      var last := votes[|votes| - 1];
      Picked(votes[..|votes| - 1], choice) + if last.choice == choice then [last.signer] else []
  }

  /** The policy accepts the signers; a chain without organizations accepts nobody. */
  ghost predicate Carries(members: Lookup, orgNum: nat, target: Org, p: Policy, es: seq<Signer>) {
    orgNum > 0 && Accepts(members, orgNum, target, p, Elements(es))
  }

  /** When the rejecting signers refuse: the same policy accepts them, or half of the chain under the MAJORITY rule. */
  ghost predicate Refuses(members: Lookup, orgNum: nat, target: Org, p: Policy, es: seq<Signer>) {
    || p.rule == Forbidden || p.rule == SelfRule
    || Carries(members, orgNum, target, p, es)
    || (p.rule == Majority && 2 * |es| == orgNum)
  }

  /** The status that the votes lead to. */
  ghost function Decision(members: Lookup, orgNum: nat, target: Org, p: Policy, votes: seq<Vote>): Status {
    var agree, reject := Picked(votes, Agree), Picked(votes, Reject);
    if agree != [] && Carries(members, orgNum, target, p, agree) then Passed
    else if reject != [] && Refuses(members, orgNum, target, p, reject) then Refused
    else Processing
  }

  class MultiSignInfo {
    var status: Status
    var votes: seq<Vote>

    /** isMultiSignPassed */
    method IsPassed(members: Lookup, orgNum: nat, target: Org, p: Policy, es: seq<Signer>) returns (ok: bool)
      ensures ok == Carries(members, orgNum, target, p, es)
    {
      if orgNum <= 0 {
        return false;
      }
      ok := VerifyPolicy(members, orgNum, target, p, es);
    }

    /** isMultiSignRefused */
    method IsRefused(members: Lookup, orgNum: nat, target: Org, p: Policy, es: seq<Signer>) returns (ok: bool)
      ensures ok == Refuses(members, orgNum, target, p, es)
    {
      if p.rule == Forbidden || p.rule == SelfRule {
        return true;
      }
      var refused := IsPassed(members, orgNum, target, p, es);
      if refused {
        return true;
      }
      if p.rule == Majority {
        if 2 * |es| == orgNum {
          return true;
        }
      }
      ok := false;
    }

    /** verifyMultiSignTxPrincipal: a decided proposal is left alone, and so is one without a policy. */
    method Verify(members: Lookup, orgNum: nat, target: Org, found: Option<Policy>) returns (failed: bool)
      modifies this`status
      ensures failed <==> old(status) != Processing
      ensures failed || found.None? ==> status == old(status)
      ensures !failed && found.Some? ==> status == Decision(members, orgNum, target, found.value, votes)
    {
      if status != Processing {
        return true;
      }
      var agree, reject := [], [];
      for i := 0 to |votes|
        invariant agree == Picked(votes[..i], Agree) && reject == Picked(votes[..i], Reject)
      {
        assert votes[..i + 1][..i] == votes[..i];
        if votes[i].choice == Agree {
          agree := agree + [votes[i].signer];
        } else if votes[i].choice == Reject {
          reject := reject + [votes[i].signer];
        }
      }
      assert votes[..|votes|] == votes;
      failed := false;
      if found.None? {
        return;
      }
      if |agree| > 0 {
        var ok := IsPassed(members, orgNum, target, found.value, agree);
        if ok {
          status := Passed;
          return;
        }
      }
      if |reject| > 0 {
        var ok := IsRefused(members, orgNum, target, found.value, reject);
        if ok {
          status := Refused;
          return;
        }
      }
    }
  }

  // --- what a decision means ---

  /** The signers picked are those of the votes with that choice. */
  lemma {:induction false} PickedAre(votes: seq<Vote>, choice: Choice, e: Signer)
    ensures e in Picked(votes, choice) <==> Vote(e, choice) in votes
    decreases |votes|
  {
    if votes == [] {
    } else {
      var front := votes[..|votes| - 1];
      PickedAre(front, choice, e);
      assert votes == front + [votes[|votes| - 1]];
    }
  }

  /** Rejecting signers refuse: always where nobody can approve, by the policy itself under the other rules, and under
      MAJORITY also with exactly half as many votes as organizations. */
  lemma RefusesMeans(members: Lookup, orgNum: nat, target: Org, p: Policy, es: seq<Signer>)
    ensures p.rule == Forbidden || p.rule == SelfRule ==> Refuses(members, orgNum, target, p, es)
    ensures p.rule == Unrecognized ==> !Refuses(members, orgNum, target, p, es)
    ensures p.rule == Majority && orgNum > 0 ==>
              (Refuses(members, orgNum, target, p, es) <==>
               Accepts(members, orgNum, target, p, Elements(es)) || |es| + |es| == orgNum)
    ensures (p.rule == AnyRule || p.rule == AllRule || p.rule.Threshold? || p.rule.Portion?) && orgNum > 0 ==>
              (Refuses(members, orgNum, target, p, es) <==> Accepts(members, orgNum, target, p, Elements(es)))
    ensures (p.rule == AnyRule || p.rule == AllRule || p.rule.Threshold? || p.rule.Portion?) && orgNum == 0 ==>
              !Refuses(members, orgNum, target, p, es)
  {
  }

  /** PASSED comes first: whenever the signers of the agreeing votes are accepted, whatever the others say. */
  lemma DecisionMeans(members: Lookup, orgNum: nat, target: Org, p: Policy, votes: seq<Vote>)
    requires orgNum > 0
    ensures var agree := set v | v in votes && v.choice == Agree :: v.signer;
            var status := Decision(members, orgNum, target, p, votes);
            && (status == Passed <==> agree != {} && Accepts(members, orgNum, target, p, agree))
            && (status == Refused ==> exists v :: v in votes && v.choice == Reject)
            && ((forall v :: v in votes ==> v.choice == Unknown) ==> status == Processing)
  {
    var agree := set v | v in votes && v.choice == Agree :: v.signer;
    forall e
      ensures e in Picked(votes, Agree) <==> Vote(e, Agree) in votes
      ensures e in Picked(votes, Reject) <==> Vote(e, Reject) in votes
    {
      PickedAre(votes, Agree, e);
      PickedAre(votes, Reject, e);
    }
    SameSigners(votes, agree);
    if Picked(votes, Reject) != [] {
      assert Picked(votes, Reject)[0] in Picked(votes, Reject);
    }
  }

  lemma SameSigners(votes: seq<Vote>, agree: set<Signer>)
    requires agree == set v | v in votes && v.choice == Agree :: v.signer
    requires forall e :: e in Picked(votes, Agree) <==> Vote(e, Agree) in votes
    ensures Elements(Picked(votes, Agree)) == agree && (agree == {} <==> Picked(votes, Agree) == [])
  {
    forall e ensures e in agree <==> e in Picked(votes, Agree) {
      if e in agree {
        var v :| v in votes && v.choice == Agree && v.signer == e;
        assert v == Vote(e, Agree);
      }
    }
    if Picked(votes, Agree) != [] {
      assert Picked(votes, Agree)[0] in agree;
    }
  }

  // --- the MAJORITY rule with one administrator's vote per organization ---

  predicate OneVoteEach(members: Lookup, chain: set<Org>, votes: seq<Vote>) {
    && (forall i :: 0 <= i < |votes| ==>
          votes[i].signer.org in chain && votes[i].choice != Unknown && members(votes[i].signer) == Some(ROLE_ADMIN))
    && (forall i, j :: 0 <= i < j < |votes| ==> votes[i].signer.org != votes[j].signer.org)
  }

  function Orgs(votes: seq<Vote>): set<Org> {
    set v | v in votes :: v.signer.org
  }

  function AdminOrgs(members: Lookup, es: seq<Signer>): set<Org> {
    CountedOrgs(members, {}, {ROLE_ADMIN}, Elements(es))
  }

  lemma OrgsAppend(front: seq<Vote>, last: Vote)
    ensures Orgs(front + [last]) == Orgs(front) + {last.signer.org}
  {
    assert forall v :: v in front + [last] <==> v in front || v == last;
  }

  lemma {:induction false} PickedOrgs(votes: seq<Vote>, choice: Choice)
    ensures forall e :: e in Picked(votes, choice) ==> e.org in Orgs(votes)
    decreases |votes|
  {
    if votes == [] {
    } else {
      var front, last := votes[..|votes| - 1], votes[|votes| - 1];
      PickedOrgs(front, choice);
      OrgsAppend(front, last);
      assert votes == front + [last];
    }
  }

  lemma AddAdmin(members: Lookup, es: seq<Signer>, e: Signer)
    requires members(e) == Some(ROLE_ADMIN)
    ensures AdminOrgs(members, es + [e]) == AdminOrgs(members, es) + {e.org}
  {
    assert Counts(members, {}, {ROLE_ADMIN}, e);
    assert Elements(es + [e]) == Elements(es) + {e};
  }

  /** Then organizations are counted as votes. */
  lemma {:induction false} OrgsAreVotes(members: Lookup, chain: set<Org>, votes: seq<Vote>, choice: Choice)
    requires OneVoteEach(members, chain, votes)
    ensures |AdminOrgs(members, Picked(votes, choice))| == |Picked(votes, choice)|
    decreases |votes|
  {
    if votes == [] {
    } else {
      var front, last := votes[..|votes| - 1], votes[|votes| - 1];
      OrgsAreVotes(members, chain, front, choice);
      PickedOrgs(front, choice);
      if last.choice == choice {
        AddAdmin(members, Picked(front, choice), last.signer);
        assert last.signer.org !in Orgs(front);
      } else {
        assert Picked(votes, choice) == Picked(front, choice);
      }
    }
  }

  lemma {:induction false} EveryVotePicked(votes: seq<Vote>)
    requires forall i :: 0 <= i < |votes| ==> votes[i].choice != Unknown
    ensures |Picked(votes, Agree)| + |Picked(votes, Reject)| == |votes|
    decreases |votes|
  {
    if votes == [] {
    } else {
      EveryVotePicked(votes[..|votes| - 1]);
    }
  }

  lemma NotAmong(votes: seq<Vote>)
    requires votes != []
    requires forall i, j :: 0 <= i < j < |votes| ==> votes[i].signer.org != votes[j].signer.org
    ensures votes[|votes| - 1].signer.org !in Orgs(votes[..|votes| - 1])
  {
    forall v | v in votes[..|votes| - 1] ensures v.signer.org != votes[|votes| - 1].signer.org {
      var i :| 0 <= i < |votes| - 1 && votes[i] == v;
    }
  }

  lemma OneMoreOrg(front: seq<Vote>, last: Vote)
    requires last.signer.org !in Orgs(front)
    ensures |Orgs(front + [last])| == |Orgs(front)| + 1
  {
    OrgsAppend(front, last);
  }

  lemma {:induction false} OrgPerVote(votes: seq<Vote>)
    requires forall i, j :: 0 <= i < j < |votes| ==> votes[i].signer.org != votes[j].signer.org
    ensures |Orgs(votes)| == |votes|
    decreases |votes|
  {
    if votes == [] {
    } else {
      var front, last := votes[..|votes| - 1], votes[|votes| - 1];
      OrgPerVote(front);
      NotAmong(votes);
      OneMoreOrg(front, last);
      assert votes == front + [last];
    }
  }

  /** Nobody votes twice, so there are no more votes than organizations. */
  lemma VotesBounded(members: Lookup, chain: set<Org>, votes: seq<Vote>)
    requires OneVoteEach(members, chain, votes)
    ensures |Picked(votes, Agree)| + |Picked(votes, Reject)| == |votes| <= |chain|
  {
    EveryVotePicked(votes);
    OrgPerVote(votes);
    SubsetSize(Orgs(votes), chain);
  }

  /** PASSED exactly with more than half of the organizations for it, REFUSED exactly with half or more against it, never
      both, and a full vote is decided. */
  lemma MajorityDecides(members: Lookup, chain: set<Org>, target: Org, p: Policy, votes: seq<Vote>)
    requires chain != {} && p.rule == Majority && OneVoteEach(members, chain, votes)
    ensures var agree, reject := |Picked(votes, Agree)|, |Picked(votes, Reject)|;
            var status := Decision(members, |chain|, target, p, votes);
            && (status == Passed <==> 2 * agree > |chain|)
            && (status == Refused <==> 2 * reject >= |chain|)
            && !(2 * agree > |chain| && 2 * reject >= |chain|)
            && (|votes| == |chain| ==> status != Processing)
  {
    OrgsAreVotes(members, chain, votes, Agree);
    OrgsAreVotes(members, chain, votes, Reject);
    VotesBounded(members, chain, votes);
  }

  lemma {:induction false} PickedGrows(votes: seq<Vote>, votes': seq<Vote>, choice: Choice)
    requires votes <= votes'
    ensures |Picked(votes, choice)| <= |Picked(votes', choice)|
    decreases |votes'|
  {
    if votes != votes' {
      PickedGrows(votes, votes'[..|votes'| - 1], choice);
    } else {
      assert votes == votes';
    }
  }

  /** No later votes reverse a decision. */
  lemma DecisionStands(members: Lookup, chain: set<Org>, target: Org, p: Policy, votes: seq<Vote>, votes': seq<Vote>)
    requires chain != {} && p.rule == Majority && votes <= votes'
    requires OneVoteEach(members, chain, votes')
    requires Decision(members, |chain|, target, p, votes) != Processing
    ensures Decision(members, |chain|, target, p, votes') == Decision(members, |chain|, target, p, votes)
  {
    assert OneVoteEach(members, chain, votes) by {
      assert forall i :: 0 <= i < |votes| ==> votes[i] == votes'[i];
    }
    MajorityDecides(members, chain, target, p, votes);
    MajorityDecides(members, chain, target, p, votes');
    PickedGrows(votes, votes', Agree);
    PickedGrows(votes, votes', Reject);
  }

  lemma PickedAppend(votes: seq<Vote>, v: Vote, choice: Choice)
    ensures Picked(votes + [v], choice) == Picked(votes, choice) + if v.choice == choice then [v.signer] else []
  {
    assert (votes + [v])[..|votes|] == votes;
  }

  /** Votes are counted for the tie and organizations for the majority: two rejecting votes of one organization out of
      four refuse. */
  lemma RepeatedVoteRefuses(members: Lookup, p: Policy, a: Signer, b: Signer)
    requires p.rule == Majority && a.org == b.org
    requires members(a) == Some(ROLE_ADMIN) == members(b)
    ensures Decision(members, 4, "", p, [Vote(a, Reject), Vote(b, Reject)]) == Refused
    ensures |AdminOrgs(members, [a, b])| == 1
  {
    PickedAppend([], Vote(a, Reject), Reject);
    PickedAppend([], Vote(a, Reject), Agree);
    PickedAppend([Vote(a, Reject)], Vote(b, Reject), Reject);
    PickedAppend([Vote(a, Reject)], Vote(b, Reject), Agree);
    assert [] + [Vote(a, Reject)] == [Vote(a, Reject)];
    assert [Vote(a, Reject)] + [Vote(b, Reject)] == [Vote(a, Reject), Vote(b, Reject)];
    AddAdmin(members, [], a);
    AddAdmin(members, [a], b);
    assert [] + [a] == [a] && [a] + [b] == [a, b];
    assert AdminOrgs(members, []) == {};
    assert AdminOrgs(members, [a, b]) == {a.org};
  }

  /** No more administrators' organizations than votes. */
  lemma {:induction false} OrgsAtMostVotes(members: Lookup, es: seq<Signer>)
    ensures |AdminOrgs(members, es)| <= |es|
    decreases |es|
  {
    if es == [] {
      assert AdminOrgs(members, es) == {};
    } else {
      var front, last := es[..|es| - 1], es[|es| - 1];
      OrgsAtMostVotes(members, front);
      assert Elements(es) == Elements(front) + {last} by {
        assert es == front + [last];
      }
      SubsetSize(AdminOrgs(members, es), AdminOrgs(members, front) + {last.org});
    }
  }

  /** A refusal under MAJORITY means that half of the organizations or more reject. */
  ghost predicate RefusedByOrgs(members: Lookup, orgNum: nat, target: Org, p: Policy, es: seq<Signer>) {
    Refuses(members, orgNum, target, p, es) <==> 2 * |AdminOrgs(members, es)| >= orgNum
  }

  /** On one chain that holds if and only if every rejecting vote is of an administrator of another organization, or
      neither the votes nor the organizations are half of the chain. */
  lemma RefusedByOrgsHere(members: Lookup, orgNum: nat, target: Org, p: Policy, es: seq<Signer>)
    requires orgNum > 0 && p.rule == Majority
    ensures RefusedByOrgs(members, orgNum, target, p, es) <==>
            (|AdminOrgs(members, es)| == |es| || (2 * |es| != orgNum && 2 * |AdminOrgs(members, es)| != orgNum))
  {
    OrgsAtMostVotes(members, es);
  }

  /** On chains of every size it holds if and only if every rejecting vote is of an administrator of another
      organization. */
  lemma RefusedByOrgsIff(members: Lookup, target: Org, p: Policy, es: seq<Signer>)
    requires p.rule == Majority
    ensures (forall n :: n > 0 ==> RefusedByOrgs(members, n, target, p, es)) <==> |AdminOrgs(members, es)| == |es|
  {
    OrgsAtMostVotes(members, es);
    if |AdminOrgs(members, es)| == |es| {
      forall n | n > 0 ensures RefusedByOrgs(members, n, target, p, es) {
        RefusedByOrgsHere(members, n, target, p, es);
      }
    } else {
      RefusedByOrgsHere(members, 2 * |es|, target, p, es);
      assert !RefusedByOrgs(members, 2 * |es|, target, p, es);
    }
  }

  /** With one administrator's vote per organization it always does. */
  lemma OneVoteEachRefusesByOrgs(members: Lookup, chain: set<Org>, target: Org, p: Policy, votes: seq<Vote>, n: nat)
    requires p.rule == Majority && OneVoteEach(members, chain, votes) && n > 0
    ensures RefusedByOrgs(members, n, target, p, Picked(votes, Reject))
  {
    OrgsAreVotes(members, chain, votes, Reject);
    RefusedByOrgsIff(members, target, p, Picked(votes, Reject));
  }
}
