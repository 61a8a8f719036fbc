/** Endorsement rules: which sets of endorsements a policy accepts. */
module Endorsement {
  import opened Basics

  type Org = string
  type Role = string

  const ROLE_ADMIN: Role := "ADMIN"

  datatype Signer = Signer(org: Org, info: string)

  /** The role of the member behind a signer, if there is such a member. */
  type Lookup = Signer -> Option<Role>

  /** The rule keyword, already read; a threshold or a fraction otherwise. */
  datatype Rule =
    | Forbidden | Majority | SelfRule | AnyRule | AllRule | Threshold(least: int) | Portion(num: int, den: int) | Unrecognized

  datatype Policy = Policy(rule: Rule, orgList: seq<Org>, roleList: seq<Role>)

  function Elements<T>(s: seq<T>): set<T> {
    set x | x in s
  }

  /** An endorsement counts if its organization is listed, or none is, and its member has a listed role, or none is. */
  predicate Counts(members: Lookup, orgs: set<Org>, roles: set<Role>, e: Signer) {
    && (orgs == {} || e.org in orgs)
    && (roles == {} || (members(e).Some? && members(e).value in roles))
  }

  /** The organizations with an endorsement that counts. */
  function CountedOrgs(members: Lookup, orgs: set<Org>, roles: set<Role>, es: set<Signer>): set<Org> {
    set e | e in es && Counts(members, orgs, roles, e) :: e.org
  }

  /** What a policy says of a set of endorsements on a chain of `orgNum` organizations. */
  ghost predicate Accepts(members: Lookup, orgNum: nat, target: Org, p: Policy, es: set<Signer>)
    requires orgNum > 0
  {
    var orgs, roles := Elements(p.orgList), Elements(p.roleList);
    var valid := |CountedOrgs(members, orgs, roles, es)|;
    var total := if orgs == {} then orgNum else |orgs|;
    match p.rule
    case Forbidden => false
    case Majority => 2 * |CountedOrgs(members, {}, {ROLE_ADMIN}, es)| > orgNum
    case SelfRule => target != "" && exists e :: e in es && e.org == target && members(e) == Some(ROLE_ADMIN)
    case AnyRule => exists e :: e in es && Counts(members, orgs, roles, e)
    case AllRule => valid == total
    case Threshold(least) => valid >= least
    case Portion(num, den) => valid as real >= Required(total, num, Denominator(den, orgNum))
    case Unrecognized => false
  }

  function Denominator(den: int, orgNum: nat): (d: int)
    requires orgNum > 0
    ensures d > 0
  {
    if den <= 0 then orgNum else den
  }

  /** The fraction of `total`, as an exact number. */
  function Required(total: nat, num: int, den: int): real
    requires den > 0
  {
    total as real * num as real / den as real
  }

  // --- the filters and counters ---

  /** getValidEndorsements: the endorsements that count, in order. */
  method GetValid(members: Lookup, orgs: set<Org>, roles: set<Role>, es: seq<Signer>) returns (valid: seq<Signer>)
    ensures forall e :: e in valid <==> e in es && Counts(members, orgs, roles, e)
  {
    valid := [];
    for i := 0 to |es|
      invariant forall e :: e in valid <==> e in es[..i] && Counts(members, orgs, roles, e)
    {
      var e := es[i];
      assert es[..i + 1] == es[..i] + [e];
      if orgs != {} && e.org !in orgs {
        continue;
      }
      if roles == {} {
        valid := valid + [e];
        continue;
      }
      var member := members(e);
      if member.None? {
        continue;
      }
      if member.value in roles {
        valid := valid + [e];
      }
    }
    assert es[..|es|] == es;
  }

  /** countOrgsFromEndorsements: the number of different organizations. */
  method CountOrgs(es: seq<Signer>) returns (n: nat)
    ensures n == |set e | e in es :: e.org|
  {
    var count: map<Org, nat> := map[];
    for i := 0 to |es|
      invariant count.Keys == set e | e in es[..i] :: e.org
    {
      assert es[..i + 1] == es[..i] + [es[i]];
      var org := es[i].org;
      count := count[org := (if org in count then count[org] else 0) + 1];
    }
    assert es[..|es|] == es;
    n := |count.Keys|;
  }

  method CountValid(members: Lookup, orgs: set<Org>, roles: set<Role>, es: seq<Signer>) returns (n: nat)
    ensures n == |CountedOrgs(members, orgs, roles, Elements(es))|
  {
    var valid := GetValid(members, orgs, roles, es);
    n := CountOrgs(valid);
    assert (set e | e in valid :: e.org) == CountedOrgs(members, orgs, roles, Elements(es));
  }

  /** The SELF rule: an administrator of the target organization has signed. */
  method VerifySelf(members: Lookup, target: Org, es: seq<Signer>) returns (ok: bool)
    ensures ok == (target != "" && exists e :: e in es && e.org == target && members(e) == Some(ROLE_ADMIN))
  {
    if target == "" {
      return false;
    }
    for i := 0 to |es|
      invariant forall e :: e in es[..i] ==> !(e.org == target && members(e) == Some(ROLE_ADMIN))
    {
      if es[i].org != target {
        continue;
      }
      var member := members(es[i]);
      if member.None? {
        continue;
      }
      if member.value == ROLE_ADMIN {
        return true;
      }
    }
    ok := false;
  }

  /** The ANY rule: one endorsement that counts is enough. */
  method VerifyAny(members: Lookup, orgs: set<Org>, roles: set<Role>, es: seq<Signer>) returns (ok: bool)
    ensures ok == exists e :: e in es && Counts(members, orgs, roles, e)
  {
    for i := 0 to |es|
      invariant forall e :: e in es[..i] ==> !Counts(members, orgs, roles, e)
    {
      if orgs != {} && es[i].org !in orgs {
        continue;
      }
      if roles == {} {
        assert Counts(members, orgs, roles, es[i]);
        return true;
      }
      var member := members(es[i]);
      if member.None? {
        continue;
      }
      if member.value in roles {
        assert Counts(members, orgs, roles, es[i]);
        return true;
      }
    }
    ok := false;
  }

  /** The verdict on a list of endorsements is that of the policy on their set. */
  method VerifyPolicy(members: Lookup, orgNum: nat, target: Org, p: Policy, es: seq<Signer>) returns (ok: bool)
    requires orgNum > 0
    ensures ok == Accepts(members, orgNum, target, p, Elements(es))
  {
    var orgs, roles := Elements(p.orgList), Elements(p.roleList);
    match p.rule {
      case Forbidden =>
        ok := false;
      case Majority =>
        var n := CountValid(members, {}, {ROLE_ADMIN}, es);
        ok := n as real > orgNum as real / 2.0;
      case SelfRule =>
        ok := VerifySelf(members, target, es);
      case AnyRule =>
        ok := VerifyAny(members, orgs, roles, es);
      case AllRule =>
        var n := CountValid(members, orgs, roles, es);
        ok := (|orgs| <= 0 && n == orgNum) || (|orgs| > 0 && n == |orgs|);
      case Threshold(least) =>
        var n := CountValid(members, orgs, roles, es);
        ok := n >= least;
      case Portion(num, den) =>
        var d := if den <= 0 then orgNum else den;
        var n := CountValid(members, orgs, roles, es);
        var required := if |orgs| <= 0 then Required(orgNum, num, d) else Required(|orgs|, num, d);
        ok := n as real >= required;
      case Unrecognized =>
        ok := false;
    }
  }

  // --- what the rules promise ---

  /** Organization `o` has an endorsement that is let in: its organization is among `orgs`, unless there are none, and its
      member has one of the `roles`, unless there are none. */
  predicate Backed(members: Lookup, orgs: set<Org>, roles: set<Role>, es: set<Signer>, o: Org) {
    exists e :: && e in es && e.org == o && (orgs == {} || o in orgs)
                && (roles == {} || (members(e).Some? && members(e).value in roles))
  }

  predicate AllBacked(members: Lookup, orgs: set<Org>, roles: set<Role>, es: set<Signer>, some: set<Org>) {
    forall o :: o in some ==> Backed(members, orgs, roles, es, o)
  }

  lemma BackedIsCounted(members: Lookup, orgs: set<Org>, roles: set<Role>, es: set<Signer>, o: Org)
    ensures Backed(members, orgs, roles, es, o) <==> o in CountedOrgs(members, orgs, roles, es)
  {
    if Backed(members, orgs, roles, es, o) {
      var e :| && e in es && e.org == o && (orgs == {} || o in orgs)
               && (roles == {} || (members(e).Some? && members(e).value in roles));
      assert Counts(members, orgs, roles, e);
    }
  }

  /** The counted organizations are the largest set of backed ones. */
  lemma CountedIsLargest(members: Lookup, orgs: set<Org>, roles: set<Role>, es: set<Signer>)
    ensures AllBacked(members, orgs, roles, es, CountedOrgs(members, orgs, roles, es))
    ensures forall some :: AllBacked(members, orgs, roles, es, some) ==>
              some <= CountedOrgs(members, orgs, roles, es) && |some| <= |CountedOrgs(members, orgs, roles, es)|
  {
    forall o ensures Backed(members, orgs, roles, es, o) <==> o in CountedOrgs(members, orgs, roles, es) {
      BackedIsCounted(members, orgs, roles, es, o);
    }
    forall some | AllBacked(members, orgs, roles, es, some)
      ensures some <= CountedOrgs(members, orgs, roles, es) && |some| <= |CountedOrgs(members, orgs, roles, es)|
    {
      SubsetSize(some, CountedOrgs(members, orgs, roles, es));
    }
  }

  /** Nothing is accepted where access is forbidden or the rule is not recognized. */
  lemma ForbiddenNever(members: Lookup, orgNum: nat, target: Org, p: Policy, es: set<Signer>)
    requires orgNum > 0 && (p.rule == Forbidden || p.rule == Unrecognized)
    ensures !Accepts(members, orgNum, target, p, es)
  {
  }

  /** MAJORITY: administrators of more than half of the chain's organizations. */
  lemma MajorityMeans(members: Lookup, orgNum: nat, target: Org, p: Policy, es: set<Signer>)
    requires orgNum > 0 && p.rule == Majority
    ensures Accepts(members, orgNum, target, p, es) <==>
            exists some :: AllBacked(members, {}, {"ADMIN"}, es, some) && 2 * |some| > orgNum
  {
    CountedIsLargest(members, {}, {ROLE_ADMIN}, es);
  }

  /** SELF: an administrator of the target, which must be named. */
  lemma SelfMeans(members: Lookup, orgNum: nat, target: Org, p: Policy, es: set<Signer>)
    requires orgNum > 0 && p.rule == SelfRule
    ensures Accepts(members, orgNum, target, p, es) <==> target != "" && Backed(members, {}, {"ADMIN"}, es, target)
  {
    if Backed(members, {}, {"ADMIN"}, es, target) {
      var e :| && e in es && e.org == target && members(e).Some? && members(e).value in {"ADMIN"};
      assert members(e) == Some(ROLE_ADMIN);
    }
  }

  /** ANY: one organization. */
  lemma AnyMeans(members: Lookup, orgNum: nat, target: Org, p: Policy, es: set<Signer>)
    requires orgNum > 0 && p.rule == AnyRule
    ensures Accepts(members, orgNum, target, p, es) <==>
            exists o :: Backed(members, Elements(p.orgList), Elements(p.roleList), es, o)
  {
    var orgs, roles := Elements(p.orgList), Elements(p.roleList);
    if e :| e in es && Counts(members, orgs, roles, e) {
      assert Backed(members, orgs, roles, es, e.org);
    }
    if o :| Backed(members, orgs, roles, es, o) {
      BackedIsCounted(members, orgs, roles, es, o);
    }
  }

  /** ALL: every listed organization. */
  lemma AllListedMeans(members: Lookup, orgNum: nat, target: Org, p: Policy, es: set<Signer>)
    requires orgNum > 0 && p.rule == AllRule && p.orgList != []
    ensures Accepts(members, orgNum, target, p, es) <==>
            forall o :: o in p.orgList ==> Backed(members, Elements(p.orgList), Elements(p.roleList), es, o)
  {
    var orgs, roles := Elements(p.orgList), Elements(p.roleList);
    var counted := CountedOrgs(members, orgs, roles, es);
    assert p.orgList[0] in orgs;
    CountedIsLargest(members, orgs, roles, es);
    if AllBacked(members, orgs, roles, es, orgs) {
      SubsetSize(counted, orgs);
    } else if |counted| == |orgs| {
      SameSize(counted, orgs);
    }
  }

  lemma SameSize<T>(a: set<T>, b: set<T>)
    requires a <= b && |a| == |b|
    ensures a == b
  {
    SubsetSize(b - a, b);
    assert |b - a| == |b| - |a|;
  }

  /** ALL without a list: every organization of the chain, if nobody else signs. */
  lemma AllMeans(members: Lookup, chain: set<Org>, target: Org, p: Policy, es: set<Signer>)
    requires chain != {} && p.rule == AllRule && p.orgList == [] && forall e :: e in es ==> e.org in chain
    ensures Accepts(members, |chain|, target, p, es) <==> AllBacked(members, {}, Elements(p.roleList), es, chain)
  {
    var roles := Elements(p.roleList);
    var counted := CountedOrgs(members, {}, roles, es);
    assert Elements(p.orgList) == {};
    CountedIsLargest(members, {}, roles, es);
    SubsetSize(counted, chain);
    if |counted| == |chain| {
      SameSize(counted, chain);
    }
  }

  /** A threshold: that many organizations. */
  lemma ThresholdMeans(members: Lookup, orgNum: nat, target: Org, p: Policy, es: set<Signer>)
    requires orgNum > 0 && p.rule.Threshold?
    ensures Accepts(members, orgNum, target, p, es) <==>
            exists some :: AllBacked(members, Elements(p.orgList), Elements(p.roleList), es, some) && |some| >= p.rule.least
  {
    CountedIsLargest(members, Elements(p.orgList), Elements(p.roleList), es);
  }

  /** A portion num/den: `n` organizations with n * den >= num * total, of the listed ones or the whole chain; a denominator
      that is not positive stands for the number of organizations. */
  lemma PortionMeans(members: Lookup, orgNum: nat, target: Org, p: Policy, es: set<Signer>)
    requires orgNum > 0 && p.rule.Portion?
    ensures var total := if p.orgList == [] then orgNum else |Elements(p.orgList)|;
            var den := if p.rule.den <= 0 then orgNum else p.rule.den;
            Accepts(members, orgNum, target, p, es) <==>
            exists some :: AllBacked(members, Elements(p.orgList), Elements(p.roleList), es, some)
                           && |some| * den >= total * p.rule.num
  {
    var orgs, roles := Elements(p.orgList), Elements(p.roleList);
    var total := if p.orgList == [] then orgNum else |orgs|;
    var den := if p.rule.den <= 0 then orgNum else p.rule.den;
    var counted := CountedOrgs(members, orgs, roles, es);
    assert p.orgList != [] ==> p.orgList[0] in orgs;
    CountedIsLargest(members, orgs, roles, es);
    AtLeast(|counted|, total, p.rule.num, den);
    forall some | AllBacked(members, orgs, roles, es, some) && |some| * den >= total * p.rule.num
      ensures |counted| * den >= total * p.rule.num
    {
      Times(|some|, |counted|, den);
    }
  }

  lemma Times(a: nat, b: nat, d: nat)
    requires a <= b
    ensures a * d <= b * d
  {
  }

  /** The comparison with the fraction, in whole numbers. */
  lemma AtLeast(n: nat, total: nat, num: int, den: int)
    requires den > 0
    ensures n as real >= Required(total, num, den) <==> n * den >= total * num
  {
    var need := Required(total, num, den);
    assert need * den as real == (total * num) as real;
    if n as real >= need {
      assert n as real * den as real >= need * den as real;
      assert (n * den) as real >= (total * num) as real;
    }
    if n * den >= total * num {
      assert n as real * den as real >= need * den as real;
    }
  }

  /** Of two sets that together outnumber `all` some element is in both. */
  lemma Pigeonhole<T>(a: set<T>, b: set<T>, all: set<T>)
    requires a <= all && b <= all && |a| + |b| > |all|
    ensures a * b != {}
  {
    SubsetSize(a + b, all);
    assert |a + b| == |a| + |b| - |a * b|;
  }

  /** More endorsements never turn acceptance into rejection if the signers' organizations are the chain's. */
  lemma MoreIsEnough(members: Lookup, chain: set<Org>, target: Org, p: Policy, es: set<Signer>, es': set<Signer>)
    requires chain != {} && es <= es' && forall e :: e in es' ==> e.org in chain
    requires Accepts(members, |chain|, target, p, es)
    ensures Accepts(members, |chain|, target, p, es')
  {
    var orgs, roles := Elements(p.orgList), Elements(p.roleList);
    var counted, counted' := CountedOrgs(members, orgs, roles, es), CountedOrgs(members, orgs, roles, es');
    SubsetSize(counted, counted');
    SubsetSize(CountedOrgs(members, {}, {ROLE_ADMIN}, es), CountedOrgs(members, {}, {ROLE_ADMIN}, es'));
    SubsetSize(counted', if orgs == {} then chain else orgs);
  }

  /** More endorsements, whoever signs them, never turn acceptance into rejection. */
  ghost predicate Monotone(members: Lookup, orgNum: nat, target: Org, p: Policy)
    requires orgNum > 0
  {
    forall es, es' :: es <= es' && Accepts(members, orgNum, target, p, es) ==> Accepts(members, orgNum, target, p, es')
  }

  function Name(k: nat): (org: Org)
    ensures |org| == k
  {
    if k == 0 then "" else Name(k - 1) + "a"
  }

  /** One signer for each of `k` organizations. */
  function Crowd(k: nat): set<Signer> {
    if k == 0 then {} else Crowd(k - 1) + {Signer(Name(k), "")}
  }

  lemma AddSigner(members: Lookup, roles: set<Role>, es: set<Signer>, e: Signer)
    requires Counts(members, {}, roles, e)
    ensures CountedOrgs(members, {}, roles, es + {e}) == CountedOrgs(members, {}, roles, es) + {e.org}
  {
  }

  /** A signer of an organization with a longer name than those counted. */
  lemma AddLonger(members: Lookup, roles: set<Role>, es: set<Signer>, k: nat, e: Signer)
    requires Counts(members, {}, roles, e) && |e.org| == k + 1
    requires forall org :: org in CountedOrgs(members, {}, roles, es) ==> |org| <= k
    ensures |CountedOrgs(members, {}, roles, es + {e})| == |CountedOrgs(members, {}, roles, es)| + 1
    ensures forall org :: org in CountedOrgs(members, {}, roles, es + {e}) ==> |org| <= k + 1
  {
    AddSigner(members, roles, es, e);
    assert e.org !in CountedOrgs(members, {}, roles, es);
  }

  lemma {:induction false} CrowdCount(members: Lookup, roles: set<Role>, k: nat)
    requires forall e :: Counts(members, {}, roles, e)
    ensures |CountedOrgs(members, {}, roles, Crowd(k))| == k
    ensures forall org :: org in CountedOrgs(members, {}, roles, Crowd(k)) ==> |org| <= k
    decreases k
  {
    if k == 0 {
    } else {
      CrowdCount(members, roles, k - 1);
      AddLonger(members, roles, Crowd(k - 1), k - 1, Signer(Name(k), ""));
    }
  }

  /** Without a list of organizations one signer too many spoils the ALL rule. */
  lemma OneTooMany(orgNum: nat, target: Org, p: Policy) returns (members: Lookup)
    requires orgNum > 0 && p.rule == AllRule && p.orgList == []
    ensures !Monotone(members, orgNum, target, p)
  {
    var role := if p.roleList == [] then ROLE_ADMIN else p.roleList[0];
    members := (e: Signer) => Some(role);
    var roles := Elements(p.roleList);
    assert p.roleList != [] ==> role in roles;
    assert forall e :: Counts(members, {}, roles, e);
    CrowdCount(members, roles, orgNum);
    CrowdCount(members, roles, orgNum + 1);
    assert Crowd(orgNum) <= Crowd(orgNum + 1);
    assert Accepts(members, orgNum, target, p, Crowd(orgNum)) && !Accepts(members, orgNum, target, p, Crowd(orgNum + 1));
  }

  lemma MoreIsEnoughAnywhere(members: Lookup, orgNum: nat, target: Org, p: Policy, es: set<Signer>, es': set<Signer>)
    requires orgNum > 0 && es <= es' && !(p.rule == AllRule && p.orgList == [])
    requires Accepts(members, orgNum, target, p, es)
    ensures Accepts(members, orgNum, target, p, es')
  {
    var orgs, roles := Elements(p.orgList), Elements(p.roleList);
    var counted, counted' := CountedOrgs(members, orgs, roles, es), CountedOrgs(members, orgs, roles, es');
    SubsetSize(counted, counted');
    SubsetSize(CountedOrgs(members, {}, {ROLE_ADMIN}, es), CountedOrgs(members, {}, {ROLE_ADMIN}, es'));
    if p.orgList != [] {
      assert p.orgList[0] in orgs;
      SubsetSize(counted', orgs);
    }
  }

  /** Whoever signs, more endorsements never hurt if and only if the rule is not ALL without a list of organizations. */
  lemma MonotoneIff(orgNum: nat, target: Org, p: Policy)
    requires orgNum > 0
    ensures (forall members :: Monotone(members, orgNum, target, p)) <==> !(p.rule == AllRule && p.orgList == [])
  {
    if p.rule == AllRule && p.orgList == [] {
      var members := OneTooMany(orgNum, target, p);
    } else {
      forall members: Lookup ensures Monotone(members, orgNum, target, p) {
        forall es, es' | es <= es' && Accepts(members, orgNum, target, p, es) ensures Accepts(members, orgNum, target, p, es') {
          MoreIsEnoughAnywhere(members, orgNum, target, p, es, es');
        }
      }
    }
  }

  /** Two majorities share an organization with an administrator's endorsement in both. */
  lemma MajoritiesMeet(members: Lookup, chain: set<Org>, target: Org, p: Policy, es: set<Signer>, es': set<Signer>)
    requires chain != {} && p.rule == Majority
    requires forall e :: e in es + es' ==> e.org in chain
    requires Accepts(members, |chain|, target, p, es) && Accepts(members, |chain|, target, p, es')
    ensures exists e, e' :: e in es && e' in es' && e.org == e'.org && members(e) == Some(ROLE_ADMIN) == members(e')
  {
    var a, b := CountedOrgs(members, {}, {ROLE_ADMIN}, es), CountedOrgs(members, {}, {ROLE_ADMIN}, es');
    Pigeonhole(a, b, chain);
    var org :| org in a * b;
    var e :| e in es && Counts(members, {}, {ROLE_ADMIN}, e) && e.org == org;
    var e' :| e' in es' && Counts(members, {}, {ROLE_ADMIN}, e') && e'.org == org;
  }
}
