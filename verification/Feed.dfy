/** One-to-many delivery: the select cases of a feed, permuted in place while a value is sent. */
module Feed {
  type Chan = nat

  /** A select case: the receive case for removals, or a subscribed channel. */
  datatype Case = RemoveSub | Sub(ch: Chan)

  const FIRST_SUB_SEND_CASE := 1

  /** Slot 0 is the removal case, all others are channels. */
  predicate Ordered(cs: seq<Case>) {
    |cs| >= 1 && cs[0] == RemoveSub && forall i :: 1 <= i < |cs| ==> cs[i].Sub?
  }

  function Deleted(cs: seq<Case>, index: nat): seq<Case>
    requires index < |cs|
  {
    cs[..index] + cs[index + 1..]
  }

  function Swapped(cs: seq<Case>, i: nat, j: nat): seq<Case>
    requires i < |cs| && j < |cs|
  {
    cs[i := cs[j]][j := cs[i]]
  }

  method Find(cs: seq<Case>, ch: Chan) returns (index: int)
    ensures -1 <= index < |cs|
    ensures index == -1 ==> Sub(ch) !in cs
    ensures index >= 0 ==> cs[index] == Sub(ch) && Sub(ch) !in cs[..index]
  {
    for i := 0 to |cs|
      invariant Sub(ch) !in cs[..i]
    {
      if cs[i] == Sub(ch) {
        return i;
      }
    }
    index := -1;
  }

  lemma TakeOne(a: seq<Case>, x: Case, b: seq<Case>)
    ensures multiset(a + b) + multiset{x} == multiset(a + [x] + b)
  {
  }

  lemma Exchange(a: seq<Case>, x: Case, b: seq<Case>, y: Case)
    ensures multiset(a + [y] + b) + multiset{x} == multiset(a + [x] + b + [y])
  {
    TakeOne(a, y, b);
    TakeOne(a, x, b);
  }

  /** Deleting from a list takes the element once. */
  lemma DeleteTakesOne(cs: seq<Case>, index: nat, hi: nat)
    requires 1 <= index < hi <= |cs|
    ensures multiset(Deleted(cs, index)[1..hi - 1]) + multiset{cs[index]} == multiset(cs[1..hi])
  {
    TakeOne(cs[1..index], cs[index], cs[index + 1..hi]);
    assert Deleted(cs, index)[1..hi - 1] == cs[1..index] + cs[index + 1..hi];
    assert cs[1..hi] == cs[1..index] + [cs[index]] + cs[index + 1..hi];
  }

  /** Deleting a channel takes it once from the list, and once from the active prefix if it was there. */
  lemma DeleteTakes(cs: seq<Case>, index: nat, n: nat)
    requires 1 <= index < |cs| && 1 <= n <= |cs|
    ensures multiset(Deleted(cs, index)[1..]) + multiset{cs[index]} == multiset(cs[1..])
    ensures index < n ==> multiset(Deleted(cs, index)[1..n - 1]) + multiset{cs[index]} == multiset(cs[1..n])
    ensures n <= index ==> n < |cs| && Deleted(cs, index)[1..n] == cs[1..n]
  {
    DeleteTakesOne(cs, index, |cs|);
    assert cs[1..|cs|] == cs[1..] && Deleted(cs, index)[1..|cs| - 1] == Deleted(cs, index)[1..];
    if index < n {
      DeleteTakesOne(cs, index, n);
    }
  }

  lemma SwapShape(cs: seq<Case>, i: nat, last: nat)
    requires 1 <= i < last < |cs|
    ensures Swapped(cs, i, last)[1..last] == cs[1..i] + [cs[last]] + cs[i + 1..last]
    ensures cs[1..last + 1] == cs[1..i] + [cs[i]] + cs[i + 1..last] + [cs[last]]
  {
  }

  lemma SwapSame(cs: seq<Case>, last: nat)
    requires 1 <= last < |cs|
    ensures Swapped(cs, last, last)[1..last] == cs[1..last] + []
    ensures cs[1..last + 1] == cs[1..last] + [cs[last]] + []
  {
  }

  /** Deactivating takes one channel from the active prefix. */
  lemma DeactivateTakes(cs: seq<Case>, i: nat, last: nat)
    requires 1 <= i <= last < |cs|
    ensures multiset(Swapped(cs, i, last)[1..last]) + multiset{cs[i]} == multiset(cs[1..last + 1])
  {
    if i == last {
      SwapSame(cs, i);
      TakeOne(cs[1..i], cs[i], []);
    } else {
      SwapShape(cs, i, last);
      Exchange(cs[1..i], cs[i], cs[i + 1..last], cs[last]);
    }
  }

  lemma Joined(a: seq<Case>, x: Case, b: seq<Case>)
    ensures multiset(a + [x] + b) == multiset(a) + multiset{x} + multiset(b)
  {
  }

  lemma SwapTail(cs: seq<Case>, i: nat, last: nat)
    requires 1 <= i <= last < |cs|
    ensures Swapped(cs, i, last)[1..] == Swapped(cs, i, last)[1..last] + [cs[i]] + cs[last + 1..]
  {
  }

  lemma CutTail(cs: seq<Case>, last: nat)
    requires 1 <= last < |cs|
    ensures cs[1..] == cs[1..last + 1] + cs[last + 1..]
  {
  }

  /** It keeps the list. */
  lemma DeactivateKeeps(cs: seq<Case>, i: nat, last: nat)
    requires 1 <= i <= last < |cs|
    ensures multiset(Swapped(cs, i, last)[1..]) == multiset(cs[1..])
  {
    DeactivateTakes(cs, i, last);
    var cs' := Swapped(cs, i, last);
    Joined(cs'[1..last], cs[i], cs[last + 1..]);
    SwapTail(cs, i, last);
    CutTail(cs, last);
  }

  /** While a value is sent: the first `n` cases are active.  Every channel of `all` is active, or got the value, or was
      dropped before it got it; and it is still listed, or was removed. */
  ghost predicate Sending(cs: seq<Case>, n: nat, sent: seq<Case>, dropped: multiset<Case>, removed: multiset<Case>,
                          all: multiset<Case>)
  {
    && Ordered(cs) && 1 <= n <= |cs|
    && multiset(cs[1..n]) + multiset(sent) + dropped == all
    && multiset(cs[1..]) + removed == all
    && dropped <= removed
  }

  lemma BagAppend(s: seq<Case>, x: Case)
    ensures multiset(s + [x]) == multiset(s) + multiset{x}
  {
  }

  lemma SendStep(cs: seq<Case>, i: nat, last: nat, sent: seq<Case>, dropped: multiset<Case>, removed: multiset<Case>,
                 all: multiset<Case>)
    requires Sending(cs, last + 1, sent, dropped, removed, all) && 1 <= i <= last
    ensures Sending(Swapped(cs, i, last), last, sent + [cs[i]], dropped, removed, all)
  {
    DeactivateTakes(cs, i, last);
    DeactivateKeeps(cs, i, last);
    BagAppend(sent, cs[i]);
  }

  lemma RemoveStep(cs: seq<Case>, index: nat, n: nat, sent: seq<Case>, dropped: multiset<Case>, removed: multiset<Case>,
                   all: multiset<Case>)
    requires Sending(cs, n, sent, dropped, removed, all) && 1 <= index < |cs|
    ensures var x := multiset{cs[index]};
            if index < n then Sending(Deleted(cs, index), n - 1, sent, dropped + x, removed + x, all)
            else Sending(Deleted(cs, index), n, sent, dropped, removed + x, all)
  {
    DeleteTakes(cs, index, n);
  }

  /** Nobody is active any more. */
  lemma Delivered(cs: seq<Case>, sent: seq<Case>, dropped: multiset<Case>, removed: multiset<Case>, all: multiset<Case>)
    requires Sending(cs, 1, sent, dropped, removed, all)
    ensures multiset(sent) + dropped == all && dropped <= removed <= all
    ensures multiset(cs[1..]) == all - removed
    ensures forall c :: multiset(sent)[c] <= all[c] && (c !in removed ==> multiset(sent)[c] == all[c])
  {
    assert cs[1..1] == [];
  }

  /** The first `r` requests to unsubscribe, as the cases they remove. */
  ghost function Asked(requests: seq<Chan>, r: nat): multiset<Case>
    requires r <= |requests|
  {
    if r == 0 then multiset{} else Asked(requests, r - 1) + multiset{Sub(requests[r - 1])}
  }

  lemma {:induction false} AskedMore(requests: seq<Chan>, r: nat, n: nat)
    requires r <= n <= |requests|
    ensures Asked(requests, r) <= Asked(requests, n)
    decreases n
  {
    if r == n {
    } else {
      AskedMore(requests, r, n - 1);
    }
  }

  /** `removed` are those that the first `r` requests remove. */
  ghost predicate Taken(requests: seq<Chan>, r: nat, removed: multiset<Case>) {
    r <= |requests| && removed == Asked(requests, r)
  }

  /** Every request is of a subscription of its own. */
  ghost predicate OwnRequests(requests: seq<Chan>, all: multiset<Case>) {
    Asked(requests, |requests|) <= all
  }

  /** The channel of the next request is still listed. */
  lemma NextListed(cs: seq<Case>, n: nat, sent: seq<Case>, dropped: multiset<Case>, removed: multiset<Case>,
                   all: multiset<Case>, requests: seq<Chan>, r: nat)
    requires Sending(cs, n, sent, dropped, removed, all) && OwnRequests(requests, all)
    requires r < |requests| && Taken(requests, r, removed)
    ensures Sub(requests[r]) in cs
  {
    var x := Sub(requests[r]);
    AskedMore(requests, r + 1, |requests|);
    assert Asked(requests, r + 1)[x] <= all[x] && Asked(requests, r + 1)[x] == removed[x] + 1;
    assert x in multiset(cs[1..]);
  }

  lemma NobodyLeft(cs: seq<Case>, sent: seq<Case>, dropped: multiset<Case>, removed: multiset<Case>, all: multiset<Case>)
    requires Sending(cs, 1, sent, dropped, removed, all) && removed == multiset{}
    ensures multiset(sent) == all && multiset(cs[1..]) == all
  {
    assert cs[1..1] == [];
    assert dropped == multiset{};
  }

  class Feed {
    var inbox: seq<Case>
    /** The active select cases. */
    var sendCases: seq<Case>

    ghost predicate Valid()
      reads this
    {
      Ordered(sendCases) && forall i :: 0 <= i < |inbox| ==> inbox[i].Sub?
    }

    ghost function Subscribers(): multiset<Case>
      requires Valid()
      reads this
    {
      multiset(sendCases[1..]) + multiset(inbox)
    }

    constructor ()
      ensures Valid() && Subscribers() == multiset{}
    {
      inbox, sendCases := [], [RemoveSub];
    }

    method Subscribe(ch: Chan)
      requires Valid()
      modifies this`inbox
      ensures Valid() && Subscribers() == old(Subscribers()) + multiset{Sub(ch)}
    {
      inbox := inbox + [Sub(ch)];
    }

    /** Unsubscribing while no value is being sent. */
    method Remove(ch: Chan)
      requires Valid() && Sub(ch) in Subscribers()
      modifies this
      ensures Valid() && Subscribers() == old(Subscribers()) - multiset{Sub(ch)}
      ensures Sub(ch) in old(inbox) ==> sendCases == old(sendCases)
    {
      var index := Find(inbox, ch);
      if index != -1 {
        TakeOne(inbox[..index], inbox[index], inbox[index + 1..]);
        assert inbox == inbox[..index] + [inbox[index]] + inbox[index + 1..];
        inbox := Deleted(inbox, index);
        return;
      }
      assert Sub(ch) in multiset(sendCases[1..]);
      index := Find(sendCases, ch);
      DeleteTakes(sendCases, index, 1);
      sendCases := Deleted(sendCases, index);
    }

    /** The inbox joins the list. */
    method TakeInbox()
      requires Valid()
      modifies this
      ensures Sending(sendCases, |sendCases|, [], multiset{}, multiset{}, old(Subscribers())) && inbox == []
    {
      assert (sendCases + inbox)[1..] == sendCases[1..] + inbox;
      sendCases, inbox := sendCases + inbox, [];
      assert sendCases[1..|sendCases|] == sendCases[1..];
    }

    /** The active channel `chosen` gets the value and leaves the active prefix. */
    method Deliver(chosen: nat, n: nat, nsent: nat, sent: seq<Case>, ghost dropped: multiset<Case>,
                   ghost removed: multiset<Case>, ghost all: multiset<Case>) returns (n': nat, nsent': nat, sent': seq<Case>)
      requires Sending(sendCases, n, sent, dropped, removed, all) && nsent == |sent| && 1 <= chosen < n
      modifies this`sendCases
      ensures Sending(sendCases, n', sent', dropped, removed, all) && nsent' == |sent'|
      ensures |sendCases| == |old(sendCases)| && n' == n - 1 && nsent' == nsent + 1 && sent' == sent + [old(sendCases)[chosen]]
    {
      n' := n - 1;
      SendStep(sendCases, chosen, n', sent, dropped, removed, all);
      sent', nsent' := sent + [sendCases[chosen]], nsent + 1;
      sendCases := Swapped(sendCases, chosen, n');
    }

    /** The fast path: each active channel that is ready gets the value. */
    method TrySendAll(n: nat, nsent: nat, sent: seq<Case>, ghost dropped: multiset<Case>, ghost removed: multiset<Case>,
                      ghost all: multiset<Case>) returns (n': nat, nsent': nat, sent': seq<Case>)
      requires Sending(sendCases, n, sent, dropped, removed, all) && nsent == |sent|
      modifies this`sendCases
      ensures Sending(sendCases, n', sent', dropped, removed, all) && nsent' == |sent'|
      ensures |sendCases| == |old(sendCases)| && n' <= n
    {
      n', nsent', sent' := n, nsent, sent;
      var i := FIRST_SUB_SEND_CASE;
      while i < n'
        invariant 1 <= i && n' <= n && nsent' == |sent'|
        invariant Sending(sendCases, n', sent', dropped, removed, all) && |sendCases| == |old(sendCases)|
        decreases n' - i
      {
        var ready: bool := *;
        if ready {
          n', nsent', sent' := Deliver(i, n', nsent', sent', dropped, removed, all);
        } else {
          i := i + 1;
        }
      }
    }

    /** A removal received by the select. */
    method ReceiveRemoval(ch: Chan, n: nat, sent: seq<Case>, ghost dropped: multiset<Case>, ghost removed: multiset<Case>,
                          ghost all: multiset<Case>)
      returns (n': nat, ghost dropped': multiset<Case>, ghost removed': multiset<Case>)
      requires Sending(sendCases, n, sent, dropped, removed, all) && Sub(ch) in sendCases
      modifies this`sendCases
      ensures Sending(sendCases, n', sent, dropped', removed', all)
      ensures |sendCases| < |old(sendCases)| && n' <= n && removed' == removed + multiset{Sub(ch)}
    {
      n', dropped', removed' := n, dropped, removed + multiset{Sub(ch)};
      var index := Find(sendCases, ch);
      RemoveStep(sendCases, index, n, sent, dropped, removed, all);
      if index < n {
        dropped' := dropped + multiset{Sub(ch)};
        n' := n - 1;
      }
      sendCases := Deleted(sendCases, index);
    }

    /** The select receives the next request to unsubscribe. */
    method TakeRequest(n: nat, nsent: nat, sent: seq<Case>, requests: seq<Chan>, r: nat, ghost dropped: multiset<Case>,
                       ghost removed: multiset<Case>, ghost all: multiset<Case>)
      returns (n': nat, nsent': nat, sent': seq<Case>, r': nat, ghost dropped': multiset<Case>, ghost removed': multiset<Case>)
      requires Sending(sendCases, n, sent, dropped, removed, all) && nsent == |sent|
      requires OwnRequests(requests, all) && r < |requests| && Taken(requests, r, removed)
      modifies this`sendCases
      ensures Sending(sendCases, n', sent', dropped', removed', all) && nsent' == |sent'|
      ensures |sendCases| + n' < |old(sendCases)| + n
      ensures Taken(requests, r', removed') && r' == r + 1 && nsent' == nsent && sent' == sent
    {
      NextListed(sendCases, n, sent, dropped, removed, all, requests, r);
      n', dropped', removed' := ReceiveRemoval(requests[r], n, sent, dropped, removed, all);
      nsent', sent', r' := nsent, sent, r + 1;
    }

    /** The select finds some active channel ready, which gets the value. */
    method DeliverOne(n: nat, nsent: nat, sent: seq<Case>, ghost dropped: multiset<Case>, ghost removed: multiset<Case>,
                      ghost all: multiset<Case>) returns (n': nat, nsent': nat, sent': seq<Case>)
      requires Sending(sendCases, n, sent, dropped, removed, all) && nsent == |sent| && n > FIRST_SUB_SEND_CASE
      modifies this`sendCases
      ensures Sending(sendCases, n', sent', dropped, removed, all) && nsent' == |sent'|
      ensures |sendCases| + n' < |old(sendCases)| + n && nsent' == nsent + 1
    {
      var chosen: nat :| 1 <= chosen < n;
      n', nsent', sent' := Deliver(chosen, n, nsent, sent, dropped, removed, all);
    }

    /** The blocking select: the next request to unsubscribe comes in, or an active channel becomes ready and gets the
        value. */
    method Select(n: nat, nsent: nat, sent: seq<Case>, requests: seq<Chan>, r: nat, ghost dropped: multiset<Case>,
                  ghost removed: multiset<Case>, ghost all: multiset<Case>)
      returns (n': nat, nsent': nat, sent': seq<Case>, r': nat, ghost dropped': multiset<Case>, ghost removed': multiset<Case>)
      requires Sending(sendCases, n, sent, dropped, removed, all) && nsent == |sent| && n > FIRST_SUB_SEND_CASE
      requires OwnRequests(requests, all) && Taken(requests, r, removed)
      modifies this`sendCases
      ensures Sending(sendCases, n', sent', dropped', removed', all) && nsent' == |sent'|
      ensures |sendCases| + n' < |old(sendCases)| + n
      ensures Taken(requests, r', removed') && ((r' == r + 1 && sent' == sent) || (r' == r && nsent' == nsent + 1))
    {
      var removal: bool := *;
      if removal && r < |requests| {
        n', nsent', sent', r', dropped', removed' := TakeRequest(n, nsent, sent, requests, r, dropped, removed, all);
        return;
      }
      r', dropped', removed' := r, dropped, removed;
      n', nsent', sent' := DeliverOne(n, nsent, sent, dropped, removed, all);
    }

    /** Send, while the owners of the `requests` unsubscribe: the first `r` of them come in before it is done.  `sent` has the
        channels in the order they got the value, `removed` those unsubscribed meanwhile, and `dropped` those of them that
        were unsubscribed before they got it.  Others may change the inbox meanwhile. */
    method Send(requests: seq<Chan>)
      returns (nsent: nat, sent: seq<Case>, r: nat, ghost removed: multiset<Case>, ghost dropped: multiset<Case>)
      requires Valid() && OwnRequests(requests, Subscribers())
      modifies this
      ensures Valid() && nsent == |sent| && Taken(requests, r, removed)
      ensures multiset(sent) + dropped == old(Subscribers()) && dropped <= removed <= old(Subscribers())
      ensures multiset(sendCases[1..]) == old(Subscribers()) - removed
      ensures forall c :: multiset(sent)[c] <= old(Subscribers())[c]
      ensures forall c :: c !in removed ==> multiset(sent)[c] == old(Subscribers())[c]
      ensures requests == [] ==> multiset(sent) == old(Subscribers()) && multiset(sendCases[1..]) == old(Subscribers())
    {
      ghost var all := Subscribers();
      TakeInbox();
      nsent, sent, r, removed, dropped := 0, [], 0, multiset{}, multiset{};
      var n: nat := |sendCases|;
      n, nsent, sent := TrySendAll(n, nsent, sent, dropped, removed, all);
      while n != FIRST_SUB_SEND_CASE
        invariant forall i :: 0 <= i < |inbox| ==> inbox[i].Sub?
        invariant Sending(sendCases, n, sent, dropped, removed, all) && nsent == |sent|
        invariant Taken(requests, r, removed)
        decreases |sendCases| + n
      {
        var others: seq<Chan> := *;
        inbox := seq(|others|, i requires 0 <= i < |others| => Sub(others[i]));
        n, nsent, sent, r, dropped, removed := Select(n, nsent, sent, requests, r, dropped, removed, all);
        n, nsent, sent := TrySendAll(n, nsent, sent, dropped, removed, all);
      }
      Delivered(sendCases, sent, dropped, removed, all);
      if requests == [] {
        NobodyLeft(sendCases, sent, dropped, removed, all);
      }
    }
  }
}
