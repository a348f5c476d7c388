/** Merging what several hosts return for one box. */
module HostMerge {
  import opened Prelude
  import opened DeliveryPaths
  import opened ListMessages

  /** One host's copy of a message, and the wallet's answer if processing that copy called it. */
  datatype Copy = Copy(stored: ServerPeerMessage, answer: WalletAnswer)

  /** A host either returned a page or failed. */
  type HostResult = Option<seq<Copy>>

  function Id(c: Copy): string {
    c.stored.messageId
  }

  function Ids(copies: seq<Copy>): set<string> {
    set c | c in copies :: Id(c)
  }

  /** The pages of the hosts that answered, one after the other. */
  function Flatten(results: seq<HostResult>): seq<Copy> {
    if results == [] then []
    else Flatten(results[..|results| - 1]) + (match results[|results| - 1] case Some(page) => page case None => [])
  }

  /** Each id at its first occurrence. */
  function FirstSeen(copies: seq<Copy>): seq<Copy> {
    if copies == [] then []
    else
      var before, c := copies[..|copies| - 1], copies[|copies| - 1];
      FirstSeen(before) + if Id(c) in Ids(before) then [] else [c]
  }

  predicate AllFailed(results: seq<HostResult>) {
    forall i :: 0 <= i < |results| ==> results[i].None?
  }

  ghost predicate DistinctIds(copies: seq<Copy>) {
    forall i, j :: 0 <= i < j < |copies| ==> Id(copies[i]) != Id(copies[j])
  }

  /** What listing returns when some host answered: a single host's page is not filtered. */
  function Merged(results: seq<HostResult>): seq<Copy> {
    if |results| == 1 then Flatten(results) else FirstSeen(Flatten(results))
  }

  /**
   The fan-out: a single host's page is returned as it came; from several hosts the successful pages are
   joined and filtered through a `seen` set. Fails exactly when there was no successful page.
   */
  method ListFromHosts(results: seq<HostResult>) returns (r: Option<seq<Copy>>)
    requires results != []
    ensures r.None? <==> AllFailed(results)
    ensures r.Some? ==> r.value == Merged(results)
  {
    if |results| == 1 {
      assert results[..0] == [] && Flatten(results[..0]) == [];
      return results[0];
    }
    var joined, anyOk := JoinPages(results);
    if !anyOk { return None; }
    var kept := KeepFirstSeen(joined);
    return Some(kept);
  }

  method JoinPages(results: seq<HostResult>) returns (joined: seq<Copy>, anyOk: bool)
    ensures joined == Flatten(results) && (anyOk <==> !AllFailed(results))
  {
    joined, anyOk := [], false;
    for i := 0 to |results|
      invariant joined == Flatten(results[..i])
      invariant anyOk <==> !AllFailed(results[..i])
    {
      assert results[..i + 1][..i] == results[..i];
      if results[i].Some? {
        joined, anyOk := joined + results[i].value, true;
      }
    }
    assert results[..|results|] == results;
  }

  method KeepFirstSeen(joined: seq<Copy>) returns (kept: seq<Copy>)
    ensures kept == FirstSeen(joined)
  {
    var seen: set<string> := {};
    kept := [];
    for i := 0 to |joined|
      invariant seen == Ids(joined[..i]) && kept == FirstSeen(joined[..i])
    {
      FirstSeenSnoc(joined, i);
      if Id(joined[i]) !in seen {
        seen := seen + {Id(joined[i])};
        kept := kept + [joined[i]];
      }
    }
    assert joined[..|joined|] == joined;
  }

  lemma FirstSeenSnoc(copies: seq<Copy>, i: nat)
    requires i < |copies|
    ensures Ids(copies[..i + 1]) == Ids(copies[..i]) + {Id(copies[i])}
    ensures FirstSeen(copies[..i + 1]) == FirstSeen(copies[..i]) + if Id(copies[i]) in Ids(copies[..i]) then [] else [copies[i]]
  {
    assert copies[..i + 1] == copies[..i] + [copies[i]];
    assert copies[..i + 1][..i] == copies[..i];
  }

  lemma {:induction false} FlattenIsUnion(results: seq<HostResult>, c: Copy)
    ensures c in Flatten(results) <==> exists i :: 0 <= i < |results| && results[i].Some? && c in results[i].value
  {
    if results != [] {
      var before, last := results[..|results| - 1], results[|results| - 1];
      FlattenIsUnion(before, c);
      if i :| 0 <= i < |results| && results[i].Some? && c in results[i].value {
        assert i < |before| ==> before[i] == results[i];
      }
    }
  }

  lemma {:induction false} FirstSeenKeepsEachIdOnce(copies: seq<Copy>)
    ensures DistinctIds(FirstSeen(copies)) && Ids(FirstSeen(copies)) == Ids(copies)
    ensures forall c :: c in FirstSeen(copies) ==> c in copies
  {
    if copies != [] {
      var before, c := copies[..|copies| - 1], copies[|copies| - 1];
      FirstSeenKeepsEachIdOnce(before);
      assert copies == before + [c];
      assert Ids(copies) == Ids(before) + {Id(c)};
      assert Ids(FirstSeen(before) + [c]) == Ids(FirstSeen(before)) + {Id(c)};
      forall k | 0 <= k < |FirstSeen(before)| ensures Id(FirstSeen(before)[k]) in Ids(before) {
        assert FirstSeen(before)[k] in FirstSeen(before);
      }
    }
  }

  /** Where an id first appears. */
  ghost predicate FirstAt(copies: seq<Copy>, i: nat) {
    i < |copies| && forall j :: 0 <= j < i ==> Id(copies[j]) != Id(copies[i])
  }

  /** `kept` is what stands at the positions `at`: all the first occurrences, left to right. */
  ghost predicate FirstOnes(copies: seq<Copy>, kept: seq<Copy>, at: seq<nat>) {
    && |at| == |kept| && (forall k :: 0 <= k < |at| ==> FirstAt(copies, at[k]) && kept[k] == copies[at[k]])
    && (forall k, m :: 0 <= k < m < |at| ==> at[k] < at[m])
    && (forall i: nat :: FirstAt(copies, i) ==> i in at)
  }

  lemma FirstAtSnoc(before: seq<Copy>, c: Copy, i: nat)
    ensures i < |before| ==> (FirstAt(before + [c], i) <==> FirstAt(before, i))
    ensures FirstAt(before + [c], |before|) <==> Id(c) !in Ids(before)
  {
    assert forall j :: 0 <= j < |before| ==> before[j] == (before + [c])[j];
    if x :| x in before && Id(x) == Id(c) {
      var j :| 0 <= j < |before| && before[j] == x;
      assert (before + [c])[j] == x;
    }
    forall j | 0 <= j < |before| ensures Id((before + [c])[j]) in Ids(before) {
      assert (before + [c])[j] == before[j] && before[j] in before;
    }
  }

  lemma FirstOnesSnoc(before: seq<Copy>, c: Copy, kept: seq<Copy>, at: seq<nat>)
    requires FirstOnes(before, kept, at)
    ensures if Id(c) in Ids(before) then FirstOnes(before + [c], kept, at)
            else FirstOnes(before + [c], kept + [c], at + [|before|])
  {
    forall i: nat
      ensures i < |before| ==> (FirstAt(before + [c], i) <==> FirstAt(before, i))
      ensures FirstAt(before + [c], |before|) <==> Id(c) !in Ids(before)
    {
      FirstAtSnoc(before, c, i);
    }
    if Id(c) !in Ids(before) {
      forall i: nat | FirstAt(before + [c], i) ensures i in at + [|before|] {
        assert i < |before| || (at + [|before|])[|at|] == i;
      }
    }
  }

  /** What is kept is exactly the first occurrences, in their original order. */
  lemma {:induction false} FirstSeenIsOrdered(copies: seq<Copy>) returns (at: seq<nat>)
    ensures FirstOnes(copies, FirstSeen(copies), at)
  {
    if copies == [] { return []; }
    var before, c := copies[..|copies| - 1], copies[|copies| - 1];
    assert copies == before + [c];
    at := FirstSeenIsOrdered(before);
    FirstOnesSnoc(before, c, FirstSeen(before), at);
    if Id(c) !in Ids(before) {
      at := at + [|before|];
    }
  }

  // ---- Whose receipt is kept ----

  lemma FlattenOne(results: seq<HostResult>, page: seq<Copy>)
    ensures Flatten(results + [Some(page)]) == Flatten(results) + page
    ensures Flatten(results + [None]) == Flatten(results)
  {
    assert (results + [Some(page)])[..|results|] == results;
    assert (results + [None])[..|results|] == results;
  }

  /** Pages are joined in the order in which their hosts are visited, and stay as they were sent. */
  lemma {:induction false} FlattenInOrder(a: seq<HostResult>, b: seq<HostResult>, page: seq<Copy>)
    ensures Flatten(a + b) == Flatten(a) + Flatten(b) && Flatten([Some(page)]) == page
  {
    assert [] + [Some(page)] == [Some(page)];
    FlattenOne([], page);
    if b == [] {
      assert a + b == a;
    } else {
      var early, last := b[..|b| - 1], b[|b| - 1];
      FlattenInOrder(a, early, page);
      assert a + b == (a + early) + [last] && b == early + [last];
      var own := if last.Some? then last.value else [];
      FlattenOne(a + early, own);
      FlattenOne(early, own);
      Joins(Flatten(a), Flatten(early), own);
    }
  }

  lemma Joins(a: seq<Copy>, b: seq<Copy>, c: seq<Copy>)
    ensures (a + b) + c == a + (b + c)
  {
  }

  ghost predicate Lists(r: HostResult, id: string) {
    r.Some? && exists c :: c in r.value && Id(c) == id
  }

  /** Copy `k` of host `i`'s page has an id that no host visited before listed, nor this page before it. */
  ghost predicate FirstToList(results: seq<HostResult>, i: nat, k: nat, c: Copy) {
    && i < |results| && results[i].Some? && k < |results[i].value| && results[i].value[k] == c
    && (forall m :: 0 <= m < i ==> !Lists(results[m], Id(c)))
    && (forall m :: 0 <= m < k ==> Id(results[i].value[m]) != Id(c))
  }

  lemma {:induction false} FirstSeenOfTwo(before: seq<Copy>, page: seq<Copy>, c: Copy)
    ensures c in FirstSeen(before + page) <==> c in FirstSeen(before) || (c in FirstSeen(page) && Id(c) !in Ids(before))
  {
    if page == [] {
      assert before + page == before;
    } else {
      var early, last := page[..|page| - 1], page[|page| - 1];
      FirstSeenOfTwo(before, early, c);
      assert (before + page)[..|before + page| - 1] == before + early;
      assert Id(last) in Ids(before + early) <==> Id(last) in Ids(before) || Id(last) in Ids(early) by {
        assert forall x :: x in before + early <==> x in before || x in early;
      }
    }
  }

  ghost predicate FirstOnPage(page: seq<Copy>, k: nat, c: Copy) {
    k < |page| && page[k] == c && forall m :: 0 <= m < k ==> Id(page[m]) != Id(c)
  }

  lemma FirstSeenOnPage(page: seq<Copy>, c: Copy)
    ensures c in FirstSeen(page) <==> exists k: nat :: FirstOnPage(page, k, c)
  {
    var at := FirstSeenIsOrdered(page);
    if k: nat :| FirstOnPage(page, k, c) {
      assert FirstAt(page, k);
    }
    if c in FirstSeen(page) {
      var i :| 0 <= i < |at| && FirstSeen(page)[i] == c;
      assert FirstOnPage(page, at[i], c);
    }
  }

  /** Over several hosts: the receipt kept of an id is the first one of the first host visited that lists it. */
  lemma {:induction false} FirstHostWins(results: seq<HostResult>, c: Copy)
    ensures c in FirstSeen(Flatten(results)) <==> exists i: nat, k: nat :: FirstToList(results, i, k, c)
  {
    if results == [] { return; }
    var before, r := results[..|results| - 1], results[|results| - 1];
    assert results == before + [r];
    FirstHostWins(before, c);
    FirstToListSnoc(before, r, c);
    if r.Some? {
      FirstSeenOfTwo(Flatten(before), r.value, c);
      FirstSeenOnPage(r.value, c);
      NoneLists(before, Id(c));
      assert Flatten(results) == Flatten(before) + r.value;
    } else {
      assert Flatten(results) == Flatten(before) + [] == Flatten(before);
    }
  }

  lemma FirstToListSnoc(before: seq<HostResult>, r: HostResult, c: Copy)
    ensures (exists i: nat, k: nat :: FirstToList(before + [r], i, k, c)) <==>
      || (exists i: nat, k: nat :: FirstToList(before, i, k, c))
      || (&& r.Some? && (forall m :: 0 <= m < |before| ==> !Lists(before[m], Id(c)))
          && exists k: nat :: FirstOnPage(r.value, k, c))
  {
    var all := before + [r];
    assert forall i :: 0 <= i < |before| ==> all[i] == before[i];
    if i: nat, k: nat :| FirstToList(all, i, k, c) {
      assert if i < |before| then FirstToList(before, i, k, c) else FirstOnPage(r.value, k, c);
    }
    if i: nat, k: nat :| FirstToList(before, i, k, c) {
      assert FirstToList(all, i, k, c);
    }
    if k: nat :| r.Some? && (forall m :: 0 <= m < |before| ==> !Lists(before[m], Id(c))) && FirstOnPage(r.value, k, c) {
      assert FirstToList(all, |before|, k, c);
    }
  }

  lemma NoneLists(results: seq<HostResult>, id: string)
    ensures id in Ids(Flatten(results)) <==> exists i :: 0 <= i < |results| && Lists(results[i], id)
  {
    if c :| c in Flatten(results) && Id(c) == id {
      FlattenIsUnion(results, c);
      var i :| 0 <= i < |results| && results[i].Some? && c in results[i].value;
      assert Lists(results[i], id);
    }
    if i :| 0 <= i < |results| && Lists(results[i], id) {
      var c :| c in results[i].value && Id(c) == id;
      FlattenIsUnion(results, c);
    }
  }

  // ---- Independence of the order in which hosts are visited ----

  lemma SameHostsSameCopies(a: seq<HostResult>, b: seq<HostResult>)
    requires multiset(a) == multiset(b)
    ensures Elements(Flatten(a)) == Elements(Flatten(b)) && Ids(Flatten(a)) == Ids(Flatten(b))
  {
    forall c ensures c in Flatten(a) <==> c in Flatten(b) {
      FlattenIsUnion(a, c);
      FlattenIsUnion(b, c);
      SameElements(a, b);
      if i :| 0 <= i < |a| && a[i].Some? && c in a[i].value {
        assert a[i] in b;
      }
      if i :| 0 <= i < |b| && b[i].Some? && c in b[i].value {
        assert b[i] in a;
      }
    }
  }

  lemma SameElements<T>(a: seq<T>, b: seq<T>)
    requires multiset(a) == multiset(b)
    ensures forall x :: x in a <==> x in b
  {
    forall x ensures x in a <==> x in b {
      assert x in a <==> x in multiset(a);
      assert x in b <==> x in multiset(b);
    }
  }

  /** Hosts that agree hold, and get answered, the same thing under the same id. */
  ghost predicate Agree(copies: seq<Copy>) {
    forall a, b :: a in copies && b in copies && Id(a) == Id(b) ==> a == b
  }

  lemma {:induction false} DistinctCounts(copies: seq<Copy>, c: Copy)
    requires DistinctIds(copies)
    ensures multiset(copies)[c] == if c in copies then 1 else 0
  {
    if copies != [] {
      var before, last := copies[..|copies| - 1], copies[|copies| - 1];
      assert copies == before + [last];
      DistinctCounts(before, c);
    }
  }

  /** Filtering the joined pages leaves the same ids whatever the order, and the same receipts when hosts agree. */
  lemma FilterIgnoresHostOrder(a: seq<HostResult>, b: seq<HostResult>)
    requires multiset(a) == multiset(b)
    ensures Ids(FirstSeen(Flatten(a))) == Ids(Flatten(a)) == Ids(FirstSeen(Flatten(b)))
    ensures Agree(Flatten(a)) ==> multiset(FirstSeen(Flatten(a))) == multiset(FirstSeen(Flatten(b)))
  {
    SameHostsSameCopies(a, b);
    FirstSeenKeepsEachIdOnce(Flatten(a));
    FirstSeenKeepsEachIdOnce(Flatten(b));
    if Agree(Flatten(a)) {
      forall c ensures multiset(FirstSeen(Flatten(a)))[c] == multiset(FirstSeen(Flatten(b)))[c] {
        DistinctCounts(FirstSeen(Flatten(a)), c);
        DistinctCounts(FirstSeen(Flatten(b)), c);
        AgreeingMergeIsAll(Flatten(a), c);
        assert c in Flatten(a) <==> c in Elements(Flatten(a));
        assert c in Flatten(b) <==> c in Elements(Flatten(b));
        assert Agree(Flatten(b)) by {
          assert forall x :: x in Flatten(b) ==> x in Elements(Flatten(a));
        }
        AgreeingMergeIsAll(Flatten(b), c);
      }
    }
  }

  /**
   What listing returns, over any number of hosts: every id of every host that answered; no id twice, except
   that a single host's page is as distinct as the host sent it; and nothing depends on the order in which
   the hosts are visited: the ids never do, and when hosts agree neither do the receipts.
   */
  lemma MergeIgnoresHostOrder(a: seq<HostResult>, b: seq<HostResult>)
    requires multiset(a) == multiset(b)
    ensures DistinctIds(Merged(a)) <==> |a| != 1 || DistinctIds(Flatten(a))
    ensures Ids(Merged(a)) == Ids(Flatten(a)) == Ids(Merged(b))
    ensures Agree(Flatten(a)) ==> multiset(Merged(a)) == multiset(Merged(b))
  {
    assert |multiset(a)| == |a| && |multiset(b)| == |b|;
    FirstSeenKeepsEachIdOnce(Flatten(a));
    if |a| == 1 {
      assert a[0] in multiset(a) && a[0] in multiset(b);
      assert a == b;
    } else {
      FilterIgnoresHostOrder(a, b);
    }
  }

  lemma AgreeingMergeIsAll(copies: seq<Copy>, c: Copy)
    requires Agree(copies)
    ensures c in FirstSeen(copies) <==> c in copies
  {
    FirstSeenKeepsEachIdOnce(copies);
    if c in copies {
      assert Id(c) in Ids(FirstSeen(copies));
      var k :| k in FirstSeen(copies) && Id(k) == Id(c);
    }
  }

  // ---- Acknowledging what was listed ----

  /** The ids a caller acknowledges when it takes exactly the receipts whose payment is safe. */
  function SafeIds(cx: Context, receipts: seq<Copy>, accept: bool): set<string> {
    set c | c in receipts && Outcome(cx, c.stored.body, accept, c.answer).IsSafe() :: Id(c)
  }

  ghost predicate SameContent(copies: seq<Copy>) {
    forall a, b :: a in copies && b in copies && Id(a) == Id(b) ==> a.stored.body == b.stored.body
  }

  /** The wallet accepted this body's whole payment in one call while some host's copy was being listed. */
  ghost predicate PaymentStored(cx: Context, copies: seq<Copy>, accept: bool, raw: string) {
    exists c :: c in copies && c.stored.body == raw && accept && c.answer == Accepts && PayableArgs(cx, raw).Some?
  }

  /**
   When hosts agree on the content of an id, an acknowledgement of exactly the safe receipts, fanned out to
   every host, removes no copy of a non-null payment that the wallet did not accept whole.
   */
  lemma SafeAcksLoseNoPayment(cx: Context, results: seq<HostResult>, receipts: seq<Copy>, accept: bool, copy: Copy)
    requires receipts == Merged(results)
    requires SameContent(Flatten(results)) && copy in Flatten(results)
    requires Id(copy) in SafeIds(cx, receipts, accept)
    ensures PaymentMember(cx.env, copy.stored.body).None? || PaymentStored(cx, Flatten(results), accept, copy.stored.body)
  {
    FirstSeenKeepsEachIdOnce(Flatten(results));
    var kept :| kept in receipts && Id(kept) == Id(copy) && Outcome(cx, kept.stored.body, accept, kept.answer).IsSafe();
    SafeMeansStored(cx, kept.stored.body, accept, kept.answer);
    assert kept.stored.body == copy.stored.body;
  }
}
