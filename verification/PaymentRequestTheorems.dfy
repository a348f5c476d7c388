/** What a listing of payment requests returns, and what it drops from the relay. */
module PaymentRequestTheorems {
  import opened Prelude
  import opened DeliveryPaths
  import opened PaymentRules
  import opened ListMessages
  import opened PaymentRequests

  /** A listed id with the fate of its message. */
  datatype Tag = Tag(id: string, fate: Fate)

  function Tagged(ms: seq<Listed>, j: Judge): seq<Tag> {
    if ms == [] then [] else Tagged(ms[..|ms| - 1], j) + [Tag(ms[|ms| - 1].id, FateOf(j, ms[|ms| - 1]))]
  }

  function Count(tags: seq<Tag>, f: Fate, id: string): nat {
    if tags == [] then 0 else Count(tags[..|tags| - 1], f, id) + if tags[|tags| - 1] == Tag(id, f) then 1 else 0
  }

  function CountAll(tags: seq<Tag>, id: string): nat {
    if tags == [] then 0 else CountAll(tags[..|tags| - 1], id) + if tags[|tags| - 1].id == id then 1 else 0
  }

  lemma TaggedSnoc(ms: seq<Listed>, j: Judge)
    requires ms != []
    ensures
      var tags := Tagged(ms, j);
      && tags != [] && tags[..|tags| - 1] == Tagged(ms[..|ms| - 1], j)
      && tags[|tags| - 1] == Tag(ms[|ms| - 1].id, FateOf(j, ms[|ms| - 1]))
  {
  }

  lemma {:induction false} CountIsMultiplicity(ms: seq<Listed>, j: Judge, f: Fate, id: string)
    ensures Count(Tagged(ms, j), f, id) == multiset(Ids(With(ms, j, f)))[id]
  {
    if ms != [] {
      assert ms[..|ms|] == ms;
      CountIsMultiplicity(ms[..|ms| - 1], j, f, id);
      TaggedSnoc(ms, j);
      WithIdsSnoc(ms, j, f, |ms| - 1);
      Append(Ids(With(ms[..|ms| - 1], j, f)), ms[|ms| - 1].id, id);
    }
  }

  lemma {:induction false} CountAllIsMultiplicity(ms: seq<Listed>, j: Judge, id: string)
    ensures CountAll(Tagged(ms, j), id) == multiset(Ids(ms))[id]
  {
    if ms != [] {
      CountAllIsMultiplicity(ms[..|ms| - 1], j, id);
      TaggedSnoc(ms, j);
      Append(Ids(ms[..|ms| - 1]), ms[|ms| - 1].id, id);
    }
  }

  /** Every message has one fate, so the fates' counts add up to the occurrences of the id. */
  lemma {:induction false} CountsAddUp(tags: seq<Tag>, id: string)
    ensures
      Count(tags, Active, id) + Count(tags, Expired, id) + Count(tags, CancelledOriginal, id)
      + Count(tags, Cancellation, id) + Count(tags, OutOfRange, id) + Count(tags, Unparsed, id)
      + Count(tags, BadCancellation, id) + Count(tags, BadProof, id) == CountAll(tags, id)
  {
    if tags != [] {
      CountsAddUp(tags[..|tags| - 1], id);
      match tags[|tags| - 1].fate {
        case Unparsed =>
        case BadCancellation =>
        case Cancellation =>
        case Expired =>
        case CancelledOriginal =>
        case OutOfRange =>
        case BadProof =>
        case Active =>
      }
    }
  }

  lemma SevenParts(a: seq<string>, b: seq<string>, c: seq<string>, d: seq<string>, e: seq<string>, f: seq<string>, g: seq<string>,
                   id: string)
    ensures multiset(a + b + c + d + (e + f + g))[id] ==
      multiset(a)[id] + multiset(b)[id] + multiset(c)[id] + multiset(d)[id] + multiset(e)[id] + multiset(f)[id] + multiset(g)[id]
  {
  }

  function RequestIds(rs: seq<IncomingRequest>): (r: seq<string>)
    ensures |r| == |rs|
  {
    if rs == [] then [] else RequestIds(rs[..|rs| - 1]) + [rs[|rs| - 1].messageId]
  }

  lemma {:induction false} RequestIdsAreActiveIds(ms: seq<Listed>, j: Judge)
    ensures RequestIds(ActiveRequests(ms, j)) == Ids(With(ms, j, Active))
  {
    if ms != [] {
      RequestIdsAreActiveIds(ms[..|ms| - 1], j);
      WithIdsSnoc(ms, j, Active, |ms| - 1);
      assert ms[..|ms|] == ms;
      var rs := ActiveRequests(ms, j);
      if FateOf(j, ms[|ms| - 1]) == Active {
        assert rs[..|rs| - 1] == ActiveRequests(ms[..|ms| - 1], j);
      } else {
        assert rs == ActiveRequests(ms[..|ms| - 1], j);
      }
    }
  }

  /** Nothing is both returned and dropped, nothing is neither: the ids returned and acknowledged are the ids listed. */
  lemma ReturnedAndAckedPartition(ms: seq<Listed>, j: Judge)
    ensures multiset(RequestIds(ActiveRequests(ms, j))) + multiset(Acked(ms, j)) == multiset(Ids(ms))
  {
    RequestIdsAreActiveIds(ms, j);
    forall id ensures multiset(Ids(With(ms, j, Active)))[id] + multiset(Acked(ms, j))[id] == multiset(Ids(ms))[id] {
      PartitionAt(ms, j, id);
    }
    Pointwise(multiset(Ids(With(ms, j, Active))), multiset(Acked(ms, j)), multiset(Ids(ms)));
  }

  lemma Pointwise(a: multiset<string>, b: multiset<string>, c: multiset<string>)
    requires forall id :: a[id] + b[id] == c[id]
    ensures a + b == c
  {
  }

  lemma PartitionAt(ms: seq<Listed>, j: Judge, id: string)
    ensures multiset(Ids(With(ms, j, Active)))[id] + multiset(Acked(ms, j))[id] == multiset(Ids(ms))[id]
  {
    CountsAddUp(Tagged(ms, j), id);
    CountAllIsMultiplicity(ms, j, id);
    CountIsMultiplicity(ms, j, Active, id);
    CountIsMultiplicity(ms, j, Expired, id);
    CountIsMultiplicity(ms, j, CancelledOriginal, id);
    CountIsMultiplicity(ms, j, Cancellation, id);
    CountIsMultiplicity(ms, j, OutOfRange, id);
    CountIsMultiplicity(ms, j, Unparsed, id);
    CountIsMultiplicity(ms, j, BadCancellation, id);
    CountIsMultiplicity(ms, j, BadProof, id);
    SevenParts(Ids(With(ms, j, Expired)), Ids(With(ms, j, CancelledOriginal)), Ids(With(ms, j, Cancellation)),
               Ids(With(ms, j, OutOfRange)), Ids(With(ms, j, Unparsed)), Ids(With(ms, j, BadCancellation)),
               Ids(With(ms, j, BadProof)), id);
  }

  /** All three mandatory texts are there, and the proof is whole bytes of hex that the wallet verifies. */
  ghost predicate Proven(m: Listed) {
    && m.body.Some? && m.verified
    && m.body.value.requestId != "" && m.body.value.senderIdentityKey != "" && m.body.value.requestProof != ""
    && |m.body.value.requestProof| % 2 == 0
    && forall i :: 0 <= i < |m.body.value.requestProof| ==> IsHexDigit(m.body.value.requestProof[i])
  }

  /** A verified cancellation of this request id. */
  ghost predicate Cancels(m: Listed, requestId: string) {
    Proven(m) && m.body.value.cancelled == Some(true) && m.body.value.requestId == requestId
  }

  /** The last verified cancellation of `requestId` is at `i`. */
  ghost predicate LastCancellation(ms: seq<Listed>, requestId: string, i: nat) {
    i < |ms| && Cancels(ms[i], requestId) && forall k :: i < k < |ms| ==> !Cancels(ms[k], requestId)
  }

  lemma CancelsMeans(m: Listed, requestId: string)
    ensures Cancels(m, requestId) <==> VerifiedCancellation(m) && m.body.value.requestId == requestId
  {
  }

  /** The map built in stage 2 answers for the last verified cancellation, wherever it sits in the list. */
  lemma {:induction false} CancelMapIsLast(ms: seq<Listed>, requestId: string)
    ensures requestId in CancelMap(ms) <==> exists i: nat :: LastCancellation(ms, requestId, i)
    ensures forall i: nat :: LastCancellation(ms, requestId, i) ==>
      requestId in CancelMap(ms) && CancelMap(ms)[requestId] == ms[i].sender
  {
    if ms == [] { return; }
    var n := |ms| - 1;
    var before := ms[..n];
    CancelMapIsLast(before, requestId);
    CancelsMeans(ms[n], requestId);
    if VerifiedCancellation(ms[n]) && ms[n].body.value.requestId == requestId {
      assert LastCancellation(ms, requestId, n);
    } else {
      forall i: nat ensures LastCancellation(ms, requestId, i) <==> LastCancellation(before, requestId, i) {
        if i < n {
          assert ms[i] == before[i];
          assert forall k :: i < k < n ==> ms[k] == before[k];
        }
      }
    }
  }

  /**
   A message is returned exactly when it is a well-formed request with a valid proof, unexpired, in range, and
   not cancelled by its own sender in the last verified cancellation of that request id.
   */
  lemma ReturnedIff(ms: seq<Listed>, limits: Limits, now: nat, m: Listed)
    ensures FateOf(JudgeOf(ms, limits, now), m) == Active <==>
      && Proven(m) && m.body.value.cancelled != Some(true)
      && m.body.value.amount.Some? && m.body.value.description.Some? && m.body.value.expiresAt.Some?
      && m.body.value.expiresAt.value >= now
      && limits.minAmount <= m.body.value.amount.value <= limits.maxAmount
      && !exists i: nat :: LastCancellation(ms, m.body.value.requestId, i) && ms[i].sender == m.sender
  {
    if m.body.Some? {
      CancelMapIsLast(ms, m.body.value.requestId);
    }
  }

  /** Every field of the record is the listed message's own. */
  ghost predicate IsOf(r: IncomingRequest, m: Listed) {
    && m.body.Some? && r.messageId == m.id && r.sender == m.sender && r.requestId == m.body.value.requestId
    && Some(r.amount) == m.body.value.amount && Some(r.description) == m.body.value.description
    && Some(r.expiresAt) == m.body.value.expiresAt
  }

  /** Every record returned is itself in range and not yet expired. */
  lemma ReturnedAreInRange(ms: seq<Listed>, limits: Limits, now: nat, r: IncomingRequest)
    requires r in ActiveRequests(ms, JudgeOf(ms, limits, now))
    ensures limits.minAmount <= r.amount <= limits.maxAmount && r.expiresAt >= now
  {
    var j := JudgeOf(ms, limits, now);
    var at := ReturnedInOrder(ms, j);
    var k :| 0 <= k < |at| && ActiveRequests(ms, j)[k] == r;
    ReturnedIff(ms, limits, now, ms[at[k]]);
  }

  /** Returned in list order: the active messages, each with its own fields, at increasing positions, none left out. */
  lemma {:induction false} ReturnedInOrder(ms: seq<Listed>, j: Judge) returns (at: seq<nat>)
    ensures |at| == |ActiveRequests(ms, j)|
    ensures forall k :: 0 <= k < |at| ==>
      at[k] < |ms| && FateOf(j, ms[at[k]]) == Active && IsOf(ActiveRequests(ms, j)[k], ms[at[k]])
    ensures forall k, l :: 0 <= k < l < |at| ==> at[k] < at[l]
    ensures forall i: nat :: i < |ms| && FateOf(j, ms[i]) == Active ==> i in at
  {
    if ms == [] { return []; }
    var n := |ms| - 1;
    at := ReturnedInOrder(ms[..n], j);
    if FateOf(j, ms[n]) == Active {
      at := at + [n];
    }
  }

  /** A later cancellation by somebody else takes an earlier one by the requester out of force. */
  lemma LaterCancellationWins(ms: seq<Listed>, first: Listed, second: Listed, limits: Limits, now: nat, m: Listed)
    requires VerifiedCancellation(first) && VerifiedCancellation(second)
    requires first.body.value.requestId == second.body.value.requestId && first.sender != second.sender
    requires Parsed(m) && m.body.value.requestId == first.body.value.requestId && m.sender == first.sender
    ensures FateOf(JudgeOf(ms + [first], limits, now), m) !in {OutOfRange, BadProof, Active}
    ensures FateOf(JudgeOf(ms + [first] + [second], limits, now), m) != CancelledOriginal
  {
    assert (ms + [first])[..|ms|] == ms;
    assert (ms + [first] + [second])[..|ms + [first]|] == ms + [first];
  }

  lemma {:induction false} WithFinds(ms: seq<Listed>, j: Judge, f: Fate, m: Listed)
    requires m in ms && FateOf(j, m) == f
    ensures m.id in Ids(With(ms, j, f))
  {
    var before, last := ms[..|ms| - 1], ms[|ms| - 1];
    WithIdsSnoc(ms, j, f, |ms| - 1);
    assert ms[..|ms|] == ms;
    if m != last {
      assert m in before;
      WithFinds(before, j, f, m);
    }
  }

  /** A stored message as this listing sees it: listed without accepting payments, then read as a request. */
  function FromListing(cx: Context, read: string -> Option<RequestBody>, stored: ServerPeerMessage, verified: bool): Listed
    requires cx.env.Lawful()
  {
    Listed(stored.messageId, stored.sender, read(LegacyBody(Processed(cx, stored.body, stored.sender, false, Errs))), verified)
  }

  /** What the listing path of payment requests assumes of the JSON library: only JSON reads as a request, and the marker is none. */
  ghost predicate ReadsJson(cx: Context, read: string -> Option<RequestBody>) {
    (forall text :: read(text).Some? ==> cx.env.parse(text).Some?) && cx.env.parse(OVERSIZED_MESSAGE_BODY).None?
  }

  /**
   An id that is listed once is acknowledged exactly when its message is not returned, whatever the pass that
   dropped it.
   */
  lemma AckedIff(ms: seq<Listed>, j: Judge, m: Listed)
    requires m in ms
    ensures FateOf(j, m) != Active ==> m.id in Acked(ms, j)
    ensures multiset(Ids(ms))[m.id] == 1 ==> (m.id in Acked(ms, j) <==> FateOf(j, m) != Active)
  {
    WithFinds(ms, j, FateOf(j, m), m);
    PartitionAt(ms, j, m.id);
    if FateOf(j, m) == Active {
      assert m.id in Ids(With(ms, j, Active));
      assert multiset(Ids(With(ms, j, Active)))[m.id] > 0;
    }
  }

  /** A message that carries a payment is listed as its raw wrapper, or as the marker when it is too large. */
  lemma PaymentIsListedRaw(cx: Context, read: string -> Option<RequestBody>, stored: ServerPeerMessage, verified: bool)
    requires cx.env.Lawful() && ReadsJson(cx, read) && PaymentMember(cx.env, stored.body).Some?
    ensures FromListing(cx, read, stored, verified).body == if WithinCap(stored.body) then read(stored.body) else None
  {
    SkippedIsUnsafe(cx, stored.body, Errs);
    UnsafeIsListedRaw(cx, stored.body, stored.sender, false, Errs);
  }

  /**
   The fate of a stored message that carries a payment: it stays on the relay exactly when its wrapper is
   within the cap and itself reads as an active request. An oversized one, one that reads as no request, and
   one that is expired, cancelled, out of range or badly proven are all acknowledged, payment and all.
   */
  lemma PaymentWrapperIsAcknowledged(cx: Context, read: string -> Option<RequestBody>, ms: seq<Listed>, j: Judge,
                                     stored: ServerPeerMessage, verified: bool)
    requires cx.env.Lawful() && ReadsJson(cx, read) && PaymentMember(cx.env, stored.body).Some?
    requires FromListing(cx, read, stored, verified) in ms && multiset(Ids(ms))[stored.messageId] == 1
    ensures stored.messageId !in Acked(ms, j) <==>
      && WithinCap(stored.body)
      && FateOf(j, Listed(stored.messageId, stored.sender, read(stored.body), verified)) == Active
  {
    PaymentIsListedRaw(cx, read, stored, verified);
    AckedIff(ms, j, FromListing(cx, read, stored, verified));
  }
}
