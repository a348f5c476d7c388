/** Listing incoming payment requests: a filter in several passes that acknowledges whatever it drops. */
module PaymentRequests {
  import opened Prelude
  import opened PaymentRules

  datatype RequestBody = RequestBody(
    requestId: string, senderIdentityKey: string, requestProof: string,
    amount: Option<nat>, description: Option<string>, expiresAt: Option<nat>, cancelled: Option<bool>)

  /**
   A listed message. `body` is what its text deserializes to; `verified` is the wallet's answer when asked
   about its proof, an error counting as a refusal. No message's proof is checked twice.
   */
  datatype Listed = Listed(id: string, sender: string, body: Option<RequestBody>, verified: bool)

  datatype Limits = Limits(minAmount: nat, maxAmount: nat)

  const DEFAULT_LIMITS: Limits := Limits(1000, 10_000_000)

  datatype IncomingRequest = IncomingRequest(
    messageId: string, sender: string, requestId: string, amount: nat, description: string, expiresAt: nat)

  /** What becomes of a message. Everything but `Active` is acknowledged away. */
  datatype Fate =
    | Unparsed | BadCancellation | Cancellation | Expired | CancelledOriginal | OutOfRange | BadProof | Active

  /** What the fate of one message is judged against. */
  datatype Judge = Judge(cancels: map<string, string>, limits: Limits, now: nat)

  predicate IsValidRequest(b: RequestBody) {
    && b.requestId != "" && b.senderIdentityKey != "" && b.requestProof != ""
    && (b.cancelled == Some(true) || (b.amount.Some? && b.description.Some? && b.expiresAt.Some?))
  }

  predicate Parsed(m: Listed) {
    m.body.Some? && IsValidRequest(m.body.value)
  }

  predicate IsHex(s: string) {
    |s| % 2 == 0 && forall i :: 0 <= i < |s| ==> IsHexDigit(s[i])
  }

  predicate ProofHolds(m: Listed) {
    m.body.Some? && IsHex(m.body.value.requestProof) && m.verified
  }

  predicate IsCancellation(m: Listed) {
    Parsed(m) && m.body.value.cancelled == Some(true)
  }

  predicate VerifiedCancellation(m: Listed) {
    IsCancellation(m) && ProofHolds(m)
  }

  /** Who cancelled each request id, according to the last verified cancellation of it. */
  function CancelMap(ms: seq<Listed>): map<string, string> {
    if ms == [] then map[]
    else
      var m := ms[|ms| - 1];
      var before := CancelMap(ms[..|ms| - 1]);
      if VerifiedCancellation(m) then before[m.body.value.requestId := m.sender] else before
  }

  function FateOf(j: Judge, m: Listed): Fate {
    if !Parsed(m) then Unparsed
    else if IsCancellation(m) then (if ProofHolds(m) then Cancellation else BadCancellation)
    else
      var b := m.body.value;
      if b.expiresAt.value < j.now then Expired
      else if b.requestId in j.cancels && j.cancels[b.requestId] == m.sender then CancelledOriginal
      else if b.amount.value < j.limits.minAmount || b.amount.value > j.limits.maxAmount then OutOfRange
      else if ProofHolds(m) then Active
      else BadProof
  }

  /** The messages of one fate, in order. */
  function With(ms: seq<Listed>, j: Judge, f: Fate): seq<Listed> {
    if ms == [] then []
    else
      var m := ms[|ms| - 1];
      With(ms[..|ms| - 1], j, f) + if FateOf(j, m) == f then [m] else []
  }

  function ParsedOf(ms: seq<Listed>): seq<Listed> {
    if ms == [] then []
    else ParsedOf(ms[..|ms| - 1]) + if Parsed(ms[|ms| - 1]) then [ms[|ms| - 1]] else []
  }

  function Ids(ms: seq<Listed>): (r: seq<string>)
    ensures |r| == |ms| && forall i :: 0 <= i < |ms| ==> r[i] == ms[i].id
  {
    if ms == [] then [] else Ids(ms[..|ms| - 1]) + [ms[|ms| - 1].id]
  }

  function Request(m: Listed): IncomingRequest
    requires Parsed(m) && !IsCancellation(m)
  {
    var b := m.body.value;
    IncomingRequest(m.id, m.sender, b.requestId, b.amount.value, b.description.value, b.expiresAt.value)
  }

  /** The requests handed to the caller, in list order. */
  function ActiveRequests(ms: seq<Listed>, j: Judge): seq<IncomingRequest> {
    if ms == [] then []
    else
      var m := ms[|ms| - 1];
      ActiveRequests(ms[..|ms| - 1], j) + if FateOf(j, m) == Active then [Request(m)] else []
  }

  function JudgeOf(ms: seq<Listed>, limits: Limits, now: nat): Judge {
    Judge(CancelMap(ms), limits, now)
  }

  /** The ids acknowledged by a listing, bucket by bucket. */
  function Acked(ms: seq<Listed>, j: Judge): seq<string> {
    Ids(With(ms, j, Expired)) + Ids(With(ms, j, CancelledOriginal)) + Ids(With(ms, j, Cancellation))
    + Ids(With(ms, j, OutOfRange))
    + (Ids(With(ms, j, Unparsed)) + Ids(With(ms, j, BadCancellation)) + Ids(With(ms, j, BadProof)))
  }

  lemma Snoc(ms: seq<Listed>, i: nat)
    requires i < |ms|
    ensures ms[..i + 1][..i] == ms[..i] && ms[..i + 1][i] == ms[i] && |ms[..i + 1]| == i + 1
  {
  }

  lemma WithSnoc(ms: seq<Listed>, j: Judge, f: Fate, i: nat)
    requires i < |ms|
    ensures With(ms[..i + 1], j, f) == With(ms[..i], j, f) + if FateOf(j, ms[i]) == f then [ms[i]] else []
  {
    Snoc(ms, i);
  }

  lemma IdsSnoc(ms: seq<Listed>, m: Listed)
    ensures Ids(ms + [m]) == Ids(ms) + [m.id]
  {
    assert (ms + [m])[..|ms|] == ms;
  }

  lemma WithIdsSnoc(ms: seq<Listed>, j: Judge, f: Fate, i: nat)
    requires i < |ms|
    ensures Ids(With(ms[..i + 1], j, f)) == Ids(With(ms[..i], j, f)) + if FateOf(j, ms[i]) == f then [ms[i].id] else []
  {
    WithSnoc(ms, j, f, i);
    IdsSnoc(With(ms[..i], j, f), ms[i]);
  }

  lemma CancelSnoc(ms: seq<Listed>, i: nat)
    requires i < |ms|
    ensures CancelMap(ms[..i + 1]) ==
      if VerifiedCancellation(ms[i]) then CancelMap(ms[..i])[ms[i].body.value.requestId := ms[i].sender] else CancelMap(ms[..i])
  {
    Snoc(ms, i);
  }

  lemma RequestsSnoc(ms: seq<Listed>, j: Judge, i: nat)
    requires i < |ms|
    ensures ActiveRequests(ms[..i + 1], j) ==
      ActiveRequests(ms[..i], j) + if FateOf(j, ms[i]) == Active then [Request(ms[i])] else []
  {
    Snoc(ms, i);
  }

  /** Dropping unparsed messages first changes neither the cancellations nor any later bucket. */
  lemma {:induction false} ParsingFirst(ms: seq<Listed>, j: Judge, f: Fate)
    requires f != Unparsed
    ensures With(ParsedOf(ms), j, f) == With(ms, j, f) && CancelMap(ParsedOf(ms)) == CancelMap(ms)
    ensures ActiveRequests(ParsedOf(ms), j) == ActiveRequests(ms, j)
  {
    if ms != [] {
      var before, m := ms[..|ms| - 1], ms[|ms| - 1];
      ParsingFirst(before, j, f);
      var parsed := ParsedOf(ms);
      if Parsed(m) {
        assert parsed[..|parsed| - 1] == ParsedOf(before) && parsed[|parsed| - 1] == m;
        WithSnoc(parsed, j, f, |parsed| - 1);
        CancelSnoc(parsed, |parsed| - 1);
        RequestsSnoc(parsed, j, |parsed| - 1);
        assert parsed[..|parsed|] == parsed;
      } else {
        assert parsed == ParsedOf(before);
      }
    }
  }

  // ---- The passes ----

  /** Stage 1. */
  method ParseAll(ms: seq<Listed>, ghost j: Judge) returns (parsed: seq<Listed>, malformed: seq<string>)
    ensures parsed == ParsedOf(ms) && malformed == Ids(With(ms, j, Unparsed))
  {
    parsed, malformed := [], [];
    for i := 0 to |ms|
      invariant parsed == ParsedOf(ms[..i]) && malformed == Ids(With(ms[..i], j, Unparsed))
    {
      Snoc(ms, i);
      WithIdsSnoc(ms, j, Unparsed, i);
      if ms[i].body.Some? && IsValidRequest(ms[i].body.value) {
        parsed := parsed + [ms[i]];
      } else {
        malformed := malformed + [ms[i].id];
      }
    }
    assert ms[..|ms|] == ms;
  }

  datatype Cancellations = Cancellations(cancels: map<string, string>, verified: seq<string>, refused: seq<string>)

  function CancellationsOf(ms: seq<Listed>, j: Judge): Cancellations {
    Cancellations(CancelMap(ms), Ids(With(ms, j, Cancellation)), Ids(With(ms, j, BadCancellation)))
  }

  lemma CancellationsSnoc(ms: seq<Listed>, j: Judge, i: nat)
    requires i < |ms| && Parsed(ms[i])
    ensures CancellationsOf(ms[..i + 1], j) == WithCancellation(CancellationsOf(ms[..i], j), ms[i])
  {
    CancelSnoc(ms, i);
    WithIdsSnoc(ms, j, Cancellation, i);
    WithIdsSnoc(ms, j, BadCancellation, i);
  }

  function WithCancellation(c: Cancellations, m: Listed): Cancellations {
    Cancellations(if VerifiedCancellation(m) then c.cancels[m.body.value.requestId := m.sender] else c.cancels,
                  c.verified + (if VerifiedCancellation(m) then [m.id] else []),
                  c.refused + (if IsCancellation(m) && !ProofHolds(m) then [m.id] else []))
  }

  /** Stage 2: the last verified cancellation of a request id is the one that is kept. */
  method CollectCancellations(parsed: seq<Listed>, ghost j: Judge) returns (c: Cancellations)
    requires forall i :: 0 <= i < |parsed| ==> Parsed(parsed[i])
    ensures c == CancellationsOf(parsed, j)
  {
    c := Cancellations(map[], [], []);
    for i := 0 to |parsed|
      invariant c == CancellationsOf(parsed[..i], j)
    {
      var m := parsed[i];
      CancellationsSnoc(parsed, j, i);
      var b := m.body.value;
      if b.cancelled == Some(true) {
        if !IsHex(b.requestProof) {
          c := c.(refused := c.refused + [m.id]);
        } else if m.verified {
          c := c.(cancels := c.cancels[b.requestId := m.sender], verified := c.verified + [m.id]);
        } else {
          c := c.(refused := c.refused + [m.id]);
        }
      }
    }
    assert parsed[..|parsed|] == parsed;
  }

  datatype Buckets = Buckets(
    result: seq<IncomingRequest>, expired: seq<string>, cancelledOriginals: seq<string>, outOfRange: seq<string>, malformed: seq<string>)

  function BucketsOf(ms: seq<Listed>, j: Judge): Buckets {
    Buckets(ActiveRequests(ms, j), Ids(With(ms, j, Expired)), Ids(With(ms, j, CancelledOriginal)),
            Ids(With(ms, j, OutOfRange)), Ids(With(ms, j, BadProof)))
  }

  lemma BucketsSnoc(ms: seq<Listed>, j: Judge, i: nat)
    requires i < |ms|
    ensures
      var b, m := BucketsOf(ms[..i], j), ms[i];
      BucketsOf(ms[..i + 1], j) ==
        match FateOf(j, m)
        case Active => b.(result := b.result + [Request(m)])
        case Expired => b.(expired := b.expired + [m.id])
        case CancelledOriginal => b.(cancelledOriginals := b.cancelledOriginals + [m.id])
        case OutOfRange => b.(outOfRange := b.outOfRange + [m.id])
        case BadProof => b.(malformed := b.malformed + [m.id])
        case _ => b
  {
    var m := ms[i];
    forall f ensures Ids(With(ms[..i + 1], j, f)) == Ids(With(ms[..i], j, f)) + if FateOf(j, m) == f then [m.id] else [] {
      WithIdsSnoc(ms, j, f, i);
    }
    RequestsSnoc(ms, j, i);
  }

  /** Stage 3. Its three missing-field branches cannot be taken: validity already demanded the fields. */
  method FilterActive(parsed: seq<Listed>, j: Judge) returns (b: Buckets)
    requires forall i :: 0 <= i < |parsed| ==> Parsed(parsed[i])
    ensures b == BucketsOf(parsed, j)
  {
    b := Buckets([], [], [], [], []);
    for i := 0 to |parsed|
      invariant b == BucketsOf(parsed[..i], j)
    {
      var m := parsed[i];
      BucketsSnoc(parsed, j, i);
      var body := m.body.value;
      if body.cancelled == Some(true) { continue; }
      if body.amount.None? { assert false; }
      if body.description.None? { assert false; }
      if body.expiresAt.None? { assert false; }
      if body.expiresAt.value < j.now {
        b := b.(expired := b.expired + [m.id]);
        continue;
      }
      if body.requestId in j.cancels && j.cancels[body.requestId] == m.sender {
        b := b.(cancelledOriginals := b.cancelledOriginals + [m.id]);
        continue;
      }
      if body.amount.value < j.limits.minAmount || body.amount.value > j.limits.maxAmount {
        b := b.(outOfRange := b.outOfRange + [m.id]);
        continue;
      }
      if !IsHex(body.requestProof) {
        b := b.(malformed := b.malformed + [m.id]);
        continue;
      }
      if m.verified {
        b := b.(result := b.result + [IncomingRequest(m.id, m.sender, body.requestId, body.amount.value,
                                                      body.description.value, body.expiresAt.value)]);
      } else {
        b := b.(malformed := b.malformed + [m.id]);
      }
    }
    assert parsed[..|parsed|] == parsed;
  }

  lemma {:induction false} ParsedAreParsed(ms: seq<Listed>)
    ensures forall i :: 0 <= i < |ParsedOf(ms)| ==> Parsed(ParsedOf(ms)[i])
  {
    if ms != [] {
      ParsedAreParsed(ms[..|ms| - 1]);
    }
  }

  /** `list_incoming_payment_requests`, with the ids it asks the relay to drop. */
  method ListIncomingPaymentRequests(ms: seq<Listed>, limits: Option<Limits>, now: nat)
    returns (result: seq<IncomingRequest>, acked: seq<string>)
    ensures
      var j := JudgeOf(ms, if limits.Some? then limits.value else Limits(1000, 10_000_000), now);
      result == ActiveRequests(ms, j) && acked == Acked(ms, j)
  {
    var used := if limits.Some? then limits.value else DEFAULT_LIMITS;
    ghost var j := JudgeOf(ms, used, now);
    var parsed, malformed := ParseAll(ms, j);
    ParsedAreParsed(ms);
    var c := CollectCancellations(parsed, j);
    ParsingFirst(ms, j, Cancellation);
    ParsingFirst(ms, j, BadCancellation);
    var b := FilterActive(parsed, Judge(c.cancels, used, now));
    ParsingFirst(ms, j, Active);
    ParsingFirst(ms, j, Expired);
    ParsingFirst(ms, j, CancelledOriginal);
    ParsingFirst(ms, j, OutOfRange);
    ParsingFirst(ms, j, BadProof);
    malformed := malformed + c.refused + b.malformed;
    return b.result, b.expired + b.cancelledOriginals + c.verified + b.outOfRange + malformed;
  }
}
