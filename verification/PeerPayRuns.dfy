/** Whole runs of payment attempts: retries, declines, wallet errors and partial acknowledgements in any order. */
module PeerPayRuns {
  import opened Envelope
  import opened ListMessages
  import opened PeerPay

  /** Everything that happened, oldest first. */
  function Log(cx: Context, attempts: seq<Attempt>): seq<Effect> {
    if attempts == [] then [] else Log(cx, attempts[..|attempts| - 1]) + Effects(cx, attempts[|attempts| - 1])
  }

  /** The log cut into attempts: the effect at `j` belongs to attempt `k`, whose effects start at `start`. */
  lemma {:induction false} Locate(cx: Context, attempts: seq<Attempt>, j: nat) returns (k: nat, start: nat)
    requires j < |Log(cx, attempts)|
    ensures k < |attempts| && start <= j < start + |Effects(cx, attempts[k])| <= |Log(cx, attempts)|
    ensures Log(cx, attempts)[start..start + |Effects(cx, attempts[k])|] == Effects(cx, attempts[k])
  {
    var before := attempts[..|attempts| - 1];
    var early := Log(cx, before);
    assert Log(cx, attempts) == early + Effects(cx, attempts[|attempts| - 1]);
    if j < |early| {
      k, start := Locate(cx, before, j);
      var stop := start + |Effects(cx, attempts[k])|;
      assert attempts[k] == before[k];
      assert (early + Effects(cx, attempts[|attempts| - 1]))[start..stop] == early[start..stop];
    } else {
      k, start := |attempts| - 1, |early|;
    }
  }

  /**
   Every wallet call in a run is some attempt's own: of an accept, or of a rejection of at least 2000, with the
   token's fields in their places; or of a notification, with its payment's.
   */
  lemma WalletCallsAreOwn(cx: Context, attempts: seq<Attempt>, i: nat) returns (k: nat)
    requires i < |Log(cx, attempts)| && Log(cx, attempts)[i].WalletCall?
    ensures k < |attempts| && Log(cx, attempts)[i].answer == attempts[k].answers.wallet
    ensures !attempts[k].Notice? ==>
      IsTokenCall(cx, attempts[k].payment, Log(cx, attempts)[i].args) && (attempts[k].Reject? ==> attempts[k].payment.token.amount >= 2000)
    ensures attempts[k].Notice? ==> IsNoticeCall(cx, attempts[k].message.body, Log(cx, attempts)[i].args)
  {
    var start;
    k, start := Locate(cx, attempts, i);
    var a := attempts[k];
    assert Log(cx, attempts)[i] == Effects(cx, a)[i - start];
    if a.Notice? {
      NoticeCallMeans(cx, a.message, a.answers, Log(cx, attempts)[i].args);
    } else {
      TokenArgsMean(cx, a.payment);
    }
  }

  // ---- Acknowledgements follow storage ----

  /**
   At `j` attempt `k` acknowledged its message, and before that, at `i`, the wallet accepted the whole
   payment of that same attempt in one call.
   */
  ghost predicate StoredThenAcked(cx: Context, attempts: seq<Attempt>, k: nat, i: nat, j: nat) {
    && k < |attempts| && i < j < |Log(cx, attempts)| && CallOf(cx, attempts[k]).Some?
    && Log(cx, attempts)[i] == WalletCall(CallOf(cx, attempts[k]).value, Accepts)
    && Log(cx, attempts)[j] == Acknowledge(MessageId(attempts[k]), attempts[k].answers.replies)
  }

  /** An attempt acknowledges the message it was made on. */
  predicate IsOwnAck(a: Attempt, e: Effect) {
    e == Acknowledge(if a.Notice? then a.message.messageId else a.payment.messageId, a.answers.replies)
  }

  /** Every acknowledgement is some attempt's; one that must store its payment had its own wallet call accepted first. */
  lemma AckFollowsStorage(cx: Context, attempts: seq<Attempt>, j: nat) returns (k: nat, i: nat)
    requires j < |Log(cx, attempts)| && Log(cx, attempts)[j].Acknowledge?
    ensures k < |attempts| && IsOwnAck(attempts[k], Log(cx, attempts)[j])
    ensures MustStore(cx, attempts[k]) ==> StoredThenAcked(cx, attempts, k, i, j)
  {
    k, i := Locate(cx, attempts, j);
    var a := attempts[k];
    var own := Effects(cx, a);
    assert Log(cx, attempts)[j] == own[j - i];
    if MustStore(cx, a) {
      assert Log(cx, attempts)[i] == own[0];
    }
  }

  lemma {:induction false} GoneMeansAcknowledged(copies: set<Copy>, effects: seq<Effect>, c: Copy) returns (j: nat)
    requires c in copies && c !in Left(copies, effects)
    ensures j < |effects| && Removes(effects[j], c)
  {
    var before := effects[..|effects| - 1];
    if c in Left(copies, before) {
      j := |effects| - 1;
    } else {
      j := GoneMeansAcknowledged(copies, before, c);
    }
  }

  /** A host's copy carries out the acknowledgement: it names the copy's message and that host dropped it. */
  ghost predicate DroppedAt(effects: seq<Effect>, c: Copy, j: nat) {
    && j < |effects| && effects[j].Acknowledge? && effects[j].messageId == c.messageId
    && c.host in effects[j].replies && effects[j].replies[c.host].removed
  }

  /** What is left of the relay's copies: those no acknowledgement of their message was carried out on. */
  lemma {:induction false} LeftMeans(copies: set<Copy>, effects: seq<Effect>, c: Copy)
    ensures c in Left(copies, effects) <==> c in copies && forall j: nat :: !DroppedAt(effects, c, j)
  {
    if effects != [] {
      var n := |effects| - 1;
      LeftMeans(copies, effects[..n], c);
      assert forall j: nat :: j < n ==> (DroppedAt(effects, c, j) <==> DroppedAt(effects[..n], c, j));
      assert DroppedAt(effects, c, n) <==> Removes(effects[n], c);
    }
  }

  /** A copy that is gone was removed by some attempt's acknowledgement. */
  lemma RemovedBy(cx: Context, attempts: seq<Attempt>, atStart: set<Copy>, n: nat, c: Copy) returns (k: nat, i: nat, j: nat)
    requires n <= |Log(cx, attempts)| && c in atStart && c !in Left(atStart, Log(cx, attempts)[..n])
    ensures j < n && Removes(Log(cx, attempts)[j], c) && k < |attempts| && MessageId(attempts[k]) == c.messageId
    ensures MustStore(cx, attempts[k]) ==> StoredThenAcked(cx, attempts, k, i, j)
  {
    var prefix := Log(cx, attempts)[..n];
    j := GoneMeansAcknowledged(atStart, prefix, c);
    assert prefix[j] == Log(cx, attempts)[j];
    k, i := AckFollowsStorage(cx, attempts, j);
  }

  /**
   Where safety stops: an attempt acknowledges without a wallet call exactly when it need not store anything,
   that is for a rejection below the refund threshold or a notification that is no `message` wrapper with a
   payment. The listing path would report a payment in the second case whenever the member is there.
   */
  lemma AcksWithoutStoringIff(cx: Context, a: Attempt)
    ensures Effects(cx, a) == [Acknowledge(MessageId(a), a.answers.replies)] <==>
      (a.Reject? && a.payment.token.amount < REFUND_THRESHOLD)
      || (a.Notice? && (PaymentMember(cx.env, a.message.body).None?
                        || Get(cx.env.parse(a.message.body).value, "message").None?))
  {
    if Effects(cx, a) != [] && MustStore(cx, a) {
      assert Effects(cx, a)[0].WalletCall?;
    }
  }

  /** Such a body: acknowledged unseen here, reported as a payment by listing. */
  lemma UnwrappedPaymentIsAcknowledgedUnseen(cx: Context, m: Notification, answers: Answers, accept: bool)
    requires PaymentMember(cx.env, m.body).Some? && Get(cx.env.parse(m.body).value, "message").None?
    ensures Effects(cx, Notice(m, answers)) == [Acknowledge(m.messageId, answers.replies)]
    ensures Outcome(cx, m.body, accept, answers.wallet) != NoPayment
  {
    PaymentIsReported(cx, m.body, accept, answers.wallet);
    assert !MustStore(cx, Notice(m, answers));
  }

  lemma PaymentIsReported(cx: Context, raw: string, accept: bool, answer: WalletAnswer)
    requires PaymentMember(cx.env, raw).Some?
    ensures Outcome(cx, raw, accept, answer) != NoPayment
  {
  }

  // ---- Refund accounting ----

  function Refunded(effects: seq<Effect>): nat {
    if effects == [] then 0
    else
      var e := effects[|effects| - 1];
      Refunded(effects[..|effects| - 1]) + if e.Refund? && e.ok then e.amount else 0
  }

  function SuccessfulRefunds(cx: Context, attempts: seq<Attempt>): nat {
    if attempts == [] then 0
    else SuccessfulRefunds(cx, attempts[..|attempts| - 1]) + if RefundSucceeded(cx, attempts[|attempts| - 1]) then 1 else 0
  }

  lemma {:induction false} RefundedConcat(a: seq<Effect>, b: seq<Effect>)
    ensures Refunded(a + b) == Refunded(a) + Refunded(b)
  {
    if b == [] {
      assert a + b == a;
    } else {
      RefundedConcat(a, b[..|b| - 1]);
      assert (a + b)[..|a + b| - 1] == a + b[..|b| - 1];
    }
  }

  lemma RefundOfOne(cx: Context, a: Attempt)
    ensures Refunded(Effects(cx, a)) == if RefundSucceeded(cx, a) then a.payment.token.amount - REFUND_FEE else 0
  {
    var e := Effects(cx, a);
    if e != [] { RefundedOne(e[0]); }
    if |e| > 1 { RefundedOne(e[1]); RefundedConcat([e[0]], [e[1]]); }
    if |e| > 2 { RefundedOne(e[2]); RefundedConcat([e[0]] + [e[1]], [e[2]]); }
    assert |e| == 1 ==> e == [e[0]];
    assert |e| == 2 ==> e == [e[0]] + [e[1]];
    assert |e| == 3 ==> e == [e[0]] + [e[1]] + [e[2]];
  }

  lemma RefundedOne(e: Effect)
    ensures Refunded([e]) == if e.Refund? && e.ok then e.amount else 0
  {
    assert [e][..0] == [];
  }

  function Repeated(n: nat, each: nat): nat {
    if n == 0 then 0 else Repeated(n - 1, each) + each
  }

  lemma RepeatedOnce(n: nat, each: nat)
    ensures Repeated(n + 1, each) == Repeated(n, each) + each
  {
  }

  lemma {:induction false} RepeatedIsProduct(n: nat, each: nat)
    ensures Repeated(n, each) == n * each
  {
    if n > 0 {
      RepeatedIsProduct(n - 1, each);
      assert (n - 1) * each + each == n * each;
    }
  }

  lemma OneMoreAttempt(cx: Context, log: seq<Effect>, a: Attempt, amount: nat)
    requires a.Reject? && a.payment.token.amount == amount
    ensures Refunded(log + Effects(cx, a)) == Refunded(log) + if RefundSucceeded(cx, a) then amount - REFUND_FEE else 0
    ensures RefundSucceeded(cx, a) ==> amount >= REFUND_THRESHOLD
  {
    RefundedConcat(log, Effects(cx, a));
    RefundOfOne(cx, a);
  }

  /** The rejections of one payment. */
  ghost predicate RejectionsOf(attempts: seq<Attempt>, amount: nat) {
    forall a :: a in attempts ==> a.Reject? && a.payment.token.amount == amount
  }

  /** What a rejection of this amount refunds. */
  function RefundOf(amount: nat): nat {
    if amount >= REFUND_THRESHOLD then amount - REFUND_FEE else 0
  }

  lemma RefundsSnoc(cx: Context, attempts: seq<Attempt>, amount: nat)
    requires RejectionsOf(attempts, amount) && attempts != []
    ensures
      var before, paid := attempts[..|attempts| - 1], RefundSucceeded(cx, attempts[|attempts| - 1]);
      && RejectionsOf(before, amount) && (paid ==> amount >= REFUND_THRESHOLD)
      && Refunded(Log(cx, attempts)) == Refunded(Log(cx, before)) + (if paid then RefundOf(amount) else 0)
      && SuccessfulRefunds(cx, attempts) == SuccessfulRefunds(cx, before) + if paid then 1 else 0
  {
    var before, a := attempts[..|attempts| - 1], attempts[|attempts| - 1];
    assert a in attempts;
    OneMoreAttempt(cx, Log(cx, before), a, amount);
  }

  lemma {:induction false} RefundsAddUp(cx: Context, attempts: seq<Attempt>, amount: nat)
    requires RejectionsOf(attempts, amount)
    ensures Refunded(Log(cx, attempts)) == Repeated(SuccessfulRefunds(cx, attempts), RefundOf(amount))
    ensures SuccessfulRefunds(cx, attempts) > 0 ==> amount >= REFUND_THRESHOLD
  {
    if attempts == [] {
      assert Log(cx, attempts) == [];
    } else {
      var before := attempts[..|attempts| - 1];
      RefundsSnoc(cx, attempts, amount);
      RefundsAddUp(cx, before, amount);
      RepeatedOnce(SuccessfulRefunds(cx, before), RefundOf(amount));
    }
  }

  /** Over any retries, what was refunded is `amount - 1000` for every refund step that succeeded, and no more. */
  lemma RefundTotal(cx: Context, attempts: seq<Attempt>, amount: nat)
    requires RejectionsOf(attempts, amount)
    ensures Refunded(Log(cx, attempts)) ==
      if amount < 2000 then 0 else SuccessfulRefunds(cx, attempts) * (amount - 1000)
  {
    RefundsAddUp(cx, attempts, amount);
    RepeatedIsProduct(SuccessfulRefunds(cx, attempts), RefundOf(amount));
  }

  /**
   Order of the rejection steps, anywhere in a run of rejections of one payment. A refund directly follows an
   acceptance by the wallet in the same attempt; above the threshold an acknowledgement directly follows a
   successful refund; below it nothing but acknowledgements ever happens.
   */
  lemma RejectionOrder(cx: Context, attempts: seq<Attempt>, amount: nat, j: nat)
    requires RejectionsOf(attempts, amount) && j < |Log(cx, attempts)|
    ensures var log := Log(cx, attempts);
      && (amount < 2000 ==> log[j].Acknowledge?)
      && (log[j].Refund? ==> j > 0 && log[j - 1].WalletCall? && log[j - 1].answer == Accepts
                             && log[j].amount == amount - 1000)
      && (log[j].Acknowledge? && amount >= 2000 ==> j > 0 && log[j - 1] == Refund(amount - 1000, true))
  {
    var k, start := Locate(cx, attempts, j);
    var a, log := attempts[k], Log(cx, attempts);
    assert a in attempts;
    var own := Effects(cx, a);
    assert log[j] == own[j - start];
    if j > start {
      assert log[j - 1] == own[j - 1 - start];
    }
  }
}
