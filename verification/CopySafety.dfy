/** Which attempts may drop a relay copy that carries a payment, by where the caller got its message from. */
module CopySafety {
  import opened Prelude
  import opened Envelope
  import opened DeliveryPaths
  import opened PaymentRules
  import opened ListMessages
  import opened PeerPay
  import opened PeerPayRuns

  /** How a stored message reached the caller: by listing it, which may process its payment, or live. */
  datatype Source =
    | Listed(sender: string, accept: bool, answer: WalletAnswer)
    | Pushed(sender: string, room: string)
    | Polled(sender: string, identityKey: string, box: string)

  function AsStored(c: Copy, sender: string): ServerPeerMessage {
    ServerPeerMessage(c.messageId, c.body, sender)
  }

  /** The body the caller sees. */
  function Seen(cx: Context, c: Copy, src: Source): string
    requires cx.env.Lawful()
  {
    match src
    case Listed(sender, accept, answer) => LegacyBody(Processed(cx, c.body, sender, accept, answer))
    case Pushed(sender, room) =>
      (match PushDelivery(cx.env, PUSH_PREFIX + room, AsStored(c, sender), cx.originator)
       case Some(m) => m.body
       case None => c.body)
    case Polled(sender, identityKey, box) => PollDelivery(cx.env, AsStored(c, sender), identityKey, box, cx.originator).body
  }

  /** Both live paths show the decrypted text: the wrapper, and the payment in it, are gone. */
  lemma LiveIsDecrypted(cx: Context, c: Copy, src: Source)
    requires cx.env.Lawful() && !src.Listed?
    ensures Seen(cx, c, src) == TryDecryptTyped(cx.env, c.body, src.sender, cx.originator).body
  {
    match src {
      case Pushed(sender, room) => PushedBody(cx.env, room, AsStored(c, sender), cx.originator);
      case Polled(sender, _, _) => UnwrapThenDecrypt(cx.env, c.body, sender, cx.originator);
    }
  }

  /** The attempt is made on what the caller saw: a notification as it is, or the token it reads as. */
  predicate Carries(readToken: string -> Option<PaymentToken>, a: Attempt, text: string, sender: string) {
    if a.Notice? then a.message.body == text else readToken(text) == Some(a.payment.token) && a.payment.sender == sender
  }

  /** Accepted by the wallet while the body was being listed; it then covers every output of the payment. */
  predicate StoredWhenListed(cx: Context, body: string, src: Source) {
    src.Listed? && Outcome(cx, body, src.accept, src.answer) == Internalized
  }

  /** The call has the transaction and every output of the payment a body carries, each with its own remittance. */
  ghost predicate Covers(cx: Context, args: InternalizeArgs, body: string) {
    && PaymentMember(cx.env, body).Some? && cx.decodeNotice(PaymentMember(cx.env, body).value).Some?
    && var p := cx.decodeNotice(PaymentMember(cx.env, body).value).value;
       && p.tx == Some(args.tx) && p.outputs.Some? && |args.outputs| == |p.outputs.value|
       && forall i :: 0 <= i < |p.outputs.value| ==>
            Remits(cx.lib, p.outputs.value[i].outputIndex, p.outputs.value[i].paymentRemittance, args.outputs[i])
  }

  /** The call an attempt makes covers its payment whole: a token's one output, or every output of a notification. */
  lemma CallsCoverThePayment(cx: Context, a: Attempt)
    requires CallOf(cx, a).Some?
    ensures !a.Notice? ==> IsTokenCall(cx, a.payment, CallOf(cx, a).value)
    ensures a.Notice? ==> Covers(cx, CallOf(cx, a).value, a.message.body)
  {
    if a.Notice? {
      NoticeDropsNothing(cx.lib, cx.decodeNotice(PaymentMember(cx.env, a.message.body).value).value);
    } else {
      TokenArgsMean(cx, a.payment);
    }
  }

  // ---- One attempt on one copy ----

  function WithAnswers(a: Attempt, answers: Answers): Attempt {
    match a
    case Accept(p, _) => Accept(p, answers)
    case Reject(p, _) => Reject(p, answers)
    case Notice(m, _) => Notice(m, answers)
  }

  /** The attempt drops the copy, and the wallet has accepted no call that covers the copy's payment. */
  ghost predicate Lost(cx: Context, a: Attempt, c: Copy) {
    && c !in Left({c}, Effects(cx, a))
    && forall e :: e in Effects(cx, a) && e.WalletCall? && e.answer == Accepts ==> !Covers(cx, e.args, c.body)
  }

  ghost predicate CallCovers(cx: Context, a: Attempt, body: string) {
    CallOf(cx, a).Some? ==> Covers(cx, CallOf(cx, a).value, body)
  }

  /** A wallet that accepts, a refund that goes through, and a host that carries the acknowledgement out. */
  function AllGoesWell(host: string): Answers {
    Answers(Accepts, true, map[host := HostReply(true, true)])
  }

  lemma AckIsLast(cx: Context, a: Attempt, c: Copy)
    requires c !in Left({c}, Effects(cx, a))
    ensures Acknowledge(MessageId(a), a.answers.replies) in Effects(cx, a)
    ensures MustStore(cx, a) ==> CallOf(cx, a).Some? && WalletCall(CallOf(cx, a).value, Accepts) in Effects(cx, a)
  {
    var j := GoneMeansAcknowledged({c}, Effects(cx, a), c);
    if MustStore(cx, a) {
      assert Effects(cx, a)[0] in Effects(cx, a);
    }
  }

  lemma AckedIsGone(cx: Context, a: Attempt, c: Copy)
    requires MessageId(a) == c.messageId && a.answers == AllGoesWell(c.host)
    requires MustStore(cx, a) ==> CallOf(cx, a).Some?
    ensures c !in Left({c}, Effects(cx, a))
  {
    var effects := Effects(cx, a);
    var n := |effects| - 1;
    assert effects[n] == Acknowledge(c.messageId, a.answers.replies);
    assert effects == effects[..n] + [effects[n]];
    LeftSnoc({c}, effects[..n], effects[n]);
  }

  lemma LostWhenUncovered(cx: Context, a: Attempt, c: Copy)
    requires MessageId(a) == c.messageId && a.answers == AllGoesWell(c.host)
    requires !(MustStore(cx, a) && CallCovers(cx, a, c.body))
    ensures Lost(cx, a, c)
  {
    AckedIsGone(cx, a, c);
  }

  /** Some answers lose the copy's payment exactly when the attempt need store nothing or would store something else. */
  lemma LostIffUncovered(cx: Context, a: Attempt, c: Copy)
    requires MessageId(a) == c.messageId
    ensures (exists answers :: Lost(cx, WithAnswers(a, answers), c)) <==> !(MustStore(cx, a) && CallCovers(cx, a, c.body))
  {
    if MustStore(cx, a) && CallCovers(cx, a, c.body) {
      forall answers ensures !Lost(cx, WithAnswers(a, answers), c) {
        var b := WithAnswers(a, answers);
        if c !in Left({c}, Effects(cx, b)) {
          AckIsLast(cx, b, c);
        }
      }
    } else {
      var b := WithAnswers(a, AllGoesWell(c.host));
      LostWhenUncovered(cx, b, c);
    }
  }

  // ---- The boundary, source by source ----

  /**
   What an attempt on a copy with an unstored payment must be. A listed notification: within the cap and with
   its own `message` member. A live one: decrypted text that itself carries a payment, the very same one. A
   token, wherever it came from: accepted, or rejected for a refund, and itself the copy's whole payment.
   */
  ghost predicate SafeOn(cx: Context, a: Attempt, src: Source, c: Copy)
    requires cx.env.Lawful()
  {
    if !a.Notice? then MustStore(cx, a) && CallCovers(cx, a, c.body)
    else if src.Listed? then WithinCap(c.body) && CarriesPayment(cx, c.body)
    else
      && TryDecryptTyped(cx.env, c.body, src.sender, cx.originator).IsAuthenticated()
      && CarriesPayment(cx, a.message.body) && CallCovers(cx, a, c.body)
  }

  lemma PaymentIsUnsafe(cx: Context, body: string, src: Source)
    requires src.Listed? && PaymentMember(cx.env, body).Some? && !StoredWhenListed(cx, body, src)
    ensures !Outcome(cx, body, src.accept, src.answer).IsSafe()
  {
  }

  /** Listing shows such a body as it is, or as the marker when it is over the cap. */
  lemma ListedRaw(cx: Context, c: Copy, src: Source)
    requires cx.env.Lawful() && cx.env.parse(OVERSIZED_MESSAGE_BODY).None? && src.Listed?
    requires PaymentMember(cx.env, c.body).Some? && !StoredWhenListed(cx, c.body, src)
    ensures Seen(cx, c, src) == if WithinCap(c.body) then c.body else OVERSIZED_MESSAGE_BODY
  {
    PaymentIsUnsafe(cx, c.body, src);
    UnsafeIsListedRaw(cx, c.body, src.sender, src.accept, src.answer);
  }

  lemma ListedNotice(cx: Context, body: string, marker: string, a: Attempt)
    requires PaymentMember(cx.env, body).Some? && cx.env.parse(marker).None?
    requires a.Notice? && a.message.body == if WithinCap(body) then body else marker
    ensures MustStore(cx, a) <==> WithinCap(body) && CarriesPayment(cx, body)
    ensures MustStore(cx, a) ==> CallCovers(cx, a, body)
  {
    if CallOf(cx, a).Some? {
      CallsCoverThePayment(cx, a);
    }
  }

  /** Live text that was not decrypted is no wrapper, so no payment is found in it. */
  lemma PlainLiveTextCarriesNone(cx: Context, body: string, sender: string)
    requires cx.env.Lawful() && !TryDecryptTyped(cx.env, body, sender, cx.originator).IsAuthenticated()
    ensures !CarriesPayment(cx, TryDecryptTyped(cx.env, body, sender, cx.originator).body)
  {
    CoreExists(cx.env, body);
    var chain :| LayersDownTo(cx.env, body, chain, Core(cx.env, body));
    InnermostDecides(cx.env, body, chain, Core(cx.env, body), sender, cx.originator);
  }

  lemma SafeOnMeans(cx: Context, readToken: string -> Option<PaymentToken>, a: Attempt, src: Source, c: Copy)
    requires cx.env.Lawful() && cx.env.parse(OVERSIZED_MESSAGE_BODY).None?
    requires PaymentMember(cx.env, c.body).Some? && !StoredWhenListed(cx, c.body, src)
    requires Carries(readToken, a, Seen(cx, c, src), src.sender)
    ensures SafeOn(cx, a, src, c) <==> MustStore(cx, a) && CallCovers(cx, a, c.body)
  {
    if a.Notice? && src.Listed? {
      ListedRaw(cx, c, src);
      ListedNotice(cx, c.body, OVERSIZED_MESSAGE_BODY, a);
    } else if a.Notice? {
      LiveIsDecrypted(cx, c, src);
      if !TryDecryptTyped(cx.env, c.body, src.sender, cx.originator).IsAuthenticated() {
        PlainLiveTextCarriesNone(cx, c.body, src.sender);
      }
    }
  }

  /**
   A listed notification with an unstored payment is acknowledged only after storing it exactly when its body
   is within the cap and has its own `message` member; otherwise it is acknowledged with no wallet call at all.
   */
  lemma NoticeMustStoreIff(cx: Context, a: Attempt, src: Source, c: Copy)
    requires cx.env.Lawful() && cx.env.parse(OVERSIZED_MESSAGE_BODY).None? && src.Listed?
    requires PaymentMember(cx.env, c.body).Some? && !StoredWhenListed(cx, c.body, src)
    requires a.Notice? && a.message.body == Seen(cx, c, src)
    ensures MustStore(cx, a) <==> WithinCap(c.body) && CarriesPayment(cx, c.body)
    ensures !MustStore(cx, a) ==> Effects(cx, a) == [Acknowledge(MessageId(a), a.answers.replies)]
  {
    ListedRaw(cx, c, src);
    ListedNotice(cx, c.body, OVERSIZED_MESSAGE_BODY, a);
  }

  /**
   The exact boundary, for every kind of attempt on a copy with an unstored payment and every source of its
   message: there are answers under which the copy goes and its payment was never accepted, exactly when the
   attempt is not safe on it.
   */
  lemma LostIff(cx: Context, readToken: string -> Option<PaymentToken>, a: Attempt, src: Source, c: Copy)
    requires cx.env.Lawful() && cx.env.parse(OVERSIZED_MESSAGE_BODY).None? && MessageId(a) == c.messageId
    requires PaymentMember(cx.env, c.body).Some? && !StoredWhenListed(cx, c.body, src)
    requires Carries(readToken, a, Seen(cx, c, src), src.sender)
    ensures (exists answers :: Lost(cx, WithAnswers(a, answers), c)) <==> !SafeOn(cx, a, src, c)
  {
    SafeOnMeans(cx, readToken, a, src, c);
    LostIffUncovered(cx, a, c);
  }

  /** A listed wrapper that reads as no token: whatever is attempted on it is safe, or its payment is stored already. */
  lemma ListedWrappersAreSafe(cx: Context, readToken: string -> Option<PaymentToken>, a: Attempt, src: Source, c: Copy)
    requires cx.env.Lawful() && cx.env.parse(OVERSIZED_MESSAGE_BODY).None? && src.Listed?
    requires WithinCap(c.body) && CarriesPayment(cx, c.body) && readToken(c.body).None?
    requires Carries(readToken, a, Seen(cx, c, src), src.sender)
    ensures StoredWhenListed(cx, c.body, src) || SafeOn(cx, a, src, c)
  {
    if !StoredWhenListed(cx, c.body, src) {
      ListedRaw(cx, c, src);
    }
  }

  /** The copy's payment, as far as it can be read, is of another transaction. */
  predicate OtherTransaction(cx: Context, body: string, tx: seq<nat>) {
    PaymentMember(cx.env, body).Some? &&
    match cx.decodeNotice(PaymentMember(cx.env, body).value) case Some(p) => p.tx != Some(tx) case None => true
  }

  lemma OtherTokenLoses(cx: Context, a: Attempt, c: Copy)
    requires a.Accept? && MessageId(a) == c.messageId && TokenArgs(cx, a.payment).Some? && a.answers == AllGoesWell(c.host)
    requires OtherTransaction(cx, c.body, a.payment.token.transaction)
    ensures Lost(cx, a, c)
  {
    assert CallOf(cx, a).Some? && CallOf(cx, a).value.tx == a.payment.token.transaction;
    assert !Covers(cx, CallOf(cx, a).value, c.body);
    LostWhenUncovered(cx, a, c);
  }

  /**
   Live, the same wrapper is stripped before it is read: when the text inside is a payment token of another
   transaction, accepting the token acknowledges the message, and the wrapper's payment goes with the copy.
   */
  lemma LiveTokenLosesTheWrapper(cx: Context, readToken: string -> Option<PaymentToken>, p: IncomingPayment, src: Source, c: Copy)
    requires cx.env.Lawful() && !src.Listed? && p.messageId == c.messageId && p.sender == src.sender
    requires readToken(TryDecryptTyped(cx.env, c.body, src.sender, cx.originator).body) == Some(p.token)
    requires TokenArgs(cx, p).Some? && OtherTransaction(cx, c.body, p.token.transaction)
    ensures
      var a := Accept(p, AllGoesWell(c.host));
      Carries(readToken, a, Seen(cx, c, src), src.sender) && Lost(cx, a, c)
  {
    LiveIsDecrypted(cx, c, src);
    OtherTokenLoses(cx, Accept(p, AllGoesWell(c.host)), c);
  }

  /** A wrapper around `inner` with a payment of transaction 1, where `inner` is a token of transaction 2. */
  function Example(wrapper: string, inner: string): Context {
    Context(
      Env(text => if text == wrapper then Some(Obj([Field("message", Str(inner)), Field("payment", Obj([]))])) else None,
          v => "", text => Some([]), key => true, (sender, ciphertext, originator) => None),
      Lib(text => Some([]), key => Some(0), text => text),
      v => None, v => Some(NoticePayment(Some([1]), Some([]), None)), None)
  }

  function ExampleToken(inner: string): string -> Option<PaymentToken> {
    text => if text == inner then Some(PaymentToken("", "", [2], 5000, None)) else None
  }

  lemma ExampleWeighs(inner: string, fields: seq<Field>)
    requires fields == [Field("message", Str(inner)), Field("payment", Obj([]))]
    ensures Weight(Obj(fields)) == |inner| + 19
  {
    var rest := fields[1..];
    assert rest[1..] == [] && Weight(rest[0].value) == 1;
    assert FieldsWeight(rest) == |rest[0].key| + 1 + 1 + FieldsWeight([]);
    assert Weight(fields[0].value) == 1 + |inner|;
    assert FieldsWeight(fields) == |fields[0].key| + 1 + (1 + |inner|) + FieldsWeight(rest);
  }

  lemma ExampleParses(wrapper: string, inner: string)
    requires |wrapper| >= |inner| + 19
    ensures
      var env := Example(wrapper, inner).env;
      && env.Lawful() && env.Inner(wrapper) == Some(inner) && env.parse(inner).None?
      && PaymentMember(env, wrapper) == Some(Obj([])) && CarriesPayment(Example(wrapper, inner), wrapper)
  {
    var fields := [Field("message", Str(inner)), Field("payment", Obj([]))];
    assert fields[1..] == [Field("payment", Obj([]))];
    assert FindField(fields[1..], "payment") == Some(Obj([]));
    ExampleWeighs(inner, fields);
  }

  lemma ExampleUnwraps(wrapper: string, inner: string)
    requires |wrapper| >= |inner| + 19
    ensures
      var env := Example(wrapper, inner).env;
      env.Lawful() && TryDecryptTyped(env, wrapper, "s", None).body == inner
  {
    ExampleParses(wrapper, inner);
    var env := Example(wrapper, inner).env;
    WrappersDoNotMatter(env, [wrapper, inner], "s", None);
    NonJsonIsPlain(env, inner, "s", None);
  }

  function ExamplePayment(messageId: string): IncomingPayment {
    IncomingPayment(PaymentToken("", "", [2], 5000, None), "s", messageId)
  }

  lemma ExampleIsAnotherToken(wrapper: string, inner: string, messageId: string)
    requires |wrapper| >= |inner| + 19
    ensures
      var cx, p := Example(wrapper, inner), ExamplePayment(messageId);
      && ExampleToken(inner)(inner) == Some(p.token) && ExampleToken(inner)(wrapper).None?
      && TokenArgs(cx, p).Some? && OtherTransaction(cx, wrapper, p.token.transaction)
  {
    ExampleParses(wrapper, inner);
  }

  /** It does happen: a wrapper on which a listed attempt would be safe, and which a pushed one loses. */
  lemma LossIsReachable(wrapper: string, inner: string, c: Copy)
    requires |wrapper| >= |inner| + 19 && WithinCap(wrapper) && c.body == wrapper
    ensures
      var cx, readToken := Example(wrapper, inner), ExampleToken(inner);
      var a := Accept(ExamplePayment(c.messageId), AllGoesWell(c.host));
      && cx.env.Lawful() && CarriesPayment(cx, c.body) && readToken(c.body).None?
      && Carries(readToken, a, Seen(cx, c, Pushed("s", "r")), "s") && Lost(cx, a, c)
  {
    ExampleParses(wrapper, inner);
    ExampleUnwraps(wrapper, inner);
    ExampleIsAnotherToken(wrapper, inner, c.messageId);
    LiveTokenLosesTheWrapper(Example(wrapper, inner), ExampleToken(inner), ExamplePayment(c.messageId), Pushed("s", "r"), c);
  }

  // ---- Whole runs ----

  ghost predicate HostsAgree(copies: set<Copy>, messageId: string) {
    forall c, d :: c in copies && d in copies && c.messageId == messageId && d.messageId == messageId ==> c.body == d.body
  }

  /** The attempt is made on what the caller saw of some host's copy of its message. */
  ghost predicate MadeFrom(cx: Context, readToken: string -> Option<PaymentToken>, a: Attempt, src: Source, copies: set<Copy>)
    requires cx.env.Lawful()
  {
    exists d :: d in copies && d.messageId == MessageId(a) && Carries(readToken, a, Seen(cx, d, src), src.sender)
  }

  ghost predicate AllMadeFrom(cx: Context, readToken: string -> Option<PaymentToken>, attempts: seq<Attempt>,
                              sources: seq<Source>, copies: set<Copy>, messageId: string)
    requires cx.env.Lawful() && |sources| == |attempts|
  {
    forall k :: 0 <= k < |attempts| && MessageId(attempts[k]) == messageId ==>
      MadeFrom(cx, readToken, attempts[k], sources[k], copies)
  }

  lemma CarriesTheCopy(cx: Context, readToken: string -> Option<PaymentToken>, a: Attempt, src: Source, copies: set<Copy>, c: Copy)
    requires cx.env.Lawful() && MadeFrom(cx, readToken, a, src, copies) && HostsAgree(copies, c.messageId)
    requires c in copies && MessageId(a) == c.messageId
    ensures Carries(readToken, a, Seen(cx, c, src), src.sender)
  {
    var d :| d in copies && d.messageId == MessageId(a) && Carries(readToken, a, Seen(cx, d, src), src.sender);
    SameSight(cx, c, d, src);
  }

  lemma SameSight(cx: Context, c: Copy, d: Copy, src: Source)
    requires cx.env.Lawful() && c.body == d.body
    ensures Seen(cx, c, src) == Seen(cx, d, src)
  {
    if !src.Listed? {
      LiveIsDecrypted(cx, c, src);
      LiveIsDecrypted(cx, d, src);
    }
  }

  /**
   Payment safety. Let hosts agree on what they hold under an id, let the attempts on it be made on what the
   callers saw, listed or live, and let each be safe on the copy or come after a listing that stored its
   payment. Then whatever the answers, and at every moment `n` of the run, the copy is gone only if the
   attempt whose acknowledgement removed it came after the wallet had accepted all of the copy's own payment
   in one call. By `LostIff` no weaker condition on the attempts will do.
   */
  lemma PaymentSafety(cx: Context, readToken: string -> Option<PaymentToken>, attempts: seq<Attempt>, sources: seq<Source>,
                      atStart: set<Copy>, n: nat, c: Copy)
    returns (k: nat, i: nat, j: nat)
    requires cx.env.Lawful() && cx.env.parse(OVERSIZED_MESSAGE_BODY).None?
    requires |sources| == |attempts| && n <= |Log(cx, attempts)| && PaymentMember(cx.env, c.body).Some?
    requires HostsAgree(atStart, c.messageId) && AllMadeFrom(cx, readToken, attempts, sources, atStart, c.messageId)
    requires forall k :: 0 <= k < |attempts| && MessageId(attempts[k]) == c.messageId ==>
      StoredWhenListed(cx, c.body, sources[k]) || SafeOn(cx, attempts[k], sources[k], c)
    requires c in atStart && c !in Left(atStart, Log(cx, attempts)[..n])
    ensures j < n && Removes(Log(cx, attempts)[j], c) && k < |attempts| && MessageId(attempts[k]) == c.messageId
    ensures StoredWhenListed(cx, c.body, sources[k])
            || (StoredThenAcked(cx, attempts, k, i, j) && Covers(cx, CallOf(cx, attempts[k]).value, c.body))
  {
    k, i, j := RemovedBy(cx, attempts, atStart, n, c);
    CarriesTheCopy(cx, readToken, attempts[k], sources[k], atStart, c);
    if !StoredWhenListed(cx, c.body, sources[k]) {
      SafeOnMeans(cx, readToken, attempts[k], sources[k], c);
    }
  }

  /**
   The same for a payment token, listed or live: when the attempts on an id all accept it, or reject enough to
   be refunded, the copy is gone only after a call for the very token its body held as it was seen.
   */
  lemma TokenSafety(cx: Context, readToken: string -> Option<PaymentToken>, attempts: seq<Attempt>, sources: seq<Source>,
                    atStart: set<Copy>, n: nat, c: Copy)
    returns (k: nat, i: nat, j: nat)
    requires cx.env.Lawful() && |sources| == |attempts| && n <= |Log(cx, attempts)|
    requires HostsAgree(atStart, c.messageId) && AllMadeFrom(cx, readToken, attempts, sources, atStart, c.messageId)
    requires forall k :: 0 <= k < |attempts| && MessageId(attempts[k]) == c.messageId ==>
      !attempts[k].Notice? && MustStore(cx, attempts[k])
    requires c in atStart && c !in Left(atStart, Log(cx, attempts)[..n])
    ensures j < n && Removes(Log(cx, attempts)[j], c) && StoredThenAcked(cx, attempts, k, i, j)
    ensures readToken(Seen(cx, c, sources[k])) == Some(attempts[k].payment.token) && attempts[k].payment.sender == sources[k].sender
    ensures IsTokenCall(cx, attempts[k].payment, CallOf(cx, attempts[k]).value)
  {
    k, i, j := RemovedBy(cx, attempts, atStart, n, c);
    CarriesTheCopy(cx, readToken, attempts[k], sources[k], atStart, c);
    CallsCoverThePayment(cx, attempts[k]);
  }
}
