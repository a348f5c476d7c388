/** Accepting, rejecting and acknowledging payments: in which order the wallet, the refund and the relay are touched. */
module PeerPay {
  import opened Prelude
  import opened Envelope
  import opened PaymentRules
  import opened ListMessages

  datatype PaymentToken = PaymentToken(
    derivationPrefix: string, derivationSuffix: string, transaction: seq<nat>, amount: nat, outputIndex: Option<nat>)

  datatype IncomingPayment = IncomingPayment(token: PaymentToken, sender: string, messageId: string)

  datatype Notification = Notification(messageId: string, body: string)

  /** How one host took an acknowledgement: whether its copy went, and whether it answered success. */
  datatype HostReply = HostReply(removed: bool, ok: bool)

  /** What the environment answers during one attempt. `replies` has an entry for every advertised host. */
  datatype Answers = Answers(wallet: WalletAnswer, refundOk: bool, replies: map<string, HostReply>)

  datatype Effect =
    | WalletCall(args: InternalizeArgs, answer: WalletAnswer)
    | Refund(amount: nat, ok: bool)
    | Acknowledge(messageId: string, replies: map<string, HostReply>)

  datatype Attempt =
    | Accept(payment: IncomingPayment, answers: Answers)
    | Reject(payment: IncomingPayment, answers: Answers)
    | Notice(message: Notification, answers: Answers)

  /** A host's copy of a message, with its body as stored. */
  datatype Copy = Copy(host: string, messageId: string, body: string)

  const REFUND_THRESHOLD: nat := 2000
  const REFUND_FEE: nat := 1000

  // ---- The protocols, as the effects they have ----

  /** An acknowledgement names an id, never a body: a host that carries it out drops what it holds under the id. */
  predicate Removes(e: Effect, c: Copy) {
    e.Acknowledge? && e.messageId == c.messageId && c.host in e.replies && e.replies[c.host].removed
  }

  /** The one-output wallet call for a token, if its fields decode. */
  function TokenArgs(cx: Context, p: IncomingPayment): Option<InternalizeArgs> {
    var prefix, suffix := cx.lib.base64(p.token.derivationPrefix), cx.lib.base64(p.token.derivationSuffix);
    var sender := cx.lib.point(p.sender);
    if sender.None? || prefix.None? || suffix.None? then None
    else
      var index := if p.token.outputIndex.Some? then p.token.outputIndex.value else 0;
      Some(InternalizeArgs(p.token.transaction, "PeerPay Payment", "peerpay", true,
                           [WalletPayment(index, prefix.value, suffix.value, sender.value)]))
  }

  predicate TokenDecodes(cx: Context, p: IncomingPayment) {
    && cx.lib.base64(p.token.derivationPrefix).Some? && cx.lib.base64(p.token.derivationSuffix).Some?
    && cx.lib.point(p.sender).Some?
  }

  /** The call a token makes is for its own transaction, with one output: its index or 0, its prefix, its suffix and its sender. */
  ghost predicate IsTokenCall(cx: Context, p: IncomingPayment, args: InternalizeArgs) {
    && args.tx == p.token.transaction && args.description == "PeerPay Payment" && args.walletLabel == "peerpay"
    && args.seekPermission && |args.outputs| == 1
    && var o := args.outputs[0];
       && o.WalletPayment?
       && Some(o.derivationPrefix) == cx.lib.base64(p.token.derivationPrefix)
       && Some(o.derivationSuffix) == cx.lib.base64(p.token.derivationSuffix)
       && Some(o.senderIdentityKey) == cx.lib.point(p.sender)
       && (p.token.outputIndex == Some(o.outputIndex) || (p.token.outputIndex == None && o.outputIndex == 0))
  }

  lemma TokenArgsMean(cx: Context, p: IncomingPayment)
    ensures TokenArgs(cx, p).Some? <==> TokenDecodes(cx, p)
    ensures TokenArgs(cx, p).Some? ==> IsTokenCall(cx, p, TokenArgs(cx, p).value)
  {
  }

  /** A notification whose payment must be stored first: an object with its own `message` and a non-null `payment`. */
  predicate CarriesPayment(cx: Context, body: string) {
    && cx.env.parse(body).Some? && Get(cx.env.parse(body).value, "message").Some?
    && PaymentMember(cx.env, body).Some?
  }

  /** What a payment-bearing notification leads to; `None` when the payment does not even deserialize. */
  function NoticePlan(cx: Context, body: string): Option<Prepared> {
    match PaymentMember(cx.env, body)
    case None => None
    case Some(value) => match cx.decodeNotice(value) case None => None case Some(p) => Some(PreparedNotice(cx.lib, p))
  }

  /** The single wallet call an attempt can make. */
  function CallOf(cx: Context, a: Attempt): Option<InternalizeArgs> {
    match a
    case Accept(p, _) => TokenArgs(cx, p)
    case Reject(p, _) => if p.token.amount < REFUND_THRESHOLD then None else TokenArgs(cx, p)
    case Notice(m, _) =>
      if CarriesPayment(cx, m.body) && NoticePlan(cx, m.body).Some? && NoticePlan(cx, m.body).value.Ready?
      then Some(NoticePlan(cx, m.body).value.args) else None
  }

  /** The body is an object with a `message` of its own and a payment that hands this call to the wallet. */
  ghost predicate IsNoticeCall(cx: Context, body: string, args: InternalizeArgs) {
    && (exists v :: cx.env.parse(body).Some? && Member(cx.env.parse(body).value, "message", v))
    && exists value :: HasPayment(cx.env, body, value) && ReadsAsNotice(cx, value, args)
  }

  ghost predicate ReadsAsNotice(cx: Context, value: Json, args: InternalizeArgs) {
    cx.decodeNotice(value).Some? && HandsOverNotice(cx.lib, cx.decodeNotice(value).value, args)
  }

  lemma HasMessage(cx: Context, body: string)
    ensures cx.env.parse(body).Some? && Get(cx.env.parse(body).value, "message").Some? <==>
      exists v :: cx.env.parse(body).Some? && Member(cx.env.parse(body).value, "message", v)
  {
    if cx.env.parse(body).Some? {
      var whole := cx.env.parse(body).value;
      forall v ensures Get(whole, "message") == Some(v) <==> Member(whole, "message", v) {
        GetMeans(whole, "message", v);
      }
    }
  }

  lemma ReadsAsNoticeMeans(cx: Context, value: Json, args: InternalizeArgs)
    ensures ReadsAsNotice(cx, value, args) <==>
      match cx.decodeNotice(value) case None => false case Some(p) => PreparedNotice(cx.lib, p) == Ready(args)
  {
    if cx.decodeNotice(value).Some? {
      NoticeMeans(cx.lib, cx.decodeNotice(value).value, args);
    }
  }

  /** A notification's wallet call is the one its payment hands over, and it makes none if there is no such call. */
  lemma NoticeCallMeans(cx: Context, m: Notification, answers: Answers, args: InternalizeArgs)
    ensures CallOf(cx, Notice(m, answers)) == Some(args) <==> IsNoticeCall(cx, m.body, args)
  {
    HasMessage(cx, m.body);
    match PaymentMember(cx.env, m.body) {
      case Some(value) =>
        PaymentMemberMeans(cx.env, m.body, value);
        ReadsAsNoticeMeans(cx, value, args);
      case None =>
    }
    if value :| HasPayment(cx.env, m.body, value) {
      PaymentMemberMeans(cx.env, m.body, value);
    }
  }

  /** The payment reads as one that stays on the relay. A payment that cannot be read at all is an error. */
  ghost predicate StaysOnRelay(cx: Context, body: string) {
    exists value :: HasPayment(cx.env, body, value) && ReadsUnread(cx, value)
  }

  ghost predicate ReadsUnread(cx: Context, value: Json) {
    cx.decodeNotice(value).Some? && StaysUnread(cx.decodeNotice(value).value)
  }

  lemma RetainedMeans(cx: Context, body: string)
    ensures NoticePlan(cx, body) == Some(Retain) <==> StaysOnRelay(cx, body)
  {
    match PaymentMember(cx.env, body) {
      case Some(value) =>
        PaymentMemberMeans(cx.env, body, value);
        if cx.decodeNotice(value).Some? {
          NoticeMeans(cx.lib, cx.decodeNotice(value).value, InternalizeArgs([], "", "", false, []));
        }
      case None =>
    }
    if value :| HasPayment(cx.env, body, value) {
      PaymentMemberMeans(cx.env, body, value);
    }
  }

  function MessageId(a: Attempt): string {
    match a case Accept(p, _) => p.messageId case Reject(p, _) => p.messageId case Notice(m, _) => m.messageId
  }

  /** Attempts that must store a payment before the relay may lose it. */
  predicate MustStore(cx: Context, a: Attempt) {
    match a
    case Accept(_, _) => true
    case Reject(p, _) => p.token.amount >= REFUND_THRESHOLD
    case Notice(m, _) => CarriesPayment(cx, m.body)
  }

  predicate Stored(cx: Context, a: Attempt) {
    CallOf(cx, a).Some? && a.answers.wallet == Accepts
  }

  predicate RefundSucceeded(cx: Context, a: Attempt) {
    a.Reject? && Stored(cx, a) && a.answers.refundOk
  }

  /** The effects of one attempt, in order. */
  function Effects(cx: Context, a: Attempt): seq<Effect> {
    var ack := [Acknowledge(MessageId(a), a.answers.replies)];
    if !MustStore(cx, a) then ack
    else if CallOf(cx, a).None? then []
    else
      [WalletCall(CallOf(cx, a).value, a.answers.wallet)] +
      (if a.answers.wallet != Accepts then []
       else if !a.Reject? then ack
       else [Refund(a.payment.token.amount - REFUND_FEE, a.answers.refundOk)] + if a.answers.refundOk then ack else [])
  }

  function Remaining(copies: set<Copy>, e: Effect): set<Copy> {
    set c | c in copies && !Removes(e, c)
  }

  /** The relay copies left after some effects. */
  function Left(copies: set<Copy>, effects: seq<Effect>): set<Copy> {
    if effects == [] then copies
    else
      Remaining(Left(copies, effects[..|effects| - 1]), effects[|effects| - 1])
  }

  lemma LeftSnoc(copies: set<Copy>, effects: seq<Effect>, e: Effect)
    ensures Left(copies, effects + [e]) == Remaining(Left(copies, effects), e)
    ensures !e.Acknowledge? ==> Left(copies, effects + [e]) == Left(copies, effects)
  {
    assert (effects + [e])[..|effects|] == effects;
  }

  /** `log` records every effect; the relay's copies follow from it. */
  class PeerPayClient {
    const cx: Context
    const atStart: set<Copy>
    var log: seq<Effect>
    var copies: set<Copy>

    ghost predicate Valid()
      reads this
    {
      copies == Left(atStart, log)
    }

    constructor (cx: Context, copies: set<Copy>)
      ensures Valid() && this.cx == cx && atStart == copies && log == []
    {
      this.cx, this.atStart, this.log, this.copies := cx, copies, [], copies;
    }

    /** Fans out to every host; one success is success. */
    method AcknowledgeMessage(messageId: string, replies: map<string, HostReply>) returns (ok: bool)
      requires Valid()
      modifies this
      ensures Valid() && log == old(log) + [Acknowledge(messageId, replies)]
      ensures ok <==> exists h :: h in replies && replies[h].ok
    {
      var e := Acknowledge(messageId, replies);
      LeftSnoc(atStart, log, e);
      log := log + [e];
      copies := Remaining(copies, e);
      ok := exists h :: h in replies && replies[h].ok;
    }

    /** True only when the wallet accepted; an answer without acceptance is a failure too. */
    method Internalize(args: InternalizeArgs, answer: WalletAnswer) returns (stored: bool)
      requires Valid()
      modifies this`log
      ensures Valid() && log == old(log) + [WalletCall(args, answer)]
      ensures stored <==> answer == Accepts
    {
      LeftSnoc(atStart, log, WalletCall(args, answer));
      log := log + [WalletCall(args, answer)];
      stored := answer == Accepts;
    }

    method SendRefund(amount: nat, ok: bool)
      requires Valid()
      modifies this`log
      ensures Valid() && log == old(log) + [Refund(amount, ok)]
    {
      LeftSnoc(atStart, log, Refund(amount, ok));
      log := log + [Refund(amount, ok)];
    }

    method InternalizePayment(p: IncomingPayment, answer: WalletAnswer) returns (stored: bool)
      requires Valid()
      modifies this`log
      ensures Valid() && (stored <==> TokenDecodes(cx, p) && answer == Accepts)
      ensures log == old(log) + if TokenArgs(cx, p).Some? then [WalletCall(TokenArgs(cx, p).value, answer)] else []
    {
      var sender := cx.lib.point(p.sender);
      if sender.None? { return false; }
      var prefix := cx.lib.base64(p.token.derivationPrefix);
      if prefix.None? { return false; }
      var suffix := cx.lib.base64(p.token.derivationSuffix);
      if suffix.None? { return false; }
      var index := if p.token.outputIndex.Some? then p.token.outputIndex.value else 0;
      stored := Internalize(InternalizeArgs(p.token.transaction, "PeerPay Payment", "peerpay", true,
                                            [WalletPayment(index, prefix.value, suffix.value, sender.value)]), answer);
    }

    method AcceptPayment(p: IncomingPayment, answers: Answers) returns (ok: bool)
      requires Valid()
      modifies this
      ensures Valid() && log == old(log) + Effects(cx, Accept(p, answers))
      ensures ok <==> TokenDecodes(cx, p) && answers.wallet == Accepts && exists h :: h in answers.replies && answers.replies[h].ok
    {
      var stored := InternalizePayment(p, answers.wallet);
      if !stored { return false; }
      ok := AcknowledgeMessage(p.messageId, answers.replies);
    }

    method RejectPayment(p: IncomingPayment, answers: Answers) returns (ok: bool)
      requires Valid()
      modifies this
      ensures Valid() && log == old(log) + Effects(cx, Reject(p, answers))
      ensures ok <==> (exists h :: h in answers.replies && answers.replies[h].ok) &&
                      (p.token.amount < 2000 || (TokenDecodes(cx, p) && answers.wallet == Accepts && answers.refundOk))
    {
      if p.token.amount < REFUND_THRESHOLD {
        ok := AcknowledgeMessage(p.messageId, answers.replies);
        return;
      }
      var stored := InternalizePayment(p, answers.wallet);
      if !stored { return false; }
      SendRefund(p.token.amount - REFUND_FEE, answers.refundOk);
      if !answers.refundOk { return false; }
      ok := AcknowledgeMessage(p.messageId, answers.replies);
    }

    /** `Ok(true)` when a payment was stored and acknowledged, `Ok(false)` when there was none or it was kept. */
    method AcknowledgeNotification(m: Notification, answers: Answers) returns (r: Result<bool, ()>)
      requires Valid()
      modifies this
      ensures Valid() && log == old(log) + Effects(cx, Notice(m, answers))
      ensures r == Ok(true) <==> Stored(cx, Notice(m, answers)) && exists h :: h in answers.replies && answers.replies[h].ok
      ensures r == Ok(false) <==>
        if CarriesPayment(cx, m.body) then StaysOnRelay(cx, m.body)
        else exists h :: h in answers.replies && answers.replies[h].ok
    {
      RetainedMeans(cx, m.body);
      var parsed := cx.env.parse(m.body);
      if parsed.None? || !parsed.value.Obj? || Get(parsed.value, "message").None?
         || Get(parsed.value, "payment").None? || Get(parsed.value, "payment").value.Null?
      {
        var acked := AcknowledgeMessage(m.messageId, answers.replies);
        return if acked then Ok(false) else Err(());
      }
      var payment := cx.decodeNotice(Get(parsed.value, "payment").value);
      if payment.None? { return Err(()); }
      var plan := PrepareNotice(cx.lib, payment.value);
      match plan {
        case Retain => return Ok(false);
        case Invalid => return Err(());
        case Ready(args) =>
          var stored := Internalize(args, answers.wallet);
          if !stored { return Err(()); }
          var acked := AcknowledgeMessage(m.messageId, answers.replies);
          return if acked then Ok(true) else Err(());
      }
    }
  }
}
