/** Listing a box: payment outcomes, retry data, and the merge over hosts. */
module ListMessages {
  import opened Prelude
  import opened Envelope
  import opened DeliveryPaths
  import opened PaymentRules

  const MAX_LIST_MESSAGE_BODY_BYTES: nat := 4 * 1024 * 1024
  const OVERSIZED_MESSAGE_BODY: string := "[Message body exceeds the 4 MiB processing limit]"

  /** `payment`: absent, present but undecodable (`Some(None)`), or decoded. */
  datatype SplitMessageBody = SplitMessageBody(
    innerBody: string, payment: Option<Option<WirePayment>>, rawEnvelope: Option<string>, oversized: bool)

  datatype PaymentOutcome = NoPayment | Internalized | Skipped | Declined | Failed | Unprocessable {
    predicate IsSafe() { NoPayment? || Internalized? }
  }

  /** What the wallet answers when it is called: accepted, declined without an error, or an error. */
  datatype WalletAnswer = Accepts | Declines | Errs

  /** The environment. The listing and the notification path each have their own typed reading of a `payment` member. */
  datatype Context = Context(
    env: Env, lib: Lib, decode: Json -> Option<WirePayment>, decodeNotice: Json -> Option<NoticePayment>,
    originator: Option<string>)

  datatype ProcessedBody = ProcessedBody(
    body: string, authenticated: bool, outcome: PaymentOutcome, rawEnvelope: Option<string>)

  function SplitBody(cx: Context, raw: string): SplitMessageBody {
    if ByteLen(raw) > MAX_LIST_MESSAGE_BODY_BYTES then SplitMessageBody(OVERSIZED_MESSAGE_BODY, None, None, true)
    else
      match cx.env.parse(raw)
      case Some(Obj(fields)) =>
        var inner := match Get(Obj(fields), "message")
                     case Some(Str(text)) => text
                     case Some(other) => cx.env.render(other)
                     case None => raw;
        (match Get(Obj(fields), "payment")
         case None => SplitMessageBody(inner, None, None, false)
         case Some(Null) => SplitMessageBody(inner, None, None, false)
         case Some(value) => SplitMessageBody(inner, Some(cx.decode(value)), Some(raw), false))
      case _ => SplitMessageBody(raw, None, None, false)
  }

  /** The non-null payment a stored body carries. */
  function PaymentMember(env: Env, raw: string): Option<Json> {
    match env.parse(raw)
    case None => None
    case Some(v) => match Get(v, "payment") case Some(value) => (if value.Null? then None else Some(value)) case None => None
  }

  predicate WithinCap(raw: string) {
    ByteLen(raw) <= MAX_LIST_MESSAGE_BODY_BYTES
  }

  /** The arguments under which this body's payment, whole, may be handed to the wallet. */
  function PayableArgs(cx: Context, raw: string): Option<InternalizeArgs> {
    if !WithinCap(raw) then None
    else match PaymentMember(cx.env, raw)
         case None => None
         case Some(value) => match cx.decode(value) case None => None case Some(p) => BuiltArgs(cx.lib, p)
  }

  /**
   Processes one stored body. `calls` lists the wallet calls made: at most one, made exactly when payments
   are accepted and the whole payment is good, so never for a skipped or unprocessable one.
   */
  method ProcessListedBody(cx: Context, raw: string, sender: string, accept: bool, answer: WalletAnswer)
    returns (r: ProcessedBody, calls: seq<InternalizeArgs>)
    requires cx.env.Lawful()
    ensures calls == if accept && PayableArgs(cx, raw).Some? then [PayableArgs(cx, raw).value] else []
    ensures r.outcome == Outcome(cx, raw, accept, answer)
    ensures r == Processed(cx, raw, sender, accept, answer)
  {
    var split := SplitBody(cx, raw);
    SplitMeans(cx, raw);
    var outcome: PaymentOutcome;
    outcome, calls := SettlePayment(cx, split, accept, answer);
    var decrypted := TryDecryptTyped(cx.env, split.innerBody, sender, cx.originator);
    r := ProcessedBody(decrypted.IntoBody(), decrypted.IsAuthenticated(), outcome,
                       if outcome.IsSafe() then None else split.rawEnvelope);
  }

  /** The payment half: classify, and call the wallet if there is something whole to give it. */
  method SettlePayment(cx: Context, split: SplitMessageBody, accept: bool, answer: WalletAnswer)
    returns (outcome: PaymentOutcome, calls: seq<InternalizeArgs>)
    ensures calls == if accept && SplitArgs(cx, split).Some? then [SplitArgs(cx, split).value] else []
    ensures outcome == SplitOutcome(cx, split, accept, answer)
  {
    calls := [];
    if split.oversized { return Unprocessable, []; }
    match split.payment {
      case None => return NoPayment, [];
      case Some(decoded) =>
        if !accept { return Skipped, []; }
        if decoded.None? { return Unprocessable, []; }
        var args := BuildInternalizeArgs(cx.lib, decoded.value);
        if args.None? { return Unprocessable, []; }
        calls := [args.value];
        outcome := match answer case Accepts => Internalized case Declines => Declined case Errs => Failed;
    }
  }

  function SplitArgs(cx: Context, split: SplitMessageBody): Option<InternalizeArgs> {
    if split.oversized || split.payment.None? || split.payment.value.None? then None
    else BuiltArgs(cx.lib, split.payment.value.value)
  }

  function SplitOutcome(cx: Context, split: SplitMessageBody, accept: bool, answer: WalletAnswer): PaymentOutcome {
    if split.oversized then Unprocessable
    else if split.payment.None? then NoPayment
    else if !accept then Skipped
    else if SplitArgs(cx, split).None? then Unprocessable
    else match answer case Accepts => Internalized case Declines => Declined case Errs => Failed
  }

  /** The outcome, from the payment a body carries rather than from the order of the checks. */
  function Outcome(cx: Context, raw: string, accept: bool, answer: WalletAnswer): PaymentOutcome {
    if !WithinCap(raw) then Unprocessable
    else if PaymentMember(cx.env, raw).None? then NoPayment
    else if !accept then Skipped
    else if PayableArgs(cx, raw).None? then Unprocessable
    else match answer case Accepts => Internalized case Declines => Declined case Errs => Failed
  }

  /** The text that goes on to decryption: one wrapper off, or the marker for an oversized body. */
  function ShownText(cx: Context, raw: string): string {
    if WithinCap(raw) then ExtractPlainBody(cx.env, raw) else OVERSIZED_MESSAGE_BODY
  }

  function Processed(cx: Context, raw: string, sender: string, accept: bool, answer: WalletAnswer): ProcessedBody
    requires cx.env.Lawful()
  {
    Packaged(TryDecryptTyped(cx.env, ShownText(cx, raw), sender, cx.originator), Outcome(cx, raw, accept, answer),
             if WithinCap(raw) then Some(raw) else None)
  }

  /** The retained envelope goes with unsafe outcomes only. */
  function Packaged(decrypted: DecryptOutcome, outcome: PaymentOutcome, retained: Option<string>): ProcessedBody {
    ProcessedBody(decrypted.IntoBody(), decrypted.IsAuthenticated(), outcome, if outcome.IsSafe() then None else retained)
  }

  /** What splitting finds, field by field. */
  lemma SplitMeans(cx: Context, raw: string)
    ensures
      var split := SplitBody(cx, raw);
      && split.innerBody == ShownText(cx, raw) && (split.oversized <==> !WithinCap(raw))
      && (split.payment.Some? <==> WithinCap(raw) && PaymentMember(cx.env, raw).Some?)
      && (split.payment.Some? ==> split.payment.value == cx.decode(PaymentMember(cx.env, raw).value))
      && split.rawEnvelope == (if split.payment.Some? then Some(raw) else None)
      && SplitArgs(cx, split) == PayableArgs(cx, raw)
  {
  }

  /** The listing path yields the body and flag of the push path, for bodies within the cap. */
  lemma ListingAgreesWithPush(cx: Context, raw: string, sender: string, accept: bool, answer: WalletAnswer)
    requires cx.env.Lawful() && WithinCap(raw)
    ensures
      var pushed := TryDecryptTyped(cx.env, raw, sender, cx.originator);
      var listed := Processed(cx, raw, sender, accept, answer);
      listed.body == pushed.body && listed.authenticated == pushed.IsAuthenticated()
  {
    UnwrapThenDecrypt(cx.env, raw, sender, cx.originator);
  }

  // ---- Retry data ----

  /** `into_legacy_*`: the exact wrapper replaces the body when its payment is not safe. */
  function LegacyBody(p: ProcessedBody): string {
    if !p.outcome.IsSafe() && p.rawEnvelope.Some? then p.rawEnvelope.value else p.body
  }

  lemma LegacyIsRawOrShown(decrypted: DecryptOutcome, outcome: PaymentOutcome, retained: Option<string>)
    ensures
      var p := Packaged(decrypted, outcome, retained);
      && LegacyBody(p) == (if !outcome.IsSafe() && retained.Some? then retained.value else decrypted.body)
      && p.rawEnvelope == if outcome.IsSafe() then None else retained
  {
  }

  /**
   Within the cap an unsafe outcome always hands back the exact raw body, so listing it again finds the same
   payment. A safe outcome hands back the decrypted text. So the legacy body is the raw body exactly when the
   outcome is unsafe, or the body is neither a wrapper nor an envelope that opens, or its innermost envelope
   holds the whole body again.
   */
  lemma RetryDataIsKept(cx: Context, raw: string, sender: string, accept: bool, answer: WalletAnswer)
    requires cx.env.Lawful() && WithinCap(raw)
    ensures
      var p := Processed(cx, raw, sender, accept, answer);
      var plain := TryDecryptTyped(cx.env, raw, sender, cx.originator).body;
      && (!p.outcome.IsSafe() ==> LegacyBody(p) == raw && p.rawEnvelope == Some(raw))
      && (p.outcome.IsSafe() ==> LegacyBody(p) == plain && p.rawEnvelope.None?)
      && (LegacyBody(p) == raw <==>
            !p.outcome.IsSafe() || IsBare(cx.env, raw, sender, cx.originator)
            || OpensToItself(cx.env, raw, sender, cx.originator))
  {
    LegacyIsRawOrShown(TryDecryptTyped(cx.env, ShownText(cx, raw), sender, cx.originator),
                       Outcome(cx, raw, accept, answer), Some(raw));
    ListingAgreesWithPush(cx, raw, sender, accept, answer);
    UnchangedIff(cx.env, raw, sender, cx.originator);
  }

  lemma UnsafeIsKeptRaw(cx: Context, raw: string, sender: string, accept: bool, answer: WalletAnswer)
    requires cx.env.Lawful() && WithinCap(raw) && !Outcome(cx, raw, accept, answer).IsSafe()
    ensures LegacyBody(Processed(cx, raw, sender, accept, answer)) == raw
  {
    LegacyIsRawOrShown(TryDecryptTyped(cx.env, ShownText(cx, raw), sender, cx.originator),
                       Outcome(cx, raw, accept, answer), Some(raw));
  }

  /** An unsafe body comes back raw, or as the marker when it is over the cap and nothing was retained. */
  lemma UnsafeIsListedRaw(cx: Context, raw: string, sender: string, accept: bool, answer: WalletAnswer)
    requires cx.env.Lawful() && cx.env.parse(OVERSIZED_MESSAGE_BODY).None? && !Outcome(cx, raw, accept, answer).IsSafe()
    ensures LegacyBody(Processed(cx, raw, sender, accept, answer)) ==
      if ByteLen(raw) <= 4194304 then raw else "[Message body exceeds the 4 MiB processing limit]"
  {
    NonJsonIsPlain(cx.env, OVERSIZED_MESSAGE_BODY, sender, cx.originator);
    LegacyIsRawOrShown(TryDecryptTyped(cx.env, ShownText(cx, raw), sender, cx.originator),
                       Outcome(cx, raw, accept, answer), if WithinCap(raw) then Some(raw) else None);
  }

  /** A payment that is not accepted is never safe. */
  lemma SkippedIsUnsafe(cx: Context, raw: string, answer: WalletAnswer)
    requires PaymentMember(cx.env, raw).Some?
    ensures !Outcome(cx, raw, false, answer).IsSafe()
  {
  }

  /** The lite list's flag: an envelope put back in place of the body is never marked authenticated. */
  function LegacyFlag(p: ProcessedBody): bool {
    p.authenticated && (p.outcome.IsSafe() || p.rawEnvelope.None?)
  }

  /** The flag goes only with the text that was decrypted, so no envelope passes for an authenticated body. */
  lemma LegacyFlagIsHonest(cx: Context, raw: string, sender: string, accept: bool, answer: WalletAnswer)
    requires cx.env.Lawful() && WithinCap(raw)
    ensures
      var p := Processed(cx, raw, sender, accept, answer);
      LegacyFlag(p) <==> p.outcome.IsSafe() && TryDecryptTyped(cx.env, raw, sender, cx.originator) == Decrypted(LegacyBody(p))
  {
    RetryDataIsKept(cx, raw, sender, accept, answer);
    ListingAgreesWithPush(cx, raw, sender, accept, answer);
  }

  /** A raw legacy body does not by itself mean an unsafe payment: plain text comes back raw and safe. */
  lemma PlainTextComesBackRaw(cx: Context, raw: string, sender: string, accept: bool, answer: WalletAnswer)
    requires cx.env.Lawful() && WithinCap(raw) && cx.env.parse(raw).None?
    ensures
      var p := Processed(cx, raw, sender, accept, answer);
      p.outcome.IsSafe() && LegacyBody(p) == raw
  {
  }

  // ---- The outcomes, in terms of the stored body ----

  /** The body is an object with this non-null `payment`. */
  ghost predicate HasPayment(env: Env, raw: string, value: Json) {
    env.parse(raw).Some? && Member(env.parse(raw).value, "payment", value) && value != Null
  }

  lemma PaymentMemberMeans(env: Env, raw: string, value: Json)
    ensures PaymentMember(env, raw) == Some(value) <==> HasPayment(env, raw, value)
  {
    if env.parse(raw).Some? {
      GetMeans(env.parse(raw).value, "payment", value);
    }
  }

  /** Within the 4 MiB cap, with a payment that reads as one that hands this call to the wallet. */
  ghost predicate Payable(cx: Context, raw: string, args: InternalizeArgs) {
    ByteLen(raw) <= 4194304 && exists value :: HasPayment(cx.env, raw, value) && ReadsPayable(cx, value, args)
  }

  ghost predicate ReadsPayable(cx: Context, value: Json, args: InternalizeArgs) {
    cx.decode(value).Some? && HandsOver(cx.lib, cx.decode(value).value, args)
  }

  lemma ReadsPayableMeans(cx: Context, value: Json, args: InternalizeArgs)
    ensures ReadsPayable(cx, value, args) <==>
      match cx.decode(value) case None => false case Some(p) => BuiltArgs(cx.lib, p) == Some(args)
  {
    if cx.decode(value).Some? {
      PaymentMeans(cx.lib, cx.decode(value).value, args);
    }
  }

  lemma PayableMeans(cx: Context, raw: string, args: InternalizeArgs)
    ensures PayableArgs(cx, raw) == Some(args) <==> Payable(cx, raw, args)
  {
    match PaymentMember(cx.env, raw) {
      case Some(value) =>
        PaymentMemberMeans(cx.env, raw, value);
        ReadsPayableMeans(cx, value, args);
      case None =>
    }
    if value :| HasPayment(cx.env, raw, value) {
      PaymentMemberMeans(cx.env, raw, value);
    }
  }

  ghost predicate SomePayable(cx: Context, raw: string) {
    exists args :: Payable(cx, raw, args)
  }

  ghost predicate SomePayment(cx: Context, raw: string) {
    exists value :: HasPayment(cx.env, raw, value)
  }

  lemma SomeMeans(cx: Context, raw: string)
    ensures PayableArgs(cx, raw).Some? <==> SomePayable(cx, raw)
    ensures PaymentMember(cx.env, raw).Some? <==> SomePayment(cx, raw)
    ensures SomePayable(cx, raw) ==> ByteLen(raw) <= 4194304 && SomePayment(cx, raw)
  {
    if PayableArgs(cx, raw).Some? {
      PayableMeans(cx, raw, PayableArgs(cx, raw).value);
    }
    if args :| Payable(cx, raw, args) {
      PayableMeans(cx, raw, args);
    }
    if PaymentMember(cx.env, raw).Some? {
      PaymentMemberMeans(cx.env, raw, PaymentMember(cx.env, raw).value);
    }
    if value :| HasPayment(cx.env, raw, value) {
      PaymentMemberMeans(cx.env, raw, value);
    }
  }

  /** Exactly when each outcome comes about, and which of them are safe to acknowledge. */
  lemma OutcomeMeans(cx: Context, raw: string, accept: bool, answer: WalletAnswer)
    ensures var outcome, within := Outcome(cx, raw, accept, answer), ByteLen(raw) <= 4194304;
      && (outcome == NoPayment <==> within && !SomePayment(cx, raw))
      && (outcome == Skipped <==> within && SomePayment(cx, raw) && !accept)
      && (outcome == Internalized <==> accept && SomePayable(cx, raw) && answer == Accepts)
      && (outcome == Declined <==> accept && SomePayable(cx, raw) && answer == Declines)
      && (outcome == Failed <==> accept && SomePayable(cx, raw) && answer == Errs)
      && (outcome == Unprocessable <==> !within || (SomePayment(cx, raw) && accept && !SomePayable(cx, raw)))
      && (outcome.IsSafe() <==> within && (SomePayment(cx, raw) ==> accept && SomePayable(cx, raw) && answer == Accepts))
  {
    SomeMeans(cx, raw);
    PayableIsWithin(cx, raw);
  }

  lemma PayableIsWithin(cx: Context, raw: string)
    ensures WithinCap(raw) <==> ByteLen(raw) <= 4194304
    ensures PayableArgs(cx, raw).Some? ==> WithinCap(raw) && PaymentMember(cx.env, raw).Some?
  {
  }

  /** Acknowledging a safe receipt loses no payment the wallet has not accepted whole, in one call. */
  lemma SafeMeansStored(cx: Context, raw: string, accept: bool, answer: WalletAnswer)
    requires Outcome(cx, raw, accept, answer).IsSafe()
    ensures PaymentMember(cx.env, raw).Some? ==>
      accept && answer == Accepts && PayableArgs(cx, raw).Some? && Payable(cx, raw, PayableArgs(cx, raw).value)
  {
    if PaymentMember(cx.env, raw).Some? {
      PayableMeans(cx, raw, PayableArgs(cx, raw).value);
    }
  }
}
