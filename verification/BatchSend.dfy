/** Quoting many recipients, paying all their fees in one transaction, and sending to each. */
module BatchSend {
  import opened Prelude

  // ---- Quotes ----

  /** A host's answer to a quote request. `agent` is the delivery agent key in the response header. */
  datatype QuoteReply =
    | NoAnswer(error: string)
    | Garbled(agent: Option<string>)
    | Quoted(agent: Option<string>, deliveryFee: int, recipientFee: int)

  /** One position of the request: the recipient, the host it resolved to, and that host's answer. */
  datatype Asked = Asked(recipient: string, host: string, reply: QuoteReply)

  datatype Status = Blocked | AlwaysAllow | PaymentRequired | ParseError | QuoteError(error: string)

  datatype RecipientQuote = RecipientQuote(recipient: string, deliveryFee: int, recipientFee: int, status: Status)

  datatype MultiQuote = MultiQuote(
    quotes: seq<RecipientQuote>, blocked: seq<string>, agents: map<string, string>, deliveryTotal: int, recipientTotal: int)

  predicate QuoteErrored(a: Asked) {
    !a.reply.Quoted?
  }

  predicate FeeBlocks(a: Asked) {
    a.reply.Quoted? && a.reply.recipientFee < 0
  }

  function QuoteFor(a: Asked): RecipientQuote {
    match a.reply
    case NoAnswer(error) => RecipientQuote(a.recipient, 0, 0, QuoteError(error))
    case Garbled(_) => RecipientQuote(a.recipient, 0, 0, ParseError)
    case Quoted(_, d, r) =>
      RecipientQuote(a.recipient, d, r,
                     if r < 0 then Blocked else if r == 0 && d == 0 then AlwaysAllow else PaymentRequired)
  }

  function AgentIn(reply: QuoteReply): Option<string> {
    match reply case NoAnswer(_) => None case Garbled(agent) => agent case Quoted(agent, _, _) => agent
  }

  /** The last agent key seen from each host. */
  function Agents(asked: seq<Asked>): map<string, string> {
    if asked == [] then map[]
    else
      var a := asked[|asked| - 1];
      var before := Agents(asked[..|asked| - 1]);
      if AgentIn(a.reply).Some? then before[a.host := AgentIn(a.reply).value] else before
  }

  function BlockedOf(asked: seq<Asked>): seq<string> {
    if asked == [] then []
    else
      var a := asked[|asked| - 1];
      BlockedOf(asked[..|asked| - 1]) + if QuoteErrored(a) || FeeBlocks(a) then [a.recipient] else []
  }

  function QuotesOf(asked: seq<Asked>): seq<RecipientQuote> {
    seq(|asked|, i requires 0 <= i < |asked| => QuoteFor(asked[i]))
  }

  function DeliveryTotal(asked: seq<Asked>): int {
    if asked == [] then 0
    else
      var a := asked[|asked| - 1];
      DeliveryTotal(asked[..|asked| - 1]) + if QuoteErrored(a) || FeeBlocks(a) then 0 else a.reply.deliveryFee
  }

  function RecipientTotal(asked: seq<Asked>): int {
    if asked == [] then 0
    else
      var a := asked[|asked| - 1];
      RecipientTotal(asked[..|asked| - 1]) + if QuoteErrored(a) || FeeBlocks(a) then 0 else a.reply.recipientFee
  }

  function MultiQuoteOf(asked: seq<Asked>): MultiQuote {
    MultiQuote(QuotesOf(asked), BlockedOf(asked), Agents(asked), DeliveryTotal(asked), RecipientTotal(asked))
  }

  method GetMessageBoxQuoteMulti(asked: seq<Asked>) returns (q: MultiQuote)
    ensures q == MultiQuoteOf(asked)
  {
    var quotes: seq<RecipientQuote>, blocked: seq<string> := [], [];
    var agents: map<string, string> := map[];
    var deliveryTotal, recipientTotal := 0, 0;
    for i := 0 to |asked|
      invariant quotes == QuotesOf(asked[..i]) && blocked == BlockedOf(asked[..i]) && agents == Agents(asked[..i])
      invariant deliveryTotal == DeliveryTotal(asked[..i]) && recipientTotal == RecipientTotal(asked[..i])
    {
      var a := asked[i];
      assert asked[..i + 1][..i] == asked[..i] && asked[..i + 1][i] == a;
      if a.reply.NoAnswer? {
        blocked := blocked + [a.recipient];
        quotes := quotes + [RecipientQuote(a.recipient, 0, 0, QuoteError(a.reply.error))];
        continue;
      }
      if a.reply.agent.Some? {
        agents := agents[a.host := a.reply.agent.value];
      }
      if a.reply.Garbled? {
        blocked := blocked + [a.recipient];
        quotes := quotes + [RecipientQuote(a.recipient, 0, 0, ParseError)];
        continue;
      }
      var d, r := a.reply.deliveryFee, a.reply.recipientFee;
      var status := if r < 0 then Blocked else if r == 0 && d == 0 then AlwaysAllow else PaymentRequired;
      if r < 0 {
        blocked := blocked + [a.recipient];
      } else {
        deliveryTotal := deliveryTotal + d;
        recipientTotal := recipientTotal + r;
      }
      quotes := quotes + [RecipientQuote(a.recipient, d, r, status)];
    }
    assert asked[..|asked|] == asked;
    q := MultiQuote(quotes, blocked, agents, deliveryTotal, recipientTotal);
  }

  // ---- The batch payment ----

  /** `agentKey` is empty when the delivery agent of the recipient's host is unknown. */
  datatype Fees = Fees(recipient: string, deliveryFee: int, recipientFee: int, agentKey: string)

  datatype FeeOutput = FeeOutput(satoshis: nat, recipient: string, forDelivery: bool)

  datatype PaymentOutput = PaymentOutput(outputIndex: nat, forDelivery: bool)

  datatype MessagePayment = MessagePayment(tx: seq<nat>, outputs: seq<PaymentOutput>)

  /** The outputs one recipient adds. */
  function OutputsFor(f: Fees): seq<FeeOutput> {
    (if f.deliveryFee > 0 && f.agentKey != "" then [FeeOutput(f.deliveryFee, f.recipient, true)] else [])
    + (if f.recipientFee > 0 then [FeeOutput(f.recipientFee, f.recipient, false)] else [])
  }

  function FeeOutputs(all: seq<Fees>): seq<FeeOutput> {
    if all == [] then [] else FeeOutputs(all[..|all| - 1]) + OutputsFor(all[|all| - 1])
  }

  /** Payment output `i` points at wallet output `i` and is derived for the same kind of fee. */
  ghost predicate Matched(outputs: seq<FeeOutput>, payment: seq<PaymentOutput>) {
    |payment| == |outputs| && forall i :: 0 <= i < |payment| ==> payment[i] == PaymentOutput(i, outputs[i].forDelivery)
  }

  /** Every key the batch needs can be derived. */
  predicate KeysOk(all: seq<Fees>, keysOk: seq<(bool, bool)>)
    requires |keysOk| == |all|
  {
    forall i :: 0 <= i < |all| ==>
      (all[i].deliveryFee > 0 && all[i].agentKey != "" ==> keysOk[i].0) && (all[i].recipientFee > 0 ==> keysOk[i].1)
  }

  datatype BatchError = NoIdentityKey | NoDerivedKey | NoTransaction

  /** What the batch yields: an error, no transaction for no outputs, or one with matched payment outputs. */
  ghost predicate BatchResult(all: seq<Fees>, keys: Keys, r: Result<MessagePayment, BatchError>)
    requires |keys.derived| == |all|
  {
    match r
    case Err(NoIdentityKey) => !keys.identity
    case Err(NoDerivedKey) => keys.identity && !KeysOk(all, keys.derived)
    case Err(NoTransaction) => keys.identity && KeysOk(all, keys.derived) && FeeOutputs(all) != [] && keys.tx.None?
    case Ok(payment) =>
      && keys.identity && KeysOk(all, keys.derived) && Matched(FeeOutputs(all), payment.outputs)
      && Some(payment.tx) == if FeeOutputs(all) == [] then Some([]) else keys.tx
  }

  /**
   The wallet's answers: whether the sender's and the anyone identity key are there, whether the delivery and
   the recipient key of each position can be derived, and the transaction.
   */
  datatype Keys = Keys(identity: bool, derived: seq<(bool, bool)>, tx: Option<seq<nat>>)

  /** `created` is what the wallet was asked to create, if it was. */
  method CreateMessagePaymentBatch(all: seq<Fees>, keys: Keys)
    returns (r: Result<MessagePayment, BatchError>, created: Option<seq<FeeOutput>>)
    requires |keys.derived| == |all|
    ensures BatchResult(all, keys, r)
    ensures created == if keys.identity && KeysOk(all, keys.derived) && FeeOutputs(all) != [] then Some(FeeOutputs(all)) else None
  {
    if !keys.identity { return Err(NoIdentityKey), None; }
    var outputs: seq<FeeOutput>, payment: seq<PaymentOutput> := [], [];
    for i := 0 to |all|
      invariant outputs == FeeOutputs(all[..i]) && Matched(outputs, payment)
      invariant forall j :: 0 <= j < i ==>
        (all[j].deliveryFee > 0 && all[j].agentKey != "" ==> keys.derived[j].0) && (all[j].recipientFee > 0 ==> keys.derived[j].1)
    {
      var f := all[i];
      assert all[..i + 1][..i] == all[..i] && all[..i + 1][i] == f;
      ghost var start := outputs;
      if f.deliveryFee > 0 && f.agentKey != "" {
        if !keys.derived[i].0 { return Err(NoDerivedKey), None; }
        var index := |outputs|;
        outputs := outputs + [FeeOutput(f.deliveryFee, f.recipient, true)];
        payment := payment + [PaymentOutput(index, true)];
      }
      if f.recipientFee > 0 {
        if !keys.derived[i].1 { return Err(NoDerivedKey), None; }
        var index := |outputs|;
        outputs := outputs + [FeeOutput(f.recipientFee, f.recipient, false)];
        payment := payment + [PaymentOutput(index, false)];
      }
      assert outputs == start + OutputsFor(f);
    }
    assert all[..|all|] == all;
    if outputs == [] { return Ok(MessagePayment([], [])), None; }
    if keys.tx.None? { return Err(NoTransaction), Some(outputs); }
    return Ok(MessagePayment(keys.tx.value, payment)), Some(outputs);
  }

  function Satoshis(outputs: seq<FeeOutput>): nat {
    if outputs == [] then 0 else Satoshis(outputs[..|outputs| - 1]) + outputs[|outputs| - 1].satoshis
  }

  // ---- Sending ----

  predicate Sendable(q: RecipientQuote) {
    q.status != Blocked
  }

  function SendableOf(quotes: seq<RecipientQuote>): seq<RecipientQuote> {
    if quotes == [] then []
    else SendableOf(quotes[..|quotes| - 1]) + if Sendable(quotes[|quotes| - 1]) then [quotes[|quotes| - 1]] else []
  }

  /** The host each recipient resolves to when sending; a recipient listed twice keeps its last resolution. */
  function HostMap(sendable: seq<RecipientQuote>, resolved: seq<string>): map<string, string>
    requires |resolved| == |sendable|
  {
    if sendable == [] then map[]
    else
      var n := |sendable| - 1;
      HostMap(sendable[..n], resolved[..n])[sendable[n].recipient := resolved[n]]
  }

  function Lookup(m: map<string, string>, key: string, otherwise: string): string {
    if key in m then m[key] else otherwise
  }

  function FeesOf(sendable: seq<RecipientQuote>, hosts: map<string, string>, agents: map<string, string>, ownHost: string): seq<Fees> {
    seq(|sendable|, i requires 0 <= i < |sendable| =>
      var q := sendable[i];
      Fees(q.recipient, q.deliveryFee, q.recipientFee, Lookup(agents, Lookup(hosts, q.recipient, ownHost), "")))
  }

  datatype SendFailure = BatchFailed(error: BatchError) | SendFailed(reason: string)

  datatype SentRecipient = SentRecipient(recipient: string, messageId: string)

  datatype FailedRecipient = FailedRecipient(recipient: string, error: SendFailure)

  /** One send: to whom, at which host, carrying which payment. */
  datatype Request = Request(recipient: string, host: string, payment: Option<MessagePayment>)

  function SentOf(sendable: seq<RecipientQuote>, sends: seq<Result<string, string>>): seq<SentRecipient>
    requires |sends| == |sendable|
  {
    if sendable == [] then []
    else
      var n := |sendable| - 1;
      SentOf(sendable[..n], sends[..n])
      + if sends[n].Ok? then [SentRecipient(sendable[n].recipient, sends[n].value)] else []
  }

  function FailedOf(sendable: seq<RecipientQuote>, sends: seq<Result<string, string>>): seq<FailedRecipient>
    requires |sends| == |sendable|
  {
    if sendable == [] then []
    else
      var n := |sendable| - 1;
      FailedOf(sendable[..n], sends[..n])
      + if sends[n].Err? then [FailedRecipient(sendable[n].recipient, SendFailed(sends[n].error))] else []
  }

  /** When the batch fails nothing is sent, and every sendable recipient fails for that reason. */
  function AllFailedOf(sendable: seq<RecipientQuote>, error: BatchError): seq<FailedRecipient> {
    seq(|sendable|, i requires 0 <= i < |sendable| => FailedRecipient(sendable[i].recipient, BatchFailed(error)))
  }

  /** Every send goes to the host of the second resolution and carries the one batch payment, if there is one. */
  function Requests(sendable: seq<RecipientQuote>, hosts: map<string, string>, ownHost: string, payment: Option<MessagePayment>): seq<Request> {
    seq(|sendable|, i requires 0 <= i < |sendable| =>
      Request(sendable[i].recipient, Lookup(hosts, sendable[i].recipient, ownHost), payment))
  }

  datatype SendListResult = SendListResult(
    success: bool, sent: seq<SentRecipient>, blocked: seq<string>, failed: seq<FailedRecipient>, totals: Option<(int, int)>)

  function Recipients(sendable: seq<RecipientQuote>): seq<string> {
    seq(|sendable|, i requires 0 <= i < |sendable| => sendable[i].recipient)
  }

  predicate NeedsPayment(sendable: seq<RecipientQuote>) {
    exists i :: 0 <= i < |sendable| && (sendable[i].deliveryFee > 0 || sendable[i].recipientFee > 0)
  }

  /** What sending to a list comes to, given the outcome of its batch payment. */
  ghost predicate Reported(asked: seq<Asked>, hosts: map<string, string>, ownHost: string, batch: Option<Result<MessagePayment, BatchError>>,
                           sends: seq<Result<string, string>>, r: SendListResult, requests: seq<Request>)
    requires |sends| == |SendableOf(QuotesOf(asked))|
  {
    var sendable := SendableOf(QuotesOf(asked));
    && r.blocked == BlockedOf(asked)
    && if batch.Some? && batch.value.Err?
       then r == SendListResult(false, [], r.blocked, AllFailedOf(sendable, batch.value.error), None) && requests == []
       else
         && r.success && r.sent == SentOf(sendable, sends) && r.failed == FailedOf(sendable, sends)
         && r.totals == Some((DeliveryTotal(asked), RecipientTotal(asked)))
         && requests == Requests(sendable, hosts, ownHost, if batch.Some? then Some(batch.value.value) else None)
  }

  /** A batch is made exactly when some sendable recipient has a positive fee; then what it comes to and asks for. */
  ghost predicate Settled(asked: seq<Asked>, resolved: seq<string>, ownHost: string, keys: Keys,
                          batch: Option<Result<MessagePayment, BatchError>>, created: Option<seq<FeeOutput>>)
    requires |resolved| == |keys.derived| == |SendableOf(QuotesOf(asked))|
  {
    var sendable := SendableOf(QuotesOf(asked));
    var fees := FeesOf(sendable, HostMap(sendable, resolved), Agents(asked), ownHost);
    && (batch.Some? <==> exists i :: 0 <= i < |sendable| && (sendable[i].deliveryFee > 0 || sendable[i].recipientFee > 0))
    && (batch.Some? ==> BatchResult(fees, keys, batch.value))
    && created == if batch.Some? && keys.identity && KeysOk(fees, keys.derived) && FeeOutputs(fees) != []
                  then Some(FeeOutputs(fees)) else None
  }

  /**
   `resolved` and `sends` answer, per sendable recipient, the second host resolution and the individual send
   (an id, or an error). `batch` is the outcome of the batch payment if one was needed, `requests` what was
   sent and `created` what the wallet was asked to create.
   */
  method SendMessageToRecipients(asked: seq<Asked>, resolved: seq<string>, ownHost: string, keys: Keys, sends: seq<Result<string, string>>)
    returns (r: SendListResult, batch: Option<Result<MessagePayment, BatchError>>, requests: seq<Request>, created: Option<seq<FeeOutput>>)
    requires var n := |SendableOf(QuotesOf(asked))|; |resolved| == |keys.derived| == |sends| == n
    ensures Reported(asked, HostMap(SendableOf(QuotesOf(asked)), resolved), ownHost, batch, sends, r, requests)
    ensures Settled(asked, resolved, ownHost, keys, batch, created)
  {
    var q := GetMessageBoxQuoteMulti(asked);
    var sendable := SelectSendable(q.quotes);
    var hosts := ResolveHosts(sendable, resolved);
    batch, created, requests := None, None, [];
    if NeedsPayment(sendable) {
      var payment;
      payment, created := CreateMessagePaymentBatch(FeesOf(sendable, hosts, q.agents, ownHost), keys);
      batch := Some(payment);
      if payment.Err? {
        r := SendListResult(false, [], q.blocked, AllFailedOf(sendable, payment.error), None);
        return;
      }
    }
    var carried := if batch.Some? then Some(batch.value.value) else None;
    var sent, failed;
    sent, failed, requests := SendToEach(sendable, hosts, ownHost, carried, sends);
    r := SendListResult(true, sent, q.blocked, failed, Some((q.deliveryTotal, q.recipientTotal)));
  }

  method SelectSendable(quotes: seq<RecipientQuote>) returns (sendable: seq<RecipientQuote>)
    ensures sendable == SendableOf(quotes)
  {
    sendable := [];
    for i := 0 to |quotes|
      invariant sendable == SendableOf(quotes[..i])
    {
      assert quotes[..i + 1][..i] == quotes[..i] && quotes[..i + 1][i] == quotes[i];
      if quotes[i].status != Blocked {
        sendable := sendable + [quotes[i]];
      }
    }
    assert quotes[..|quotes|] == quotes;
  }

  method ResolveHosts(sendable: seq<RecipientQuote>, resolved: seq<string>) returns (hosts: map<string, string>)
    requires |resolved| == |sendable|
    ensures hosts == HostMap(sendable, resolved)
  {
    hosts := map[];
    for i := 0 to |sendable|
      invariant hosts == HostMap(sendable[..i], resolved[..i])
    {
      assert sendable[..i + 1][..i] == sendable[..i] && resolved[..i + 1][..i] == resolved[..i];
      hosts := hosts[sendable[i].recipient := resolved[i]];
    }
    assert sendable[..|sendable|] == sendable && resolved[..|sendable|] == resolved;
  }

  method SendToEach(sendable: seq<RecipientQuote>, hosts: map<string, string>, ownHost: string, payment: Option<MessagePayment>,
                    sends: seq<Result<string, string>>)
    returns (sent: seq<SentRecipient>, failed: seq<FailedRecipient>, requests: seq<Request>)
    requires |sends| == |sendable|
    ensures sent == SentOf(sendable, sends) && failed == FailedOf(sendable, sends)
    ensures requests == Requests(sendable, hosts, ownHost, payment)
  {
    sent, failed, requests := [], [], [];
    for i := 0 to |sendable|
      invariant sent == SentOf(sendable[..i], sends[..i]) && failed == FailedOf(sendable[..i], sends[..i])
      invariant requests == Requests(sendable[..i], hosts, ownHost, payment)
    {
      assert sendable[..i + 1][..i] == sendable[..i] && sends[..i + 1][..i] == sends[..i];
      var to := sendable[i].recipient;
      requests := requests + [Request(to, Lookup(hosts, to, ownHost), payment)];
      match sends[i] {
        case Ok(id) => sent := sent + [SentRecipient(to, id)];
        case Err(error) => failed := failed + [FailedRecipient(to, SendFailed(error))];
      }
    }
    assert sendable[..|sendable|] == sendable && sends[..|sendable|] == sends;
  }
}
