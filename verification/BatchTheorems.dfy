/** What a batch charges against what was quoted, and who is reported how. */
module BatchTheorems {
  import opened Prelude
  import opened BatchSend

  // ---- Charged against quoted ----

  /** What the batch takes for one recipient. */
  function Charge(f: Fees): nat {
    (if f.deliveryFee > 0 && f.agentKey != "" then f.deliveryFee else 0) + if f.recipientFee > 0 then f.recipientFee else 0
  }

  function Charges(all: seq<Fees>): nat {
    if all == [] then 0 else Charges(all[..|all| - 1]) + Charge(all[|all| - 1])
  }

  lemma {:induction false} SatoshisConcat(a: seq<FeeOutput>, b: seq<FeeOutput>)
    ensures Satoshis(a + b) == Satoshis(a) + Satoshis(b)
  {
    if b == [] {
      assert a + b == a;
    } else {
      SatoshisConcat(a, b[..|b| - 1]);
      assert (a + b)[..|a + b| - 1] == a + b[..|b| - 1];
    }
  }

  lemma SatoshisOfOne(f: Fees)
    ensures Satoshis(OutputsFor(f)) == Charge(f)
  {
    var o := OutputsFor(f);
    if |o| == 2 {
      assert o == [o[0]] + [o[1]];
      SatoshisConcat([o[0]], [o[1]]);
      assert [o[0]][..0] == [] && [o[1]][..0] == [];
    } else if |o| == 1 {
      assert o[..0] == [];
    }
  }

  /** The transaction's outputs add up to the positive recipient fees and the positive delivery fees with a known agent. */
  lemma {:induction false} OutputsAddUp(all: seq<Fees>)
    ensures Satoshis(FeeOutputs(all)) == Charges(all)
  {
    if all != [] {
      OutputsAddUp(all[..|all| - 1]);
      SatoshisConcat(FeeOutputs(all[..|all| - 1]), OutputsFor(all[|all| - 1]));
      SatoshisOfOne(all[|all| - 1]);
    }
  }

  /** The part of a quoted delivery fee that is never charged: a negative one, or one with no known agent. */
  function Uncharged(f: Fees): int {
    if f.deliveryFee < 0 || f.agentKey == "" then f.deliveryFee else 0
  }

  function AllUncharged(all: seq<Fees>): int {
    if all == [] then 0 else AllUncharged(all[..|all| - 1]) + Uncharged(all[|all| - 1])
  }

  function QuoteTotal(quotes: seq<RecipientQuote>): int {
    if quotes == [] then 0
    else QuoteTotal(quotes[..|quotes| - 1]) + quotes[|quotes| - 1].deliveryFee + quotes[|quotes| - 1].recipientFee
  }

  /** The announced total is the sum over the sendable quotes. */
  lemma {:induction false} TotalIsOverSendable(asked: seq<Asked>)
    ensures DeliveryTotal(asked) + RecipientTotal(asked) == QuoteTotal(SendableOf(QuotesOf(asked)))
  {
    if asked != [] {
      var before, a := asked[..|asked| - 1], asked[|asked| - 1];
      TotalIsOverSendable(before);
      SendableSnoc(asked);
      assert Sendable(QuoteFor(a)) <==> !FeeBlocks(a);
      QuoteTotalSnoc(SendableOf(QuotesOf(before)), QuoteFor(a));
    }
  }

  lemma SendableSnoc(asked: seq<Asked>)
    requires asked != []
    ensures var q := QuoteFor(asked[|asked| - 1]);
      var earlier := SendableOf(QuotesOf(asked[..|asked| - 1]));
      SendableOf(QuotesOf(asked)) == if Sendable(q) then earlier + [q] else earlier
  {
    assert QuotesOf(asked)[..|asked| - 1] == QuotesOf(asked[..|asked| - 1]);
  }

  lemma QuoteTotalSnoc(quotes: seq<RecipientQuote>, q: RecipientQuote)
    ensures QuoteTotal(quotes + [q]) == QuoteTotal(quotes) + q.deliveryFee + q.recipientFee
  {
    assert (quotes + [q])[..|quotes|] == quotes;
  }

  /** A negative recipient fee blocks, so no sendable quote has one. */
  lemma {:induction false} SendableFeesAreNatural(asked: seq<Asked>)
    ensures forall i :: 0 <= i < |SendableOf(QuotesOf(asked))| ==> SendableOf(QuotesOf(asked))[i].recipientFee >= 0
  {
    if asked != [] {
      SendableFeesAreNatural(asked[..|asked| - 1]);
      SendableSnoc(asked);
    }
  }

  lemma {:induction false} TotalSplits(sendable: seq<RecipientQuote>, hosts: map<string, string>, agents: map<string, string>, ownHost: string)
    requires forall i :: 0 <= i < |sendable| ==> sendable[i].recipientFee >= 0
    ensures
      var all := FeesOf(sendable, hosts, agents, ownHost);
      QuoteTotal(sendable) == Charges(all) + AllUncharged(all)
  {
    if sendable != [] {
      var before := sendable[..|sendable| - 1];
      TotalSplits(before, hosts, agents, ownHost);
      assert FeesOf(sendable, hosts, agents, ownHost)[..|before|] == FeesOf(before, hosts, agents, ownHost);
    }
  }

  /**
   For every request, whatever the hosts answer: what was announced is what the batch charges plus exactly
   the delivery fees that cannot be charged, the negative ones and those whose agent is unknown.
   */
  lemma QuotedIsChargedPlusUncharged(asked: seq<Asked>, resolved: seq<string>, ownHost: string)
    requires |resolved| == |SendableOf(QuotesOf(asked))|
    ensures
      var sendable := SendableOf(QuotesOf(asked));
      var all := FeesOf(sendable, HostMap(sendable, resolved), Agents(asked), ownHost);
      DeliveryTotal(asked) + RecipientTotal(asked) == Satoshis(FeeOutputs(all)) + AllUncharged(all)
  {
    var sendable := SendableOf(QuotesOf(asked));
    TotalIsOverSendable(asked);
    SendableFeesAreNatural(asked);
    TotalSplits(sendable, HostMap(sendable, resolved), Agents(asked), ownHost);
    OutputsAddUp(FeesOf(sendable, HostMap(sendable, resolved), Agents(asked), ownHost));
  }

  /** So the batch charges exactly what was announced when the uncharged delivery fees add up to nothing, and only then. */
  lemma ChargesTheTotalIff(asked: seq<Asked>, resolved: seq<string>, ownHost: string)
    requires |resolved| == |SendableOf(QuotesOf(asked))|
    ensures
      var sendable := SendableOf(QuotesOf(asked));
      var all := FeesOf(sendable, HostMap(sendable, resolved), Agents(asked), ownHost);
      Satoshis(FeeOutputs(all)) == DeliveryTotal(asked) + RecipientTotal(asked) <==> AllUncharged(all) == 0
  {
    QuotedIsChargedPlusUncharged(asked, resolved, ownHost);
  }

  // ---- When the two are equal ----

  /** Each host, whenever it names its agent, names one; and it does so whenever it asks a delivery fee, never a negative one. */
  ghost predicate AgentsKnown(asked: seq<Asked>) {
    forall i :: 0 <= i < |asked| ==>
      && AgentIn(asked[i].reply) != Some("")
      && (asked[i].reply.Quoted? ==> asked[i].reply.deliveryFee >= 0 && (asked[i].reply.deliveryFee > 0 ==> asked[i].reply.agent.Some?))
  }

  lemma {:induction false} AgentsAreRecorded(asked: seq<Asked>)
    requires AgentsKnown(asked)
    ensures forall host :: host in Agents(asked) ==> Agents(asked)[host] != ""
    ensures forall i :: 0 <= i < |asked| && AgentIn(asked[i].reply).Some? ==> asked[i].host in Agents(asked)
  {
    if asked != [] {
      var before := asked[..|asked| - 1];
      assert AgentsKnown(before) by {
        forall i | 0 <= i < |before| ensures before[i] == asked[i] { }
      }
      AgentsAreRecorded(before);
      forall i | 0 <= i < |asked| && AgentIn(asked[i].reply).Some? ensures asked[i].host in Agents(asked) {
        if i < |before| {
          assert before[i] == asked[i];
        }
      }
    }
  }

  /** Resolution is stable when a recipient resolves to the same host in both rounds. */
  ghost predicate Stable(asked: seq<Asked>, resolved: seq<string>, hostOf: string -> string)
    requires |resolved| == |SendableOf(QuotesOf(asked))|
  {
    && (forall i :: 0 <= i < |asked| ==> asked[i].host == hostOf(asked[i].recipient))
    && (forall i :: 0 <= i < |resolved| ==> resolved[i] == hostOf(SendableOf(QuotesOf(asked))[i].recipient))
  }

  lemma {:induction false} HostMapIsStable(sendable: seq<RecipientQuote>, resolved: seq<string>, hostOf: string -> string)
    requires |resolved| == |sendable|
    requires forall i :: 0 <= i < |resolved| ==> resolved[i] == hostOf(sendable[i].recipient)
    ensures forall i :: 0 <= i < |sendable| ==>
      sendable[i].recipient in HostMap(sendable, resolved)
    ensures forall r :: r in HostMap(sendable, resolved) ==> HostMap(sendable, resolved)[r] == hostOf(r)
  {
    if sendable != [] {
      var n := |sendable| - 1;
      HostMapIsStable(sendable[..n], resolved[..n], hostOf);
      forall i | 0 <= i < |sendable| ensures sendable[i].recipient in HostMap(sendable, resolved) {
        if i < n {
          assert sendable[..n][i] == sendable[i];
        }
      }
    }
  }

  lemma {:induction false} SendableComesFrom(asked: seq<Asked>, i: nat) returns (k: nat)
    requires i < |SendableOf(QuotesOf(asked))|
    ensures k < |asked| && SendableOf(QuotesOf(asked))[i] == QuoteFor(asked[k])
  {
    var n := |asked| - 1;
    var before := asked[..n];
    assert QuotesOf(asked)[..n] == QuotesOf(before);
    if i < |SendableOf(QuotesOf(before))| {
      k := SendableComesFrom(before, i);
    } else {
      k := n;
    }
  }

  lemma {:induction false} NothingUncharged(all: seq<Fees>)
    requires forall i :: 0 <= i < |all| ==> all[i].deliveryFee >= 0 && (all[i].deliveryFee > 0 ==> all[i].agentKey != "")
    ensures AllUncharged(all) == 0
  {
    if all != [] {
      NothingUncharged(all[..|all| - 1]);
    }
  }

  /** With known agents, no negative delivery fee and stable host resolution the batch charges exactly the quoted total. */
  lemma ChargesWhatWasQuoted(asked: seq<Asked>, resolved: seq<string>, ownHost: string, hostOf: string -> string)
    requires |resolved| == |SendableOf(QuotesOf(asked))| && AgentsKnown(asked) && Stable(asked, resolved, hostOf)
    ensures
      var sendable := SendableOf(QuotesOf(asked));
      Satoshis(FeeOutputs(FeesOf(sendable, HostMap(sendable, resolved), Agents(asked), ownHost)))
      == DeliveryTotal(asked) + RecipientTotal(asked)
  {
    var sendable := SendableOf(QuotesOf(asked));
    var hosts := HostMap(sendable, resolved);
    var all := FeesOf(sendable, hosts, Agents(asked), ownHost);
    HostMapIsStable(sendable, resolved, hostOf);
    AgentsAreRecorded(asked);
    forall i | 0 <= i < |all|
      ensures all[i].deliveryFee >= 0 && (all[i].deliveryFee > 0 ==> all[i].agentKey != "")
    {
      var k := SendableComesFrom(asked, i);
      assert asked[k].recipient == sendable[i].recipient;
      assert hosts[sendable[i].recipient] == asked[k].host;
    }
    NothingUncharged(all);
    QuotedIsChargedPlusUncharged(asked, resolved, ownHost);
  }

  // ---- Who is reported how ----

  function Asking(asked: seq<Asked>): seq<string> {
    seq(|asked|, i requires 0 <= i < |asked| => asked[i].recipient)
  }

  function Errored(asked: seq<Asked>): seq<string> {
    if asked == [] then []
    else Errored(asked[..|asked| - 1]) + if QuoteErrored(asked[|asked| - 1]) then [asked[|asked| - 1].recipient] else []
  }

  lemma SendableRecipientsSnoc(asked: seq<Asked>)
    requires asked != []
    ensures
      var before, a := asked[..|asked| - 1], asked[|asked| - 1];
      Recipients(SendableOf(QuotesOf(asked))) ==
        Recipients(SendableOf(QuotesOf(before))) + if FeeBlocks(a) then [] else [a.recipient]
  {
    SendableSnoc(asked);
    assert FeeBlocks(asked[|asked| - 1]) <==> !Sendable(QuoteFor(asked[|asked| - 1]));
  }

  /** How the four multiplicities of an id move with one more position. */
  lemma OneMore(asked: seq<Asked>, id: string)
    requires asked != []
    ensures
      var before, a := asked[..|asked| - 1], asked[|asked| - 1];
      var hit := if a.recipient == id then 1 else 0;
      && multiset(Asking(asked))[id] == multiset(Asking(before))[id] + hit
      && multiset(Errored(asked))[id] == multiset(Errored(before))[id] + (if QuoteErrored(a) then hit else 0)
      && multiset(BlockedOf(asked))[id] == multiset(BlockedOf(before))[id] + if QuoteErrored(a) || FeeBlocks(a) then hit else 0
  {
    var before, x := asked[..|asked| - 1], asked[|asked| - 1].recipient;
    assert Asking(asked) == Asking(before) + [x];
    Append(Asking(before), x, id);
    Append(Errored(before), x, id);
    Append(BlockedOf(before), x, id);
  }

  lemma OneMoreSendable(asked: seq<Asked>, id: string)
    requires asked != []
    ensures
      var before, a := asked[..|asked| - 1], asked[|asked| - 1];
      multiset(Recipients(SendableOf(QuotesOf(asked))))[id] ==
        multiset(Recipients(SendableOf(QuotesOf(before))))[id] + if !FeeBlocks(a) && a.recipient == id then 1 else 0
  {
    SendableRecipientsSnoc(asked);
    Append(Recipients(SendableOf(QuotesOf(asked[..|asked| - 1]))), asked[|asked| - 1].recipient, id);
  }

  lemma {:induction false} BlockedAndSendableAt(asked: seq<Asked>, id: string)
    ensures multiset(BlockedOf(asked))[id] + multiset(Recipients(SendableOf(QuotesOf(asked))))[id]
         == multiset(Asking(asked))[id] + multiset(Errored(asked))[id]
  {
    if asked != [] {
      BlockedAndSendableAt(asked[..|asked| - 1], id);
      OneMore(asked, id);
      OneMoreSendable(asked, id);
    }
  }

  lemma BlockedAndSendable(asked: seq<Asked>)
    ensures multiset(BlockedOf(asked)) + multiset(Recipients(SendableOf(QuotesOf(asked))))
         == multiset(Asking(asked)) + multiset(Errored(asked))
  {
    forall id {
      BlockedAndSendableAt(asked, id);
    }
  }

  function SentTo(sent: seq<SentRecipient>): seq<string> {
    seq(|sent|, i requires 0 <= i < |sent| => sent[i].recipient)
  }

  function FailedFor(failed: seq<FailedRecipient>): seq<string> {
    seq(|failed|, i requires 0 <= i < |failed| => failed[i].recipient)
  }

  lemma {:induction false} SentOrFailed(sendable: seq<RecipientQuote>, sends: seq<Result<string, string>>)
    requires |sends| == |sendable|
    ensures multiset(SentTo(SentOf(sendable, sends))) + multiset(FailedFor(FailedOf(sendable, sends))) == multiset(Recipients(sendable))
  {
    if sendable != [] {
      var n := |sendable| - 1;
      var to := sendable[n].recipient;
      SentOrFailed(sendable[..n], sends[..n]);
      assert Recipients(sendable) == Recipients(sendable[..n]) + [to];
      var sent, failed := SentOf(sendable[..n], sends[..n]), FailedOf(sendable[..n], sends[..n]);
      if sends[n].Ok? {
        assert FailedOf(sendable, sends) == failed;
        assert SentTo(SentOf(sendable, sends)) == SentTo(sent) + [to];
      } else {
        assert SentOf(sendable, sends) == sent;
        assert FailedFor(FailedOf(sendable, sends)) == FailedFor(failed) + [to];
      }
    }
  }

  /**
   Every position is reported once as blocked, sent or failed, and once more exactly when its quote errored:
   such a recipient is listed as blocked and still sent to. This holds on the error path too.
   */
  lemma EveryPositionIsReported(asked: seq<Asked>, hosts: map<string, string>, ownHost: string, batch: Option<Result<MessagePayment, BatchError>>,
                                sends: seq<Result<string, string>>, r: SendListResult, requests: seq<Request>)
    requires |sends| == |SendableOf(QuotesOf(asked))| && Reported(asked, hosts, ownHost, batch, sends, r, requests)
    ensures multiset(r.blocked) + multiset(SentTo(r.sent)) + multiset(FailedFor(r.failed))
         == multiset(Asking(asked)) + multiset(Errored(asked))
  {
    var sendable := SendableOf(QuotesOf(asked));
    BlockedAndSendable(asked);
    SentOrFailed(sendable, sends);
    if batch.Some? && batch.value.Err? {
      assert FailedFor(AllFailedOf(sendable, batch.value.error)) == Recipients(sendable);
      assert SentTo([]) == [];
    }
  }

  // ---- A list send as a whole ----

  function Asks(created: Option<seq<FeeOutput>>): nat {
    if created.Some? then Satoshis(created.value) else 0
  }

  lemma {:induction false} NoFeesNoOutputs(all: seq<Fees>)
    requires forall i :: 0 <= i < |all| ==> all[i].deliveryFee <= 0 && all[i].recipientFee <= 0
    ensures FeeOutputs(all) == []
  {
    if all != [] {
      NoFeesNoOutputs(all[..|all| - 1]);
    }
  }

  /**
   A successful list send pays what is due. Without a batch nobody sendable has a positive fee; every send
   carries the batch payment whenever a fee is due; and what the wallet was asked to create adds up to the
   announced totals less the delivery fees that cannot be charged.
   */
  lemma SuccessPaysWhatIsDue(asked: seq<Asked>, resolved: seq<string>, ownHost: string, keys: Keys, sends: seq<Result<string, string>>,
                             r: SendListResult, batch: Option<Result<MessagePayment, BatchError>>, requests: seq<Request>,
                             created: Option<seq<FeeOutput>>)
    requires |resolved| == |keys.derived| == |sends| == |SendableOf(QuotesOf(asked))| && r.success
    requires Reported(asked, HostMap(SendableOf(QuotesOf(asked)), resolved), ownHost, batch, sends, r, requests)
    requires Settled(asked, resolved, ownHost, keys, batch, created)
    ensures
      var sendable := SendableOf(QuotesOf(asked));
      var all := FeesOf(sendable, HostMap(sendable, resolved), Agents(asked), ownHost);
      && (batch.None? ==> forall i :: 0 <= i < |sendable| ==> sendable[i].deliveryFee <= 0 && sendable[i].recipientFee <= 0)
      && |requests| == |sendable|
      && (forall i :: 0 <= i < |requests| ==>
            var hosts, to := HostMap(sendable, resolved), sendable[i].recipient;
            && requests[i].recipient == to && (to in hosts ==> requests[i].host == hosts[to])
            && (batch.Some? ==> batch.value.Ok? && requests[i].payment == Some(batch.value.value)))
      && ((exists i :: 0 <= i < |sendable| && (sendable[i].deliveryFee > 0 || sendable[i].recipientFee > 0)) ==>
            forall i :: 0 <= i < |requests| ==> requests[i].payment.Some? && Matched(FeeOutputs(all), requests[i].payment.value.outputs))
      && r.totals == Some((DeliveryTotal(asked), RecipientTotal(asked)))
      && Asks(created) == DeliveryTotal(asked) + RecipientTotal(asked) - AllUncharged(all)
  {
    var sendable := SendableOf(QuotesOf(asked));
    var all := FeesOf(sendable, HostMap(sendable, resolved), Agents(asked), ownHost);
    QuotedIsChargedPlusUncharged(asked, resolved, ownHost);
    if batch.None? {
      NoFeesNoOutputs(all);
    }
  }

  /** A list send that fails sends nothing, asks the wallet's error of everybody sendable, and reports no totals. */
  lemma FailureFailsAll(asked: seq<Asked>, hosts: map<string, string>, ownHost: string, batch: Option<Result<MessagePayment, BatchError>>,
                        sends: seq<Result<string, string>>, r: SendListResult, requests: seq<Request>)
    requires |sends| == |SendableOf(QuotesOf(asked))| && Reported(asked, hosts, ownHost, batch, sends, r, requests)
    ensures !r.success <==> batch.Some? && batch.value.Err?
    ensures !r.success ==>
      var sendable := SendableOf(QuotesOf(asked));
      && r.sent == [] && requests == [] && r.totals == None && |r.failed| == |sendable|
      && forall i :: 0 <= i < |sendable| ==>
           r.failed[i].recipient == sendable[i].recipient && r.failed[i].error == BatchFailed(batch.value.error)
  {
  }

  // ---- Position by position ----

  /** Every position's quote, from the host's answer alone. */
  lemma QuotesMean(asked: seq<Asked>, i: nat)
    requires i < |asked|
    ensures
      var q, reply := QuotesOf(asked)[i], asked[i].reply;
      && q.recipient == asked[i].recipient
      && (reply.Quoted? ==> q.deliveryFee == reply.deliveryFee && q.recipientFee == reply.recipientFee)
      && (!reply.Quoted? ==> q.deliveryFee == 0 && q.recipientFee == 0)
      && (q.status == Blocked <==> reply.Quoted? && reply.recipientFee < 0)
      && (q.status == AlwaysAllow <==> reply.Quoted? && reply.recipientFee == 0 && reply.deliveryFee == 0)
      && (q.status == ParseError <==> reply.Garbled?)
      && (q.status.QuoteError? <==> reply.NoAnswer?) && (reply.NoAnswer? ==> q.status.error == reply.error)
  {
  }

  function Sum(s: seq<int>): int {
    if s == [] then 0 else Sum(s[..|s| - 1]) + s[|s| - 1]
  }

  /** The totals add up the quoted fees of the positions whose recipient fee is not negative, each kind for itself. */
  lemma {:induction false} TotalsMean(asked: seq<Asked>)
    ensures DeliveryTotal(asked) == Sum(seq(|asked|, i requires 0 <= i < |asked| =>
      if asked[i].reply.Quoted? && asked[i].reply.recipientFee >= 0 then asked[i].reply.deliveryFee else 0))
    ensures RecipientTotal(asked) == Sum(seq(|asked|, i requires 0 <= i < |asked| =>
      if asked[i].reply.Quoted? && asked[i].reply.recipientFee >= 0 then asked[i].reply.recipientFee else 0))
  {
    if asked != [] {
      var n := |asked| - 1;
      TotalsMean(asked[..n]);
      var d := seq(|asked|, i requires 0 <= i < |asked| =>
        if asked[i].reply.Quoted? && asked[i].reply.recipientFee >= 0 then asked[i].reply.deliveryFee else 0);
      var r := seq(|asked|, i requires 0 <= i < |asked| =>
        if asked[i].reply.Quoted? && asked[i].reply.recipientFee >= 0 then asked[i].reply.recipientFee else 0);
      assert d[..n] == seq(n, i requires 0 <= i < n =>
        if asked[..n][i].reply.Quoted? && asked[..n][i].reply.recipientFee >= 0 then asked[..n][i].reply.deliveryFee else 0);
      assert r[..n] == seq(n, i requires 0 <= i < n =>
        if asked[..n][i].reply.Quoted? && asked[..n][i].reply.recipientFee >= 0 then asked[..n][i].reply.recipientFee else 0);
    }
  }

  /** Position `i` is the last whose host named this agent, and no later answer of the host named any. */
  ghost predicate NamesLast(asked: seq<Asked>, host: string, key: string, i: nat) {
    && i < |asked| && asked[i].host == host && !asked[i].reply.NoAnswer? && asked[i].reply.agent == Some(key)
    && forall j :: i < j < |asked| && asked[j].host == host && !asked[j].reply.NoAnswer? ==> asked[j].reply.agent == None
  }

  lemma {:induction false} AgentsMean(asked: seq<Asked>, host: string, key: string)
    ensures (host in Agents(asked) && Agents(asked)[host] == key) <==> exists i: nat :: NamesLast(asked, host, key, i)
    ensures host in Agents(asked) <==>
      exists i :: 0 <= i < |asked| && asked[i].host == host && !asked[i].reply.NoAnswer? && asked[i].reply.agent.Some?
  {
    if asked == [] { return; }
    var n := |asked| - 1;
    var before, a := asked[..n], asked[n];
    AgentsMean(before, host, key);
    assert forall i :: 0 <= i < n ==> before[i] == asked[i];
    if a.host == host && !a.reply.NoAnswer? && a.reply.agent.Some? {
      assert NamesLast(asked, host, key, n) <==> a.reply.agent == Some(key);
    } else {
      forall i: nat ensures NamesLast(asked, host, key, i) <==> NamesLast(before, host, key, i) {
      }
    }
  }

  /** Position `i` is the last at which this recipient was resolved. */
  ghost predicate ResolvedLast(sendable: seq<RecipientQuote>, recipient: string, i: nat) {
    i < |sendable| && sendable[i].recipient == recipient && forall j :: i < j < |sendable| ==> sendable[j].recipient != recipient
  }

  lemma {:induction false} HostMapMeans(sendable: seq<RecipientQuote>, resolved: seq<string>, recipient: string)
    requires |resolved| == |sendable|
    ensures recipient in HostMap(sendable, resolved) <==> exists i :: 0 <= i < |sendable| && sendable[i].recipient == recipient
    ensures forall i: nat :: ResolvedLast(sendable, recipient, i) ==>
      recipient in HostMap(sendable, resolved) && HostMap(sendable, resolved)[recipient] == resolved[i]
  {
    if sendable == [] { return; }
    var n := |sendable| - 1;
    HostMapMeans(sendable[..n], resolved[..n], recipient);
    assert forall i :: 0 <= i < n ==> sendable[..n][i] == sendable[i];
    forall i: nat | ResolvedLast(sendable, recipient, i) && i < n ensures ResolvedLast(sendable[..n], recipient, i) {
    }
  }

  /** The fees charged for a recipient are its quote's; the agent is the one known for the host it now resolves to. */
  lemma FeesMean(sendable: seq<RecipientQuote>, hosts: map<string, string>, agents: map<string, string>, ownHost: string, i: nat)
    requires i < |sendable|
    ensures
      var f, q := FeesOf(sendable, hosts, agents, ownHost)[i], sendable[i];
      var host := if q.recipient in hosts then hosts[q.recipient] else ownHost;
      && f.recipient == q.recipient && f.deliveryFee == q.deliveryFee && f.recipientFee == q.recipientFee
      && (host in agents ==> f.agentKey == agents[host]) && (host !in agents ==> f.agentKey == "")
  {
  }

  /** Where a fee output comes from: a position, and whether it is the position's delivery fee. */
  datatype Due = Due(position: nat, delivery: bool)

  predicate Before(a: Due, b: Due) {
    a.position < b.position || (a.position == b.position && a.delivery && !b.delivery)
  }

  function DuesOf(position: nat, f: Fees): seq<Due> {
    (if f.deliveryFee > 0 && f.agentKey != "" then [Due(position, true)] else [])
    + (if f.recipientFee > 0 then [Due(position, false)] else [])
  }

  /** Output `k` is for the fee `of[k]` names: its amount, its recipient, its kind. */
  ghost predicate OutputsAreFor(all: seq<Fees>, outputs: seq<FeeOutput>, of: seq<Due>) {
    && |of| == |outputs|
    && (forall k :: 0 <= k < |of| ==>
          && of[k].position < |all| && outputs[k].recipient == all[of[k].position].recipient
          && outputs[k].forDelivery == of[k].delivery
          && outputs[k].satoshis == (if of[k].delivery then all[of[k].position].deliveryFee else all[of[k].position].recipientFee))
  }

  ghost predicate InOrder(of: seq<Due>, n: nat) {
    (forall k :: 0 <= k < |of| ==> of[k].position < n) && forall k, m :: 0 <= k < m < |of| ==> Before(of[k], of[m])
  }

  ghost predicate AllDue(all: seq<Fees>, of: seq<Due>) {
    && (forall i: nat :: i < |all| && all[i].deliveryFee > 0 && all[i].agentKey != "" <==> Due(i, true) in of)
    && (forall i: nat :: i < |all| && all[i].recipientFee > 0 <==> Due(i, false) in of)
  }

  lemma OutputsAreForSnoc(all: seq<Fees>, f: Fees, outputs: seq<FeeOutput>, of: seq<Due>)
    requires OutputsAreFor(all, outputs, of)
    ensures OutputsAreFor(all + [f], outputs + OutputsFor(f), of + DuesOf(|all|, f))
  {
    assert forall i :: 0 <= i < |all| ==> (all + [f])[i] == all[i];
  }

  lemma InOrderSnoc(of: seq<Due>, n: nat, f: Fees)
    requires InOrder(of, n)
    ensures InOrder(of + DuesOf(n, f), n + 1)
  {
  }

  lemma AllDueSnoc(all: seq<Fees>, f: Fees, of: seq<Due>)
    requires AllDue(all, of) && InOrder(of, |all|)
    ensures AllDue(all + [f], of + DuesOf(|all|, f))
  {
    var own := DuesOf(|all|, f);
    assert forall i :: 0 <= i < |all| ==> (all + [f])[i] == all[i];
    assert forall d :: d in of + own <==> d in of || d in own;
    assert Due(|all|, true) in own <==> f.deliveryFee > 0 && f.agentKey != "";
    assert Due(|all|, false) in own <==> f.recipientFee > 0;
  }

  /**
   The outputs of the batch: one for each positive delivery fee with a known agent and one for each positive
   recipient fee, position by position, the delivery fee first; each for the fee's amount and the recipient.
   */
  lemma {:induction false} OutputsMean(all: seq<Fees>) returns (of: seq<Due>)
    ensures OutputsAreFor(all, FeeOutputs(all), of) && InOrder(of, |all|) && AllDue(all, of)
  {
    if all == [] { return []; }
    var before, f := all[..|all| - 1], all[|all| - 1];
    assert all == before + [f];
    of := OutputsMean(before);
    OutputsAreForSnoc(before, f, FeeOutputs(before), of);
    InOrderSnoc(of, |before|, f);
    AllDueSnoc(before, f, of);
    of := of + DuesOf(|before|, f);
  }

  /** Position `i` has a fee of this kind that is charged. */
  predicate IsDue(all: seq<Fees>, i: nat, delivery: bool) {
    i < |all| && if delivery then all[i].deliveryFee > 0 && all[i].agentKey != "" else all[i].recipientFee > 0
  }

  /** A fee is due whose key cannot be derived. */
  ghost predicate KeyMissing(all: seq<Fees>, keys: Keys)
    requires |keys.derived| == |all|
  {
    exists i: nat :: (IsDue(all, i, true) && !keys.derived[i].0) || (IsDue(all, i, false) && !keys.derived[i].1)
  }

  ghost predicate SomethingDue(all: seq<Fees>) {
    exists i: nat, delivery: bool :: IsDue(all, i, delivery)
  }

  lemma KeyMissingIff(all: seq<Fees>, keys: Keys)
    requires |keys.derived| == |all|
    ensures KeysOk(all, keys.derived) <==> !KeyMissing(all, keys)
  {
    if i: nat :| (IsDue(all, i, true) && !keys.derived[i].0) || (IsDue(all, i, false) && !keys.derived[i].1) {
      assert i < |all|;
    }
    if !KeysOk(all, keys.derived) {
      var i: nat :| i < |all| && !((all[i].deliveryFee > 0 && all[i].agentKey != "" ==> keys.derived[i].0)
                                   && (all[i].recipientFee > 0 ==> keys.derived[i].1));
      assert (IsDue(all, i, true) && !keys.derived[i].0) || (IsDue(all, i, false) && !keys.derived[i].1);
    }
  }

  lemma OutputsIffDue(all: seq<Fees>)
    ensures FeeOutputs(all) != [] <==> SomethingDue(all)
  {
    var of := OutputsMean(all);
    if FeeOutputs(all) != [] {
      assert of[0] in of && of[0] == Due(of[0].position, of[0].delivery);
      assert IsDue(all, of[0].position, of[0].delivery);
    }
    if i: nat, delivery: bool :| IsDue(all, i, delivery) {
      assert Due(i, delivery) in of;
    }
  }

  /** Why a batch fails, each cause for itself; with none of them it succeeds. */
  lemma BatchFailsIff(all: seq<Fees>, keys: Keys, r: Result<MessagePayment, BatchError>)
    requires |keys.derived| == |all| && BatchResult(all, keys, r)
    ensures r == Err(NoIdentityKey) <==> !keys.identity
    ensures r == Err(NoDerivedKey) <==> keys.identity && KeyMissing(all, keys)
    ensures r == Err(NoTransaction) <==> keys.identity && !KeyMissing(all, keys) && SomethingDue(all) && keys.tx.None?
  {
    KeyMissingIff(all, keys);
    OutputsIffDue(all);
  }

  /**
   What a batch pays with: the wallet's transaction, and for each fee due, position by position with the delivery
   fee first, a payment output that points at that fee's own output and names its kind.
   */
  lemma PaymentMeans(all: seq<Fees>, keys: Keys, payment: MessagePayment) returns (of: seq<Due>)
    requires |keys.derived| == |all| && BatchResult(all, keys, Ok(payment))
    ensures OutputsAreFor(all, FeeOutputs(all), of) && InOrder(of, |all|) && AllDue(all, of)
    ensures |payment.outputs| == |of|
    ensures forall k :: 0 <= k < |of| ==> payment.outputs[k].outputIndex == k && payment.outputs[k].forDelivery == of[k].delivery
    ensures if of == [] then payment.tx == [] else keys.tx == Some(payment.tx)
  {
    of := OutputsMean(all);
  }

  /** The wallet is asked for a transaction exactly when a batch is made, its keys are there and a fee is due. */
  lemma CreatedIff(asked: seq<Asked>, resolved: seq<string>, ownHost: string, keys: Keys,
                   batch: Option<Result<MessagePayment, BatchError>>, created: Option<seq<FeeOutput>>)
    requires |resolved| == |keys.derived| == |SendableOf(QuotesOf(asked))|
    requires Settled(asked, resolved, ownHost, keys, batch, created)
    ensures
      var sendable := SendableOf(QuotesOf(asked));
      var all := FeesOf(sendable, HostMap(sendable, resolved), Agents(asked), ownHost);
      && (created.Some? <==> batch.Some? && keys.identity && !KeyMissing(all, keys) && SomethingDue(all))
      && (created.Some? ==> created.value == FeeOutputs(all))
  {
    var sendable := SendableOf(QuotesOf(asked));
    var all := FeesOf(sendable, HostMap(sendable, resolved), Agents(asked), ownHost);
    KeyMissingIff(all, keys);
    OutputsIffDue(all);
  }

  function Pairs(sendable: seq<RecipientQuote>, sends: seq<Result<string, string>>): seq<(string, Result<string, string>)>
    requires |sends| == |sendable|
  {
    seq(|sendable|, i requires 0 <= i < |sendable| => (sendable[i].recipient, sends[i]))
  }

  function Sent(p: (string, Result<string, string>)): SentRecipient {
    SentRecipient(p.0, match p.1 case Ok(id) => id case Err(_) => "")
  }

  function Failed(p: (string, Result<string, string>)): FailedRecipient {
    FailedRecipient(p.0, SendFailed(match p.1 case Ok(_) => "" case Err(reason) => reason))
  }

  /** Sent are exactly the sends that succeeded, in order, each to its recipient and with the id it returned. */
  lemma {:induction false} SentMean(sendable: seq<RecipientQuote>, sends: seq<Result<string, string>>) returns (at: seq<nat>)
    requires |sends| == |sendable|
    ensures Filtered(Pairs(sendable, sends), SentOf(sendable, sends), at, (p: (string, Result<string, string>)) => p.1.Ok?, Sent)
  {
    if sendable == [] { return []; }
    var n := |sendable| - 1;
    var x := (sendable[n].recipient, sends[n]);
    assert Pairs(sendable, sends) == Pairs(sendable[..n], sends[..n]) + [x];
    at := SentMean(sendable[..n], sends[..n]);
    FilteredSnoc(Pairs(sendable[..n], sends[..n]), x, SentOf(sendable[..n], sends[..n]), at,
                 (p: (string, Result<string, string>)) => p.1.Ok?, Sent);
    if sends[n].Ok? {
      at := at + [n];
    }
  }

  /** Failed are exactly the sends that did not, in order, each for its recipient and with the reason it gave. */
  lemma {:induction false} FailedMean(sendable: seq<RecipientQuote>, sends: seq<Result<string, string>>) returns (at: seq<nat>)
    requires |sends| == |sendable|
    ensures Filtered(Pairs(sendable, sends), FailedOf(sendable, sends), at, (p: (string, Result<string, string>)) => p.1.Err?, Failed)
  {
    if sendable == [] { return []; }
    var n := |sendable| - 1;
    var x := (sendable[n].recipient, sends[n]);
    assert Pairs(sendable, sends) == Pairs(sendable[..n], sends[..n]) + [x];
    at := FailedMean(sendable[..n], sends[..n]);
    FilteredSnoc(Pairs(sendable[..n], sends[..n]), x, FailedOf(sendable[..n], sends[..n]), at,
                 (p: (string, Result<string, string>)) => p.1.Err?, Failed);
    if sends[n].Err? {
      at := at + [n];
    }
  }

  /** Blocked are exactly the positions without a readable quote or with a negative recipient fee, in order. */
  lemma {:induction false} BlockedMean(asked: seq<Asked>) returns (at: seq<nat>)
    ensures Filtered(asked, BlockedOf(asked), at, (a: Asked) => !a.reply.Quoted? || a.reply.recipientFee < 0, (a: Asked) => a.recipient)
  {
    if asked == [] { return []; }
    var before, a := asked[..|asked| - 1], asked[|asked| - 1];
    assert asked == before + [a];
    at := BlockedMean(before);
    FilteredSnoc(before, a, BlockedOf(before), at, (a: Asked) => !a.reply.Quoted? || a.reply.recipientFee < 0, (a: Asked) => a.recipient);
    if !a.reply.Quoted? || a.reply.recipientFee < 0 {
      at := at + [|before|];
    }
  }

  predicate NotRefused(a: Asked) {
    !a.reply.Quoted? || a.reply.recipientFee >= 0
  }

  lemma SendableOne(before: seq<Asked>, a: Asked)
    ensures SendableOf(QuotesOf(before + [a])) == SendableOf(QuotesOf(before)) + if NotRefused(a) then [QuoteFor(a)] else []
  {
    assert (before + [a])[..|before|] == before;
    SendableSnoc(before + [a]);
  }

  /** Sent to are exactly the positions without a negative recipient fee, in order, those with no readable quote among them. */
  lemma {:induction false} SendableMean(asked: seq<Asked>) returns (at: seq<nat>)
    ensures Filtered(asked, SendableOf(QuotesOf(asked)), at, NotRefused, QuoteFor)
  {
    if asked == [] { return []; }
    var before, a := asked[..|asked| - 1], asked[|asked| - 1];
    assert asked == before + [a];
    at := SendableMean(before);
    SendableOne(before, a);
    FilteredSnoc(before, a, SendableOf(QuotesOf(before)), at, NotRefused, QuoteFor);
    if NotRefused(a) {
      at := at + [|before|];
    }
  }
}
