/** Which delivery payments may be handed to the wallet, on the listing path and on the notification path. */
module PaymentRules {
  import opened Prelude

  // ---- Wire shapes, as deserialized ----

  datatype Remittance = Remittance(
    derivationPrefix: Option<string>, derivationSuffix: Option<string>, senderIdentityKey: Option<string>)

  datatype Insertion = Insertion(
    basket: Option<string>, customInstructions: Option<string>, tags: Option<seq<string>>)

  /** What the listing path reads; a null protocol reads as a missing one. */
  datatype WireOutput = WireOutput(
    outputIndex: Option<nat>, protocol: Option<string>,
    paymentRemittance: Option<Remittance>, insertionRemittance: Option<Insertion>)

  datatype WirePayment = WirePayment(tx: Option<seq<nat>>, outputs: Option<seq<WireOutput>>, description: Option<string>)

  datatype Protocol = Missing | ExplicitNull | Value(name: string)

  /** What the notification path reads: no insertion remittance, and null told apart from missing. */
  datatype NoticeOutput = NoticeOutput(
    outputIndex: Option<nat>, protocol: Protocol, paymentRemittance: Option<Remittance>)

  datatype NoticePayment = NoticePayment(
    tx: Option<seq<nat>>, outputs: Option<seq<NoticeOutput>>, description: Option<string>)

  // ---- What the wallet is given ----

  type Key = nat

  datatype InternalizeOutput =
    | WalletPayment(outputIndex: nat, derivationPrefix: seq<nat>, derivationSuffix: seq<nat>, senderIdentityKey: Key)
    | BasketInsertion(outputIndex: nat, basket: string, customInstructions: Option<string>, tags: seq<string>)

  datatype InternalizeArgs = InternalizeArgs(
    tx: seq<nat>, description: string, walletLabel: string, seekPermission: bool, outputs: seq<InternalizeOutput>)

  const MAX_PAYMENT_TX_BYTES: nat := 32 * 1024 * 1024
  const MAX_PAYMENT_OUTPUTS: nat := 101
  const MAX_PAYMENT_DESCRIPTION_BYTES: nat := 50
  const MAX_DERIVATION_BYTES: nat := 32
  const MAX_DERIVATION_BASE64_BYTES: nat := 44
  const MAX_BASKET_FIELD_BYTES: nat := 300
  const MAX_CUSTOM_INSTRUCTIONS_BYTES: nat := 1000
  const MAX_BASKET_TAGS: nat := 10000

  const DEFAULT_DESCRIPTION: string := "MessageBox recipient payment"

  /** Library functions: base64 decoding, secp256k1 point parsing, Unicode lower-casing. */
  datatype Lib = Lib(base64: string -> Option<seq<nat>>, point: string -> Option<Key>, lower: string -> string)

  // ---- Text ----

  function CharBytes(c: char): nat {
    if c < '\U{80}' then 1 else if c < '\U{800}' then 2 else if c < '\U{10000}' then 3 else 4
  }

  /** `str::len`: the UTF-8 length. */
  function ByteLen(s: string): nat {
    if s == [] then 0 else CharBytes(s[0]) + ByteLen(s[1..])
  }

  /** Each scalar value counts as long as its UTF-8 form (section 3 of RFC 3629). */
  lemma {:induction false} ByteLenMeans(s: string, c: char)
    ensures ByteLen([]) == 0
    ensures ByteLen(s + [c]) == ByteLen(s) + if c as int < 128 then 1 else if c as int < 2048 then 2 else if c as int < 65536 then 3 else 4
  {
    if s == [] {
      assert [] + [c] == [c] && [c][1..] == [];
    } else {
      assert (s + [c])[1..] == s[1..] + [c];
      ByteLenMeans(s[1..], c);
    }
  }

  predicate IsWhitespace(c: char) {
    || '\U{9}' <= c <= '\U{D}' || c == ' ' || c == '\U{85}' || c == '\U{A0}' || c == '\U{1680}'
    || '\U{2000}' <= c <= '\U{200A}' || c == '\U{2028}' || c == '\U{2029}' || c == '\U{202F}'
    || c == '\U{205F}' || c == '\U{3000}'
  }

  /** The 25 code points with the Unicode property White_Space. */
  lemma WhitespaceMeans(c: char)
    ensures IsWhitespace(c) <==>
      c as int in {9, 10, 11, 12, 13, 32, 133, 160, 5760, 8192, 8193, 8194, 8195, 8196, 8197, 8198, 8199, 8200,
                   8201, 8202, 8232, 8233, 8239, 8287, 12288}
  {
  }

  predicate IsControl(c: char) {
    c <= '\U{1F}' || '\U{7F}' <= c <= '\U{9F}'
  }

  function TrimStart(s: string): string {
    if s != [] && IsWhitespace(s[0]) then TrimStart(s[1..]) else s
  }

  function TrimEnd(s: string): string {
    if s != [] && IsWhitespace(s[|s| - 1]) then TrimEnd(s[..|s| - 1]) else s
  }

  function Trim(s: string): string {
    TrimEnd(TrimStart(s))
  }

  ghost predicate AllWhitespace(s: string) {
    forall i :: 0 <= i < |s| ==> IsWhitespace(s[i])
  }

  ghost predicate TightEnds(s: string) {
    s != [] ==> !IsWhitespace(s[0]) && !IsWhitespace(s[|s| - 1])
  }

  lemma {:induction false} TrimStartMeans(s: string) returns (n: nat)
    ensures n <= |s| && AllWhitespace(s[..n]) && TrimStart(s) == s[n..] && (n < |s| ==> !IsWhitespace(s[n]))
  {
    if s == [] || !IsWhitespace(s[0]) { return 0; }
    n := TrimStartMeans(s[1..]);
    assert s[1..][n..] == s[n + 1..];
    var prefix := s[..n + 1];
    forall i | 0 <= i < |prefix| ensures IsWhitespace(prefix[i]) {
      if i > 0 {
        assert s[1..][..n][i - 1] == prefix[i];
      }
    }
    n := n + 1;
  }

  lemma {:induction false} TrimEndMeans(s: string) returns (n: nat)
    ensures n <= |s| && AllWhitespace(s[n..]) && TrimEnd(s) == s[..n] && (n > 0 ==> !IsWhitespace(s[n - 1]))
  {
    if s == [] || !IsWhitespace(s[|s| - 1]) {
      assert s[..|s|] == s;
      return |s|;
    }
    n := TrimEndMeans(s[..|s| - 1]);
    assert s[..|s| - 1][..n] == s[..n];
    var suffix := s[n..];
    forall i | 0 <= i < |suffix| ensures IsWhitespace(suffix[i]) {
      if n + i < |s| - 1 {
        assert s[..|s| - 1][n..][i] == suffix[i];
      }
    }
  }

  /** Trimming takes white space off both ends and stops at the first other character from each. */
  lemma TrimMeans(s: string) returns (from: nat, to: nat)
    ensures from <= to <= |s| && Trim(s) == s[from..to] && TightEnds(Trim(s))
    ensures AllWhitespace(s[..from]) && AllWhitespace(s[to..])
  {
    from := TrimStartMeans(s);
    var rest := s[from..];
    var n := TrimEndMeans(rest);
    to := from + n;
    assert rest[..n] == s[from..to] && rest[n..] == s[to..];
    if n > 0 {
      assert s[from..to][0] == s[from] && s[from..to][n - 1] == rest[n - 1];
    }
  }

  predicate GoodDescription(d: string) {
    d != [] && Trim(d) == d && ByteLen(d) <= MAX_PAYMENT_DESCRIPTION_BYTES && !exists i :: 0 <= i < |d| && IsControl(d[i])
  }

  predicate IsHexDigit(c: char) {
    '0' <= c <= '9' || 'a' <= c <= 'f' || 'A' <= c <= 'F'
  }

  lemma HexDigits(c: char)
    ensures IsHexDigit(c) <==> c in "0123456789abcdefABCDEF"
  {
    var digits := "0123456789abcdefABCDEF";
    if IsHexDigit(c) {
      var i := if c <= '9' then c as int - '0' as int else if c <= 'F' then c as int - 'A' as int + 16 else c as int - 'a' as int + 10;
      assert digits[i] == c;
    }
  }

  /** 66 ASCII hex characters beginning 02 or 03. */
  predicate CompressedKeyText(k: string) {
    |k| == 66 && (k[..2] == "02" || k[..2] == "03") && forall i :: 0 <= i < |k| ==> IsHexDigit(k[i])
  }

  // ---- The listing path: what a whole payment must satisfy ----

  predicate GoodKey(lib: Lib, k: string) {
    CompressedKeyText(k) && lib.point(k).Some?
  }

  /** A derivation field within the send side's 32-byte nonces. */
  predicate GoodDerivation(lib: Lib, field: string) {
    && Trim(field) != [] && ByteLen(Trim(field)) <= MAX_DERIVATION_BASE64_BYTES
    && lib.base64(Trim(field)).Some? && 0 < |lib.base64(Trim(field)).value| <= MAX_DERIVATION_BYTES
  }

  predicate GoodRemittance(lib: Lib, r: Remittance) {
    && r.derivationPrefix.Some? && GoodDerivation(lib, r.derivationPrefix.value)
    && r.derivationSuffix.Some? && GoodDerivation(lib, r.derivationSuffix.value)
    && r.senderIdentityKey.Some? && GoodKey(lib, r.senderIdentityKey.value)
  }

  function Normalized(lib: Lib, field: string): string {
    lib.lower(Trim(field))
  }

  predicate GoodBasketField(lib: Lib, field: string) {
    Normalized(lib, field) != [] && ByteLen(Normalized(lib, field)) <= MAX_BASKET_FIELD_BYTES
  }

  function Tags(ins: Insertion): seq<string> {
    if ins.tags.Some? then ins.tags.value else []
  }

  predicate GoodInsertion(lib: Lib, ins: Insertion) {
    && ins.basket.Some? && GoodBasketField(lib, ins.basket.value)
    && (ins.customInstructions.Some? ==> ByteLen(ins.customInstructions.value) <= MAX_CUSTOM_INSTRUCTIONS_BYTES)
    && |Tags(ins)| <= MAX_BASKET_TAGS
    && forall i :: 0 <= i < |Tags(ins)| ==> GoodBasketField(lib, Tags(ins)[i])
  }

  const WALLET_PAYMENT: string := "wallet payment"
  const BASKET_INSERTION: string := "basket insertion"

  predicate GoodOutput(lib: Lib, o: WireOutput) {
    && o.outputIndex.Some?
    && (|| (o.protocol == Some(WALLET_PAYMENT) && o.insertionRemittance.None?
            && o.paymentRemittance.Some? && GoodRemittance(lib, o.paymentRemittance.value))
        || (o.protocol == Some(BASKET_INSERTION) && o.paymentRemittance.None?
            && o.insertionRemittance.Some? && GoodInsertion(lib, o.insertionRemittance.value)))
  }

  predicate AllGoodOutputs(lib: Lib, outs: seq<WireOutput>) {
    forall i :: 0 <= i < |outs| ==> GoodOutput(lib, outs[i])
  }

  function BuiltOutputs(lib: Lib, outs: seq<WireOutput>): seq<InternalizeOutput>
    requires AllGoodOutputs(lib, outs)
  {
    seq(|outs|, i requires 0 <= i < |outs| => BuiltOutput(lib, outs[i]))
  }

  function Described(description: Option<string>): string {
    if description.Some? then description.value else DEFAULT_DESCRIPTION
  }

  predicate GoodPayment(lib: Lib, p: WirePayment) {
    && p.tx.Some? && 0 < |p.tx.value| <= MAX_PAYMENT_TX_BYTES
    && p.outputs.Some? && 0 < |p.outputs.value| <= MAX_PAYMENT_OUTPUTS
    && GoodDescription(Described(p.description))
    && AllGoodOutputs(lib, p.outputs.value)
  }

  function WalletOutput(lib: Lib, index: nat, r: Remittance): InternalizeOutput
    requires r.derivationPrefix.Some? && lib.base64(Trim(r.derivationPrefix.value)).Some?
    requires r.derivationSuffix.Some? && lib.base64(Trim(r.derivationSuffix.value)).Some?
    requires r.senderIdentityKey.Some? && lib.point(r.senderIdentityKey.value).Some?
  {
    WalletPayment(index, lib.base64(Trim(r.derivationPrefix.value)).value,
                  lib.base64(Trim(r.derivationSuffix.value)).value, lib.point(r.senderIdentityKey.value).value)
  }

  /** The wallet argument for one good output: same index, fields decoded, trimmed and lower-cased. */
  function BuiltOutput(lib: Lib, o: WireOutput): InternalizeOutput
    requires GoodOutput(lib, o)
  {
    if o.protocol == Some(WALLET_PAYMENT) then WalletOutput(lib, o.outputIndex.value, o.paymentRemittance.value)
    else
      var ins := o.insertionRemittance.value;
      BasketInsertion(o.outputIndex.value, Normalized(lib, ins.basket.value), ins.customInstructions,
                      seq(|Tags(ins)|, i requires 0 <= i < |Tags(ins)| => Normalized(lib, Tags(ins)[i])))
  }

  /** All or nothing: the whole payment's arguments, or none. */
  function BuiltArgs(lib: Lib, p: WirePayment): Option<InternalizeArgs> {
    if !GoodPayment(lib, p) then None
    else Some(InternalizeArgs(p.tx.value, Described(p.description), "server-delivery-fee", false, BuiltOutputs(lib, p.outputs.value)))
  }

  method NormalizeTags(lib: Lib, tags: seq<string>) returns (r: Option<seq<string>>)
    ensures r.Some? <==> forall i :: 0 <= i < |tags| ==> GoodBasketField(lib, tags[i])
    ensures r.Some? ==> r.value == seq(|tags|, i requires 0 <= i < |tags| => Normalized(lib, tags[i]))
  {
    var out := [];
    for i := 0 to |tags|
      invariant |out| == i && forall j :: 0 <= j < i ==> GoodBasketField(lib, tags[j]) && out[j] == Normalized(lib, tags[j])
    {
      var field := Normalized(lib, tags[i]);
      if field == [] || ByteLen(field) > MAX_BASKET_FIELD_BYTES { return None; }
      out := out + [field];
    }
    return Some(out);
  }

  /** One output, checked in the source's order. */
  method BuildOutput(lib: Lib, o: WireOutput) returns (r: Option<InternalizeOutput>)
    ensures r.Some? <==> GoodOutput(lib, o)
    ensures r.Some? ==> r.value == BuiltOutput(lib, o)
  {
    if o.outputIndex.None? { return None; }
    match o.protocol {
      case Some(name) =>
        if name == "wallet payment" {
          if o.insertionRemittance.Some? || o.paymentRemittance.None? { return None; }
          var rem := o.paymentRemittance.value;
          if rem.derivationPrefix.None? || rem.derivationSuffix.None? { return None; }
          var prefix, suffix := Trim(rem.derivationPrefix.value), Trim(rem.derivationSuffix.value);
          if prefix == [] || suffix == [] || ByteLen(prefix) > MAX_DERIVATION_BASE64_BYTES
             || ByteLen(suffix) > MAX_DERIVATION_BASE64_BYTES { return None; }
          var prefixBytes, suffixBytes := lib.base64(prefix), lib.base64(suffix);
          if prefixBytes.None? || suffixBytes.None? { return None; }
          if prefixBytes.value == [] || suffixBytes.value == [] || |prefixBytes.value| > MAX_DERIVATION_BYTES
             || |suffixBytes.value| > MAX_DERIVATION_BYTES { return None; }
          if rem.senderIdentityKey.None? || !CompressedKeyText(rem.senderIdentityKey.value) { return None; }
          var point := lib.point(rem.senderIdentityKey.value);
          if point.None? { return None; }
          return Some(WalletPayment(o.outputIndex.value, prefixBytes.value, suffixBytes.value, point.value));
        } else if name == "basket insertion" {
          if o.paymentRemittance.Some? || o.insertionRemittance.None? { return None; }
          var ins := o.insertionRemittance.value;
          if ins.basket.None? { return None; }
          var basket := Normalized(lib, ins.basket.value);
          if basket == [] || ByteLen(basket) > MAX_BASKET_FIELD_BYTES { return None; }
          if ins.customInstructions.Some? && ByteLen(ins.customInstructions.value) > MAX_CUSTOM_INSTRUCTIONS_BYTES { return None; }
          if |Tags(ins)| > MAX_BASKET_TAGS { return None; }
          var tags := NormalizeTags(lib, Tags(ins));
          if tags.None? { return None; }
          return Some(BasketInsertion(o.outputIndex.value, basket, ins.customInstructions, tags.value));
        } else {
          return None;
        }
      case None => return None;
    }
  }

  /** The construction loop: the complete set is built before anything else happens. */
  method BuildOutputs(lib: Lib, outs: seq<WireOutput>) returns (r: Option<seq<InternalizeOutput>>)
    ensures r.Some? <==> AllGoodOutputs(lib, outs)
    ensures r.Some? ==> r.value == BuiltOutputs(lib, outs)
  {
    var built: seq<InternalizeOutput> := [];
    for i := 0 to |outs|
      invariant |built| == i && forall j :: 0 <= j < i ==> GoodOutput(lib, outs[j]) && built[j] == BuiltOutput(lib, outs[j])
    {
      var one := BuildOutput(lib, outs[i]);
      if one.None? { return None; }
      built := built + [one.value];
    }
    return Some(built);
  }

  /** `build_internalize_args`: succeeds exactly on a good payment, with one argument per output, in order. */
  method BuildInternalizeArgs(lib: Lib, p: WirePayment) returns (r: Option<InternalizeArgs>)
    ensures r.Some? <==> GoodPayment(lib, p)
    ensures r == BuiltArgs(lib, p)
  {
    if p.tx.None? || p.tx.value == [] || |p.tx.value| > MAX_PAYMENT_TX_BYTES { return None; }
    if p.outputs.None? || p.outputs.value == [] || |p.outputs.value| > MAX_PAYMENT_OUTPUTS { return None; }
    var description := Described(p.description);
    if !GoodDescription(description) { return None; }
    var outputs := BuildOutputs(lib, p.outputs.value);
    if outputs.None? { return None; }
    r := Some(InternalizeArgs(p.tx.value, description, "server-delivery-fee", false, outputs.value));
  }

  // ---- What is accepted and built, field by field ----

  /** A description passes when it is not empty, has no white space at its ends and no control character, and fits 50 bytes. */
  lemma DescriptionMeans(d: string)
    ensures GoodDescription(d) <==>
      d != [] && TightEnds(d) && ByteLen(d) <= 50 && forall i :: 0 <= i < |d| ==> !('\U{0}' <= d[i] <= '\U{1F}' || '\U{7F}' <= d[i] <= '\U{9F}')
  {
    var from, to := TrimMeans(d);
  }

  /** What a remittance must have, and where each of its fields goes. */
  ghost predicate Remits(lib: Lib, index: Option<nat>, remittance: Option<Remittance>, o: InternalizeOutput) {
    && o.WalletPayment? && index == Some(o.outputIndex) && remittance.Some?
    && var r := remittance.value;
       && r.derivationPrefix.Some? && Trim(r.derivationPrefix.value) != []
       && lib.base64(Trim(r.derivationPrefix.value)) == Some(o.derivationPrefix)
       && r.derivationSuffix.Some? && Trim(r.derivationSuffix.value) != []
       && lib.base64(Trim(r.derivationSuffix.value)) == Some(o.derivationSuffix)
       && r.senderIdentityKey.Some? && |r.senderIdentityKey.value| == 66
       && r.senderIdentityKey.value[0] == '0' && (r.senderIdentityKey.value[1] == '2' || r.senderIdentityKey.value[1] == '3')
       && (forall i :: 0 <= i < 66 ==> IsHexDigit(r.senderIdentityKey.value[i]))
       && lib.point(r.senderIdentityKey.value) == Some(o.senderIdentityKey)
  }

  /** The listing path's cap on a derivation field: 44 bytes of text, 1 to 32 bytes decoded. */
  predicate WithinNonceCap(text: string, bytes: seq<nat>) {
    ByteLen(Trim(text)) <= 44 && 1 <= |bytes| <= 32
  }

  ghost predicate InsertsInto(lib: Lib, index: Option<nat>, insertion: Option<Insertion>, o: InternalizeOutput) {
    && o.BasketInsertion? && index == Some(o.outputIndex) && insertion.Some?
    && var ins := insertion.value;
       && ins.basket.Some? && o.basket == lib.lower(Trim(ins.basket.value)) && 1 <= |o.basket| && ByteLen(o.basket) <= 300
       && o.customInstructions == ins.customInstructions
       && (ins.customInstructions.Some? ==> ByteLen(ins.customInstructions.value) <= 1000)
       && |o.tags| <= 10000 && |o.tags| == (if ins.tags.Some? then |ins.tags.value| else 0)
       && forall i :: 0 <= i < |o.tags| ==>
            o.tags[i] == lib.lower(Trim(ins.tags.value[i])) && 1 <= |o.tags[i]| && ByteLen(o.tags[i]) <= 300
  }

  /** What one output of a listed payment becomes. */
  ghost predicate BecomesListed(lib: Lib, o: WireOutput, built: InternalizeOutput) {
    || (&& o.protocol == Some("wallet payment") && o.insertionRemittance.None?
        && Remits(lib, o.outputIndex, o.paymentRemittance, built)
        && WithinNonceCap(o.paymentRemittance.value.derivationPrefix.value, built.derivationPrefix)
        && WithinNonceCap(o.paymentRemittance.value.derivationSuffix.value, built.derivationSuffix))
    || (&& o.protocol == Some("basket insertion") && o.paymentRemittance.None?
        && InsertsInto(lib, o.outputIndex, o.insertionRemittance, built))
  }

  /** An output is accepted exactly when it becomes something, and that is what it is built into. */
  lemma OutputMeans(lib: Lib, o: WireOutput, built: InternalizeOutput)
    ensures (GoodOutput(lib, o) && BuiltOutput(lib, o) == built) <==> BecomesListed(lib, o, built)
  {
    if o.protocol == Some("wallet payment") {
      WalletOutputMeans(lib, o, built);
    } else if o.protocol == Some("basket insertion") {
      BasketOutputMeans(lib, o, built);
    }
  }

  lemma KeyTextMeans(k: string)
    ensures CompressedKeyText(k) <==>
      |k| == 66 && k[0] == '0' && (k[1] == '2' || k[1] == '3') && forall i :: 0 <= i < 66 ==> IsHexDigit(k[i])
  {
    if |k| == 66 {
      assert k[..2] == [k[0], k[1]];
    }
  }

  lemma WalletOutputMeans(lib: Lib, o: WireOutput, built: InternalizeOutput)
    requires o.protocol == Some("wallet payment")
    ensures (GoodOutput(lib, o) && BuiltOutput(lib, o) == built) <==> BecomesListed(lib, o, built)
  {
    if o.paymentRemittance.Some? && o.paymentRemittance.value.senderIdentityKey.Some? {
      KeyTextMeans(o.paymentRemittance.value.senderIdentityKey.value);
    }
  }

  lemma BasketOutputMeans(lib: Lib, o: WireOutput, built: InternalizeOutput)
    requires o.protocol == Some("basket insertion")
    ensures (GoodOutput(lib, o) && BuiltOutput(lib, o) == built) <==> BecomesListed(lib, o, built)
  {
  }

  /**
   What a listed payment hands to the wallet: a transaction of 1 byte to 32 MiB, 1 to 101 outputs, each of which
   becomes something, and a description that passes.
   */
  ghost predicate HandsOver(lib: Lib, p: WirePayment, args: InternalizeArgs) {
    && p.tx == Some(args.tx) && 1 <= |args.tx| <= 33554432
    && p.outputs.Some? && 1 <= |p.outputs.value| <= 101 && |args.outputs| == |p.outputs.value|
    && (forall i :: 0 <= i < |p.outputs.value| ==> BecomesListed(lib, p.outputs.value[i], args.outputs[i]))
    && args.description == (if p.description.Some? then p.description.value else "MessageBox recipient payment")
    && GoodDescription(args.description) && args.walletLabel == "server-delivery-fee" && !args.seekPermission
  }

  /** A listed payment is built into just the call that hands it over, and into none if there is no such call. */
  lemma PaymentMeans(lib: Lib, p: WirePayment, args: InternalizeArgs)
    ensures BuiltArgs(lib, p) == Some(args) <==> HandsOver(lib, p, args)
  {
    if p.outputs.Some? {
      OutputListMeans(lib, p.outputs.value, args.outputs);
    }
    AcceptsIff(lib, p, args);
  }

  lemma AcceptsIff(lib: Lib, p: WirePayment, args: InternalizeArgs)
    ensures BuiltArgs(lib, p) == Some(args) <==>
      && p.tx == Some(args.tx) && 1 <= |args.tx| <= 33554432
      && p.outputs.Some? && 1 <= |p.outputs.value| <= 101 && AllGoodOutputs(lib, p.outputs.value)
      && args.outputs == BuiltOutputs(lib, p.outputs.value)
      && args.description == Described(p.description) && GoodDescription(args.description)
      && args.walletLabel == "server-delivery-fee" && !args.seekPermission
  {
  }

  lemma OutputListMeans(lib: Lib, outs: seq<WireOutput>, built: seq<InternalizeOutput>)
    ensures (AllGoodOutputs(lib, outs) && BuiltOutputs(lib, outs) == built) <==>
      |built| == |outs| && forall i :: 0 <= i < |outs| ==> BecomesListed(lib, outs[i], built[i])
  {
    if |built| == |outs| {
      forall i | 0 <= i < |outs|
        ensures (GoodOutput(lib, outs[i]) && BuiltOutput(lib, outs[i]) == built[i]) <==> BecomesListed(lib, outs[i], built[i])
      {
        OutputMeans(lib, outs[i], built[i]);
      }
    }
  }

  // ---- The notification path ----

  predicate WalletPaymentCompatible(protocol: Protocol) {
    protocol.Missing? || protocol == Value(WALLET_PAYMENT)
  }

  function UnsupportedLabel(protocol: Protocol): Option<string> {
    match protocol
    case ExplicitNull => Some("null")
    case Value(name) => if name != "wallet payment" then Some(name) else None
    case Missing => None
  }

  /** Kept on the relay without an error, rejected with one, or ready for a single wallet call. */
  datatype Prepared = Retain | Invalid | Ready(args: InternalizeArgs)

  predicate NoticeDerivation(lib: Lib, field: Option<string>) {
    field.Some? && Trim(field.value) != [] && lib.base64(Trim(field.value)).Some?
  }

  predicate GoodNoticeOutput(lib: Lib, o: NoticeOutput) {
    && o.outputIndex.Some? && o.paymentRemittance.Some?
    && NoticeDerivation(lib, o.paymentRemittance.value.derivationPrefix)
    && NoticeDerivation(lib, o.paymentRemittance.value.derivationSuffix)
    && o.paymentRemittance.value.senderIdentityKey.Some?
    && GoodKey(lib, o.paymentRemittance.value.senderIdentityKey.value)
  }

  predicate NoticeLimits(p: NoticePayment) {
    && p.tx.Some? && p.outputs.Some? && 0 < |p.tx.value| <= MAX_PAYMENT_TX_BYTES
    && |p.outputs.value| <= MAX_PAYMENT_OUTPUTS && (p.description.Some? ==> GoodDescription(p.description.value))
  }

  predicate AllCompatible(outs: seq<NoticeOutput>) {
    forall i :: 0 <= i < |outs| ==> WalletPaymentCompatible(outs[i].protocol)
  }

  predicate NoneCompatible(outs: seq<NoticeOutput>) {
    forall i :: 0 <= i < |outs| ==> !WalletPaymentCompatible(outs[i].protocol)
  }

  predicate AllNoticeOutputs(lib: Lib, outs: seq<NoticeOutput>) {
    forall i :: 0 <= i < |outs| ==> GoodNoticeOutput(lib, outs[i])
  }

  function NoticeOutputs(lib: Lib, outs: seq<NoticeOutput>): seq<InternalizeOutput>
    requires AllNoticeOutputs(lib, outs)
  {
    seq(|outs|, i requires 0 <= i < |outs| => WalletOutput(lib, outs[i].outputIndex.value, outs[i].paymentRemittance.value))
  }

  function NoticeArgs(lib: Lib, p: NoticePayment): InternalizeArgs
    requires NoticeLimits(p) && AllNoticeOutputs(lib, p.outputs.value)
  {
    InternalizeArgs(p.tx.value, Described(p.description), "notification-payment", false, NoticeOutputs(lib, p.outputs.value))
  }

  /** Every output of a payment that reaches the wallet is in the call; a mixture never gets that far. */
  function PreparedNotice(lib: Lib, p: NoticePayment): Prepared {
    if p.tx.None? || p.outputs.None? then Retain
    else if !NoticeLimits(p) then Invalid
    else if NoneCompatible(p.outputs.value) then Retain
    else if AllCompatible(p.outputs.value) && AllNoticeOutputs(lib, p.outputs.value) then Ready(NoticeArgs(lib, p))
    else Invalid
  }

  ghost predicate SaysWalletPayment(o: NoticeOutput) {
    o.protocol == Missing || o.protocol == Value("wallet payment")
  }

  /**
   What a notification's payment hands to the wallet. It has no cap on derivation fields, and a protocol may be
   missing.
   */
  ghost predicate HandsOverNotice(lib: Lib, p: NoticePayment, args: InternalizeArgs) {
    && p.tx == Some(args.tx) && 1 <= |args.tx| <= 33554432
    && p.outputs.Some? && 1 <= |p.outputs.value| <= 101 && |args.outputs| == |p.outputs.value|
    && (forall i :: 0 <= i < |p.outputs.value| ==> SaysWalletPayment(p.outputs.value[i]))
    && (forall i :: 0 <= i < |p.outputs.value| ==>
          Remits(lib, p.outputs.value[i].outputIndex, p.outputs.value[i].paymentRemittance, args.outputs[i]))
    && args.description == (if p.description.Some? then p.description.value else "MessageBox recipient payment")
    && (p.description.Some? ==> GoodDescription(args.description))
    && args.walletLabel == "notification-payment" && !args.seekPermission
  }

  /** Left on the relay without an error: no transaction, no outputs, or nothing in it that is a wallet payment. */
  ghost predicate StaysUnread(p: NoticePayment) {
    || p.tx.None? || p.outputs.None?
    || (&& 1 <= |p.tx.value| <= 33554432 && |p.outputs.value| <= 101
        && (p.description.Some? ==> GoodDescription(p.description.value))
        && forall i :: 0 <= i < |p.outputs.value| ==> !SaysWalletPayment(p.outputs.value[i]))
  }

  /** A notification's payment leads to just the call that hands it over, stays unread, or is an error. */
  lemma NoticeMeans(lib: Lib, p: NoticePayment, args: InternalizeArgs)
    ensures PreparedNotice(lib, p) == Ready(args) <==> HandsOverNotice(lib, p, args)
    ensures PreparedNotice(lib, p) == Retain <==> StaysUnread(p)
  {
    if p.outputs.Some? {
      NoticeListMeans(lib, p.outputs.value, args.outputs);
      SaysMeans(p.outputs.value);
    }
    NoticeAcceptsIff(lib, p, args);
  }

  lemma SaysMeans(outs: seq<NoticeOutput>)
    ensures AllCompatible(outs) <==> forall i :: 0 <= i < |outs| ==> SaysWalletPayment(outs[i])
    ensures NoneCompatible(outs) <==> forall i :: 0 <= i < |outs| ==> !SaysWalletPayment(outs[i])
  {
    assert forall i :: 0 <= i < |outs| ==> (WalletPaymentCompatible(outs[i].protocol) <==> SaysWalletPayment(outs[i]));
  }

  lemma NoticeAcceptsIff(lib: Lib, p: NoticePayment, args: InternalizeArgs)
    ensures PreparedNotice(lib, p) == Ready(args) <==>
      && p.tx == Some(args.tx) && 1 <= |args.tx| <= 33554432
      && p.outputs.Some? && 1 <= |p.outputs.value| <= 101 && AllCompatible(p.outputs.value)
      && AllNoticeOutputs(lib, p.outputs.value) && args.outputs == NoticeOutputs(lib, p.outputs.value)
      && args.description == Described(p.description) && (p.description.Some? ==> GoodDescription(p.description.value))
      && args.walletLabel == "notification-payment" && !args.seekPermission
  {
    if p.outputs.Some? && p.outputs.value != [] {
      assert WalletPaymentCompatible(p.outputs.value[0].protocol) ==> !NoneCompatible(p.outputs.value);
    }
  }

  lemma NoticeListMeans(lib: Lib, outs: seq<NoticeOutput>, built: seq<InternalizeOutput>)
    ensures (AllNoticeOutputs(lib, outs) && NoticeOutputs(lib, outs) == built) <==>
      |built| == |outs| && forall i :: 0 <= i < |outs| ==> Remits(lib, outs[i].outputIndex, outs[i].paymentRemittance, built[i])
  {
    if |built| == |outs| {
      forall i | 0 <= i < |outs|
        ensures (GoodNoticeOutput(lib, outs[i]) && WalletOutput(lib, outs[i].outputIndex.value, outs[i].paymentRemittance.value) == built[i])
                <==> Remits(lib, outs[i].outputIndex, outs[i].paymentRemittance, built[i])
      {
        NoticeOutputMeans(lib, outs[i], built[i]);
      }
    }
  }

  lemma NoticeOutputMeans(lib: Lib, o: NoticeOutput, built: InternalizeOutput)
    ensures (GoodNoticeOutput(lib, o) && WalletOutput(lib, o.outputIndex.value, o.paymentRemittance.value) == built)
            <==> Remits(lib, o.outputIndex, o.paymentRemittance, built)
  {
    if o.paymentRemittance.Some? && o.paymentRemittance.value.senderIdentityKey.Some? {
      KeyTextMeans(o.paymentRemittance.value.senderIdentityKey.value);
    }
  }

  /** `has_supported_output` and the first unsupported label, as two scans. */
  method ScanProtocols(outs: seq<NoticeOutput>) returns (anySupported: bool, unsupported: Option<string>)
    ensures anySupported <==> !NoneCompatible(outs)
    ensures unsupported.None? <==> AllCompatible(outs)
    ensures unsupported.Some? ==> exists i :: 0 <= i < |outs| && UnsupportedLabel(outs[i].protocol) == unsupported && AllCompatible(outs[..i])
  {
    anySupported := false;
    for i := 0 to |outs|
      invariant anySupported <==> !NoneCompatible(outs[..i])
    {
      assert outs[..i + 1] == outs[..i] + [outs[i]];
      anySupported := anySupported || WalletPaymentCompatible(outs[i].protocol);
    }
    assert outs[..|outs|] == outs;
    for i := 0 to |outs|
      invariant AllCompatible(outs[..i])
    {
      assert outs[..i + 1] == outs[..i] + [outs[i]];
      unsupported := UnsupportedLabel(outs[i].protocol);
      if unsupported.Some? { return; }
    }
    unsupported := None;
  }

  method BuildNoticeOutput(lib: Lib, o: NoticeOutput) returns (r: Option<InternalizeOutput>)
    ensures r.Some? <==> GoodNoticeOutput(lib, o)
    ensures r.Some? ==> r.value == WalletOutput(lib, o.outputIndex.value, o.paymentRemittance.value)
  {
    if o.outputIndex.None? || o.paymentRemittance.None? { return None; }
    var rem := o.paymentRemittance.value;
    if rem.derivationPrefix.None? || rem.derivationSuffix.None? { return None; }
    var prefix, suffix := Trim(rem.derivationPrefix.value), Trim(rem.derivationSuffix.value);
    if prefix == [] || suffix == [] { return None; }
    var prefixBytes, suffixBytes := lib.base64(prefix), lib.base64(suffix);
    if prefixBytes.None? || suffixBytes.None? { return None; }
    if rem.senderIdentityKey.None? || !CompressedKeyText(rem.senderIdentityKey.value) { return None; }
    var point := lib.point(rem.senderIdentityKey.value);
    if point.None? { return None; }
    return Some(WalletPayment(o.outputIndex.value, prefixBytes.value, suffixBytes.value, point.value));
  }

  /** The notification path up to the wallet call. */
  method PrepareNotice(lib: Lib, p: NoticePayment) returns (r: Prepared)
    ensures r == PreparedNotice(lib, p)
  {
    if p.tx.None? || p.outputs.None? { return Retain; }
    var outs := p.outputs.value;
    if p.tx.value == [] || |p.tx.value| > MAX_PAYMENT_TX_BYTES || |outs| > MAX_PAYMENT_OUTPUTS { return Invalid; }
    if p.description.Some? && !GoodDescription(p.description.value) { return Invalid; }
    var anySupported, unsupported := ScanProtocols(outs);
    if anySupported && unsupported.Some? { return Invalid; }
    var built: seq<InternalizeOutput> := [];
    for i := 0 to |outs|
      invariant !anySupported ==> built == []
      invariant anySupported ==> |built| == i && forall j :: 0 <= j < i ==>
        GoodNoticeOutput(lib, outs[j]) && built[j] == WalletOutput(lib, outs[j].outputIndex.value, outs[j].paymentRemittance.value)
    {
      if WalletPaymentCompatible(outs[i].protocol) {
        var one := BuildNoticeOutput(lib, outs[i]);
        if one.None? { return Invalid; }
        built := built + [one.value];
      }
    }
    if built == [] { return Retain; }
    assert built == NoticeOutputs(lib, outs);
    r := Ready(InternalizeArgs(p.tx.value, Described(p.description), "notification-payment", false, built));
  }

  // ---- The two paths compared ----

  /** Two readings of one output agree on all they both read. */
  predicate AlikeOutputs(o: WireOutput, q: NoticeOutput) {
    && o.outputIndex == q.outputIndex && o.paymentRemittance == q.paymentRemittance
    && o.protocol == (match q.protocol case Value(name) => Some(name) case _ => None)
  }

  ghost predicate Alike(p: WirePayment, q: NoticePayment) {
    && p.tx == q.tx && p.description == q.description && (p.outputs.Some? <==> q.outputs.Some?)
    && (p.outputs.Some? ==>
          && |p.outputs.value| == |q.outputs.value|
          && forall i :: 0 <= i < |p.outputs.value| ==> AlikeOutputs(p.outputs.value[i], q.outputs.value[i]))
  }

  predicate OnlyWalletPayments(p: WirePayment) {
    p.outputs.Some? && forall i :: 0 <= i < |p.outputs.value| ==> p.outputs.value[i].protocol == Some(WALLET_PAYMENT)
  }

  /** The extra caps of the listing path: no insertion remittance, and nonces no larger than the send side makes. */
  predicate WithinListingCaps(lib: Lib, o: WireOutput) {
    && o.insertionRemittance.None? && o.paymentRemittance.Some?
    && var r := o.paymentRemittance.value;
       && (r.derivationPrefix.Some? ==> GoodDerivation(lib, r.derivationPrefix.value))
       && (r.derivationSuffix.Some? ==> GoodDerivation(lib, r.derivationSuffix.value))
  }

  predicate AllWithinListingCaps(lib: Lib, outs: seq<WireOutput>) {
    forall i :: 0 <= i < |outs| ==> WithinListingCaps(lib, outs[i])
  }

  lemma {:induction false} AsciiBytes(s: string)
    requires forall i :: 0 <= i < |s| ==> s[i] < '\U{80}'
    ensures ByteLen(s) == |s|
  {
    if s != [] {
      AsciiBytes(s[1..]);
    }
  }

  lemma PlainDescriptionIsGood(d: string)
    requires 0 < |d| <= MAX_PAYMENT_DESCRIPTION_BYTES && !IsWhitespace(d[0]) && !IsWhitespace(d[|d| - 1])
    requires forall i :: 0 <= i < |d| ==> ' ' <= d[i] <= '~'
    ensures GoodDescription(d)
  {
    AsciiBytes(d);
  }

  lemma DefaultDescriptionIsGood()
    ensures GoodDescription(DEFAULT_DESCRIPTION)
  {
    PlainDescriptionIsGood(DEFAULT_DESCRIPTION);
  }

  lemma DescribedIsGood(description: Option<string>)
    ensures GoodDescription(Described(description)) <==> (description.Some? ==> GoodDescription(description.value))
  {
    if description.None? {
      DefaultDescriptionIsGood();
    }
  }

  lemma OutputsAgree(lib: Lib, o: WireOutput, q: NoticeOutput)
    requires o.protocol == Some(WALLET_PAYMENT) && AlikeOutputs(o, q)
    ensures q.protocol == Value(WALLET_PAYMENT)
    ensures GoodOutput(lib, o) <==> GoodNoticeOutput(lib, q) && WithinListingCaps(lib, o)
    ensures GoodOutput(lib, o) ==> BuiltOutput(lib, o) == WalletOutput(lib, q.outputIndex.value, q.paymentRemittance.value)
  {
  }

  lemma OutputListsAgree(lib: Lib, p: WirePayment, q: NoticePayment)
    requires OnlyWalletPayments(p) && Alike(p, q)
    ensures AllCompatible(q.outputs.value) && (q.outputs.value != [] ==> !NoneCompatible(q.outputs.value))
    ensures AllGoodOutputs(lib, p.outputs.value) <==>
      AllNoticeOutputs(lib, q.outputs.value) && AllWithinListingCaps(lib, p.outputs.value)
    ensures AllGoodOutputs(lib, p.outputs.value) ==> BuiltOutputs(lib, p.outputs.value) == NoticeOutputs(lib, q.outputs.value)
  {
    var outs, parts := p.outputs.value, q.outputs.value;
    forall i | 0 <= i < |outs|
      ensures parts[i].protocol == Value(WALLET_PAYMENT)
      ensures GoodOutput(lib, outs[i]) <==> GoodNoticeOutput(lib, parts[i]) && WithinListingCaps(lib, outs[i])
      ensures GoodOutput(lib, outs[i]) ==>
        BuiltOutput(lib, outs[i]) == WalletOutput(lib, parts[i].outputIndex.value, parts[i].paymentRemittance.value)
    {
      OutputsAgree(lib, outs[i], parts[i]);
    }
    assert parts != [] ==> WalletPaymentCompatible(parts[0].protocol);
  }

  lemma LimitsAgree(lib: Lib, p: WirePayment, q: NoticePayment)
    requires p.outputs.Some? && Alike(p, q)
    ensures GoodPayment(lib, p) <==> NoticeLimits(q) && p.outputs.value != [] && AllGoodOutputs(lib, p.outputs.value)
  {
    DescribedIsGood(p.description);
  }

  /**
   Validator agreement, on two readings of one payment made of wallet-payment outputs alone. The listing path
   accepts exactly what the notification path accepts whose outputs keep within the listing caps; both then
   give the wallet the same transaction, description and outputs.
   */
  lemma ValidatorsAgree(lib: Lib, p: WirePayment, q: NoticePayment)
    requires OnlyWalletPayments(p) && Alike(p, q)
    ensures BuiltArgs(lib, p).Some? <==> PreparedNotice(lib, q).Ready? && AllWithinListingCaps(lib, p.outputs.value)
    ensures BuiltArgs(lib, p).Some? ==>
      var listed, noticed := BuiltArgs(lib, p).value, PreparedNotice(lib, q).args;
      listed.tx == noticed.tx && listed.description == noticed.description && listed.outputs == noticed.outputs
  {
    LimitsAgree(lib, p, q);
    OutputListsAgree(lib, p, q);
    ReadyNotice(lib, q);
    BuiltFromGood(lib, p);
  }

  lemma ReadyNotice(lib: Lib, p: NoticePayment)
    requires p.outputs.Some? && AllCompatible(p.outputs.value) && (p.outputs.value != [] ==> !NoneCompatible(p.outputs.value))
    ensures PreparedNotice(lib, p).Ready? <==>
      NoticeLimits(p) && p.outputs.value != [] && AllNoticeOutputs(lib, p.outputs.value)
    ensures PreparedNotice(lib, p).Ready? ==>
      var args := PreparedNotice(lib, p).args;
      args.tx == p.tx.value && args.description == Described(p.description) && args.outputs == NoticeOutputs(lib, p.outputs.value)
  {
  }

  lemma BuiltFromGood(lib: Lib, p: WirePayment)
    ensures BuiltArgs(lib, p).Some? <==> GoodPayment(lib, p)
    ensures BuiltArgs(lib, p).Some? ==>
      var args := BuiltArgs(lib, p).value;
      args.tx == p.tx.value && args.description == Described(p.description) && args.outputs == BuiltOutputs(lib, p.outputs.value)
  {
  }

  /** A ready notification has dropped no output, reordered none and kept each one's own fields. */
  lemma NoticeDropsNothing(lib: Lib, p: NoticePayment)
    requires PreparedNotice(lib, p).Ready?
    ensures p.outputs.Some? && |PreparedNotice(lib, p).args.outputs| == |p.outputs.value| > 0
    ensures p.tx == Some(PreparedNotice(lib, p).args.tx)
    ensures forall i :: 0 <= i < |p.outputs.value| ==>
      Remits(lib, p.outputs.value[i].outputIndex, p.outputs.value[i].paymentRemittance, PreparedNotice(lib, p).args.outputs[i])
  {
    NoticeMeans(lib, p, PreparedNotice(lib, p).args);
  }

  /** Mixing supported and unsupported protocols is refused before any wallet call. */
  lemma MixedProtocolsAreRefused(lib: Lib, p: NoticePayment)
    requires p.tx.Some? && p.outputs.Some? && !AllCompatible(p.outputs.value) && !NoneCompatible(p.outputs.value)
    ensures PreparedNotice(lib, p) == Invalid
  {
  }
}
