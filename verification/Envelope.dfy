/** Message bodies: `{"message": ...}` wrappers, `{"encryptedMessage": ...}` envelopes and plain text. */
module Envelope {
  import opened Prelude

  /** A parsed JSON value. Field keys are those left after parsing; `Get` reads the one with that key. */
  datatype Json =
    | Null
    | Bool(b: bool)
    | Number(literal: string)
    | Str(text: string)
    | Arr(items: seq<Json>)
    | Obj(fields: seq<Field>)

  datatype Field = Field(key: string, value: Json)

  function FindField(fields: seq<Field>, key: string): Option<Json> {
    if fields == [] then None
    else if fields[0].key == key then Some(fields[0].value)
    else FindField(fields[1..], key)
  }

  /** `Value::get`: only an object has members. */
  function Get(v: Json, key: string): Option<Json> {
    if v.Obj? then FindField(v.fields, key) else None
  }

  /** Size of a value, with the contents of strings counted by length. */
  function Weight(v: Json): (w: nat)
    ensures w >= 1
    decreases v, 1
  {
    match v
    case Null => 1
    case Bool(_) => 1
    case Number(_) => 1
    case Str(text) => 1 + |text|
    case Arr(items) => 1 + ItemsWeight(items)
    case Obj(fields) => 1 + FieldsWeight(fields)
  }

  function ItemsWeight(items: seq<Json>): nat
    decreases items, 0
  {
    if items == [] then 0 else Weight(items[0]) + ItemsWeight(items[1..])
  }

  function FieldsWeight(fields: seq<Field>): nat
    decreases fields, 0
  {
    if fields == [] then 0 else |fields[0].key| + 1 + Weight(fields[0].value) + FieldsWeight(fields[1..])
  }

  lemma {:induction false} FieldIsLighter(fields: seq<Field>, key: string)
    ensures FindField(fields, key).Some? ==> Weight(FindField(fields, key).value) < 1 + FieldsWeight(fields)
  {
    if fields != [] && fields[0].key != key {
      FieldIsLighter(fields[1..], key);
    }
  }

  /**
   Everything outside this crate that a body goes through: the JSON library, base64, key parsing, and the
   wallet's authenticated decryption of (sender, ciphertext, originator) into UTF-8 text.
   */
  datatype Env = Env(
    parse: string -> Option<Json>,
    render: Json -> string,
    base64: string -> Option<seq<nat>>,
    keyOk: string -> bool,
    open: (string, seq<nat>, Option<string>) -> Option<string>)
  {
    /** All that is asked of the JSON library: a value is no heavier than its text, nor after a reprint. */
    ghost predicate Lawful() {
      && (forall text :: parse(text).Some? ==> Weight(parse(text).value) <= |text|)
      && (forall v :: parse(render(v)).Some? ==> Weight(parse(render(v)).value) <= Weight(v))
    }

    ghost function Rank(raw: string): nat {
      match parse(raw)
      case None => 0
      case Some(v) => Weight(v)
    }

    /** The text of a `message` member: strings as they are, other values reprinted. */
    function Text(v: Json): string {
      if v.Str? then v.text else render(v)
    }

    /** One wrapper taken off, if there is one. */
    function Inner(raw: string): Option<string> {
      match parse(raw)
      case None => None
      case Some(v) =>
        match Get(v, "message")
        case None => None
        case Some(inner) => Some(Text(inner))
    }

    predicate IsSealed(raw: string) {
      parse(raw).Some? && Get(parse(raw).value, "encryptedMessage").Some?
    }
  }

  lemma UnwrappingLightens(env: Env, raw: string)
    requires env.Lawful() && env.Inner(raw).Some?
    ensures env.Rank(env.Inner(raw).value) < env.Rank(raw)
  {
    var v := env.parse(raw).value;
    FieldIsLighter(v.fields, "message");
  }

  // ---- The two decrypting functions ----

  datatype DecryptError = BadJson | MissingField | BadBase64 | BadSenderKey | WalletRefused

  function DecryptBody(env: Env, sealed: string, sender: string, originator: Option<string>): Result<string, DecryptError> {
    match env.parse(sealed)
    case None => Err(BadJson)
    case Some(v) =>
      match Get(v, "encryptedMessage")
      case Some(Str(b64)) =>
        (match env.base64(b64)
         case None => Err(BadBase64)
         case Some(ciphertext) =>
           if !env.keyOk(sender) then Err(BadSenderKey)
           else match env.open(sender, ciphertext, originator)
                case None => Err(WalletRefused)
                case Some(plain) => Ok(plain))
      case _ => Err(MissingField)
  }

  function TryDecrypt(env: Env, raw: string, sender: string, originator: Option<string>): string
    requires env.Lawful()
    decreases env.Rank(raw)
  {
    match env.parse(raw)
    case None => raw
    case Some(v) =>
      match Get(v, "message")
      case Some(inner) =>
        assert env.Inner(raw) == Some(env.Text(inner));
        UnwrappingLightens(env, raw);
        TryDecrypt(env, env.Text(inner), sender, originator)
      case None =>
        if Get(v, "encryptedMessage").Some? then
          match DecryptBody(env, raw, sender, originator)
          case Ok(plain) => plain
          case Err(_) => raw
        else raw
  }

  datatype DecryptOutcome = Decrypted(body: string) | Plaintext(body: string) {
    function IntoBody(): string { body }
    predicate IsAuthenticated() { Decrypted? }
  }

  function TryDecryptTyped(env: Env, raw: string, sender: string, originator: Option<string>): DecryptOutcome
    requires env.Lawful()
    decreases env.Rank(raw)
  {
    match env.parse(raw)
    case None => Plaintext(raw)
    case Some(v) =>
      match Get(v, "message")
      case Some(inner) =>
        assert env.Inner(raw) == Some(env.Text(inner));
        UnwrappingLightens(env, raw);
        TryDecryptTyped(env, env.Text(inner), sender, originator)
      case None =>
        if Get(v, "encryptedMessage").Some? then
          match DecryptBody(env, raw, sender, originator)
          case Ok(plain) => Decrypted(plain)
          case Err(_) => Plaintext(raw)
        else Plaintext(raw)
  }

  /** The typed function adds provenance and changes no body. */
  lemma {:induction false} TypedAgreesWithUntyped(env: Env, raw: string, sender: string, originator: Option<string>)
    requires env.Lawful()
    ensures TryDecryptTyped(env, raw, sender, originator).IntoBody() == TryDecrypt(env, raw, sender, originator)
    decreases env.Rank(raw)
  {
    if env.Inner(raw).Some? {
      UnwrappingLightens(env, raw);
      TypedAgreesWithUntyped(env, env.Inner(raw).value, sender, originator);
    }
  }

  // ---- What they mean ----

  /** Texts each of which is the next one wrapped once. */
  ghost predicate Layers(env: Env, chain: seq<string>) {
    chain != [] && forall i :: 0 <= i < |chain| - 1 ==> env.Inner(chain[i]) == Some(chain[i + 1])
  }

  /** Layers down to a text that is not a wrapper. */
  ghost predicate LayersDownTo(env: Env, raw: string, chain: seq<string>, core: string) {
    Layers(env, chain) && chain[0] == raw && chain[|chain| - 1] == core && env.Inner(core).None?
  }

  /** Any number of wrappers leaves the outcome unchanged. */
  lemma {:induction false} WrappersDoNotMatter(env: Env, chain: seq<string>, sender: string, originator: Option<string>)
    requires env.Lawful() && Layers(env, chain)
    ensures TryDecryptTyped(env, chain[0], sender, originator)
         == TryDecryptTyped(env, chain[|chain| - 1], sender, originator)
  {
    if |chain| > 1 {
      WrappersDoNotMatter(env, chain[1..], sender, originator);
    }
  }

  /** The innermost text. */
  function Core(env: Env, raw: string): string
    requires env.Lawful()
    decreases env.Rank(raw)
  {
    match env.Inner(raw)
    case None => raw
    case Some(text) =>
      UnwrappingLightens(env, raw);
      Core(env, text)
  }

  /** Unwrapping always comes to an end. */
  lemma {:induction false} CoreExists(env: Env, raw: string)
    requires env.Lawful()
    ensures exists chain :: LayersDownTo(env, raw, chain, Core(env, raw))
    decreases env.Rank(raw)
  {
    var core := Core(env, raw);
    if env.Inner(raw).None? {
      assert LayersDownTo(env, raw, [raw], raw);
    } else {
      UnwrappingLightens(env, raw);
      CoreExists(env, env.Inner(raw).value);
      var chain :| LayersDownTo(env, env.Inner(raw).value, chain, core);
      var longer := [raw] + chain;
      forall i | 0 <= i < |longer| - 1 ensures env.Inner(longer[i]) == Some(longer[i + 1]) {
        if i > 0 {
          assert longer[i] == chain[i - 1] && longer[i + 1] == chain[i];
        }
      }
      assert LayersDownTo(env, raw, longer, core);
    }
  }

  /**
   The outcome is decided by the innermost text alone: `Decrypted` exactly when that is an encrypted
   envelope which decrypts, and otherwise the innermost text itself, byte for byte.
   */
  lemma InnermostDecides(env: Env, raw: string, chain: seq<string>, core: string, sender: string, originator: Option<string>)
    requires env.Lawful() && LayersDownTo(env, raw, chain, core)
    ensures
      var outcome := TryDecryptTyped(env, raw, sender, originator);
      && (outcome.IsAuthenticated() <==> env.IsSealed(core) && DecryptBody(env, core, sender, originator).Ok?)
      && (outcome.IsAuthenticated() ==> Ok(outcome.body) == DecryptBody(env, core, sender, originator))
      && (!outcome.IsAuthenticated() ==> outcome.body == core)
  {
    WrappersDoNotMatter(env, chain, sender, originator);
  }

  // ---- In terms of the JSON library, base64, keys and the wallet alone ----

  /** The first field of an object with this key has this value. */
  ghost predicate Member(v: Json, key: string, value: Json) {
    v.Obj? && exists i :: (0 <= i < |v.fields| && v.fields[i] == Field(key, value)
                           && forall j :: 0 <= j < i ==> v.fields[j].key != key)
  }

  lemma {:induction false} FindFieldMeans(fields: seq<Field>, key: string, value: Json)
    ensures FindField(fields, key) == Some(value) <==> Member(Obj(fields), key, value)
  {
    if fields != [] && fields[0].key != key {
      FindFieldMeans(fields[1..], key, value);
      var v, rest := Obj(fields), Obj(fields[1..]);
      if Member(rest, key, value) {
        var i :| 0 <= i < |rest.fields| && rest.fields[i] == Field(key, value) && forall j :: 0 <= j < i ==> rest.fields[j].key != key;
        assert fields[i + 1] == Field(key, value);
        assert forall j :: 0 <= j < i + 1 ==> j == 0 || fields[j] == rest.fields[j - 1];
      }
      if Member(v, key, value) {
        var i :| 0 <= i < |fields| && fields[i] == Field(key, value) && forall j :: 0 <= j < i ==> fields[j].key != key;
        assert rest.fields[i - 1] == Field(key, value);
        assert forall j :: 0 <= j < i - 1 ==> rest.fields[j] == fields[j + 1];
      }
    }
  }

  lemma GetMeans(v: Json, key: string, value: Json)
    ensures Get(v, key) == Some(value) <==> Member(v, key, value)
  {
    if v.Obj? {
      FindFieldMeans(v.fields, key, value);
    }
  }

  /** The text reads as an object whose `message` member is the inner string, or prints as the inner text. */
  ghost predicate Wraps(env: Env, text: string, inner: string) {
    && env.parse(text).Some?
    && ((Member(env.parse(text).value, "message", Str(inner)))
        || exists v :: Member(env.parse(text).value, "message", v) && !v.Str? && env.render(v) == inner)
  }

  lemma InnerMeans(env: Env, text: string, inner: string)
    ensures env.Inner(text) == Some(inner) <==> Wraps(env, text, inner)
    ensures env.Inner(text).None? <==> forall v :: env.parse(text).Some? ==> !Member(env.parse(text).value, "message", v)
  {
    if env.parse(text).Some? {
      var v := env.parse(text).value;
      forall x ensures Get(v, "message") == Some(x) <==> Member(v, "message", x) {
        GetMeans(v, "message", x);
      }
    }
  }

  /** The text is an encrypted envelope that the wallet opens for this sender. */
  ghost predicate OpensTo(env: Env, text: string, sender: string, originator: Option<string>, plain: string) {
    && env.parse(text).Some? && env.keyOk(sender)
    && exists b64 :: (Member(env.parse(text).value, "encryptedMessage", Str(b64)) && env.base64(b64).Some?
                      && env.open(sender, env.base64(b64).value, originator) == Some(plain))
  }

  lemma DecryptBodyMeans(env: Env, text: string, sender: string, originator: Option<string>, plain: string)
    ensures DecryptBody(env, text, sender, originator) == Ok(plain) <==> OpensTo(env, text, sender, originator, plain)
  {
    if env.parse(text).Some? {
      var v := env.parse(text).value;
      forall b64 ensures Get(v, "encryptedMessage") == Some(Str(b64)) <==> Member(v, "encryptedMessage", Str(b64)) {
        GetMeans(v, "encryptedMessage", Str(b64));
      }
    }
  }

  /**
   What the whole recursion answers: the plaintext the wallet gives for the innermost text when that is an
   envelope whose ciphertext decodes, the sender's key is good and the wallet opens it; otherwise, and only
   then, the innermost text itself, not authenticated.
   */
  lemma DecryptsIff(env: Env, raw: string, sender: string, originator: Option<string>, plain: string)
    requires env.Lawful()
    ensures TryDecryptTyped(env, raw, sender, originator) == Decrypted(plain) <==>
      OpensTo(env, Core(env, raw), sender, originator, plain)
    ensures !TryDecryptTyped(env, raw, sender, originator).IsAuthenticated() ==>
      TryDecryptTyped(env, raw, sender, originator) == Plaintext(Core(env, raw))
    ensures (forall p :: !OpensTo(env, Core(env, raw), sender, originator, p)) <==>
      TryDecryptTyped(env, raw, sender, originator) == Plaintext(Core(env, raw))
  {
    var core := Core(env, raw);
    CoreExists(env, raw);
    var chain :| LayersDownTo(env, raw, chain, core);
    InnermostDecides(env, raw, chain, core, sender, originator);
    forall p ensures DecryptBody(env, core, sender, originator) == Ok(p) <==> OpensTo(env, core, sender, originator, p) {
      DecryptBodyMeans(env, core, sender, originator, p);
    }
  }

  /** The innermost text is reached by taking wrappers off one by one, and is no wrapper. */
  lemma {:induction false} CoreMeans(env: Env, raw: string)
    requires env.Lawful()
    ensures Core(env, raw) == raw || exists inner :: Wraps(env, raw, inner) && Core(env, raw) == Core(env, inner)
    ensures forall v :: env.parse(Core(env, raw)).Some? ==> !Member(env.parse(Core(env, raw)).value, "message", v)
  {
    CoreExists(env, raw);
    var chain :| LayersDownTo(env, raw, chain, Core(env, raw));
    InnerMeans(env, Core(env, raw), "");
    if env.Inner(raw).Some? {
      InnerMeans(env, raw, env.Inner(raw).value);
    }
  }

  // ---- When nothing changes ----

  /** Neither a wrapper nor an encrypted envelope that opens. */
  predicate IsBare(env: Env, raw: string, sender: string, originator: Option<string>) {
    env.Inner(raw).None? && !(env.IsSealed(raw) && DecryptBody(env, raw, sender, originator).Ok?)
  }

  /** The innermost text is an encrypted envelope whose plaintext is the whole body again. */
  predicate OpensToItself(env: Env, raw: string, sender: string, originator: Option<string>)
    requires env.Lawful()
  {
    env.IsSealed(Core(env, raw)) && DecryptBody(env, Core(env, raw), sender, originator) == Ok(raw)
  }

  /** Decryption hands a body back as it was exactly when it is bare, or its innermost envelope holds it whole. */
  lemma UnchangedIff(env: Env, raw: string, sender: string, originator: Option<string>)
    requires env.Lawful()
    ensures TryDecryptTyped(env, raw, sender, originator).body == raw <==>
      IsBare(env, raw, sender, originator) || OpensToItself(env, raw, sender, originator)
  {
    CoreExists(env, raw);
    var chain :| LayersDownTo(env, raw, chain, Core(env, raw));
    InnermostDecides(env, raw, chain, Core(env, raw), sender, originator);
  }

  lemma NonJsonIsPlain(env: Env, text: string, sender: string, originator: Option<string>)
    requires env.Lawful() && env.parse(text).None?
    ensures TryDecryptTyped(env, text, sender, originator) == Plaintext(text)
  {
  }
}
