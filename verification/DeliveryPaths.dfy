/** The push path and the poll path hand a subscriber the same message. */
module DeliveryPaths {
  import opened Prelude
  import opened Envelope

  /** A message as the server stores and emits it. */
  datatype ServerPeerMessage = ServerPeerMessage(messageId: string, body: string, sender: string)

  datatype AuthenticatedPeerMessage = AuthenticatedPeerMessage(
    messageId: string, sender: string, recipient: string, messageBox: string, body: string, authenticatedDecrypt: bool)

  const PUSH_PREFIX: string := "sendMessage-"
  const ACK_PREFIX: string := "sendMessageAck-"
  const HEX_KEY_LEN: nat := 66

  function FirstHyphen(s: string): Option<nat> {
    if s == [] then None
    else if s[0] == '-' then Some(0)
    else match FirstHyphen(s[1..]) case None => None case Some(i) => Some(i + 1)
  }

  /** Room ids are read as bytes; here a `string` is the sequence of its UTF-8 bytes. */
  function SplitRoomId(room: string): (string, string) {
    if |room| > HEX_KEY_LEN && room[HEX_KEY_LEN] == '-' then (room[..HEX_KEY_LEN], room[HEX_KEY_LEN + 1..])
    else match FirstHyphen(room)
         case Some(i) => if i < |room| then (room[..i], room[i + 1..]) else (room, "")
         case None => (room, "")
  }

  lemma {:induction false} FirstHyphenMeans(s: string)
    ensures FirstHyphen(s).None? ==> forall j :: 0 <= j < |s| ==> s[j] != '-'
    ensures FirstHyphen(s).Some? ==>
      var i := FirstHyphen(s).value; i < |s| && s[i] == '-' && forall j :: 0 <= j < i ==> s[j] != '-'
  {
    if s != [] && s[0] != '-' {
      FirstHyphenMeans(s[1..]);
      assert forall j :: 1 <= j < |s| ==> s[j] == s[1..][j - 1];
    }
  }

  /** `{key}-{box}` splits back into its parts exactly when one of the two rules can see the boundary. */
  lemma SplitRoundTrip(key: string, box: string)
    ensures
      var room := key + "-" + box;
      SplitRoomId(room) == (key, box) <==>
        if |room| > HEX_KEY_LEN && room[HEX_KEY_LEN] == '-' then |key| == HEX_KEY_LEN else '-' !in key
  {
    var room := key + "-" + box;
    FirstHyphenMeans(room);
    assert room[|key|] == '-' && room[..|key|] == key && room[|key| + 1..] == box;
    assert forall j :: 0 <= j < |key| ==> room[j] == key[j];
    assert |SplitRoomId(room).0| == |key| ==> SplitRoomId(room) == (key, box);
  }

  /**
   Every room id is split at exactly one place: behind the key when byte 66 is a hyphen, otherwise at the first
   hyphen, and a room without one is all key.
   */
  lemma SplitMeans(room: string, key: string, box: string)
    ensures SplitRoomId(room) == (key, box) <==>
      if |room| > 66 && room[66] == '-' then |key| == 66 && room == key + "-" + box
      else if '-' in room then room == key + "-" + box && '-' !in key
      else room == key && box == ""
  {
    FirstHyphenMeans(room);
    if |room| > 66 && room[66] == '-' {
      assert room == room[..66] + "-" + room[67..];
    } else if FirstHyphen(room).Some? {
      var i := FirstHyphen(room).value;
      assert room == room[..i] + "-" + room[i + 1..];
      assert room[i] in room;
    }
    if room == key + "-" + box {
      SplitRoundTrip(key, box);
    }
  }

  predicate StartsWith(s: string, prefix: string) {
    |prefix| <= |s| && s[..|prefix|] == prefix
  }

  /** The dispatcher's message branch, for a room with a callback: what the callback is given, if anything. */
  function PushDelivery(env: Env, event: string, m: ServerPeerMessage, originator: Option<string>): Option<AuthenticatedPeerMessage>
    requires env.Lawful()
  {
    if !StartsWith(event, PUSH_PREFIX) then None
    else
      var outcome := TryDecryptTyped(env, m.body, m.sender, originator);
      var (recipient, box) := SplitRoomId(event[|PUSH_PREFIX|..]);
      Some(AuthenticatedPeerMessage(m.messageId, m.sender, recipient, box, outcome.IntoBody(), outcome.IsAuthenticated()))
  }

  /** `extract_plain_body`: one wrapper off, otherwise the body as it is. */
  function ExtractPlainBody(env: Env, body: string): string {
    match env.parse(body)
    case None => body
    case Some(v) =>
      match Get(v, "message")
      case Some(Str(s)) => s
      case Some(other) => env.render(other)
      case None => body
  }

  function PollDelivery(env: Env, m: ServerPeerMessage, identityKey: string, box: string, originator: Option<string>): AuthenticatedPeerMessage
    requires env.Lawful()
  {
    var outcome := TryDecryptTyped(env, ExtractPlainBody(env, m.body), m.sender, originator);
    AuthenticatedPeerMessage(m.messageId, m.sender, identityKey, box, outcome.IntoBody(), outcome.IsAuthenticated())
  }

  /** Taking one wrapper off before decrypting makes no difference. */
  lemma UnwrapThenDecrypt(env: Env, body: string, sender: string, originator: Option<string>)
    requires env.Lawful()
    ensures TryDecryptTyped(env, ExtractPlainBody(env, body), sender, originator)
         == TryDecryptTyped(env, body, sender, originator)
  {
    if env.Inner(body).Some? {
      WrappersDoNotMatter(env, [body, ExtractPlainBody(env, body)], sender, originator);
    }
  }

  /** A push for a room shows the decrypted text. */
  lemma PushedBody(env: Env, room: string, m: ServerPeerMessage, originator: Option<string>)
    requires env.Lawful()
    ensures PushDelivery(env, PUSH_PREFIX + room, m, originator).Some?
    ensures PushDelivery(env, PUSH_PREFIX + room, m, originator).value.body == TryDecryptTyped(env, m.body, m.sender, originator).body
  {
    assert (PUSH_PREFIX + room)[..|PUSH_PREFIX|] == PUSH_PREFIX;
  }

  /** What both deliver: the stored id and sender, the listener's key and box, and the wallet's or the innermost text. */
  lemma DeliveredFields(env: Env, m: ServerPeerMessage, identityKey: string, box: string, originator: Option<string>)
    requires env.Lawful()
    ensures
      var d := PollDelivery(env, m, identityKey, box, originator);
      && d.messageId == m.messageId && d.sender == m.sender && d.recipient == identityKey && d.messageBox == box
      && (d.authenticatedDecrypt <==> OpensTo(env, Core(env, m.body), m.sender, originator, d.body))
      && (!d.authenticatedDecrypt ==> d.body == Core(env, m.body))
  {
    UnwrapThenDecrypt(env, m.body, m.sender, originator);
    var outcome := TryDecryptTyped(env, m.body, m.sender, originator);
    DecryptsIff(env, m.body, m.sender, originator, outcome.body);
  }

  /** Push and poll deliver the identical message to the listener of a box, whatever hyphens its name has. */
  lemma PathsAgree(env: Env, m: ServerPeerMessage, identityKey: string, box: string, originator: Option<string>)
    requires env.Lawful() && |identityKey| == HEX_KEY_LEN
    ensures PushDelivery(env, "sendMessage-" + (identityKey + "-" + box), m, originator)
         == Some(PollDelivery(env, m, identityKey, box, originator))
  {
    var room := identityKey + "-" + box;
    assert (PUSH_PREFIX + room)[|PUSH_PREFIX|..] == room;
    assert room[HEX_KEY_LEN] == '-';
    SplitRoundTrip(identityKey, box);
    UnwrapThenDecrypt(env, m.body, m.sender, originator);
  }

  /** No ack event is mistaken for a message, so the order of the dispatcher's two tests does not matter. */
  lemma AckEventsAreNotMessages(env: Env, event: string, m: ServerPeerMessage, originator: Option<string>)
    requires env.Lawful() && "sendMessageAck-" <= event
    ensures PushDelivery(env, event, m, originator) == None
  {
    var i := |PUSH_PREFIX| - 1;
    assert event[i] == ACK_PREFIX[i] != PUSH_PREFIX[i];
    assert event[..|PUSH_PREFIX|][i] == event[i];
  }
}
