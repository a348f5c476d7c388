/** Sending the same logical message more than once, over HTTP and over the live path with its HTTP fallback. */
module IdempotentSend {
  import opened Prelude
  import opened Envelope

  /** What a caller means to send; each attempt encrypts it afresh. */
  datatype Logical = Logical(body: string, recipient: string, box: string)

  // ---- Reading the relay's answer ----

  /** An HTTP response: its status and its body as JSON, if it is JSON. */
  datatype Response = Response(status: int, body: Option<Json>)

  datatype SendError = HttpError(status: int) | RelayError(description: string) | NetworkError

  function StringMember(body: Option<Json>, key: string): Option<string> {
    if body.None? then None
    else match Get(body.value, key) case Some(Str(s)) => Some(s) case _ => None
  }

  predicate IsDuplicateRejection(r: Response) {
    StringMember(r.body, "status") == Some("error") && StringMember(r.body, "code") == Some("ERR_DUPLICATE_MESSAGE")
  }

  predicate IsStatusError(r: Response) {
    StringMember(r.body, "status") == Some("error")
  }

  /** The id in a success response: it needs a string `status`, and a `messageId` that is a string or missing. */
  function ServerId(r: Response): Option<string> {
    if StringMember(r.body, "status").None? then None else StringMember(r.body, "messageId")
  }

  /** `send_message_to_host` after the request: duplicate first, then the status code, then the logical error. */
  function Classify(r: Response, id: string): Result<string, SendError> {
    if IsDuplicateRejection(r) then Ok(id)
    else if r.status < 200 || r.status >= 300 then Err(HttpError(r.status))
    else if IsStatusError(r) then
      Err(RelayError(match StringMember(r.body, "description") case Some(d) => d case None => "unknown error"))
    else match ServerId(r) case Some(serverId) => Ok(serverId) case None => Ok(id)
  }

  /** The response's body is an object whose member `key` is this string. */
  ghost predicate Says(r: Response, key: string, text: string) {
    r.body.Some? && Member(r.body.value, key, Str(text))
  }

  ghost predicate SaysDuplicate(r: Response) {
    Says(r, "status", "error") && Says(r, "code", "ERR_DUPLICATE_MESSAGE")
  }

  lemma StringMemberMeans(r: Response, key: string, text: string)
    ensures StringMember(r.body, key) == Some(text) <==> Says(r, key, text)
  {
    if r.body.Some? {
      GetMeans(r.body.value, key, Str(text));
    }
  }

  /** The id a success response names. */
  ghost predicate NamesId(r: Response, id: string) {
    Says(r, "messageId", id) && exists status :: Says(r, "status", status)
  }

  lemma ServerIdMeans(r: Response, id: string)
    ensures ServerId(r) == Some(id) <==> NamesId(r, id)
  {
    StringMemberMeans(r, "messageId", id);
    if StringMember(r.body, "status").Some? {
      StringMemberMeans(r, "status", StringMember(r.body, "status").value);
    }
    if status :| Says(r, "status", status) {
      StringMemberMeans(r, "status", status);
    }
  }

  /**
   An attempt succeeds exactly on a duplicate rejection, with the id it was made under, or on a 2xx that states
   no error, with the id the server names or else its own. Any other answer is an error: outside 2xx that of
   the status code, within it that of the description.
   */
  lemma ClassifyMeans(r: Response, id: string, got: string)
    ensures Classify(r, id) == Ok(got) <==>
      if SaysDuplicate(r) then got == id
      else
        && 200 <= r.status <= 299 && !Says(r, "status", "error")
        && (NamesId(r, got) || (got == id && forall other :: !NamesId(r, other)))
    ensures Classify(r, id) == Err(HttpError(r.status)) <==> !SaysDuplicate(r) && !(200 <= r.status <= 299)
    ensures Classify(r, id) == Err(RelayError(got)) <==>
      && !SaysDuplicate(r) && 200 <= r.status <= 299 && Says(r, "status", "error")
      && (Says(r, "description", got) || (got == "unknown error" && forall other :: !Says(r, "description", other)))
  {
    StringMemberMeans(r, "status", "error");
    StringMemberMeans(r, "code", "ERR_DUPLICATE_MESSAGE");
    forall x ensures ServerId(r) == Some(x) <==> NamesId(r, x) {
      ServerIdMeans(r, x);
    }
    forall x ensures StringMember(r.body, "description") == Some(x) <==> Says(r, "description", x) {
      StringMemberMeans(r, "description", x);
    }
  }

  // ---- The relay ----

  const DUPLICATE: Response := Response(400, Some(Obj([
    Field("status", Str("error")), Field("code", Str("ERR_DUPLICATE_MESSAGE")), Field("description", Str("Duplicate message."))])))

  /** A success answer, with or without the id repeated in it. */
  function Accepted(id: string, echoes: bool): Response {
    var status := [Field("status", Str("success"))];
    Response(200, Some(Obj(if echoes then status + [Field("messageId", Str(id))] else status)))
  }

  /** A relay host keeps one message per id, whichever path it came by. */
  class RelayHost {
    var stored: map<string, Logical>

    constructor ()
      ensures stored == map[]
    {
      stored := map[];
    }

    method Receive(id: string, m: Logical) returns (duplicate: bool)
      modifies this
      ensures duplicate <==> id in old(stored)
      ensures stored == Insert(old(stored), id, m)
    {
      duplicate := id in stored;
      if !duplicate {
        stored := stored[id := m];
      }
    }

    /**
     One HTTP attempt. `derived` is the id the wallet derives from body and recipient; `echoes` says whether
     the relay repeats the id in its answer; a lost answer is a network error even though the message arrived.
     Every answered attempt is `Ok`; this message, in its box, is what the host holds under that id exactly
     when the host did not hold another one under it before.
     */
    method SendMessage(m: Logical, chosen: Option<string>, derived: string, echoes: bool, answerLost: bool)
      returns (r: Result<string, SendError>)
      modifies this
      ensures stored == Insert(old(stored), IdFor(chosen, derived), m)
      ensures r == if answerLost then Err(NetworkError) else Ok(IdFor(chosen, derived))
      ensures var id := IdFor(chosen, derived);
        id in stored && (stored[id] == m <==> id in old(stored) ==> old(stored)[id] == m)
    {
      var id := IdFor(chosen, derived);
      var duplicate := Receive(id, m);
      if answerLost { return Err(NetworkError); }
      AnswersMeanDelivered(id, echoes);
      r := Classify(if duplicate then DUPLICATE else Accepted(id, echoes), id);
    }
  }

  function IdFor(chosen: Option<string>, derived: string): string {
    if chosen.Some? then chosen.value else derived
  }

  function Insert(stored: map<string, Logical>, id: string, m: Logical): map<string, Logical> {
    if id in stored then stored else stored[id := m]
  }

  lemma AnswersMeanDelivered(id: string, echoes: bool)
    ensures Classify(DUPLICATE, id) == Ok(id)
    ensures Classify(Accepted(id, echoes), id) == Ok(id)
  {
    var r := Accepted(id, echoes);
    var fields := r.body.value.fields;
    assert FindField(fields, "status") == Some(Str("success"));
    if echoes {
      assert fields[1..] == [Field("messageId", Str(id))];
      assert FindField(fields[1..], "messageId") == Some(Str(id));
      assert StringMember(r.body, "messageId") == Some(id);
    } else {
      assert FindField(fields, "messageId") == FindField([], "messageId");
    }
    DuplicateIsRecognized();
  }

  lemma DuplicateIsRecognized()
    ensures IsDuplicateRejection(DUPLICATE)
  {
    var fields := DUPLICATE.body.value.fields;
    assert FindField(fields, "status") == Some(Str("error"));
    assert fields[0].key != "code" && fields[1..][0] == fields[1];
    assert FindField(fields[1..], "code") == Some(Str("ERR_DUPLICATE_MESSAGE"));
  }

  // ---- Runs ----

  /**
   A frame that reaches a host: an HTTP send, or the WebSocket half of a live send, both under the chosen or
   derived id; or the HTTP fallback of a live send, which always passes no id. Frames that never arrive are
   left out, so a run is any interleaving of any number of sends with any losses.
   */
  datatype Arrival =
    | Http(host: string, m: Logical, chosen: Option<string>)
    | LivePush(host: string, m: Logical, chosen: Option<string>)
    | LiveFallback(host: string, m: Logical)

  /** The id is derived from body and recipient; the box has no part in it. */
  function Derived(derive: (string, string) -> string, m: Logical): string {
    derive(m.body, m.recipient)
  }

  function IdOf(derive: (string, string) -> string, a: Arrival): string {
    match a
    case Http(_, m, chosen) => IdFor(chosen, Derived(derive, m))
    case LivePush(_, m, chosen) => IdFor(chosen, Derived(derive, m))
    case LiveFallback(_, m) => Derived(derive, m)
  }

  function StoredAt(derive: (string, string) -> string, run: seq<Arrival>, host: string): map<string, Logical> {
    if run == [] then map[]
    else
      var before, a := StoredAt(derive, run[..|run| - 1], host), run[|run| - 1];
      if a.host == host then Insert(before, IdOf(derive, a), a.m) else before
  }

  /** The ids under which a host stores a message. */
  function Copies(stored: map<string, Logical>, m: Logical): set<string> {
    set id | id in stored && stored[id] == m
  }

  /** Arrival `i` was the first at its host under its id. */
  ghost predicate FirstUnderItsId(derive: (string, string) -> string, run: seq<Arrival>, i: nat) {
    i < |run| && forall j :: 0 <= j < i && run[j].host == run[i].host ==> IdOf(derive, run[j]) != IdOf(derive, run[i])
  }

  lemma FirstSnoc(derive: (string, string) -> string, run: seq<Arrival>, i: nat)
    requires i < |run| - 1
    ensures FirstUnderItsId(derive, run, i) <==> FirstUnderItsId(derive, run[..|run| - 1], i)
  {
    var before := run[..|run| - 1];
    assert forall j :: 0 <= j < |before| ==> before[j] == run[j];
  }

  /** A host holds exactly the messages that were first to arrive under their ids. */
  lemma {:induction false} HoldsFirstArrivals(derive: (string, string) -> string, run: seq<Arrival>, host: string, id: string)
    ensures forall i: nat :: i < |run| && run[i].host == host && IdOf(derive, run[i]) == id && FirstUnderItsId(derive, run, i) ==>
      id in StoredAt(derive, run, host) && StoredAt(derive, run, host)[id] == run[i].m
    ensures id in StoredAt(derive, run, host) ==>
      exists i: nat :: i < |run| && run[i].host == host && IdOf(derive, run[i]) == id && FirstUnderItsId(derive, run, i)
  {
    if run == [] { return; }
    var n := |run| - 1;
    var before, last := run[..n], run[n];
    HoldsFirstArrivals(derive, before, host, id);
    forall i: nat | i < n ensures FirstUnderItsId(derive, run, i) <==> FirstUnderItsId(derive, before, i) {
      FirstSnoc(derive, run, i);
    }
    if id in StoredAt(derive, before, host) {
      var i: nat :| i < n && before[i].host == host && IdOf(derive, before[i]) == id && FirstUnderItsId(derive, before, i);
      assert run[i] == before[i];
    } else if last.host == host && IdOf(derive, last) == id {
      assert FirstUnderItsId(derive, run, n) by {
        if j :| 0 <= j < n && run[j].host == host && IdOf(derive, run[j]) == id {
          HasAFirst(derive, before, host, id, j);
        }
      }
    }
  }

  /** Something that arrived under an id had a first to arrive under it. */
  lemma {:induction false} HasAFirst(derive: (string, string) -> string, run: seq<Arrival>, host: string, id: string, j: nat)
    requires j < |run| && run[j].host == host && IdOf(derive, run[j]) == id
    ensures exists i: nat :: i <= j && run[i].host == host && IdOf(derive, run[i]) == id && FirstUnderItsId(derive, run, i)
  {
    if !FirstUnderItsId(derive, run, j) {
      var k :| 0 <= k < j && run[k].host == run[j].host && IdOf(derive, run[k]) == IdOf(derive, run[j]);
      HasAFirst(derive, run, host, id, k);
    }
  }

  // ---- How many copies ----

  /** The ids under which a message was the first to arrive at a host. */
  ghost function FirstUnder(derive: (string, string) -> string, run: seq<Arrival>, host: string, m: Logical): set<string> {
    set i | 0 <= i < |run| && run[i].host == host && run[i].m == m && FirstUnderItsId(derive, run, i) :: IdOf(derive, run[i])
  }

  /** The ids under which a message arrived at a host. */
  function ArrivedUnder(derive: (string, string) -> string, run: seq<Arrival>, host: string, m: Logical): set<string> {
    set i | 0 <= i < |run| && run[i].host == host && run[i].m == m :: IdOf(derive, run[i])
  }

  /** For every run: a host's copies of a message are exactly the ids it was the first to come under. */
  lemma CopiesCameFirst(derive: (string, string) -> string, run: seq<Arrival>, host: string, m: Logical)
    ensures Copies(StoredAt(derive, run, host), m) == FirstUnder(derive, run, host, m)
  {
    forall id ensures id in Copies(StoredAt(derive, run, host), m) <==> id in FirstUnder(derive, run, host, m) {
      HoldsFirstArrivals(derive, run, host, id);
    }
  }

  /** At this host nothing else arrives under an id of this message. */
  ghost predicate Unambiguous(derive: (string, string) -> string, run: seq<Arrival>, host: string, m: Logical) {
    forall i, j :: (0 <= i < |run| && 0 <= j < |run| && run[i].host == host && run[j].host == host
                    && IdOf(derive, run[i]) == IdOf(derive, run[j]) && run[i].m == m) ==> run[j].m == m
  }

  /** Idempotent send: the copies are then exactly the ids the message arrived under, by whichever path and however often. */
  lemma CopiesAreTheIds(derive: (string, string) -> string, run: seq<Arrival>, host: string, m: Logical)
    requires Unambiguous(derive, run, host, m)
    ensures Copies(StoredAt(derive, run, host), m) == ArrivedUnder(derive, run, host, m)
  {
    CopiesCameFirst(derive, run, host, m);
    forall id | id in ArrivedUnder(derive, run, host, m) ensures id in FirstUnder(derive, run, host, m) {
      var j: nat :| j < |run| && run[j].host == host && run[j].m == m && IdOf(derive, run[j]) == id;
      HasAFirst(derive, run, host, id, j);
    }
  }

  lemma SingletonIff(s: set<string>, id: string)
    requires id in s
    ensures |s| == 1 <==> s == {id}
  {
    if |s| == 1 {
      assert |s - {id}| == 0;
      assert s == (s - {id}) + {id};
    }
  }

  /** One copy exactly when the message arrived and every arrival of it came under one id. */
  lemma OneCopyPerHost(derive: (string, string) -> string, run: seq<Arrival>, host: string, m: Logical, i: nat)
    requires Unambiguous(derive, run, host, m) && i < |run| && run[i].host == host && run[i].m == m
    ensures |Copies(StoredAt(derive, run, host), m)| == 1 <==>
      forall j :: 0 <= j < |run| && run[j].host == host && run[j].m == m ==> IdOf(derive, run[j]) == IdOf(derive, run[i])
  {
    CopiesAreTheIds(derive, run, host, m);
    var ids := ArrivedUnder(derive, run, host, m);
    assert IdOf(derive, run[i]) in ids;
    SingletonIff(ids, IdOf(derive, run[i]));
    if ids == {IdOf(derive, run[i])} {
      forall j | 0 <= j < |run| && run[j].host == host && run[j].m == m ensures IdOf(derive, run[j]) == IdOf(derive, run[i]) {
        assert IdOf(derive, run[j]) in ids;
      }
    }
  }

  /** Under derived ids alone: one copy, under body and recipient, if anything reached the host, and none otherwise. */
  lemma DerivedIdsLeaveOneCopy(derive: (string, string) -> string, run: seq<Arrival>, host: string, m: Logical)
    requires Unambiguous(derive, run, host, m)
    requires forall i :: 0 <= i < |run| && run[i].host == host && run[i].m == m ==> run[i].LiveFallback? || run[i].chosen == None
    ensures Copies(StoredAt(derive, run, host), m) ==
      if exists i :: 0 <= i < |run| && run[i].host == host && run[i].m == m then {derive(m.body, m.recipient)} else {}
  {
    CopiesAreTheIds(derive, run, host, m);
    if i :| 0 <= i < |run| && run[i].host == host && run[i].m == m {
      assert derive(m.body, m.recipient) in ArrivedUnder(derive, run, host, m) by {
        assert IdOf(derive, run[i]) == derive(m.body, m.recipient);
      }
    }
  }

  ghost predicate SameLetter(m: Logical, n: Logical) {
    m.body == n.body && m.recipient == n.recipient
  }

  /** No two different pairs of body and recipient derive one id. */
  ghost predicate CollisionFree(derive: (string, string) -> string) {
    forall b, r, b', r' :: derive(b, r) == derive(b', r') ==> b == b' && r == r'
  }

  /** Arrival `i` was the first of its body and recipient at its host, whatever the boxes. */
  ghost predicate FirstOfItsLetter(run: seq<Arrival>, i: nat) {
    i < |run| && forall j :: 0 <= j < i && run[j].host == run[i].host ==> !SameLetter(run[j].m, run[i].m)
  }

  /**
   Derived ids without collisions: a host that got nothing under chosen ids stores, of all the messages that
   reach it with one body and recipient, exactly the first, so another recipient never costs a message its
   place and another box always does.
   */
  lemma OneLetterOneBox(derive: (string, string) -> string, run: seq<Arrival>, host: string, m: Logical)
    requires CollisionFree(derive)
    requires forall i :: 0 <= i < |run| && run[i].host == host ==> run[i].LiveFallback? || run[i].chosen == None
    ensures Copies(StoredAt(derive, run, host), m) ==
      if exists i: nat :: i < |run| && run[i].host == host && run[i].m == m && FirstOfItsLetter(run, i)
      then {derive(m.body, m.recipient)} else {}
  {
    CopiesCameFirst(derive, run, host, m);
    forall i: nat | i < |run| && run[i].host == host ensures FirstUnderItsId(derive, run, i) <==> FirstOfItsLetter(run, i) {
      SameIdSameLetter(derive, run, i);
    }
    if i: nat :| i < |run| && run[i].host == host && run[i].m == m && FirstOfItsLetter(run, i) {
      assert IdOf(derive, run[i]) in FirstUnder(derive, run, host, m);
    }
  }

  lemma SameIdSameLetter(derive: (string, string) -> string, run: seq<Arrival>, i: nat)
    requires CollisionFree(derive) && i < |run|
    requires forall j :: 0 <= j <= i && run[j].host == run[i].host ==> run[j].LiveFallback? || run[j].chosen == None
    ensures FirstUnderItsId(derive, run, i) <==> FirstOfItsLetter(run, i)
  {
    forall j | 0 <= j <= i && run[j].host == run[i].host
      ensures IdOf(derive, run[j]) == IdOf(derive, run[i]) <==> SameLetter(run[j].m, run[i].m)
    {
      var m, n := run[j].m, run[i].m;
      assert IdOf(derive, run[j]) == derive(m.body, m.recipient) && IdOf(derive, run[i]) == derive(n.body, n.recipient);
    }
  }

  /**
   With an id of the caller's choosing the two halves of a live send meet no more: wherever in a run a send
   under the chosen id and a fallback reach a host, it ends up with a single copy exactly when the chosen id
   is the derived one and every other arrival of the message used it too.
   */
  lemma ChosenIdDuplicatesIff(derive: (string, string) -> string, run: seq<Arrival>, host: string, m: Logical, chosen: string,
                              i: nat, j: nat)
    requires Unambiguous(derive, run, host, m) && i < |run| && j < |run|
    requires run[i] == LivePush(host, m, Some(chosen)) || run[i] == Http(host, m, Some(chosen))
    requires run[j] == LiveFallback(host, m)
    ensures {chosen, derive(m.body, m.recipient)} <= Copies(StoredAt(derive, run, host), m)
    ensures |Copies(StoredAt(derive, run, host), m)| == 1 <==>
      chosen == derive(m.body, m.recipient)
      && forall k :: 0 <= k < |run| && run[k].host == host && run[k].m == m ==> IdOf(derive, run[k]) == chosen
  {
    CopiesAreTheIds(derive, run, host, m);
    OneCopyPerHost(derive, run, host, m, i);
    assert IdOf(derive, run[i]) == chosen && IdOf(derive, run[j]) == derive(m.body, m.recipient);
  }

  /**
   The box has no part in a derived id. Once a body has reached a host for one box of a recipient, the same
   body for another box is never stored there under the derived id, though every answered attempt is `Ok`.
   */
  lemma OtherBoxIsNeverStored(derive: (string, string) -> string, run: seq<Arrival>, host: string, m: Logical, box: string, i: nat)
    requires box != m.box && i < |run| && run[i].host == host && run[i].m == m
    requires IdOf(derive, run[i]) == derive(m.body, m.recipient) && FirstUnderItsId(derive, run, i)
    ensures derive(m.body, m.recipient) !in Copies(StoredAt(derive, run, host), m.(box := box))
    ensures IdOf(derive, LiveFallback(host, m.(box := box))) == derive(m.body, m.recipient)
  {
    HoldsFirstArrivals(derive, run, host, derive(m.body, m.recipient));
  }
}
