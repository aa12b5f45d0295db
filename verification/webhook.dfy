/** The intake gate in front of the assistant: events from the WhatsApp
    gateway are filtered, de-duplicated for five minutes, routed to the
    operator's command bot or held while a human handles the phone, and
    otherwise collected per phone until ten seconds pass without a new
    message; the collected texts then make one turn of the assistant,
    whose reply is sent in parts split at `[PAUSA]`. Timers are explicit
    events here: `Forget` is the expiry of remembered message ids and
    `Fire` the end of a phone's quiet period. Times are in milliseconds. */
module Webhook {
  import opened Common
  import opened Text
  import opened Store
  import Agent
  import AgentTools

  /** `DEBOUNCE_MS`. */
  const DebounceMs := 10000

  /** How long a message id is remembered. */
  const DedupeMs := 5 * 60 * 1000

  /** The event kind the gate accepts. */
  const UpsertEvent := "messages.upsert"

  /** The marker the assistant writes between parts of a reply. */
  const PauseMarker := "[PAUSA]"

  // ----------------------------------------------------------------- payloads

  /** `data.key` of an event. */
  datatype Key = Key(remoteJid: Option<string>, fromMe: bool, id: Option<string>)

  /** The text-bearing fields of `data.message`: the plain text, the text
      of an extended text message and the caption of an image. */
  datatype Content = Content(conversation: Option<string>, extendedText: Option<string>, imageCaption: Option<string>)

  /** An event posted by the gateway. */
  datatype Payload = Payload(event: string, key: Option<Key>, message: Option<Content>)

  /** The text fields in the order they are tried. */
  function Fields(c: Content): seq<Option<string>> {
    [c.conversation, c.extendedText, c.imageCaption]
  }

  /** `extractMessageText`: the first non-empty text field, if any. */
  function ExtractMessageText(m: Option<Content>): (r: Option<string>)
    ensures r.Some? ==>
      && m.Some? && r.value != ""
      && exists i :: 0 <= i < 3 && Fields(m.value)[i] == r && forall j :: 0 <= j < i ==> !Truthy(Fields(m.value)[j])
    ensures r.None? ==> m.None? || forall j :: 0 <= j < 3 ==> !Truthy(Fields(m.value)[j])
  {
    if m.None? then None
    else if Truthy(m.value.conversation) then
      assert Fields(m.value)[0] == m.value.conversation;
      m.value.conversation
    else if Truthy(m.value.extendedText) then
      assert Fields(m.value)[1] == m.value.extendedText;
      m.value.extendedText
    else if Truthy(m.value.imageCaption) then
      assert Fields(m.value)[2] == m.value.imageCaption;
      m.value.imageCaption
    else None
  }

  /** Events the gate drops at once: another kind of event, no key, a
      message sent by the clinic's own number, or a group chat. */
  predicate Filtered(p: Payload) {
    || p.event != UpsertEvent
    || p.key.None?
    || p.key.value.fromMe
    || Contains(p.key.value.remoteJid.GetOr(""), "@g.us")
  }

  /** The message id (`key.id || ''`). */
  function MessageId(k: Key): string {
    k.id.GetOr("")
  }

  /** The sender's phone: `remoteJid.split('@')[0]`, the part of the JID
      before its first '@'. */
  function PhoneOf(jid: string): (r: string)
    ensures '@' !in r
    ensures r == jid || (|r| < |jid| && jid[..|r|] == r && jid[|r|] == '@')
  {
    var parts := Split(jid, "@");
    match FindFrom(jid, "@", 0)
    case None =>
      assert '@' !in jid by {
        forall i | 0 <= i < |jid|
          ensures jid[i] != '@'
        {
          OccursAtChar(jid, '@', i);
        }
      }
      jid
    case Some(i) =>
      OccursAtChar(jid, '@', i);
      assert '@' !in jid[..i] by {
        forall j | 0 <= j < i
          ensures jid[j] != '@'
        {
          OccursAtChar(jid, '@', j);
        }
      }
      parts[0]
  }

  /** A one-character word occurs exactly where that character stands. */
  lemma OccursAtChar(s: string, c: char, i: int)
    ensures OccursAt(s, [c], i) <==> 0 <= i < |s| && s[i] == c
  {
    if 0 <= i < |s| {
      assert s[i..i + 1] == [s[i]];
    }
  }

  // ------------------------------------------------------------------ phones

  /** `/^55\d{10}$/`: a Brazilian number written without the mobile '9'. */
  predicate IsEightDigitMobile(p: string) {
    |p| == 12 && p[0] == '5' && p[1] == '5' && AllDigits(p)
  }

  /** The number with the '9' inserted after the area code, if it lacks it. */
  function AddNine(p: string): string {
    if IsEightDigitMobile(p) then "55" + p[2..4] + "9" + p[4..] else p
  }

  /** `phonesMatch`: equal numbers, or equal once the '9' is inserted. */
  predicate PhonesMatch(a: string, b: string) {
    a == b || AddNine(a) == b || a == AddNine(b) || AddNine(a) == AddNine(b)
  }

  /** Inserting the '9' gives a number that needs no further insertion. */
  lemma AddNineIdempotent(p: string)
    ensures AddNine(AddNine(p)) == AddNine(p)
  {
    if IsEightDigitMobile(p) {
      assert |AddNine(p)| == 13;
    }
  }

  /** Two numbers match exactly when they agree once the '9' is inserted. */
  lemma PhonesMatchIff(a: string, b: string)
    ensures PhonesMatch(a, b) <==> AddNine(a) == AddNine(b)
  {
    AddNineIdempotent(a);
    AddNineIdempotent(b);
  }

  /** Matching is reflexive, symmetric and transitive. */
  lemma PhonesMatchEquivalence(a: string, b: string, c: string)
    ensures PhonesMatch(a, a)
    ensures PhonesMatch(a, b) ==> PhonesMatch(b, a)
    ensures PhonesMatch(a, b) && PhonesMatch(b, c) ==> PhonesMatch(a, c)
  {
    PhonesMatchIff(a, b);
    PhonesMatchIff(b, c);
    PhonesMatchIff(a, c);
  }

  /** A twelve-digit `55…` number matches its thirteen-digit form with the
      '9' after the two-digit area code. */
  lemma OldAndNewFormsMatch(area: string, rest: string)
    requires |area| == 2 && |rest| == 8 && AllDigits(area + rest)
    ensures PhonesMatch("55" + area + rest, "55" + area + "9" + rest)
  {
    var p := "55" + area + rest;
    assert AllDigits(p) by {
      forall i | 0 <= i < |p| ensures IsDigit(p[i]) {
        if i >= 2 { assert p[i] == (area + rest)[i - 2]; }
      }
    }
    assert p[2..4] == area && p[4..] == rest;
  }

  /** Numbers other than twelve-digit `55…` ones match only themselves. */
  lemma OtherNumbersMatchExactly(a: string, b: string)
    requires !IsEightDigitMobile(a) && !IsEightDigitMobile(b)
    ensures PhonesMatch(a, b) <==> a == b
  {
  }

  // -------------------------------------------------------------- reply parts

  /** A part fit to be sent: not empty, no whitespace at either end, and
      free of the word `w`. */
  predicate CleanPart(p: string, w: string) {
    p != "" && !IsJsWhitespace(p[0]) && !IsJsWhitespace(p[|p| - 1]) && !Contains(p, w)
  }

  /** `response.split('[PAUSA]').map(p => p.trim()).filter(Boolean)`. */
  function ReplyParts(response: string): (parts: seq<string>)
    ensures forall p :: p in parts ==> CleanPart(p, PauseMarker)
  {
    var pieces := Split(response, PauseMarker);
    SplitPiecesAvoidSeparator(response, PauseMarker);
    KeptPiecesClean(pieces, PauseMarker);
    Filter(TrimEach(pieces), NonBlank)
  }

  /** `Boolean` on a string. */
  function NonBlank(p: string): bool {
    p != ""
  }

  /** The non-empty trimmed pieces are clean. */
  lemma KeptPiecesClean(pieces: seq<string>, w: string)
    requires forall p :: p in pieces ==> !Contains(p, w)
    ensures forall p :: p in Filter(TrimEach(pieces), NonBlank) ==> CleanPart(p, w)
  {
    TrimEachAvoids(pieces, w);
    var r := TrimEach(pieces);
    assert forall x :: x in r && x != "" ==> CleanPart(x, w);
    var kept := Filter(r, NonBlank);
    forall p | p in kept
      ensures CleanPart(p, w)
    {
      assert p in r && NonBlank(p);
    }
  }

  /** `pieces.map(p => p.trim())`. */
  function TrimEach(pieces: seq<string>): (r: seq<string>)
    ensures |r| == |pieces| && forall i :: 0 <= i < |r| ==> r[i] == Trim(pieces[i])
  {
    if pieces == [] then [] else [Trim(pieces[0])] + TrimEach(pieces[1..])
  }

  /** Trimmed pieces free of a word stay free of it. */
  lemma TrimEachAvoids(pieces: seq<string>, w: string)
    requires forall p :: p in pieces ==> !Contains(p, w)
    ensures forall p :: p in TrimEach(pieces) ==> !Contains(p, w)
  {
    var r := TrimEach(pieces);
    forall p | p in r
      ensures !Contains(p, w)
    {
      var i :| 0 <= i < |r| && r[i] == p;
      TrimKeepsOccurrences(pieces[i], w);
    }
  }

  /** A word found in the trimmed string is found in the string. */
  lemma TrimKeepsOccurrences(s: string, w: string)
    ensures Contains(Trim(s), w) ==> Contains(s, w)
  {
    if Contains(Trim(s), w) {
      var t := TrimStart(s);
      var r := TrimEnd(t);
      var shift := |s| - |t|;
      assert r == s[shift..shift + |r|] by {
        assert r == t[..|r|] && t == s[shift..];
        assert s[shift..][..|r|] == s[shift..shift + |r|];
      }
      ContainsIff(r, w);
      var i :| OccursAt(r, w, i);
      OccursInSlice(s, shift, r, w, i);
      ContainsIff(s, w);
    }
  }

  /** An occurrence in a slice is an occurrence in the whole string. */
  lemma OccursInSlice(s: string, lo: nat, piece: string, w: string, i: int)
    requires lo + |piece| <= |s| && s[lo..lo + |piece|] == piece && OccursAt(piece, w, i)
    ensures OccursAt(s, w, lo + i)
  {
    assert 0 <= i && i + |w| <= |piece|;
    var outer, inner := s[lo + i..lo + i + |w|], piece[i..i + |w|];
    assert forall k :: 0 <= k < |w| ==> outer[k] == inner[k];
    assert outer == inner;
  }

  /** A reply without the marker is sent whole, trimmed, unless it is blank. */
  lemma UnmarkedReplyIsOnePart(response: string)
    requires !Contains(response, PauseMarker) && Trim(response) != ""
    ensures ReplyParts(response) == [Trim(response)]
  {
    ContainsIff(response, PauseMarker);
    assert FindFrom(response, PauseMarker, 0).None?;
    assert Split(response, PauseMarker) == [response];
    var trimmed := [Trim(response)];
    assert Filter(trimmed, NonBlank) == [Trim(response)] by {
      assert trimmed[1..] == [];
    }
  }

  // --------------------------------------------------------------- the gate

  /** A phone's collected texts and the time its quiet period ends. */
  datatype Queue = Queue(texts: seq<string>, fireAt: int)

  /** What the gate did with an event. */
  datatype Intake =
    | Ignored                            // filtered out
    | Duplicate                          // a message id seen in the last five minutes
    | NotText(phone: string)             // answered with the text-only notice
    | ToOperator(phone: string, text: string)  // handed to the operator's command bot
    | HeldForHuman(phone: string)        // a human is handling this phone
    | Queued(phone: string, count: nat)  // collected; `count` texts are waiting

  /** A conversation of the phone is with a human. */
  predicate HasEscalated(conversations: map<Id, Conversation>, patients: map<Id, Patient>, phone: string) {
    exists k :: k in conversations && conversations[k].status == Escalated
      && conversations[k].patientId in patients && patients[conversations[k].patientId].phone == phone
  }

  /** The operator's number, digits only (`replace(/\D/g, '')`, or '' when unset). */
  function OperatorDigits(operatorPhone: Option<string>): string {
    OnlyDigits(operatorPhone.GetOr(""))
  }

  /** The sender is the configured operator. */
  predicate FromOperator(phone: string, operatorPhone: Option<string>) {
    OperatorDigits(operatorPhone) != "" && PhonesMatch(phone, OperatorDigits(operatorPhone))
  }

  /** The texts waiting for a phone. */
  function Waiting(pending: map<string, Queue>, phone: string): seq<string> {
    if phone in pending then pending[phone].texts else []
  }

  /** The gate's state: remembered message ids with the time each is
      forgotten (`processedMessages`), and the per-phone queues
      (`pendingQueues`). */
  class IntakeGate {
    var processed: map<string, int>
    var pending: map<string, Queue>

    /** Every queue holds at least one text, and no text is empty. */
    ghost predicate Valid()
      reads this
    {
      forall phone :: phone in pending ==>
        pending[phone].texts != [] && forall i :: 0 <= i < |pending[phone].texts| ==> pending[phone].texts[i] != ""
    }

    constructor ()
      ensures Valid() && processed == map[] && pending == map[]
    {
      processed := map[];
      pending := map[];
    }

    /** `handleWebhook`. The message id is remembered before the text is
        read, so an event without text still blocks its id. */
    method HandleWebhook(payload: Payload, now: int, db: Database, operatorPhone: Option<string>)
      returns (r: Intake)
      requires Valid()
      modifies this
      ensures Valid()
      ensures Filtered(payload) ==> r == Ignored && processed == old(processed) && pending == old(pending)
      ensures !Filtered(payload) && MessageId(payload.key.value) in old(processed) ==>
        r == Duplicate && processed == old(processed) && pending == old(pending)
      ensures !Filtered(payload) && MessageId(payload.key.value) !in old(processed) ==>
        processed == old(processed)[MessageId(payload.key.value) := now + DedupeMs]
      ensures !r.Queued? ==> pending == old(pending)
      ensures r.Queued? <==>
        && !Filtered(payload) && MessageId(payload.key.value) !in old(processed)
        && ExtractMessageText(payload.message).Some?
        && !FromOperator(PhoneOf(payload.key.value.remoteJid.GetOr("")), operatorPhone)
        && !HasEscalated(db.conversations, db.patients, PhoneOf(payload.key.value.remoteJid.GetOr("")))
      // the three fresh events that are not queued, in the order the handler checks them
      ensures !Filtered(payload) && MessageId(payload.key.value) !in old(processed)
              && ExtractMessageText(payload.message).None? ==>
        r == NotText(PhoneOf(payload.key.value.remoteJid.GetOr("")))
      ensures !Filtered(payload) && MessageId(payload.key.value) !in old(processed)
              && ExtractMessageText(payload.message).Some?
              && FromOperator(PhoneOf(payload.key.value.remoteJid.GetOr("")), operatorPhone) ==>
        r == ToOperator(PhoneOf(payload.key.value.remoteJid.GetOr("")), ExtractMessageText(payload.message).value)
      ensures !Filtered(payload) && MessageId(payload.key.value) !in old(processed)
              && ExtractMessageText(payload.message).Some?
              && !FromOperator(PhoneOf(payload.key.value.remoteJid.GetOr("")), operatorPhone)
              && HasEscalated(db.conversations, db.patients, PhoneOf(payload.key.value.remoteJid.GetOr(""))) ==>
        r == HeldForHuman(PhoneOf(payload.key.value.remoteJid.GetOr("")))
      ensures r.Queued? ==>
        var phone := PhoneOf(payload.key.value.remoteJid.GetOr(""));
        var texts := Waiting(old(pending), phone) + [ExtractMessageText(payload.message).value];
        && r == Queued(phone, |texts|)
        && pending == old(pending)[phone := Queue(texts, now + DebounceMs)]
    {
      if Filtered(payload) {
        return Ignored;
      }
      var key := payload.key.value;
      var id := MessageId(key);
      if id in processed {
        return Duplicate;
      }
      processed := processed[id := now + DedupeMs];
      var phone := PhoneOf(key.remoteJid.GetOr(""));
      var text := ExtractMessageText(payload.message);
      if text.None? {
        return NotText(phone);
      }
      if FromOperator(phone, operatorPhone) {
        return ToOperator(phone, text.value);
      }
      if HasEscalated(db.conversations, db.patients, phone) {
        return HeldForHuman(phone);
      }
      var texts := Waiting(pending, phone) + [text.value];
      pending := pending[phone := Queue(texts, now + DebounceMs)];
      r := Queued(phone, |texts|);
    }

    /** The end of a phone's quiet period: its queue is removed and its
        texts, joined by line breaks, become one message. */
    method Fire(phone: string, now: int) returns (combined: string)
      requires Valid() && phone in pending && pending[phone].fireAt <= now
      modifies this`pending
      ensures Valid()
      ensures pending == old(pending) - {phone}
      ensures combined == Join(old(pending)[phone].texts, "\n")
      ensures combined != ""
    {
      var texts := pending[phone].texts;
      pending := pending - {phone};
      combined := Join(texts, "\n");
      JoinNonEmpty(texts, "\n");
    }

    /** The expiry of remembered message ids: those due by `now` are forgotten. */
    method Forget(now: int)
      modifies this`processed
      ensures forall id :: id in processed <==> id in old(processed) && old(processed)[id] > now
      ensures forall id :: id in processed ==> processed[id] == old(processed)[id]
    {
      processed := map id | id in processed && processed[id] > now :: processed[id];
    }
  }

  /** A join of texts whose first is not empty is not empty. */
  lemma JoinNonEmpty(parts: seq<string>, sep: string)
    requires parts != [] && parts[0] != ""
    ensures Join(parts, sep) != ""
  {
    if |parts| > 1 {
      assert |Join(parts, sep)| >= |parts[0]|;
    }
  }

  /** `processAndRespond`: one turn of the assistant on the collected text,
      and the parts of its reply, in the order they are sent. */
  method ProcessAndRespond(db: Database, phone: string, text: string, script: seq<Option<Agent.ModelReply>>,
                           env: AgentTools.Env, startText: int -> string)
    returns (reply: string, parts: seq<string>)
    requires db.Valid()
    modifies db
    ensures db.Valid()
    ensures |reply| > 0 && parts == ReplyParts(reply)
    ensures exists cid :: (
      && cid in db.conversations
      && db.messages == old(db.messages) + [Message(cid, Inbound, User, text)] + [Message(cid, Outbound, Assistant, reply)])
  {
    var cid, patientId, trace, modelCalls;
    reply, cid, patientId, trace, modelCalls := Agent.ProcessMessage(db, phone, text, script, env, startText);
    parts := ReplyParts(reply);
  }
}
