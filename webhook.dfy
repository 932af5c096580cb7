/**
 * The webhook endpoint Meta calls for each provider: the subscription
 * handshake, and the ingestion of inbound messages and delivery statuses
 * into the message history, the contact book and the operators' chat
 * channels.
 */
module Webhook {
  import opened Wrappers
  import opened Text
  import opened Records
  import Phone
  import Providers

  // ---------------------------------------------------------------------
  // Routing and handshake

  /**
   * The route `/whatsapp/webhook/<int:config_id>`: the provider a request
   * path addresses, or `None` for another path or an unknown id. For an
   * unknown id the controller's not-found reply passes a `status` keyword to
   * the JSON encoder, which raises outside any handler: the caller gets a
   * server error, not a JSON answer.
   */
  function RequestTarget(path: string, known: set<nat>): (r: Option<nat>)
    ensures r.Some? ==> r.value in known
  {
    var n := |Providers.WebhookPath|;
    if StartsWith(path, Providers.WebhookPath) && IsDigitString(path[n..])
       && ParseNat(path[n..]) in known
    then Some(ParseNat(path[n..]))
    else None
  }

  /** The address a provider publishes leads back to that provider. */
  lemma WebhookUrlReachesProvider(baseUrl: string, id: nat, known: set<nat>)
    requires id in known
    ensures RequestTarget(Providers.WebhookUrl(baseUrl, id)[|baseUrl|..], known) == Some(id)
  {
    var url := Providers.WebhookUrl(baseUrl, id);
    var path := url[|baseUrl|..];
    assert url == baseUrl + Providers.WebhookPath + NatToString(id);
    assert path == Providers.WebhookPath + NatToString(id);
    assert path[..|Providers.WebhookPath|] == Providers.WebhookPath;
    assert path[|Providers.WebhookPath|..] == NatToString(id);
    ParseNatToString(id);
  }

  datatype HandshakeFailure = MissingParameters | InvalidMode | InvalidVerifyToken

  datatype HandshakeReply = Challenge(challenge: string) | HandshakeError(reason: HandshakeFailure)

  /** The GET handshake: echo the challenge only for a subscribe request with the provider's token. */
  function Handshake(mode: Option<string>, challenge: Option<string>, token: Option<string>, expected: string): (r: HandshakeReply)
    ensures r.Challenge? <==> Truthy(mode) && Truthy(challenge) && Truthy(token)
                              && mode.value == "subscribe" && token.value == expected
    ensures r.Challenge? ==> r.challenge == challenge.value
    ensures r == HandshakeError(MissingParameters) <==> !(Truthy(mode) && Truthy(challenge) && Truthy(token))
    ensures r == HandshakeError(InvalidMode) <==> Truthy(mode) && Truthy(challenge) && Truthy(token) && mode.value != "subscribe"
    ensures r == HandshakeError(InvalidVerifyToken) <==>
              (Truthy(mode) && Truthy(challenge) && Truthy(token) && mode.value == "subscribe" && token.value != expected)
  {
    if !(Truthy(mode) && Truthy(challenge) && Truthy(token)) then HandshakeError(MissingParameters)
    else if mode.value != "subscribe" then HandshakeError(InvalidMode)
    else if token.value != expected then HandshakeError(InvalidVerifyToken)
    else Challenge(challenge.value)
  }

  // ---------------------------------------------------------------------
  // Notification payloads

  datatype Contact = Contact(profileName: Option<string>)

  datatype InboundMessage = InboundMessage(
    sender: string, msgType: Option<string>, textBody: Option<string>, buttonText: Option<string>,
    id: string, timestamp: Option<int>, replyTo: Option<string>)

  datatype StatusUpdate = StatusUpdate(
    id: string, status: Option<string>, recipient: string, timestamp: Option<int>,
    conversationId: Option<string>)

  datatype ChangeValue = ChangeValue(messages: seq<InboundMessage>, statuses: seq<StatusUpdate>, contacts: seq<Contact>)

  datatype Change = Change(field: Option<string>, value: ChangeValue)

  datatype Entry = Entry(changes: seq<Change>)

  datatype Notification = Notification(entries: seq<Entry>)

  /** The user who operates a provider: its id, its contact and its display name. */
  datatype Operator = Operator(user: nat, partner: nat, name: string)

  /** The provider a request addresses, with the first user authorised on it. */
  datatype Provider = Provider(id: nat, webhookToken: string, operator: Operator)

  /** The history text of an inbound message: its body for text, a type tag otherwise. */
  function MessageContent(m: InboundMessage): (r: Option<string>)
    ensures m.msgType == Some("text") ==> r == m.textBody
    ensures m.msgType != Some("text") ==> r.Some? && StartsWith(r.value, "[") && r.value[|r.value| - 1] == ']'
  {
    if m.msgType == Some("text") then m.textBody
    else Some("[" + (match m.msgType case None => "None" case Some(t) => t) + " message]")
  }

  /** A provider timestamp, or the clock when it is missing or unreadable. */
  function StampOf(timestamp: Option<int>): Stamp
  {
    match timestamp
    case Some(t) => At(t)
    case None => Now
  }

  /** Delivery statuses the history accepts; anything else is recorded as a failure. */
  function CoerceStatus(status: Option<string>): (r: Status)
    ensures r != Received
    ensures r == Failed <==> !(status.Some? && status.value in {"sent", "delivered", "read"})
    ensures status == Some("sent") <==> r == Sent
    ensures status == Some("delivered") <==> r == Delivered
    ensures status == Some("read") <==> r == Read
  {
    match status
    case Some("sent") => Sent
    case Some("delivered") => Delivered
    case Some("read") => Read
    case _ => Failed
  }

  // ---------------------------------------------------------------------
  // Contacts and chat channels

  /** The raw-SQL test: the stored normalized mobile or phone equals the key. */
  predicate PartnerHasNumber(p: Partner, key: string)
  {
    p.normalizedMobile == Some(key) || p.normalizedPhone == Some(key)
  }

  /** The contact created for an unknown number: the profile name when given, else the number. */
  function NewContact(number: string, contacts: seq<Contact>, e164: Phone.Formatter): Partner
  {
    var name := if |contacts| > 0 && contacts[0].profileName.Some? then contacts[0].profileName.value else number;
    Phone.ContactWith(name, Some(number), Some(number), e164)
  }

  /**
   * `_find_or_create_partner`: the first contact whose normalized mobile or
   * phone equals the normalized number, else a new contact.
   */
  function PartnerLookup(partners: seq<Partner>, number: string, contacts: seq<Contact>, e164: Phone.Formatter): (r: Pick<Partner>)
    ensures r.id < |r.rows|
    ensures |r.rows| == |partners| ==> r.rows == partners && PartnerHasNumber(partners[r.id], Phone.Normalize(number, e164))
    ensures |r.rows| != |partners| ==> r.rows == partners + [NewContact(number, contacts, e164)] && r.id == |partners|
    ensures |r.rows| != |partners| ==> forall j | 0 <= j < |partners| :: !PartnerHasNumber(partners[j], Phone.Normalize(number, e164))
  {
    var key := Phone.Normalize(number, e164);
    match FirstMatch(partners, (p: Partner) => PartnerHasNumber(p, key))
    case Some(i) => Pick(partners, i)
    case None => Pick(partners + [NewContact(number, contacts, e164)], |partners|)
  }

  /** A second lookup of the same (non-empty) number finds the contact the first one returned. */
  lemma PartnerLookupStable(partners: seq<Partner>, number: string, contacts: seq<Contact>, again: seq<Contact>, e164: Phone.Formatter)
    requires number != ""
    ensures var first := PartnerLookup(partners, number, contacts, e164);
            PartnerLookup(first.rows, number, again, e164) == first
  {
    var key := Phone.Normalize(number, e164);
    var first := PartnerLookup(partners, number, contacts, e164);
    var dom := (p: Partner) => PartnerHasNumber(p, key);
    if |first.rows| != |partners| {
      assert first.rows[first.id] == NewContact(number, contacts, e164);
      assert dom(first.rows[first.id]);
      assert forall j | 0 <= j < first.id :: first.rows[j] == partners[j];
    }
    assert dom(first.rows[first.id]);
    assert forall j | 0 <= j < first.id :: !dom(first.rows[j]);
    var second := FirstMatch(first.rows, dom);
    assert second == Some(first.id);
  }

  predicate IsChatWith(c: Channel, provider: Provider, partner: nat)
  {
    c.kind == Chat && c.config == Some(provider.id)
    && provider.operator.partner in c.members && partner in c.members
  }

  /**
   * `_get_or_create_chat_channel`: the first chat channel of the provider in
   * which both the operator and the contact are members, else a new one with
   * exactly those two members.
   */
  function ChatChannelLookup(channels: seq<Channel>, provider: Provider, partner: nat, partnerName: string): (r: Pick<Channel>)
    ensures r.id < |r.rows| && IsChatWith(r.rows[r.id], provider, partner)
    ensures r.rows == channels || r.rows == channels + [r.rows[r.id]]
    ensures r.rows != channels ==> r.id == |channels| && r.rows[r.id].members == {provider.operator.partner, partner}
    ensures r.rows != channels ==> forall j | 0 <= j < |channels| :: !IsChatWith(channels[j], provider, partner)
  {
    match FirstMatch(channels, (c: Channel) => IsChatWith(c, provider, partner))
    case Some(i) => Pick(channels, i)
    case None =>
      var created := Channel(Chat, Some(provider.id), {provider.operator.partner, partner},
                             provider.operator.name + " - " + partnerName);
      Pick(channels + [created], |channels|)
  }

  /**
   * The channel message an inbound reply points at, within the same
   * channel; channel messages are searched newest first.
   */
  function ParentMessage(mail: seq<MailMessage>, waId: string, channel: nat): Option<nat>
  {
    LastMatch(mail, (m: MailMessage) => m.waId == Some(waId) && m.channel == channel)
  }

  /** The parent found is the newest message of the channel with that id; none iff no message matches. */
  lemma ParentMessageNewest(mail: seq<MailMessage>, waId: string, channel: nat)
    ensures var r := ParentMessage(mail, waId, channel);
            && (r.Some? ==> r.value < |mail| && mail[r.value].waId == Some(waId) && mail[r.value].channel == channel)
            && (r.Some? ==> forall j | r.value < j < |mail| :: !(mail[j].waId == Some(waId) && mail[j].channel == channel))
            && (r.None? <==> forall j | 0 <= j < |mail| :: !(mail[j].waId == Some(waId) && mail[j].channel == channel))
  {
  }

  // ---------------------------------------------------------------------
  // The ingestion, as functions of the tables

  /** The history row an inbound message produces. */
  function InboundRecord(provider: Provider, m: InboundMessage, partner: nat): (r: HistoryRecord)
    ensures r.status == Received && r.messageId == Some(m.id) && r.config == Some(provider.id)
    ensures r.number == Some(m.sender) && r.partner == Some(partner) && r.message == MessageContent(m)
    ensures r.replyTo == (if Truthy(m.replyTo) then m.replyTo else None)
    ensures r.sendDate == StampOf(m.timestamp) && r.receivedDate == Some(StampOf(m.timestamp))
  {
    Blank(Received).(number := Some(m.sender), partner := Some(partner), config := Some(provider.id),
                     messageId := Some(m.id), message := MessageContent(m), sendDate := StampOf(m.timestamp),
                     user := Some(provider.operator.user), receivedDate := Some(StampOf(m.timestamp)),
                     replyTo := if Truthy(m.replyTo) then m.replyTo else None)
  }

  /**
   * One inbound message: contact lookup, a history row, and (when `mirror`
   * is set) a copy in the operator's chat channel, threaded under the
   * message it replies to.
   */
  function AfterMessage(t: Tables, provider: Provider, e164: Phone.Formatter, m: InboundMessage,
                        contacts: seq<Contact>, mirror: bool): Tables
  {
    var contact := PartnerLookup(t.partners, m.sender, contacts, e164);
    var history := t.history + [InboundRecord(provider, m, contact.id)];
    if !mirror then t.(partners := contact.rows, history := history)
    else
      var chat := ChatChannelLookup(t.channels, provider, contact.id, contact.rows[contact.id].name);
      var parent := if Truthy(m.replyTo) then ParentMessage(t.mail, m.replyTo.value, chat.id) else None;
      var copy := MailMessage(chat.id, MessageContent(m), Some(contact.id), Some(m.id), parent, None);
      t.(partners := contact.rows, history := history, channels := chat.rows, mail := t.mail + [copy])
  }

  /** The history row a status update addresses: same message id, same provider. */
  function StatusTarget(history: seq<HistoryRecord>, id: string, provider: nat): Option<nat>
  {
    FirstMatch(history, (r: HistoryRecord) => r.messageId == Some(id) && r.config == Some(provider))
  }

  /** The conversation id a status carries into the history: only for deliveries. */
  function DeliveredConversation(s: StatusUpdate): Option<string>
  {
    if CoerceStatus(s.status) == Delivered && Truthy(s.conversationId) then s.conversationId else None
  }

  /**
   * One status update: the addressed history row takes the status and date
   * (and the conversation id of a delivery); with no such row, a new row is
   * created for the recipient.
   */
  function AfterStatus(t: Tables, provider: Provider, e164: Phone.Formatter, s: StatusUpdate, contacts: seq<Contact>): Tables
  {
    var status := CoerceStatus(s.status);
    var stamp := StampOf(s.timestamp);
    match StatusTarget(t.history, s.id, provider.id)
    case Some(i) =>
      var r := t.history[i];
      var conversation := if DeliveredConversation(s).Some? then DeliveredConversation(s) else r.conversationId;
      t.(history := t.history[i := r.(status := status, sendDate := stamp, conversationId := conversation)])
    case None =>
      var contact := PartnerLookup(t.partners, s.recipient, contacts, e164);
      var row := Blank(status).(number := Some(s.recipient), partner := Some(contact.id), config := Some(provider.id),
                                user := Some(provider.operator.user), messageId := Some(s.id), sendDate := stamp,
                                conversationId := DeliveredConversation(s));
      t.(partners := contact.rows, history := t.history + [row])
  }

  function AfterMessages(t: Tables, provider: Provider, e164: Phone.Formatter, ms: seq<InboundMessage>,
                         contacts: seq<Contact>, mirror: bool): Tables
    decreases |ms|
  {
    if ms == [] then t
    else AfterMessages(AfterMessage(t, provider, e164, ms[0], contacts, mirror), provider, e164, ms[1..], contacts, mirror)
  }

  function AfterStatuses(t: Tables, provider: Provider, e164: Phone.Formatter, ss: seq<StatusUpdate>, contacts: seq<Contact>): Tables
    decreases |ss|
  {
    if ss == [] then t
    else AfterStatuses(AfterStatus(t, provider, e164, ss[0], contacts), provider, e164, ss[1..], contacts)
  }

  /** Only changes of the `messages` field are read: messages first, then statuses. */
  function AfterChange(t: Tables, provider: Provider, e164: Phone.Formatter, c: Change, mirror: bool): Tables
  {
    if c.field == Some("messages") then
      var v := c.value;
      AfterStatuses(AfterMessages(t, provider, e164, v.messages, v.contacts, mirror), provider, e164, v.statuses, v.contacts)
    else t
  }

  function AfterChanges(t: Tables, provider: Provider, e164: Phone.Formatter, cs: seq<Change>, mirror: bool): Tables
    decreases |cs|
  {
    if cs == [] then t
    else AfterChanges(AfterChange(t, provider, e164, cs[0], mirror), provider, e164, cs[1..], mirror)
  }

  function AfterEntries(t: Tables, provider: Provider, e164: Phone.Formatter, es: seq<Entry>, mirror: bool): Tables
    decreases |es|
  {
    if es == [] then t
    else AfterEntries(AfterChanges(t, provider, e164, es[0].changes, mirror), provider, e164, es[1..], mirror)
  }

  // ---------------------------------------------------------------------
  // Properties of the ingestion

  /** `after` is `before` followed by one row per message of `ms`, describing it, in order. */
  predicate RowsAppended(before: seq<HistoryRecord>, after: seq<HistoryRecord>, ms: seq<InboundMessage>)
  {
    |after| == |before| + |ms| && after[..|before|] == before
    && forall k | 0 <= k < |ms| :: after[|before| + k].messageId == Some(ms[k].id)
                                   && after[|before| + k].status == Received
                                   && after[|before| + k].message == MessageContent(ms[k])
  }

  /** Rows for one message, then rows for the rest, are rows for all of them. */
  lemma RowsAppendedCompose(h0: seq<HistoryRecord>, h1: seq<HistoryRecord>, h: seq<HistoryRecord>, ms: seq<InboundMessage>)
    requires ms != [] && RowsAppended(h0, h1, [ms[0]]) && RowsAppended(h1, h, ms[1..])
    ensures RowsAppended(h0, h, ms)
  {
    var n := |h0|;
    assert h[..n + 1] == h1 by {
      assert h[..|h1|] == h1;
    }
    assert h[..n] == h1[..n];
    forall k | 0 <= k < |ms|
      ensures h[n + k].messageId == Some(ms[k].id) && h[n + k].status == Received
              && h[n + k].message == MessageContent(ms[k])
    {
      if k == 0 {
        assert h[n] == h1[n];
        assert h1[n + 0].messageId == Some([ms[0]][0].id);
      } else {
        assert ms[1..][k - 1] == ms[k];
        assert h[|h1| + (k - 1)] == h[n + k];
        assert h[|h1| + (k - 1)].messageId == Some(ms[1..][k - 1].id);
      }
    }
  }

  /**
   * Every inbound message adds exactly one history row, in payload order,
   * and no earlier row changes: inbound messages are never de-duplicated.
   */
  lemma {:induction false} MessagesAppendInOrder(t: Tables, provider: Provider, e164: Phone.Formatter,
                                                 ms: seq<InboundMessage>, contacts: seq<Contact>, mirror: bool)
    ensures RowsAppended(t.history, AfterMessages(t, provider, e164, ms, contacts, mirror).history, ms)
    decreases |ms|
  {
    if ms != [] {
      var t1 := AfterMessage(t, provider, e164, ms[0], contacts, mirror);
      MessageAppendsOne(t, provider, e164, ms[0], contacts, mirror);
      MessagesAppendInOrder(t1, provider, e164, ms[1..], contacts, mirror);
      RowsAppendedCompose(t.history, t1.history, AfterMessages(t1, provider, e164, ms[1..], contacts, mirror).history, ms);
    }
  }

  /** One inbound message appends one row describing it. */
  lemma MessageAppendsOne(t: Tables, provider: Provider, e164: Phone.Formatter, m: InboundMessage,
                          contacts: seq<Contact>, mirror: bool)
    ensures var h := AfterMessage(t, provider, e164, m, contacts, mirror).history;
            |h| == |t.history| + 1 && h[..|t.history|] == t.history
            && h[|t.history|].messageId == Some(m.id) && h[|t.history|].status == Received
            && h[|t.history|].message == MessageContent(m)
    ensures RowsAppended(t.history, AfterMessage(t, provider, e164, m, contacts, mirror).history, [m])
  {
  }

  /** The same message delivered twice leaves two rows with the same message id. */
  lemma RedeliveryDuplicates(t: Tables, provider: Provider, e164: Phone.Formatter, m: InboundMessage,
                             contacts: seq<Contact>, mirror: bool)
    ensures var h := AfterMessages(t, provider, e164, [m, m], contacts, mirror).history;
            |h| == |t.history| + 2 && h[|h| - 2].messageId == h[|h| - 1].messageId == Some(m.id)
  {
    MessagesAppendInOrder(t, provider, e164, [m, m], contacts, mirror);
  }

  /** Rows are identified by message id and provider. */
  predicate UniqueKeys(h: seq<HistoryRecord>)
  {
    forall i, j | 0 <= i < j < |h| ::
      h[i].messageId.Some? ==> (h[i].messageId, h[i].config) != (h[j].messageId, h[j].config)
  }

  /**
   * A status update touches the addressed row in place (status, date and
   * possibly the conversation id) or appends one row; nothing else changes.
   */
  lemma StatusUpsert(t: Tables, provider: Provider, e164: Phone.Formatter, s: StatusUpdate, contacts: seq<Contact>)
    ensures var h := AfterStatus(t, provider, e164, s, contacts).history;
            match StatusTarget(t.history, s.id, provider.id)
            case Some(i) =>
              |h| == |t.history| && h[i].status == CoerceStatus(s.status) && h[i].sendDate == StampOf(s.timestamp)
              && h[i].messageId == t.history[i].messageId && h[i].message == t.history[i].message
              && (forall j | 0 <= j < |h| && j != i :: h[j] == t.history[j])
            case None =>
              h[..|t.history|] == t.history && |h| == |t.history| + 1
              && h[|t.history|].messageId == Some(s.id) && h[|t.history|].config == Some(provider.id)
              && h[|t.history|].status == CoerceStatus(s.status)
  {
  }

  /** Status updates never create a second row for a message id and provider. */
  lemma {:induction false} StatusesKeepKeysUnique(t: Tables, provider: Provider, e164: Phone.Formatter,
                                                  ss: seq<StatusUpdate>, contacts: seq<Contact>)
    requires UniqueKeys(t.history)
    ensures UniqueKeys(AfterStatuses(t, provider, e164, ss, contacts).history)
    decreases |ss|
  {
    if ss != [] {
      var t1 := AfterStatus(t, provider, e164, ss[0], contacts);
      var h, h1 := t.history, t1.history;
      var target := StatusTarget(h, ss[0].id, provider.id);
      if target.Some? {
        assert forall j | 0 <= j < |h1| :: h1[j].messageId == h[j].messageId && h1[j].config == h[j].config;
        assert UniqueKeys(h1);
      } else {
        var n := |h|;
        assert forall j | 0 <= j < n :: h1[j] == h[j];
        assert forall j | 0 <= j < n :: !(h[j].messageId == Some(ss[0].id) && h[j].config == Some(provider.id));
        assert UniqueKeys(h1);
      }
      StatusesKeepKeysUnique(t1, provider, e164, ss[1..], contacts);
    }
  }

  /** Changes to fields other than `messages` are ignored. */
  lemma {:induction false} OtherFieldsIgnored(t: Tables, provider: Provider, e164: Phone.Formatter, cs: seq<Change>, mirror: bool)
    requires forall k | 0 <= k < |cs| :: cs[k].field != Some("messages")
    ensures AfterChanges(t, provider, e164, cs, mirror) == t
    decreases |cs|
  {
    if cs != [] {
      OtherFieldsIgnored(t, provider, e164, cs[1..], mirror);
    }
  }

  // ---------------------------------------------------------------------
  // The controller, step by step on the database

  method FindOrCreatePartner(db: Db, number: string, contacts: seq<Contact>, e164: Phone.Formatter) returns (id: nat)
    modifies db`partners
    ensures Pick(db.partners, id) == PartnerLookup(old(db.partners), number, contacts, e164)
  {
    var key := Phone.Normalize(number, e164);
    var found := FirstMatch(db.partners, (p: Partner) => PartnerHasNumber(p, key));
    if found.Some? {
      id := found.value;
    } else {
      db.partners := db.partners + [NewContact(number, contacts, e164)];
      id := |db.partners| - 1;
    }
  }

  method GetOrCreateChatChannel(db: Db, provider: Provider, partner: nat, partnerName: string) returns (id: nat)
    modifies db`channels
    ensures Pick(db.channels, id) == ChatChannelLookup(old(db.channels), provider, partner, partnerName)
  {
    var found := FirstMatch(db.channels, (c: Channel) => IsChatWith(c, provider, partner));
    if found.Some? {
      id := found.value;
    } else {
      var created := Channel(Chat, Some(provider.id), {provider.operator.partner, partner},
                             provider.operator.name + " - " + partnerName);
      db.channels := db.channels + [created];
      id := |db.channels| - 1;
    }
  }

  method ReceiveMessage(db: Db, provider: Provider, e164: Phone.Formatter, m: InboundMessage, contacts: seq<Contact>, mirror: bool)
    modifies db
    ensures db.View() == AfterMessage(old(db.View()), provider, e164, m, contacts, mirror)
  {
    var partner := FindOrCreatePartner(db, m.sender, contacts, e164);
    db.history := db.history + [InboundRecord(provider, m, partner)];
    if mirror {
      var channel := GetOrCreateChatChannel(db, provider, partner, db.partners[partner].name);
      var parent := None;
      if Truthy(m.replyTo) {
        parent := ParentMessage(db.mail, m.replyTo.value, channel);
      }
      db.mail := db.mail + [MailMessage(channel, MessageContent(m), Some(partner), Some(m.id), parent, None)];
    }
  }

  method ApplyStatusUpdate(db: Db, provider: Provider, e164: Phone.Formatter, s: StatusUpdate, contacts: seq<Contact>)
    modifies db
    ensures db.View() == AfterStatus(old(db.View()), provider, e164, s, contacts)
  {
    var status := CoerceStatus(s.status);
    var stamp := StampOf(s.timestamp);
    var target := StatusTarget(db.history, s.id, provider.id);
    if target.Some? {
      var i := target.value;
      var row := db.history[i].(status := status, sendDate := stamp);
      if status == Delivered && Truthy(s.conversationId) {
        row := row.(conversationId := s.conversationId);
      }
      db.history := db.history[i := row];
    } else {
      var partner := FindOrCreatePartner(db, s.recipient, contacts, e164);
      var row := Blank(status).(number := Some(s.recipient), partner := Some(partner), config := Some(provider.id),
                                user := Some(provider.operator.user), messageId := Some(s.id), sendDate := stamp);
      if status == Delivered && Truthy(s.conversationId) {
        row := row.(conversationId := s.conversationId);
      }
      db.history := db.history + [row];
    }
  }

  /** The inbound messages of one change, in payload order. */
  method ReceiveMessages(db: Db, provider: Provider, e164: Phone.Formatter, ms: seq<InboundMessage>,
                         contacts: seq<Contact>, mirror: bool)
    modifies db
    ensures db.View() == AfterMessages(old(db.View()), provider, e164, ms, contacts, mirror)
  {
    var i := 0;
    while i < |ms|
      invariant 0 <= i <= |ms|
      invariant AfterMessages(db.View(), provider, e164, ms[i..], contacts, mirror)
                == AfterMessages(old(db.View()), provider, e164, ms, contacts, mirror)
    {
      assert ms[i..][1..] == ms[i + 1..];
      ReceiveMessage(db, provider, e164, ms[i], contacts, mirror);
      i := i + 1;
    }
  }

  /** The status updates of one change, in payload order. */
  method ApplyStatusUpdates(db: Db, provider: Provider, e164: Phone.Formatter, ss: seq<StatusUpdate>,
                            contacts: seq<Contact>)
    modifies db
    ensures db.View() == AfterStatuses(old(db.View()), provider, e164, ss, contacts)
  {
    var j := 0;
    while j < |ss|
      invariant 0 <= j <= |ss|
      invariant AfterStatuses(db.View(), provider, e164, ss[j..], contacts)
                == AfterStatuses(old(db.View()), provider, e164, ss, contacts)
    {
      assert ss[j..][1..] == ss[j + 1..];
      ApplyStatusUpdate(db, provider, e164, ss[j], contacts);
      j := j + 1;
    }
  }

  method ProcessChange(db: Db, provider: Provider, e164: Phone.Formatter, c: Change, mirror: bool)
    modifies db
    ensures db.View() == AfterChange(old(db.View()), provider, e164, c, mirror)
  {
    if c.field != Some("messages") {
      return;
    }
    ReceiveMessages(db, provider, e164, c.value.messages, c.value.contacts, mirror);
    ApplyStatusUpdates(db, provider, e164, c.value.statuses, c.value.contacts);
  }

  /**
   * `_process_whatsapp_notification`, with the `mirror` switch the chatbot
   * overlay would pass (the ingestion as written always mirrors).
   */
  method ProcessNotification(db: Db, provider: Provider, e164: Phone.Formatter, n: Notification, mirror: bool)
    modifies db
    ensures db.View() == AfterEntries(old(db.View()), provider, e164, n.entries, mirror)
  {
    var i := 0;
    while i < |n.entries|
      invariant 0 <= i <= |n.entries|
      invariant AfterEntries(db.View(), provider, e164, n.entries[i..], mirror)
                == AfterEntries(old(db.View()), provider, e164, n.entries, mirror)
    {
      var changes := n.entries[i].changes;
      ghost var before := db.View();
      var k := 0;
      while k < |changes|
        invariant 0 <= k <= |changes|
        invariant AfterChanges(db.View(), provider, e164, changes[k..], mirror)
                  == AfterChanges(before, provider, e164, changes, mirror)
      {
        assert changes[k..][1..] == changes[k + 1..];
        ProcessChange(db, provider, e164, changes[k], mirror);
        k := k + 1;
      }
      assert n.entries[i..][1..] == n.entries[i + 1..];
      i := i + 1;
    }
  }

  // ---------------------------------------------------------------------
  // The POST handler

  /**
   * A request body: nothing, not JSON, a notification the walk raises on
   * after storing the part `done` (the entries, changes, messages and
   * statuses handled before the exception), or a notification it completes.
   */
  datatype EventBody = EmptyBody | NotJson | FailsAfter(done: Notification) | Json(notification: Notification)

  datatype EventFailure = InvalidJson | ProcessingError

  datatype EventReply = ReceivedReply | EventError(reason: EventFailure)

  /**
   * The handler answers `received` exactly for a notification it completes,
   * and never raises. The empty-body branch builds its reply with a `status`
   * keyword the JSON encoder does not take; the `TypeError` lands in the
   * generic handler, so an empty body gets the same error as a failed walk.
   */
  function EventReplyFor(body: EventBody): (r: EventReply)
    ensures r == ReceivedReply <==> body.Json?
    ensures r == EventError(InvalidJson) <==> body == NotJson
    ensures r == EventError(ProcessingError) <==> body == EmptyBody || body.FailsAfter?
  {
    match body
    case EmptyBody => EventError(ProcessingError)
    case NotJson => EventError(InvalidJson)
    case FailsAfter(_) => EventError(ProcessingError)
    case Json(_) => ReceivedReply
  }

  method HandleEventNotification(db: Db, provider: Provider, e164: Phone.Formatter, body: EventBody) returns (reply: EventReply)
    modifies db
    ensures reply == EventReplyFor(body)
    ensures body.Json? ==> db.View() == AfterEntries(old(db.View()), provider, e164, body.notification.entries, true)
    ensures body.FailsAfter? ==> db.View() == AfterEntries(old(db.View()), provider, e164, body.done.entries, true)
    ensures body == EmptyBody || body == NotJson ==> db.View() == old(db.View())
  {
    match body
    case EmptyBody => reply := EventError(ProcessingError);
    case NotJson => reply := EventError(InvalidJson);
    case FailsAfter(done) =>
      // the exception is caught, so what was stored before it is committed
      ProcessNotification(db, provider, e164, done, true);
      reply := EventError(ProcessingError);
    case Json(n) =>
      ProcessNotification(db, provider, e164, n, true);
      reply := ReceivedReply;
  }
}
