/**
 * WhatsApp marketing campaigns: a campaign names a provider, an approved
 * template and its recipients; the user queues it, and a scheduled job
 * sends the template to every recipient, logging only the requests that
 * fail. Two editions of the campaign model exist: the current one, whose
 * recipients may come from a messaging list, and a legacy one that sends
 * to the campaign's contacts by their phone only.
 */
module Campaigns {
  import opened Wrappers
  import opened Text
  import Records
  import Http
  import Phone

  /** `whatsapp.marketing.campaign.state`: draft, in_queue, scheduled ("Sending"), sent. */
  datatype State = Draft | InQueue | Scheduled | Sent

  /** The current campaign model, or the legacy one that only knows contacts with a phone. */
  datatype Edition = Current | Legacy

  /** The model names a campaign or a messaging list selects its recipients by. */
  const ListsModel: string := "whatsapp.messaging.lists"
  const ContactsModel: string := "whatsapp.messaging.lists.contacts"

  /** A messaging-list contact: a name and a WhatsApp number, both required. */
  datatype ListContact = ListContact(name: string, number: string)

  /**
   * A messaging list: the model its recipients come from, its own contacts
   * and the contacts (partner ids) attached to it.
   */
  datatype MessagingList = MessagingList(contactsModel: Option<string>, contacts: seq<ListContact>, partners: seq<nat>)

  /** The template a campaign sends: its id, name, language code and body. */
  datatype TemplateRef = TemplateRef(id: nat, name: string, langCode: string, message: Option<string>)

  /**
   * Why a send stopped: a missing provider or template (in the legacy
   * edition also missing contacts), no recipients, a field the list model
   * does not declare, or a success reply with an empty `messages` list.
   */
  datatype Failure = MissingSetup | NoRecipients | UnknownField | MalformedReply

  /**
   * One campaign record; `notes` are the failure notes posted on it (each
   * reads "Failed to send campaign: " followed by the exception's text).
   */
  datatype Campaign = Campaign(
    name: string,
    state: State,
    scheduledDate: Option<int>,
    config: Option<nat>,
    template: Option<TemplateRef>,
    recipientsModel: Option<string>,
    list: Option<MessagingList>,
    partners: seq<nat>,
    preview: Option<string>,
    notes: seq<Failure>)

  /** Whether recipients come from a selected messaging list. */
  predicate FromList(c: Campaign)
  {
    c.recipientsModel == Some(ListsModel) && c.list.Some?
  }

  /** Every contact id a campaign refers to exists. */
  predicate PartnersExist(c: Campaign, partners: seq<Records.Partner>)
  {
    && (forall j | 0 <= j < |c.partners| :: c.partners[j] < |partners|)
    && (c.list.Some? ==> forall j | 0 <= j < |c.list.value.partners| :: c.list.value.partners[j] < |partners|)
  }

  predicate AllPartnersExist(cs: seq<Campaign>, partners: seq<Records.Partner>)
  {
    forall k | 0 <= k < |cs| :: PartnersExist(cs[k], partners)
  }

  // ---------------------------------------------------------------------
  // Actions

  datatype ActionError = MissingSetupOrRecipients | MissingList

  /**
   * The checks of "Send Now": a provider, a template and contacts are
   * required in both editions; the current edition also wants a list when
   * recipients come from lists.
   */
  function SendNowError(e: Edition, c: Campaign): (r: Option<ActionError>)
    ensures r.None? <==>
      c.config.Some? && c.template.Some? && |c.partners| > 0
      && (e.Current? && c.recipientsModel == Some(ListsModel) ==> c.list.Some?)
    ensures r == Some(MissingList) ==> e.Current? && c.recipientsModel == Some(ListsModel)
  {
    if c.config.None? || c.template.None? || |c.partners| == 0 then Some(MissingSetupOrRecipients)
    else if e.Current? && c.recipientsModel == Some(ListsModel) && c.list.None? then Some(MissingList)
    else None
  }

  // ---------------------------------------------------------------------
  // Recipients

  /** Who a template goes to: the number to use, and the contact to log a failure against. */
  datatype Recipient = Recipient(name: string, number: Option<string>, partner: Option<nat>)

  /** A contact as a recipient: phone or else mobile (phone only in the legacy edition). */
  function PartnerRecipient(e: Edition, partners: seq<Records.Partner>, id: nat): (r: Recipient)
    requires id < |partners|
    ensures r.partner == Some(id) && r.name == partners[id].name
    ensures Truthy(partners[id].phone) ==> r.number == partners[id].phone
    ensures e.Legacy? ==> r.number == partners[id].phone
    ensures e.Current? && !Truthy(partners[id].phone) ==> r.number == partners[id].mobile
  {
    var p := partners[id];
    Recipient(p.name, if e.Legacy? || Truthy(p.phone) then p.phone else p.mobile, Some(id))
  }

  function PartnerRecipients(e: Edition, partners: seq<Records.Partner>, ids: seq<nat>): (r: seq<Recipient>)
    requires forall j | 0 <= j < |ids| :: ids[j] < |partners|
    ensures |r| == |ids|
    ensures forall j | 0 <= j < |ids| :: r[j] == PartnerRecipient(e, partners, ids[j])
  {
    if ids == [] then [] else [PartnerRecipient(e, partners, ids[0])] + PartnerRecipients(e, partners, ids[1..])
  }

  /** A list contact as a recipient: its number, and the first contact whose phone is that number. */
  function ContactRecipient(partners: seq<Records.Partner>, lc: ListContact): (r: Recipient)
    ensures r.number == Some(lc.number) && r.name == lc.name
    ensures r.partner.Some? ==> r.partner.value < |partners| && partners[r.partner.value].phone == Some(lc.number)
    ensures r.partner.None? ==> forall j | 0 <= j < |partners| :: partners[j].phone != Some(lc.number)
  {
    Recipient(lc.name, Some(lc.number), Records.FirstMatch(partners, (p: Records.Partner) => p.phone == Some(lc.number)))
  }

  function ContactRecipients(partners: seq<Records.Partner>, lcs: seq<ListContact>): (r: seq<Recipient>)
    ensures |r| == |lcs|
    ensures forall j | 0 <= j < |lcs| :: r[j] == ContactRecipient(partners, lcs[j])
  {
    if lcs == [] then [] else [ContactRecipient(partners, lcs[0])] + ContactRecipients(partners, lcs[1..])
  }

  /**
   * The recipients of a send: a selected list's own contacts when the list
   * takes its recipients from the contacts model, otherwise the list's
   * contacts; without a list (and always in the legacy edition), the
   * campaign's contacts.
   */
  function Recipients(e: Edition, c: Campaign, partners: seq<Records.Partner>): (r: seq<Recipient>)
    requires PartnersExist(c, partners)
    ensures e.Current? && FromList(c) && c.list.value.contactsModel == Some(ContactsModel) ==>
      r == ContactRecipients(partners, c.list.value.contacts)
    ensures e.Current? && FromList(c) && c.list.value.contactsModel != Some(ContactsModel) ==>
      r == PartnerRecipients(e, partners, c.list.value.partners)
    ensures e.Legacy? || !FromList(c) ==> r == PartnerRecipients(e, partners, c.partners)
  {
    if e.Current? && FromList(c) then
      if c.list.value.contactsModel == Some(ContactsModel) then ContactRecipients(partners, c.list.value.contacts)
      else PartnerRecipients(e, partners, c.list.value.partners)
    else PartnerRecipients(e, partners, c.partners)
  }

  /**
   * The recipient selection of the current edition as written: it reads a
   * `recipients_model_id` field on the messaging list, which that model does
   * not declare, so every list campaign raises before sending.
   */
  function RecipientsAsWritten(c: Campaign, partners: seq<Records.Partner>): (r: Result<seq<Recipient>, Failure>)
    requires PartnersExist(c, partners)
    ensures r.Err? <==> FromList(c)
    ensures r.Ok? ==> r.value == Recipients(Current, c, partners)
  {
    if FromList(c) then Err(UnknownField) else Ok(PartnerRecipients(Current, partners, c.partners))
  }

  // ---------------------------------------------------------------------
  // Sending

  /** One template request: the number (without a leading '+'), the template name and its language. */
  datatype Request = Request(to: string, template: string, lang: string)

  /** A number as the API wants it: one leading '+' removed. */
  function Dialled(number: string): (r: string)
    ensures number != [] && number[0] == '+' ==> number == "+" + r
    ensures number == [] || number[0] != '+' ==> r == number
  {
    if number != [] && number[0] == '+' then number[1..] else number
  }

  /** A campaign can send once it has a provider and a template. */
  predicate Ready(c: Campaign)
  {
    c.config.Some? && c.template.Some?
  }

  function RequestFor(c: Campaign, number: string): Request
    requires Ready(c)
  {
    Request(Dialled(number), c.template.value.name, ReplaceChar(c.template.value.langCode, '-', '_'))
  }

  /** The numbers of the recipients that have one, in recipient order. */
  function Numbers(rs: seq<Recipient>): (ns: seq<string>)
    ensures |ns| <= |rs|
  {
    if rs == [] then []
    else if Truthy(rs[0].number) then [rs[0].number.value] + Numbers(rs[1..])
    else Numbers(rs[1..])
  }

  /** Every number dialled is the number of some recipient. */
  lemma {:induction false} NumbersComeFromRecipients(rs: seq<Recipient>)
    ensures forall k | 0 <= k < |Numbers(rs)| :: exists j | 0 <= j < |rs| :: Truthy(rs[j].number) && rs[j].number.value == Numbers(rs)[k]
  {
    if rs != [] {
      var tail := rs[1..];
      NumbersComeFromRecipients(tail);
      var off := if Truthy(rs[0].number) then 1 else 0;
      assert Numbers(rs) == (if Truthy(rs[0].number) then [rs[0].number.value] else []) + Numbers(tail);
      forall k | 0 <= k < |Numbers(rs)|
        ensures exists j | 0 <= j < |rs| :: Truthy(rs[j].number) && rs[j].number.value == Numbers(rs)[k]
      {
        if k < off {
          assert Truthy(rs[0].number) && rs[0].number.value == Numbers(rs)[k];
        } else {
          assert Numbers(rs)[k] == Numbers(tail)[k - off];
          var i :| 0 <= i < |tail| && Truthy(tail[i].number) && tail[i].number.value == Numbers(tail)[k - off];
          assert rs[i + 1] == tail[i];
        }
      }
    } else {
      assert Numbers(rs) == [];
    }
  }

  /** Every recipient's number is dialled, and with all numbers present there is one per recipient. */
  lemma {:induction false} NumbersKeepRecipients(rs: seq<Recipient>)
    ensures forall j | 0 <= j < |rs| && Truthy(rs[j].number) :: rs[j].number.value in Numbers(rs)
    ensures (forall j | 0 <= j < |rs| :: Truthy(rs[j].number)) ==> |Numbers(rs)| == |rs|
  {
    if rs != [] {
      var tail := rs[1..];
      NumbersKeepRecipients(tail);
      assert Numbers(rs) == (if Truthy(rs[0].number) then [rs[0].number.value] else []) + Numbers(tail);
      forall j | 0 <= j < |rs| && Truthy(rs[j].number)
        ensures rs[j].number.value in Numbers(rs)
      {
        if j == 0 {
          assert Numbers(rs)[0] == rs[0].number.value;
        } else {
          assert rs[j] == tail[j - 1];
        }
      }
      if forall j | 0 <= j < |rs| :: Truthy(rs[j].number) {
        assert Truthy(rs[0].number);
        forall j | 0 <= j < |tail| ensures Truthy(tail[j].number) { assert tail[j] == rs[j + 1]; }
      }
    }
  }

  /** The requests a full pass makes: one per recipient with a number, in order. */
  function Requests(c: Campaign, rs: seq<Recipient>): (r: seq<Request>)
    requires Ready(c)
    ensures |r| <= |rs|
  {
    if rs == [] then []
    else if Truthy(rs[0].number) then [RequestFor(c, rs[0].number.value)] + Requests(c, rs[1..])
    else Requests(c, rs[1..])
  }

  /** A request per recipient when all have a number; none when none has. */
  lemma {:induction false} RequestsPerRecipient(c: Campaign, rs: seq<Recipient>)
    requires Ready(c)
    ensures (forall j | 0 <= j < |rs| :: Truthy(rs[j].number)) ==> |Requests(c, rs)| == |rs|
    ensures (forall j | 0 <= j < |rs| :: !Truthy(rs[j].number)) ==> Requests(c, rs) == []
  {
    if rs != [] {
      RequestsPerRecipient(c, rs[1..]);
      assert forall j | 1 <= j < |rs| :: rs[1..][j - 1] == rs[j];
    }
  }

  /** A full pass makes one request per number of `Numbers`, in the same order, for that number. */
  lemma {:induction false} RequestsFollowNumbers(c: Campaign, rs: seq<Recipient>)
    requires Ready(c)
    ensures |Requests(c, rs)| == |Numbers(rs)|
    ensures forall k | 0 <= k < |Requests(c, rs)| :: Requests(c, rs)[k] == RequestFor(c, Numbers(rs)[k])
  {
    if rs != [] {
      RequestsFollowNumbers(c, rs[1..]);
      if Truthy(rs[0].number) {
        var h := rs[0].number.value;
        assert Requests(c, rs) == [RequestFor(c, h)] + Requests(c, rs[1..]);
        assert Numbers(rs) == [h] + Numbers(rs[1..]);
      }
    }
  }

  /**
   * The client raises a request exception: no response, an error status,
   * or a body that is not JSON (the client's JSON error is a request
   * exception).
   */
  predicate RequestFails(reply: Http.Reply)
  {
    reply.NoResponse? || Http.StatusRaises(reply) || reply.body.None?
  }

  /** A JSON reply whose `messages` list is present but empty fails on its first element. */
  predicate EmptyMessages(reply: Http.Reply)
  {
    reply.Response? && reply.body.Some? && reply.body.value.messageIds == Some([])
  }

  /** The failed history row logged for a request that raised. */
  function FailedRow(c: Campaign, id: nat, user: nat, r: Recipient, to: string, reply: Http.Reply): Records.HistoryRecord
    requires Ready(c)
  {
    Records.Blank(Records.Failed).(
      campaign := Some(id), partner := r.partner, number := Some(to), user := Some(user),
      message := c.preview, config := c.config, template := Some(c.template.value.id), error := Some(reply))
  }

  /** A history row is a logged failure of campaign `id`. */
  predicate LoggedFailure(row: Records.HistoryRecord, c: Campaign, id: nat, user: nat)
    requires Ready(c)
  {
    && row.status == Records.Failed && row.campaign == Some(id) && row.user == Some(user)
    && row.config == c.config && row.template == Some(c.template.value.id) && row.message == c.preview
    && row.error.Some? && RequestFails(row.error.value)
  }

  /** A send in progress: the rows it logged, every request of the run so far, and what stopped it. */
  datatype Sending = Sending(rows: seq<Records.HistoryRecord>, requests: seq<Request>, failure: Option<Failure>)

  /** One recipient: skipped without a number, else one request; a raised request logs a failed row. */
  function SendTo(c: Campaign, id: nat, user: nat, r: Recipient, replies: seq<Http.Reply>, s: Sending): (n: Sending)
    requires Ready(c)
  {
    if !Truthy(r.number) then s
    else
      var req := RequestFor(c, r.number.value);
      var reply := Http.Nth(replies, |s.requests|);
      var s1 := s.(requests := s.requests + [req]);
      if RequestFails(reply) then s1.(rows := s1.rows + [FailedRow(c, id, user, r, req.to, reply)])
      else if EmptyMessages(reply) then s1.(failure := Some(MalformedReply))
      else s1
  }

  /** The per-recipient loop from the current recipient on; an error other than a request exception ends it. */
  function SendFrom(c: Campaign, id: nat, user: nat, rs: seq<Recipient>, replies: seq<Http.Reply>, s: Sending): Sending
    requires Ready(c) && s.failure.None?
    decreases |rs|
  {
    if rs == [] then s
    else
      var n := SendTo(c, id, user, rs[0], replies, s);
      if n.failure.Some? then n else SendFrom(c, id, user, rs[1..], replies, n)
  }

  /**
   * The loop only appends: every row it adds is a logged failure, it adds
   * at most one row per request, a complete pass makes exactly the requests
   * of `Requests`, and a pass cut short made the request that ended it.
   */
  lemma {:induction false} SendFromLogsFailures(c: Campaign, id: nat, user: nat, rs: seq<Recipient>,
                                                replies: seq<Http.Reply>, s: Sending)
    requires Ready(c) && s.failure.None?
    ensures var r := SendFrom(c, id, user, rs, replies, s);
      && s.rows <= r.rows && s.requests <= r.requests
      && (forall j | |s.rows| <= j < |r.rows| :: LoggedFailure(r.rows[j], c, id, user))
      && |r.rows| - |s.rows| <= |r.requests| - |s.requests|
      && (r.failure.None? ==> r.requests == s.requests + Requests(c, rs))
      && (r.failure.Some? ==> r.failure == Some(MalformedReply) && |s.requests| < |r.requests|)
    decreases |rs|
  {
    SendFromAppends(c, id, user, rs, replies, s);
    SendFromLogsOnlyFailures(c, id, user, rs, replies, s);
    SendFromRequests(c, id, user, rs, replies, s);
  }

  /** The loop extends the rows and the requests, with at most one row per request. */
  lemma {:induction false} SendFromAppends(c: Campaign, id: nat, user: nat, rs: seq<Recipient>,
                                           replies: seq<Http.Reply>, s: Sending)
    requires Ready(c) && s.failure.None?
    ensures var r := SendFrom(c, id, user, rs, replies, s);
      && s.rows <= r.rows && s.requests <= r.requests
      && |r.rows| - |s.rows| <= |r.requests| - |s.requests|
    decreases |rs|
  {
    if rs != [] {
      var n := SendTo(c, id, user, rs[0], replies, s);
      SendToStep(c, id, user, rs[0], replies, s);
      if n.failure.None? {
        SendFromAppends(c, id, user, rs[1..], replies, n);
        var r := SendFrom(c, id, user, rs[1..], replies, n);
        assert s.rows <= n.rows <= r.rows;
        assert s.requests <= n.requests <= r.requests;
      }
    }
  }

  /** Every row the loop adds is a logged failure. */
  lemma {:induction false} SendFromLogsOnlyFailures(c: Campaign, id: nat, user: nat, rs: seq<Recipient>,
                                                    replies: seq<Http.Reply>, s: Sending)
    requires Ready(c) && s.failure.None?
    ensures var r := SendFrom(c, id, user, rs, replies, s);
      forall j | |s.rows| <= j < |r.rows| :: LoggedFailure(r.rows[j], c, id, user)
    decreases |rs|
  {
    if rs != [] {
      var n := SendTo(c, id, user, rs[0], replies, s);
      SendToStep(c, id, user, rs[0], replies, s);
      if n.failure.None? {
        SendFromLogsOnlyFailures(c, id, user, rs[1..], replies, n);
        SendFromAppends(c, id, user, rs[1..], replies, n);
        var r := SendFrom(c, id, user, rs[1..], replies, n);
        forall j | |s.rows| <= j < |r.rows| ensures LoggedFailure(r.rows[j], c, id, user) {
          if j < |n.rows| { assert r.rows[j] == n.rows[j]; }
        }
      }
    }
  }

  /** A complete pass makes the requests of `Requests`; a pass cut short made the request that ended it. */
  lemma {:induction false} SendFromRequests(c: Campaign, id: nat, user: nat, rs: seq<Recipient>,
                                            replies: seq<Http.Reply>, s: Sending)
    requires Ready(c) && s.failure.None?
    ensures var r := SendFrom(c, id, user, rs, replies, s);
      && (r.failure.None? ==> r.requests == s.requests + Requests(c, rs))
      && (r.failure.Some? ==> r.failure == Some(MalformedReply) && |s.requests| < |r.requests|)
    decreases |rs|
  {
    if rs != [] {
      var n := SendTo(c, id, user, rs[0], replies, s);
      SendToStep(c, id, user, rs[0], replies, s);
      RequestsStep(c, rs);
      var r := SendFrom(c, id, user, rs, replies, s);
      if n.failure.None? {
        SendFromRequests(c, id, user, rs[1..], replies, n);
        assert r == SendFrom(c, id, user, rs[1..], replies, n);
        if r.failure.None? {
          var own := if Truthy(rs[0].number) then [RequestFor(c, rs[0].number.value)] else [];
          calc {
            r.requests;
            n.requests + Requests(c, rs[1..]);
            (s.requests + own) + Requests(c, rs[1..]);
            s.requests + (own + Requests(c, rs[1..]));
            s.requests + Requests(c, rs);
          }
        }
      } else {
        assert r == n;
      }
    }
  }

  /** One recipient adds its request, if it has a number, and at most one logged failure. */
  lemma SendToStep(c: Campaign, id: nat, user: nat, r: Recipient, replies: seq<Http.Reply>, s: Sending)
    requires Ready(c) && s.failure.None?
    ensures var n := SendTo(c, id, user, r, replies, s);
      && n.requests == s.requests + (if Truthy(r.number) then [RequestFor(c, r.number.value)] else [])
      && s.rows <= n.rows && |n.rows| <= |s.rows| + 1
      && (|n.rows| == |s.rows| + 1 ==> Truthy(r.number) && LoggedFailure(n.rows[|s.rows|], c, id, user))
      && (n.failure.Some? ==> n.failure == Some(MalformedReply) && Truthy(r.number))
      && (Truthy(r.number) && RequestFails(Http.Nth(replies, |s.requests|)) ==>
            n.rows == s.rows + [FailedRow(c, id, user, r, Dialled(r.number.value), Http.Nth(replies, |s.requests|))])
      && (!Truthy(r.number) || !RequestFails(Http.Nth(replies, |s.requests|)) ==> n.rows == s.rows)
  {
  }

  /** How many of the `n` replies from position `k` on make the client raise. */
  function FailingReplies(replies: seq<Http.Reply>, k: nat, n: nat): (r: nat)
    ensures r <= n
    decreases n
  {
    if n == 0 then 0
    else (if RequestFails(Http.Nth(replies, k)) then 1 else 0) + FailingReplies(replies, k + 1, n - 1)
  }

  /**
   * The rows a pass over `rs` logs when its requests are answered from
   * reply `k` on: one failed row per request that raised, in request order,
   * naming that recipient's contact and the number dialled.
   */
  function FailureLog(c: Campaign, id: nat, user: nat, rs: seq<Recipient>, replies: seq<Http.Reply>, k: nat)
    : (rows: seq<Records.HistoryRecord>)
    requires Ready(c)
    ensures |rows| == FailingReplies(replies, k, |Numbers(rs)|)
    ensures forall j | 0 <= j < |rows| :: LoggedFailure(rows[j], c, id, user)
    decreases |rs|
  {
    if rs == [] then []
    else if !Truthy(rs[0].number) then
      assert Numbers(rs) == Numbers(rs[1..]);
      FailureLog(c, id, user, rs[1..], replies, k)
    else
      var reply := Http.Nth(replies, k);
      assert Numbers(rs) == [rs[0].number.value] + Numbers(rs[1..]);
      (if RequestFails(reply) then [FailedRow(c, id, user, rs[0], Dialled(rs[0].number.value), reply)] else [])
      + FailureLog(c, id, user, rs[1..], replies, k + 1)
  }

  /** A logged row names a recipient with a number: its contact and the number dialled. */
  predicate NamesRecipient(row: Records.HistoryRecord, r: Recipient)
  {
    Truthy(r.number) && row.partner == r.partner && row.number == Some(Dialled(r.number.value))
  }

  /** Every row names one of the recipients `rs`. */
  predicate AllNamed(rows: seq<Records.HistoryRecord>, rs: seq<Recipient>)
  {
    forall j | 0 <= j < |rows| :: NamedIn(rows[j], rs)
  }

  /** The row names one of the recipients `rs`. */
  predicate NamedIn(row: Records.HistoryRecord, rs: seq<Recipient>)
  {
    exists i | 0 <= i < |rs| :: NamesRecipient(row, rs[i])
  }

  lemma NamedExtend(head: seq<Records.HistoryRecord>, rest: seq<Records.HistoryRecord>, rs: seq<Recipient>)
    requires rs != [] && AllNamed(rest, rs[1..])
    requires forall j | 0 <= j < |head| :: NamesRecipient(head[j], rs[0])
    ensures AllNamed(head + rest, rs)
  {
    var rows := head + rest;
    forall j | 0 <= j < |rows| ensures NamedIn(rows[j], rs) {
      if j < |head| {
        assert rows[j] == head[j];
        assert NamesRecipient(rows[j], rs[0]);
      } else {
        assert rows[j] == rest[j - |head|];
        var i :| 0 <= i < |rs[1..]| && NamesRecipient(rest[j - |head|], rs[1..][i]);
        assert NamesRecipient(rows[j], rs[i + 1]);
      }
    }
  }

  /** Each row of `FailureLog` names one of the recipients. */
  lemma {:induction false} FailureLogNamesRecipients(c: Campaign, id: nat, user: nat, rs: seq<Recipient>,
                                                     replies: seq<Http.Reply>, k: nat)
    requires Ready(c)
    ensures AllNamed(FailureLog(c, id, user, rs, replies, k), rs)
    decreases |rs|
  {
    if rs != [] {
      var k1 := if Truthy(rs[0].number) then k + 1 else k;
      FailureLogNamesRecipients(c, id, user, rs[1..], replies, k1);
      var rest := FailureLog(c, id, user, rs[1..], replies, k1);
      if Truthy(rs[0].number) && RequestFails(Http.Nth(replies, k)) {
        var head := [FailedRow(c, id, user, rs[0], Dialled(rs[0].number.value), Http.Nth(replies, k))];
        assert FailureLog(c, id, user, rs, replies, k) == head + rest;
        NamedExtend(head, rest, rs);
      } else {
        assert FailureLog(c, id, user, rs, replies, k) == [] + rest;
        NamedExtend([], rest, rs);
      }
    }
  }

  /** `FailureLog` unfolded once: the first recipient's row, if any, then the rest from the next reply. */
  lemma FailureLogStep(c: Campaign, id: nat, user: nat, rs: seq<Recipient>, replies: seq<Http.Reply>, k: nat)
    requires Ready(c) && rs != []
    ensures FailureLog(c, id, user, rs, replies, k)
      == FailureLog(c, id, user, rs[..1], replies, k)
         + FailureLog(c, id, user, rs[1..], replies, if Truthy(rs[0].number) then k + 1 else k)
  {
    assert rs[..1][1..] == [];
  }

  /** One recipient's step logs exactly its part of `FailureLog`. */
  lemma SendToLogsItsFailure(c: Campaign, id: nat, user: nat, r: Recipient, replies: seq<Http.Reply>, s: Sending)
    requires Ready(c) && s.failure.None?
    ensures SendTo(c, id, user, r, replies, s).rows == s.rows + FailureLog(c, id, user, [r], replies, |s.requests|)
  {
    SendToStep(c, id, user, r, replies, s);
    assert [r][1..] == [];
  }

  /** Every request that raised logs its failed row: a complete pass logs exactly `FailureLog`. */
  lemma {:induction false} SendFromLogsEachFailure(c: Campaign, id: nat, user: nat, rs: seq<Recipient>,
                                                   replies: seq<Http.Reply>, s: Sending)
    requires Ready(c) && s.failure.None?
    ensures var r := SendFrom(c, id, user, rs, replies, s);
      r.failure.None? ==> r.rows == s.rows + FailureLog(c, id, user, rs, replies, |s.requests|)
    decreases |rs|
  {
    if rs != [] {
      var n := SendTo(c, id, user, rs[0], replies, s);
      SendToStep(c, id, user, rs[0], replies, s);
      SendToLogsItsFailure(c, id, user, rs[0], replies, s);
      var own := FailureLog(c, id, user, rs[..1], replies, |s.requests|);
      assert [rs[0]] == rs[..1];
      assert |n.requests| == if Truthy(rs[0].number) then |s.requests| + 1 else |s.requests|;
      assert n.rows == s.rows + own;
      if n.failure.None? {
        SendFromLogsEachFailure(c, id, user, rs[1..], replies, n);
        var r := SendFrom(c, id, user, rs[1..], replies, n);
        assert SendFrom(c, id, user, rs, replies, s) == r;
        if r.failure.None? {
          var tail := FailureLog(c, id, user, rs[1..], replies, |n.requests|);
          FailureLogStep(c, id, user, rs, replies, |s.requests|);
          AppendAfter(s.rows, own, n.rows, tail);
        }
      }
    }
  }

  /**
   * A pass cut short logs `FailureLog` of the recipients it reached, up to
   * and including the one whose reply ended it.
   */
  lemma {:induction false} SendFromLogsUpToFailure(c: Campaign, id: nat, user: nat, rs: seq<Recipient>,
                                                   replies: seq<Http.Reply>, s: Sending)
    requires Ready(c) && s.failure.None?
    ensures var r := SendFrom(c, id, user, rs, replies, s);
      r.failure.Some? ==> exists m | 0 < m <= |rs| :: r.rows == s.rows + FailureLog(c, id, user, rs[..m], replies, |s.requests|)
    decreases |rs|
  {
    if rs != [] {
      var n := SendTo(c, id, user, rs[0], replies, s);
      SendToStep(c, id, user, rs[0], replies, s);
      SendToLogsItsFailure(c, id, user, rs[0], replies, s);
      var own := FailureLog(c, id, user, rs[..1], replies, |s.requests|);
      assert [rs[0]] == rs[..1];
      assert |n.requests| == if Truthy(rs[0].number) then |s.requests| + 1 else |s.requests|;
      assert n.rows == s.rows + own;
      if n.failure.None? {
        SendFromLogsUpToFailure(c, id, user, rs[1..], replies, n);
        var r := SendFrom(c, id, user, rs[1..], replies, n);
        assert SendFrom(c, id, user, rs, replies, s) == r;
        if r.failure.Some? {
          var m :| 0 < m <= |rs[1..]| && r.rows == n.rows + FailureLog(c, id, user, rs[1..][..m], replies, |n.requests|);
          var tail := FailureLog(c, id, user, rs[1..][..m], replies, |n.requests|);
          var p := rs[..m + 1];
          FailureLogStep(c, id, user, p, replies, |s.requests|);
          assert p[..1] == rs[..1] && p[1..] == rs[1..][..m] && p[0] == rs[0];
          AppendAfter(s.rows, own, n.rows, tail);
          assert own + tail == FailureLog(c, id, user, p, replies, |s.requests|);
        }
      } else {
        assert SendFrom(c, id, user, rs, replies, s) == n;
        assert n.rows == s.rows + FailureLog(c, id, user, rs[..1], replies, |s.requests|);
      }
    }
  }

  /** Appending to an extended log is appending the two parts. */
  lemma AppendAfter(rows: seq<Records.HistoryRecord>, own: seq<Records.HistoryRecord>,
                    extended: seq<Records.HistoryRecord>, tail: seq<Records.HistoryRecord>)
    requires extended == rows + own
    ensures extended + tail == rows + (own + tail)
  {
  }

  /** `Requests` unfolded once. */
  lemma RequestsStep(c: Campaign, rs: seq<Recipient>)
    requires Ready(c) && rs != []
    ensures Requests(c, rs) == (if Truthy(rs[0].number) then [RequestFor(c, rs[0].number.value)] else []) + Requests(c, rs[1..])
  {
  }

  /** `_send_campaign_messages`: the checks, then the loop over the recipients. */
  function SendCampaign(e: Edition, c: Campaign, id: nat, user: nat, partners: seq<Records.Partner>,
                        replies: seq<Http.Reply>, sent: seq<Request>): (r: Sending)
    requires PartnersExist(c, partners)
    ensures !Ready(c) || (e.Legacy? && |c.partners| == 0) ==> r == Sending([], sent, Some(MissingSetup))
    ensures r.failure == Some(NoRecipients) <==> Ready(c) && e.Current? && Recipients(e, c, partners) == []
  {
    if !Ready(c) || (e.Legacy? && |c.partners| == 0) then Sending([], sent, Some(MissingSetup))
    else
      var rs := Recipients(e, c, partners);
      if rs == [] then Sending([], sent, Some(NoRecipients))
      else
        SendFromLogsFailures(c, id, user, rs, replies, Sending([], sent, None));
        SendFrom(c, id, user, rs, replies, Sending([], sent, None))
  }

  /** A send logs only failures of this campaign and only adds requests. */
  lemma SendCampaignLogsFailures(e: Edition, c: Campaign, id: nat, user: nat, partners: seq<Records.Partner>,
                                 replies: seq<Http.Reply>, sent: seq<Request>)
    requires PartnersExist(c, partners)
    ensures var r := SendCampaign(e, c, id, user, partners, replies, sent);
      && (forall j | 0 <= j < |r.rows| :: Ready(c) && LoggedFailure(r.rows[j], c, id, user))
      && sent <= r.requests && |r.rows| <= |r.requests| - |sent|
  {
    if Ready(c) && !(e.Legacy? && |c.partners| == 0) && Recipients(e, c, partners) != [] {
      SendFromLogsFailures(c, id, user, Recipients(e, c, partners), replies, Sending([], sent, None));
    }
  }

  /**
   * A send logs a failed row for exactly the requests that raised, in
   * recipient order: all of them when it completes, and those up to the
   * recipient that ended it when a reply is malformed.
   */
  lemma SendCampaignLogsEachFailure(e: Edition, c: Campaign, id: nat, user: nat, partners: seq<Records.Partner>,
                                    replies: seq<Http.Reply>, sent: seq<Request>)
    requires PartnersExist(c, partners)
    ensures var r := SendCampaign(e, c, id, user, partners, replies, sent);
      var rs := Recipients(e, c, partners);
      && (r.failure.None? ==> Ready(c) && r.rows == FailureLog(c, id, user, rs, replies, |sent|))
      && (r.failure == Some(MalformedReply) ==>
            Ready(c) && exists m | 0 < m <= |rs| :: r.rows == FailureLog(c, id, user, rs[..m], replies, |sent|))
  {
    if Ready(c) && !(e.Legacy? && |c.partners| == 0) && Recipients(e, c, partners) != [] {
      SendFromLogsEachFailure(c, id, user, Recipients(e, c, partners), replies, Sending([], sent, None));
      SendFromLogsUpToFailure(c, id, user, Recipients(e, c, partners), replies, Sending([], sent, None));
    }
  }

  /** A run in which every request is answered with an accepted reply logs nothing and completes. */
  lemma {:induction false} AcceptedRunLogsNothing(c: Campaign, id: nat, user: nat, rs: seq<Recipient>,
                                                  replies: seq<Http.Reply>, s: Sending)
    requires Ready(c) && s.failure.None?
    requires forall k | |s.requests| <= k < |s.requests| + |rs| :: Http.Accepted(Http.Nth(replies, k))
    ensures SendFrom(c, id, user, rs, replies, s).rows == s.rows
    ensures SendFrom(c, id, user, rs, replies, s).failure.None?
    decreases |rs|
  {
    if rs != [] {
      var n := SendTo(c, id, user, rs[0], replies, s);
      assert n.rows == s.rows && n.failure.None? && |n.requests| <= |s.requests| + 1;
      AcceptedRunLogsNothing(c, id, user, rs[1..], replies, n);
    }
  }

  /** A run in which no request gets a response logs one failed row per recipient with a number. */
  lemma {:induction false} UnansweredRunLogsEach(c: Campaign, id: nat, user: nat, rs: seq<Recipient>,
                                                 replies: seq<Http.Reply>, s: Sending)
    requires Ready(c) && s.failure.None?
    requires forall k | |s.requests| <= k :: Http.Nth(replies, k).NoResponse?
    ensures SendFrom(c, id, user, rs, replies, s).failure.None?
    ensures |SendFrom(c, id, user, rs, replies, s).rows| - |s.rows| == |Requests(c, rs)|
    decreases |rs|
  {
    if rs != [] {
      var n := SendTo(c, id, user, rs[0], replies, s);
      UnansweredRunLogsEach(c, id, user, rs[1..], replies, n);
    }
  }

  /**
   * As written, a campaign sending to a list's own contacts never makes a
   * request: it stops on the undeclared list field. The corrected selection
   * sends to the first contact.
   */
  lemma ListCampaignSendsNothingAsWritten(c: Campaign, partners: seq<Records.Partner>)
    requires PartnersExist(c, partners) && Ready(c) && FromList(c)
    requires c.list.value.contactsModel == Some(ContactsModel) && |c.list.value.contacts| > 0
    requires c.list.value.contacts[0].number != ""
    ensures RecipientsAsWritten(c, partners) == Err(UnknownField)
    ensures forall id: nat, user: nat, replies: seq<Http.Reply> ::
      SendCampaign(Current, c, id, user, partners, replies, []).requests != []
  {
    var rs := Recipients(Current, c, partners);
    assert rs[0].number == Some(c.list.value.contacts[0].number);
    forall id: nat, user: nat, replies: seq<Http.Reply>
      ensures SendCampaign(Current, c, id, user, partners, replies, []).requests != []
    {
      SendFromLogsFailures(c, id, user, rs, replies, Sending([], [], None));
      assert Requests(c, rs) == [RequestFor(c, rs[0].number.value)] + Requests(c, rs[1..]);
    }
  }

  // ---------------------------------------------------------------------
  // The scheduled job

  /**
   * The job on one campaign: only a queued campaign is sent; success marks
   * it sent, a failure sends it back to draft with a note; the schedule is
   * cleared either way. Logged rows stay: the job catches the exception.
   */
  function CronStep(e: Edition, c: Campaign, id: nat, user: nat, t: Records.Tables,
                    replies: seq<Http.Reply>, sent: seq<Request>): (r: (Campaign, Records.Tables, seq<Request>))
    requires PartnersExist(c, t.partners)
    ensures c.state != InQueue ==> r == (c, t, sent)
    ensures CronOutcome(c, r.0)
    ensures r.1 == t.(history := r.1.history) && t.history <= r.1.history
    ensures sent <= r.2
    ensures c.state == InQueue ==>
              var s := SendCampaign(e, c, id, user, t.partners, replies, sent);
              && (r.0.state == Sent <==> s.failure.None?)
              && (s.failure.Some? ==> r.0.notes == c.notes + [s.failure.value])
              && r.1.history == t.history + s.rows && r.2 == s.requests
  {
    if c.state != InQueue then (c, t, sent)
    else
      SendCampaignLogsFailures(e, c, id, user, t.partners, replies, sent);
      var s := SendCampaign(e, c, id, user, t.partners, replies, sent);
      var t1 := t.(history := t.history + s.rows);
      match s.failure
      case None => (c.(state := Sent, scheduledDate := None), t1, s.requests)
      case Some(f) => (c.(state := Draft, scheduledDate := None, notes := c.notes + [f]), t1, s.requests)
  }

  /** The job's state: the campaign table, the database and the requests made. */
  datatype Run = Run(campaigns: seq<Campaign>, t: Records.Tables, requests: seq<Request>)

  /** The job from campaign `i` on, in id order. */
  function CronFrom(e: Edition, run: Run, i: nat, user: nat, replies: seq<Http.Reply>): (r: Run)
    requires i <= |run.campaigns| && AllPartnersExist(run.campaigns, run.t.partners)
    ensures |r.campaigns| == |run.campaigns| && r.t.partners == run.t.partners
    decreases |run.campaigns| - i
  {
    if i == |run.campaigns| then run
    else
      var (c, t, sent) := CronStep(e, run.campaigns[i], i, user, run.t, replies, run.requests);
      CronFrom(e, Run(run.campaigns[i := c], t, sent), i + 1, user, replies)
  }

  /** Replacing a campaign by one with the same contacts and list keeps every campaign's contacts in the table. */
  lemma ReplacedKeepsPartners(cs: seq<Campaign>, i: nat, c: Campaign, partners: seq<Records.Partner>)
    requires i < |cs| && AllPartnersExist(cs, partners)
    requires c.partners == cs[i].partners && c.list == cs[i].list
    ensures AllPartnersExist(cs[i := c], partners)
  {
    var cs1 := cs[i := c];
    forall k | 0 <= k < |cs1| ensures PartnersExist(cs1[k], partners) {
      assert PartnersExist(cs[k], partners);
    }
  }

  /** The job's state when it reaches campaign `k`, having started at campaign `i`. */
  function CronUpTo(e: Edition, run: Run, i: nat, k: nat, user: nat, replies: seq<Http.Reply>): (r: Run)
    requires i <= k <= |run.campaigns| && AllPartnersExist(run.campaigns, run.t.partners)
    ensures |r.campaigns| == |run.campaigns| && r.t.partners == run.t.partners
    ensures AllPartnersExist(r.campaigns, r.t.partners)
    ensures forall j | k <= j < |run.campaigns| :: r.campaigns[j] == run.campaigns[j]
    decreases k - i
  {
    if i == k then run
    else
      var (c, t, sent) := CronStep(e, run.campaigns[i], i, user, run.t, replies, run.requests);
      ReplacedKeepsPartners(run.campaigns, i, c, run.t.partners);
      CronUpTo(e, Run(run.campaigns[i := c], t, sent), i + 1, k, user, replies)
  }

  /** What the job leaves of each campaign: a queued one sent or back to draft, every other one untouched. */
  predicate CronOutcome(before: Campaign, after: Campaign)
  {
    if before.state == InQueue then
      && (after.state == Sent || after.state == Draft)
      && after.scheduledDate.None?
      && after == before.(state := after.state, scheduledDate := None, notes := after.notes)
      && (after.state == Sent ==> after.notes == before.notes)
      && (after.state == Draft ==> |after.notes| == |before.notes| + 1 && before.notes <= after.notes)
    else after == before
  }

  /** The job never goes back to a campaign it has passed. */
  lemma {:induction false} CronKeepsPassed(e: Edition, run: Run, i: nat, user: nat, replies: seq<Http.Reply>)
    requires i <= |run.campaigns| && AllPartnersExist(run.campaigns, run.t.partners)
    ensures forall k | 0 <= k < i :: CronFrom(e, run, i, user, replies).campaigns[k] == run.campaigns[k]
    decreases |run.campaigns| - i
  {
    if i < |run.campaigns| {
      var (c, t, sent) := CronStep(e, run.campaigns[i], i, user, run.t, replies, run.requests);
      ReplacedKeepsPartners(run.campaigns, i, c, run.t.partners);
      CronKeepsPassed(e, Run(run.campaigns[i := c], t, sent), i + 1, user, replies);
    }
  }

  /** Campaign `k` ends as one step on it says, taken on the state the job has when it gets there. */
  lemma {:induction false} CronStepAt(e: Edition, run: Run, i: nat, user: nat, replies: seq<Http.Reply>, k: nat)
    requires i <= k < |run.campaigns| && AllPartnersExist(run.campaigns, run.t.partners)
    ensures var b := CronUpTo(e, run, i, k, user, replies);
            CronFrom(e, run, i, user, replies).campaigns[k] == CronStep(e, run.campaigns[k], k, user, b.t, replies, b.requests).0
    decreases k - i
  {
    var (c, t, sent) := CronStep(e, run.campaigns[i], i, user, run.t, replies, run.requests);
    ReplacedKeepsPartners(run.campaigns, i, c, run.t.partners);
    var next := Run(run.campaigns[i := c], t, sent);
    assert CronFrom(e, run, i, user, replies) == CronFrom(e, next, i + 1, user, replies);
    if k == i {
      CronKeepsPassed(e, next, i + 1, user, replies);
    } else {
      CronStepAt(e, next, i + 1, user, replies, k);
      assert CronUpTo(e, run, i, k, user, replies) == CronUpTo(e, next, i + 1, k, user, replies);
    }
  }

  /** A queued campaign ends sent exactly when its own send raised nothing, and a raise leaves its note. */
  lemma CronDecidesQueued(e: Edition, run: Run, i: nat, user: nat, replies: seq<Http.Reply>)
    requires i <= |run.campaigns| && AllPartnersExist(run.campaigns, run.t.partners)
    ensures var r := CronFrom(e, run, i, user, replies);
      forall k | i <= k < |run.campaigns| && run.campaigns[k].state == InQueue ::
        var s := SendCampaign(e, run.campaigns[k], k, user, run.t.partners, replies, CronUpTo(e, run, i, k, user, replies).requests);
        && (r.campaigns[k].state == Sent <==> s.failure.None?)
        && (s.failure.Some? ==> r.campaigns[k].notes == run.campaigns[k].notes + [s.failure.value])
  {
    forall k | i <= k < |run.campaigns| && run.campaigns[k].state == InQueue
      ensures var s := SendCampaign(e, run.campaigns[k], k, user, run.t.partners, replies, CronUpTo(e, run, i, k, user, replies).requests);
              && (CronFrom(e, run, i, user, replies).campaigns[k].state == Sent <==> s.failure.None?)
              && (s.failure.Some? ==> CronFrom(e, run, i, user, replies).campaigns[k].notes == run.campaigns[k].notes + [s.failure.value])
    {
      CronStepAt(e, run, i, user, replies, k);
    }
  }

  /**
   * The job touches only queued campaigns, leaves none of them queued,
   * and only appends to the history.
   */
  lemma {:induction false} CronTouchesOnlyQueued(e: Edition, run: Run, i: nat, user: nat, replies: seq<Http.Reply>)
    requires i <= |run.campaigns| && AllPartnersExist(run.campaigns, run.t.partners)
    ensures var r := CronFrom(e, run, i, user, replies);
      && (forall k | 0 <= k < i :: r.campaigns[k] == run.campaigns[k])
      && (forall k | i <= k < |run.campaigns| :: CronOutcome(run.campaigns[k], r.campaigns[k]))
      && run.t.history <= r.t.history && r.t == run.t.(history := r.t.history)
      && (forall k | i <= k < |run.campaigns| && run.campaigns[k].state == InQueue ::
            var s := SendCampaign(e, run.campaigns[k], k, user, run.t.partners, replies, CronUpTo(e, run, i, k, user, replies).requests);
            && (r.campaigns[k].state == Sent <==> s.failure.None?)
            && (s.failure.Some? ==> r.campaigns[k].notes == run.campaigns[k].notes + [s.failure.value]))
    decreases |run.campaigns| - i
  {
    CronDecidesQueued(e, run, i, user, replies);
    if i < |run.campaigns| {
      var (c, t, sent) := CronStep(e, run.campaigns[i], i, user, run.t, replies, run.requests);
      var next := Run(run.campaigns[i := c], t, sent);
      ReplacedKeepsPartners(run.campaigns, i, c, run.t.partners);
      CronTouchesOnlyQueued(e, next, i + 1, user, replies);
      var r := CronFrom(e, next, i + 1, user, replies);
      assert r == CronFrom(e, run, i, user, replies);
      assert r.campaigns[i] == c;
    }
  }

  // ---------------------------------------------------------------------
  // The campaign table

  /** The `whatsapp.marketing.campaign` table of one edition; a campaign's id is its position. */
  class Marketing {
    const edition: Edition
    var campaigns: seq<Campaign>

    constructor (edition: Edition, campaigns: seq<Campaign>)
      ensures this.edition == edition && this.campaigns == campaigns
    {
      this.edition := edition;
      this.campaigns := campaigns;
    }

    /** "Send Now": checks the campaign and queues it; a refused campaign is left as it was. */
    method SendNow(k: nat) returns (r: Option<ActionError>)
      requires k < |campaigns|
      modifies this
      ensures r == SendNowError(edition, old(campaigns[k]))
      ensures r.None? ==> campaigns == old(campaigns)[k := old(campaigns[k]).(state := InQueue)]
      ensures r.Some? ==> campaigns == old(campaigns)
    {
      r := SendNowError(edition, campaigns[k]);
      if r.None? {
        campaigns := campaigns[k := campaigns[k].(state := InQueue)];
      }
    }

    /** "Schedule": marks the campaign as sending. */
    method Schedule(k: nat)
      requires k < |campaigns|
      modifies this
      ensures campaigns == old(campaigns)[k := old(campaigns[k]).(state := Scheduled)]
    {
      campaigns := campaigns[k := campaigns[k].(state := Scheduled)];
    }

    /** "Cancel": back to draft with the schedule cleared. */
    method Cancel(k: nat)
      requires k < |campaigns|
      modifies this
      ensures campaigns == old(campaigns)[k := old(campaigns[k]).(state := Draft, scheduledDate := None)]
    {
      campaigns := campaigns[k := campaigns[k].(state := Draft, scheduledDate := None)];
    }

    /** Choosing a template shows its body as the preview, or clears it. */
    method OnTemplateChange(k: nat, template: Option<TemplateRef>)
      requires k < |campaigns|
      modifies this
      ensures campaigns == old(campaigns)[k := old(campaigns[k]).(
        template := template, preview := if template.Some? then template.value.message else None)]
    {
      campaigns := campaigns[k := campaigns[k].(
        template := template, preview := if template.Some? then template.value.message else None)];
    }

    /**
     * Choosing a messaging list (current edition) clears the campaign's
     * contacts and, when recipients come from lists, refills them with one
     * contact per list contact: the first whose phone is the contact's
     * number, or a new one with its name and number.
     */
    method OnListChange(k: nat, db: Records.Db, e164: Phone.Formatter)
      requires k < |campaigns| && edition.Current?
      modifies this, db
      ensures db.View() == old(db.View()).(partners := db.partners)
      ensures var m := ListMembers(old(db.partners), ListContactsOf(old(campaigns[k])), e164);
        db.partners == m.rows
        && campaigns == old(campaigns)[k := old(campaigns[k]).(partners := Distinct(m.ids))]
    {
      var ids := RefillContacts(db, ListContactsOf(campaigns[k]), e164);
      campaigns := campaigns[k := campaigns[k].(partners := Distinct(ids))];
    }

    /**
     * `_send_campaign_messages` on campaign `k`: one request per recipient
     * with a number, a failed row for each request that raised. Returns
     * every request of the run so far and what stopped the send.
     */
    method SendMessages(k: nat, db: Records.Db, user: nat, replies: seq<Http.Reply>, sent: seq<Request>)
        returns (requests: seq<Request>, failure: Option<Failure>)
      requires k < |campaigns| && PartnersExist(campaigns[k], db.partners)
      modifies db
      ensures var s := SendCampaign(edition, campaigns[k], k, user, old(db.partners), replies, sent);
        db.View() == old(db.View()).(history := old(db.history) + s.rows)
        && requests == s.requests && failure == s.failure
    {
      var c := campaigns[k];
      if !Ready(c) || (edition.Legacy? && |c.partners| == 0) {
        return sent, Some(MissingSetup);
      }
      var rs := Recipients(edition, c, db.partners);
      if rs == [] {
        return sent, Some(NoRecipients);
      }
      ghost var goal := SendFrom(c, k, user, rs, replies, Sending([], sent, None));
      ghost var rows: seq<Records.HistoryRecord> := [];
      requests, failure := sent, None;
      var i := 0;
      while i < |rs|
        invariant 0 <= i <= |rs|
        invariant db.View() == old(db.View()).(history := old(db.history) + rows)
        invariant SendFrom(c, k, user, rs[i..], replies, Sending(rows, requests, None)) == goal
        invariant failure.None?
      {
        assert rs[i..][1..] == rs[i + 1..];
        var r := rs[i];
        if Truthy(r.number) {
          var req := RequestFor(c, r.number.value);
          var reply := Http.Nth(replies, |requests|);
          requests := requests + [req];
          if RequestFails(reply) {
            var row := FailedRow(c, k, user, r, req.to, reply);
            db.history := db.history + [row];
            rows := rows + [row];
          } else if EmptyMessages(reply) {
            failure := Some(MalformedReply);
            return;
          }
        }
        i := i + 1;
      }
      assert rs[i..] == [];
    }

    /**
     * The scheduled job: every queued campaign, in id order, is sent and
     * then marked sent, or sent back to draft with a note when the send
     * raised. Returns the requests made.
     */
    method CronSendQueued(db: Records.Db, user: nat, replies: seq<Http.Reply>) returns (requests: seq<Request>)
      requires AllPartnersExist(campaigns, db.partners)
      modifies this, db
      ensures CronFrom(edition, Run(old(campaigns), old(db.View()), []), 0, user, replies)
           == Run(campaigns, db.View(), requests)
    {
      requests := [];
      var i := 0;
      while i < |campaigns|
        invariant 0 <= i <= |campaigns| && |campaigns| == |old(campaigns)|
        invariant db.partners == old(db.partners)
        invariant AllPartnersExist(campaigns, db.partners)
        invariant CronFrom(edition, Run(campaigns, db.View(), requests), i, user, replies)
               == CronFrom(edition, Run(old(campaigns), old(db.View()), []), 0, user, replies)
      {
        var c := campaigns[i];
        assert PartnersExist(c, db.partners);
        ghost var step := CronStep(edition, c, i, user, db.View(), replies, requests);
        ghost var run := Run(campaigns, db.View(), requests);
        if c.state == InQueue {
          var failure;
          requests, failure := SendMessages(i, db, user, replies, requests);
          if failure.None? {
            campaigns := campaigns[i := c.(state := Sent, scheduledDate := None)];
          } else {
            campaigns := campaigns[i := c.(state := Draft, scheduledDate := None, notes := c.notes + [failure.value])];
          }
        }
        assert Run(campaigns, db.View(), requests) == Run(run.campaigns[i := step.0], step.1, step.2);
        i := i + 1;
      }
    }
  }

  // ---------------------------------------------------------------------
  // Refilling a campaign's contacts from a list

  /** The contact a list contact maps to: the first with its number as phone, or a new one. */
  method FindOrCreateContact(db: Records.Db, lc: ListContact, e164: Phone.Formatter) returns (id: nat)
    modifies db
    ensures db.View() == old(db.View()).(partners := db.partners)
    ensures Members(db.partners, [id]) == RefillOne(old(db.partners), lc, e164)
  {
    var found := Records.FirstMatch(db.partners, HasPhone(lc.number));
    if found.Some? {
      id := found.value;
    } else {
      db.partners := db.partners + [Phone.ContactWith(lc.name, Some(lc.number), None, e164)];
      id := |db.partners| - 1;
    }
  }

  /** The refill loop: one contact chosen or created per list contact, in order. */
  method RefillContacts(db: Records.Db, contacts: seq<ListContact>, e164: Phone.Formatter) returns (ids: seq<nat>)
    modifies db
    ensures db.View() == old(db.View()).(partners := db.partners)
    ensures Members(db.partners, ids) == ListMembers(old(db.partners), contacts, e164)
  {
    ghost var goal := ListMembers(db.partners, contacts, e164);
    ids := [];
    var i := 0;
    while i < |contacts|
      invariant 0 <= i <= |contacts|
      invariant db.View() == old(db.View()).(partners := db.partners)
      invariant goal.rows == ListMembers(db.partners, contacts[i..], e164).rows
      invariant goal.ids == ids + ListMembers(db.partners, contacts[i..], e164).ids
    {
      ListMembersStep(db.partners, contacts[i..], e164);
      assert contacts[i..][1..] == contacts[i + 1..];
      var id := FindOrCreateContact(db, contacts[i], e164);
      ids := ids + [id];
      i := i + 1;
    }
    assert contacts[i..] == [];
  }

  /** The contacts of the list a campaign selects, when it selects its recipients from lists. */
  function ListContactsOf(c: Campaign): seq<ListContact>
  {
    if c.recipientsModel == Some(ListsModel) && c.list.Some? then c.list.value.contacts else []
  }

  /** The contact table after a refill, with the contact chosen for each list contact. */
  datatype Members = Members(rows: seq<Records.Partner>, ids: seq<nat>)

  /** One list contact: the first contact with its number as phone, or a new one appended. */
  function RefillOne(partners: seq<Records.Partner>, lc: ListContact, e164: Phone.Formatter): (m: Members)
    ensures |m.ids| == 1 && m.ids[0] < |m.rows| && m.rows[m.ids[0]].phone == Some(lc.number)
    ensures m.rows == partners || (|m.rows| == |partners| + 1 && m.rows[..|partners|] == partners)
  {
    match Records.FirstMatch(partners, HasPhone(lc.number))
    case Some(id) => Members(partners, [id])
    case None => Members(partners + [Phone.ContactWith(lc.name, Some(lc.number), None, e164)], [|partners|])
  }

  function ListMembers(partners: seq<Records.Partner>, lcs: seq<ListContact>, e164: Phone.Formatter): (m: Members)
    ensures |m.ids| == |lcs|
    decreases |lcs|
  {
    if lcs == [] then Members(partners, [])
    else
      var one := RefillOne(partners, lcs[0], e164);
      var rest := ListMembers(one.rows, lcs[1..], e164);
      Members(rest.rows, one.ids + rest.ids)
  }

  /**
   * A refill keeps every existing contact and maps each list contact to a
   * contact whose phone is that contact's number.
   */
  lemma {:induction false} RefillMapsContacts(partners: seq<Records.Partner>, lcs: seq<ListContact>, e164: Phone.Formatter)
    ensures var m := ListMembers(partners, lcs, e164);
      && |partners| <= |m.rows| && m.rows[..|partners|] == partners
      && (forall j | 0 <= j < |m.ids| :: m.ids[j] < |m.rows| && m.rows[m.ids[j]].phone == Some(lcs[j].number))
    decreases |lcs|
  {
    if lcs != [] {
      var one := RefillOne(partners, lcs[0], e164);
      RefillMapsContacts(one.rows, lcs[1..], e164);
      var rest := ListMembers(one.rows, lcs[1..], e164);
      var m := ListMembers(partners, lcs, e164);
      assert m == Members(rest.rows, one.ids + rest.ids);
      assert rest.rows[..|partners|] == partners by {
        assert rest.rows[..|one.rows|][..|partners|] == one.rows[..|partners|];
      }
      assert one.rows[one.ids[0]] == rest.rows[one.ids[0]] by {
        assert rest.rows[..|one.rows|][one.ids[0]] == one.rows[one.ids[0]];
      }
      forall j | 0 <= j < |m.ids|
        ensures m.ids[j] < |m.rows| && m.rows[m.ids[j]].phone == Some(lcs[j].number)
      {
        if j > 0 {
          assert m.ids[j] == rest.ids[j - 1] && lcs[j] == lcs[1..][j - 1];
        }
      }
    }
  }

  /** The search domain of a refill: a contact with this (non-empty) phone. */
  function HasPhone(number: string): Records.Partner -> bool
  {
    (p: Records.Partner) => Truthy(p.phone) && p.phone.value == number
  }

  lemma ListMembersStep(partners: seq<Records.Partner>, lcs: seq<ListContact>, e164: Phone.Formatter)
    requires lcs != []
    ensures var one := RefillOne(partners, lcs[0], e164); var rest := ListMembers(one.rows, lcs[1..], e164);
      ListMembers(partners, lcs, e164) == Members(rest.rows, one.ids + rest.ids)
  {
  }

  /** A many2many set from a list of ids: first occurrences only, in order. */
  function Distinct(ids: seq<nat>): (r: seq<nat>)
    ensures forall id :: id in r <==> id in ids
    ensures forall i, j | 0 <= i < j < |r| :: r[i] != r[j]
  {
    if ids == [] then []
    else if ids[|ids| - 1] in ids[..|ids| - 1] then
      assert ids == ids[..|ids| - 1] + [ids[|ids| - 1]];
      Distinct(ids[..|ids| - 1])
    else
      assert ids == ids[..|ids| - 1] + [ids[|ids| - 1]];
      Distinct(ids[..|ids| - 1]) + [ids[|ids| - 1]]
  }

  /**
   * After a refill every list contact's number is the phone of one of the
   * campaign's contacts, and every such contact carries one of those numbers.
   */
  lemma RefillCoversList(partners: seq<Records.Partner>, lcs: seq<ListContact>, e164: Phone.Formatter)
    ensures var m := ListMembers(partners, lcs, e164);
      && (forall j | 0 <= j < |lcs| :: m.ids[j] in Distinct(m.ids) && m.ids[j] < |m.rows| && m.rows[m.ids[j]].phone == Some(lcs[j].number))
      && (forall id | id in Distinct(m.ids) :: id < |m.rows| && exists j | 0 <= j < |lcs| :: m.rows[id].phone == Some(lcs[j].number))
  {
    var m := ListMembers(partners, lcs, e164);
    RefillMapsContacts(partners, lcs, e164);
    ChosenCover(m.rows, m.ids, lcs);
  }

  lemma ChosenCover(rows: seq<Records.Partner>, ids: seq<nat>, lcs: seq<ListContact>)
    requires |ids| == |lcs|
    requires forall j | 0 <= j < |ids| :: ids[j] < |rows| && rows[ids[j]].phone == Some(lcs[j].number)
    ensures forall j | 0 <= j < |lcs| :: ids[j] in Distinct(ids) && ids[j] < |rows| && rows[ids[j]].phone == Some(lcs[j].number)
    ensures forall id | id in Distinct(ids) :: id < |rows| && exists j | 0 <= j < |lcs| :: rows[id].phone == Some(lcs[j].number)
  {
    assert forall j | 0 <= j < |lcs| :: ids[j] in ids;
    forall id | id in Distinct(ids)
      ensures id < |rows| && exists j | 0 <= j < |lcs| :: rows[id].phone == Some(lcs[j].number)
    {
      var j :| 0 <= j < |ids| && ids[j] == id;
    }
  }
}
