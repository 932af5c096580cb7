/**
 * WhatsApp from a point-of-sale order: the guard that opens the composer,
 * and `send_whatsapp_message`, which validates the phone and message,
 * writes the cleaned phone onto the customer, optionally renders the order
 * PDF, hands everything to the dispatcher and then records the first
 * attachment on the matching history row. Any exception on the way is
 * re-raised as a `UserError`, which rolls the transaction back.
 */
module PosOrder {
  import opened Wrappers
  import opened Text
  import opened Records
  import opened WizardRules
  import Dispatcher
  import Http
  import Phone

  /** A point-of-sale order: its name and its customer. */
  datatype Order = Order(name: string, partner: Option<nat>)

  // ---------------------------------------------------------------------
  // Opening the composer

  datatype LaunchError = NoCustomer | NoPhone

  /**
   * `action_send_whatsapp`: the order needs a customer with a mobile or a
   * phone; the composer opens on the mobile when there is one.
   */
  function ComposerPhone(partners: seq<Partner>, order: Order): (r: Result<string, LaunchError>)
    requires order.partner.Some? ==> order.partner.value < |partners|
    ensures r == Err(NoCustomer) <==> order.partner.None?
    ensures r == Err(NoPhone) <==>
              order.partner.Some? && !Truthy(partners[order.partner.value].mobile) && !Truthy(partners[order.partner.value].phone)
    ensures r.Ok? ==> r.value != "" && var p := partners[order.partner.value];
                      (Some(r.value) == p.mobile || Some(r.value) == p.phone)
                      && (Truthy(p.mobile) ==> Some(r.value) == p.mobile)
  {
    if order.partner.None? then Err(NoCustomer)
    else
      var p := partners[order.partner.value];
      if !Truthy(p.mobile) && !Truthy(p.phone) then Err(NoPhone)
      else if Truthy(p.mobile) then Ok(p.mobile.value)
      else Ok(p.phone.value)
  }

  // ---------------------------------------------------------------------
  // Sending

  /** The arguments of `send_whatsapp_message`. */
  datatype SendRequest = SendRequest(
    phone: Option<string>, message: Option<string>, template: Option<Dispatcher.TemplateRef>,
    attachments: seq<Dispatcher.Attachment>, attachPdf: bool, reportType: ReportType)

  datatype PosError = InvalidPhone | NoMessage | BadPhoneFormat | NoProvider | PdfFailed(reason: ReportError)
                    | SendRaised(failure: Dispatcher.SendError)

  /** The phone and message checks, in order; the cleaned phone when they pass. */
  function CheckedPhone(req: SendRequest): (r: Result<string, PosError>)
    ensures r.Ok? <==> PhoneAccepted(req.phone) && Truthy(req.message) && Dialable(req.phone.value)
    ensures r.Ok? ==> r.value == Cleaned(req.phone.value) && IsDigitString(r.value)
    ensures r == Err(InvalidPhone) <==> !PhoneAccepted(req.phone)
    ensures r == Err(NoMessage) <==> PhoneAccepted(req.phone) && !Truthy(req.message)
  {
    if !PhoneAccepted(req.phone) then Err(InvalidPhone)
    else if !Truthy(req.message) then Err(NoMessage)
    else if !Dialable(req.phone.value) then Err(BadPhoneFormat)
    else Ok(Cleaned(req.phone.value))
  }

  /** The customer's phone after the write: the cleaned phone, when it differed. */
  function PhoneWritten(t: Tables, order: Order, cleaned: string, e164: Phone.Formatter): (r: Tables)
    requires order.partner.Some? ==> order.partner.value < |t.partners|
    ensures r == t.(partners := r.partners) && |r.partners| == |t.partners|
    ensures order.partner.Some? ==> r.partners[order.partner.value].phone == Some(cleaned)
    ensures forall k | 0 <= k < |t.partners| && (order.partner.None? || k != order.partner.value) :: r.partners[k] == t.partners[k]
  {
    if order.partner.Some? && t.partners[order.partner.value].phone != Some(cleaned) then
      var id := order.partner.value;
      t.(partners := t.partners[id := WithPhoneWritten(t.partners[id], cleaned, e164)])
    else t
  }

  /**
   * `final_attachment_ids`: the attachments given, followed by the order's
   * PDF when one is asked for; a failure to produce the PDF raises.
   */
  function FinalAttachments(order: Order, req: SendRequest, installed: set<string>, rendered: Option<nat>)
    : (r: Result<seq<Dispatcher.Attachment>, ReportError>)
    ensures !req.attachPdf ==> r == Ok(req.attachments)
    ensures req.attachPdf ==> (r.Ok? <==> ReportPdf(PosOrder, req.reportType, order.name, installed, rendered).Ok?)
    ensures req.attachPdf && r.Ok? ==>
              |r.value| == |req.attachments| + 1 && r.value[..|req.attachments|] == req.attachments
              && r.value[|req.attachments|].mimetype == "application/pdf"
              && r.value[|req.attachments|].name == PdfName(PosOrder, order.name)
              && r.value[|req.attachments|].size <= MaxPdfBytes
  {
    if !req.attachPdf then Ok(req.attachments)
    else match ReportPdf(PosOrder, req.reportType, order.name, installed, rendered)
      case Err(e) => Err(e)
      case Ok(pdf) => Ok(req.attachments + [pdf])
  }

  /**
   * The dispatcher form as the source fills it: the cleaned phone itself is
   * put in the `number` selection, whose only values are "phone" and
   * "mobile".
   */
  function PosFormAsWritten(order: Order, cleaned: string, provider: Dispatcher.ProviderOps, req: SendRequest,
                            attachments: seq<Dispatcher.Attachment>): (f: Dispatcher.SendForm)
    ensures f.numberField == cleaned && f.recipient == order.partner && f.config == Some(provider)
    ensures f.template == req.template && f.message == req.message && f.attachments == attachments
  {
    Dispatcher.SendForm(order.partner, cleaned, Some(provider), req.template, req.message, attachments,
                        Dispatcher.Source(None, 0, false, []))
  }

  /** The corrected form: the dispatcher reads the customer's phone, the field just written. */
  function PosForm(order: Order, cleaned: string, provider: Dispatcher.ProviderOps, req: SendRequest,
                   attachments: seq<Dispatcher.Attachment>): (f: Dispatcher.SendForm)
    ensures f == PosFormAsWritten(order, cleaned, provider, req, attachments).(numberField := "phone")
  {
    Dispatcher.SendForm(order.partner, "phone", Some(provider), req.template, req.message, attachments,
                        Dispatcher.Source(None, 0, false, []))
  }

  /** A history row the send looks for: same customer, same message text. */
  function SameSend(partner: Option<nat>, message: string): HistoryRecord -> bool
  {
    (row: HistoryRecord) => row.partner == partner && row.message == Some(message)
  }

  /** The first matching history row, in id order, gets the first attachment. */
  function Tagged(history: seq<HistoryRecord>, partner: Option<nat>, message: string, name: string)
    : (r: seq<HistoryRecord>)
    ensures |r| == |history|
  {
    match FirstMatch(history, SameSend(partner, message))
    case None => history
    case Some(i) => history[i := history[i].(attachment := Some(name))]
  }

  /**
   * The row tagged is the oldest one matching, not necessarily the row the
   * send just wrote: when an earlier row has the same customer and text,
   * every later row, the new one included, is left as it was.
   */
  lemma TagLandsOnOldestMatch(history: seq<HistoryRecord>, partner: Option<nat>, message: string, name: string, j: nat)
    requires j < |history| && SameSend(partner, message)(history[j])
    ensures forall k | j < k < |history| :: Tagged(history, partner, message, name)[k] == history[k]
    ensures exists i | 0 <= i <= j :: Tagged(history, partner, message, name)[i] == history[i].(attachment := Some(name))
  {
    var i := FirstMatch(history, SameSend(partner, message)).value;
    assert i <= j;
  }

  datatype PosSent = PosSent(result: Result<Dispatcher.Outcome, PosError>, t: Tables, requests: seq<Dispatcher.Request>)

  /**
   * `send_whatsapp_message` with the corrected form, as a function of the
   * tables, the first configured provider, the installed reports, the PDF
   * the renderer produces and the API's replies.
   */
  function PosSend(t: Tables, order: Order, req: SendRequest, provider: Option<Dispatcher.ProviderOps>,
                   installed: set<string>, rendered: Option<nat>, me: Dispatcher.Sender, replies: seq<Http.Reply>,
                   e164: Phone.Formatter): (s: PosSent)
    requires order.partner.Some? ==> order.partner.value < |t.partners|
    ensures s.result.Err? ==> s.t == t
    ensures s.result.Err? && !s.result.error.SendRaised? ==> s.requests == []
    ensures s.result.Ok? ==> CheckedPhone(req).Ok? && provider.Some?
                             && FinalAttachments(order, req, installed, rendered).Ok?
  {
    match CheckedPhone(req)
    case Err(e) => PosSent(Err(e), t, [])
    case Ok(cleaned) =>
      var t1 := PhoneWritten(t, order, cleaned, e164);
      if provider.None? then PosSent(Err(NoProvider), t, [])
      else match FinalAttachments(order, req, installed, rendered)
        case Err(e) => PosSent(Err(PdfFailed(e)), t, [])
        case Ok(atts) =>
          var d := Dispatcher.Dispatch(t1, PosForm(order, cleaned, provider.value, req, atts), me, replies);
          if d.outcome.Raised? then PosSent(Err(SendRaised(d.outcome.error)), t, d.requests)
          else
            var history := if atts == [] then d.t.history
                           else Tagged(d.t.history, order.partner, req.message.value, atts[0].name);
            PosSent(Ok(d.outcome), d.t.(history := history), d.requests)
  }

  /**
   * The corrected form reaches the customer at the cleaned phone the send
   * has just written onto them.
   */
  lemma DialsCleanedPhone(t: Tables, order: Order, req: SendRequest, provider: Dispatcher.ProviderOps,
                          atts: seq<Dispatcher.Attachment>, e164: Phone.Formatter)
    requires order.partner.Some? && order.partner.value < |t.partners| && CheckedPhone(req).Ok?
    ensures var cleaned := CheckedPhone(req).value;
            Dispatcher.RecipientNumber(PhoneWritten(t, order, cleaned, e164).partners, PosForm(order, cleaned, provider, req, atts))
            == Some(cleaned)
  {
  }

  /**
   * As written, the dispatcher finds the cleaned phone in its `number`
   * selection, which is not "phone", and so reads the customer's mobile.
   */
  lemma AsWrittenDialsMobile(partners: seq<Partner>, order: Order, req: SendRequest, provider: Dispatcher.ProviderOps,
                             atts: seq<Dispatcher.Attachment>)
    requires CheckedPhone(req).Ok?
    ensures var cleaned := CheckedPhone(req).value;
            Dispatcher.RecipientNumber(partners, PosFormAsWritten(order, cleaned, provider, req, atts))
            == Dispatcher.RecipientNumber(partners, PosForm(order, cleaned, provider, req, atts).(numberField := "mobile"))
  {
    var cleaned := CheckedPhone(req).value;
    assert IsDigit(cleaned[0]);
    assert cleaned != "phone";
  }

  /**
   * A customer with a phone but no mobile: as written, the dispatcher finds
   * no number and raises, while the corrected form dials the phone just
   * written.
   */
  lemma AsWrittenMissesPhoneOnlyCustomer(t: Tables, order: Order, req: SendRequest, provider: Dispatcher.ProviderOps,
                                         atts: seq<Dispatcher.Attachment>, me: Dispatcher.Sender,
                                         replies: seq<Http.Reply>, e164: Phone.Formatter)
    requires order.partner.Some? && order.partner.value < |t.partners| && CheckedPhone(req).Ok?
    requires !Truthy(t.partners[order.partner.value].mobile)
    ensures var cleaned := CheckedPhone(req).value;
            var t1 := PhoneWritten(t, order, cleaned, e164);
            Dispatcher.Dispatch(t1, PosFormAsWritten(order, cleaned, provider, req, atts), me, replies).outcome
              == Dispatcher.Raised(Dispatcher.MissingNumber)
            && Dispatcher.RecipientNumber(t1.partners, PosForm(order, cleaned, provider, req, atts)) == Some(cleaned)
  {
    var cleaned := CheckedPhone(req).value;
    var t1 := PhoneWritten(t, order, cleaned, e164);
    AsWrittenDialsMobile(t1.partners, order, req, provider, atts);
    DialsCleanedPhone(t, order, req, provider, atts, e164);
  }

  /**
   * A send that gets through keeps the cleaned phone on the customer, and
   * changes no other contact.
   */
  lemma SentKeepsCleanedPhone(t: Tables, order: Order, req: SendRequest, provider: Option<Dispatcher.ProviderOps>,
                              installed: set<string>, rendered: Option<nat>, me: Dispatcher.Sender,
                              replies: seq<Http.Reply>, e164: Phone.Formatter)
    requires order.partner.Some? && order.partner.value < |t.partners|
    requires PosSend(t, order, req, provider, installed, rendered, me, replies, e164).result.Ok?
    ensures var s := PosSend(t, order, req, provider, installed, rendered, me, replies, e164);
            |s.t.partners| == |t.partners|
            && s.t.partners[order.partner.value].phone == Some(CheckedPhone(req).value)
            && forall k | 0 <= k < |t.partners| && k != order.partner.value :: s.t.partners[k] == t.partners[k]
  {
    var cleaned := CheckedPhone(req).value;
    var t1 := PhoneWritten(t, order, cleaned, e164);
    var atts := FinalAttachments(order, req, installed, rendered).value;
    Dispatcher.DispatchKeepsContacts(t1, PosForm(order, cleaned, provider.value, req, atts), me, replies);
  }

  /** `send_whatsapp_message`, with the corrected form. */
  method SendWhatsappMessage(db: Db, order: Order, req: SendRequest, provider: Option<Dispatcher.ProviderOps>,
                             installed: set<string>, rendered: Option<nat>, me: Dispatcher.Sender,
                             replies: seq<Http.Reply>, e164: Phone.Formatter)
    returns (result: Result<Dispatcher.Outcome, PosError>, requests: seq<Dispatcher.Request>)
    requires order.partner.Some? ==> order.partner.value < |db.partners|
    modifies db
    ensures PosSent(result, db.View(), requests)
            == PosSend(old(db.View()), order, req, provider, installed, rendered, me, replies, e164)
  {
    var checked := CheckedPhone(req);
    if checked.Err? {
      return Err(checked.error), [];
    }
    var cleaned := checked.value;
    var saved := db.View();
    if order.partner.Some? && db.partners[order.partner.value].phone != Some(cleaned) {
      var id := order.partner.value;
      db.partners := db.partners[id := WithPhoneWritten(db.partners[id], cleaned, e164)];
    }
    assert db.View() == PhoneWritten(saved, order, cleaned, e164);
    if provider.None? {
      db.Restore(saved);
      return Err(NoProvider), [];
    }
    var final := FinalAttachments(order, req, installed, rendered);
    if final.Err? {
      db.Restore(saved);
      return Err(PdfFailed(final.error)), [];
    }
    var atts := final.value;
    var outcome;
    outcome, requests := Dispatcher.SendMessage(db, PosForm(order, cleaned, provider.value, req, atts), me, replies);
    if outcome.Raised? {
      db.Restore(saved);
      return Err(SendRaised(outcome.error)), requests;
    }
    if atts != [] {
      db.history := Tagged(db.history, order.partner, req.message.value, atts[0].name);
    }
    return Ok(outcome), requests;
  }
}
