/**
 * The send action of the purchase, inventory and CRM wizards: validate the
 * form, write the wizard's phone back onto the contact (or, for a lead
 * without a contact, onto the lead), then hand the message to the
 * dispatcher through its "phone" field. An exception out of the dispatcher
 * is re-raised, which rolls back the phone write with everything else.
 */
module Wizards {
  import opened Wrappers
  import opened Records
  import opened Text
  import opened WizardRules
  import Dispatcher
  import Phone

  /** The lead a CRM wizard is opened on (`crm.lead`), with the two numbers it carries. */
  class LeadRecord {
    var phone: Option<string>
    var mobile: Option<string>

    function View(): LeadNumbers
      reads this
    {
      LeadNumbers(phone, mobile)
    }

    constructor (numbers: LeadNumbers)
      ensures View() == numbers
    {
      phone, mobile := numbers.phone, numbers.mobile;
    }
  }

  datatype LeadNumbers = LeadNumbers(phone: Option<string>, mobile: Option<string>)

  /** A wizard's form: where it was opened, the contact, the phone typed, and what to send. */
  datatype Wizard = Wizard(
    origin: Origin, partner: Option<nat>, phone: string, template: Option<Dispatcher.TemplateRef>,
    message: Option<string>, config: Option<Dispatcher.ProviderOps>, attachments: seq<Dispatcher.Attachment>)

  /** Where the typed phone is written before sending. */
  datatype PhoneWrite = NoWrite | ContactPhone(id: nat) | LeadPhone

  /**
   * The write-back rule: a contact whose phone differs gets the typed phone;
   * without a contact, a CRM lead gets it only when neither of its numbers is
   * already the typed phone.
   */
  function PhoneWriteFor(w: Wizard, partners: seq<Partner>, lead: LeadNumbers): (r: PhoneWrite)
    requires w.partner.Some? ==> w.partner.value < |partners|
    ensures r.ContactPhone? <==> w.partner.Some? && partners[w.partner.value].phone != Some(w.phone)
    ensures r.ContactPhone? ==> r.id == w.partner.value
    ensures r == LeadPhone <==> w.partner.None? && w.origin == Lead && lead.phone != Some(w.phone) && lead.mobile != Some(w.phone)
  {
    if w.partner.Some? then
      if partners[w.partner.value].phone != Some(w.phone) then ContactPhone(w.partner.value) else NoWrite
    else if w.origin == Lead && lead.phone != Some(w.phone) && lead.mobile != Some(w.phone) then LeadPhone
    else NoWrite
  }

  /** The tables and the lead after the write-back. */
  function WrittenBack(t: Tables, w: Wizard, lead: LeadNumbers, e164: Phone.Formatter): (Tables, LeadNumbers)
    requires w.partner.Some? ==> w.partner.value < |t.partners|
  {
    match PhoneWriteFor(w, t.partners, lead)
    case NoWrite => (t, lead)
    case ContactPhone(id) => (t.(partners := t.partners[id := WithPhoneWritten(t.partners[id], w.phone, e164)]), lead)
    case LeadPhone => (t, lead.(phone := Some(w.phone)))
  }

  /** The dispatcher form the wizard fills: its contact, through the "phone" field, with no source record. */
  function FormFor(w: Wizard): (f: Dispatcher.SendForm)
    ensures f.recipient == w.partner && f.numberField == "phone"
    ensures f.template == w.template && f.config == w.config && f.attachments == w.attachments
    ensures Truthy(f.message) <==> Truthy(w.message)
    ensures Truthy(f.message) ==> f.message == w.message
  {
    Dispatcher.SendForm(w.partner, "phone", w.config, w.template, if Truthy(w.message) then w.message else None,
                        w.attachments, Dispatcher.Source(None, 0, false, []))
  }

  datatype Refusal = FormRefused(error: FormError) | SendRaised(failure: Dispatcher.SendError)

  /** How the action ends: refused with a `UserError`, or returning the dispatcher's result. */
  datatype Ending = Refused(reason: Refusal) | Delegated(outcome: Dispatcher.Outcome)

  datatype Handled = Handled(result: Ending, t: Tables, lead: LeadNumbers, requests: seq<Dispatcher.Request>)

  /** `action_send_message`, as a function of the tables, the lead and the API's replies. */
  function Send(t: Tables, w: Wizard, lead: LeadNumbers, me: Dispatcher.Sender, replies: seq<Http.Reply>,
                e164: Phone.Formatter): (s: Handled)
    requires w.partner.Some? ==> w.partner.value < |t.partners|
    ensures s.result.Refused? ==> s.t == t && s.lead == lead
    ensures s.result.Refused? && !s.result.reason.SendRaised? ==> s.requests == []
    ensures s.result.Delegated? ==> Sendable(w.config.Some?, w.template.Some?, w.message) && Dialable(w.phone)
  {
    var check := FormCheck(w.config.Some?, w.template.Some?, w.message, w.phone);
    if check.Some? then Handled(Refused(FormRefused(check.value)), t, lead, [])
    else
      var (t1, lead1) := WrittenBack(t, w, lead, e164);
      var d := Dispatcher.Dispatch(t1, FormFor(w), me, replies);
      if d.outcome.Raised? then Handled(Refused(SendRaised(d.outcome.error)), t, lead, d.requests)
      else Handled(Delegated(d.outcome), d.t, lead1, d.requests)
  }

  /**
   * After the write-back the contact's stored phone is the typed phone, so
   * the dispatcher dials the typed phone itself, less a leading '+', and
   * not the cleaned digits the action checked.
   */
  lemma DispatcherDialsTypedPhone(t: Tables, w: Wizard, lead: LeadNumbers, e164: Phone.Formatter)
    requires w.partner.Some? && w.partner.value < |t.partners| && Dialable(w.phone)
    ensures Dispatcher.RecipientNumber(WrittenBack(t, w, lead, e164).0.partners, FormFor(w)) == Some(Dialled(w.phone))
  {
    DialableAccepted(w.phone);
  }

  /** Spaces survive into the number dialled: "+1 555" passes the check as "1555" but is dialled as "1 555". */
  lemma SpacesReachTheDispatcher()
    ensures Dialable("+1 555") && Cleaned("+1 555") == "1555" && Dialled("+1 555") == "1 555"
  {
    CleanedExample();
    FourDigits();
    var s := "+1 555";
    assert s[1..] == "1 555";
  }

  lemma FourDigits()
    ensures IsDigitString("1555")
  {
  }

  lemma CleanedExample()
    ensures Cleaned("+1 555") == "1555"
  {
    PlusDropped();
    SpaceDropped();
  }

  lemma PlusDropped()
    ensures Without("+1 555", '+') == "1 555"
  {
    var s, t := "+1 555", "1 555";
    assert s[1..] == t;
    assert Lacks(t, '+');
  }

  lemma SpaceDropped()
    ensures Without("1 555", ' ') == "1555"
  {
    var t, u := "1 555", " 555";
    assert t[1..] == u && u[1..] == "555";
    assert Lacks("555", ' ');
  }

  /**
   * A send the dispatcher completes keeps the phone written back: the
   * contact's phone is the typed phone, and its other fields are unchanged.
   */
  lemma DelegatedKeepsPhone(t: Tables, w: Wizard, lead: LeadNumbers, me: Dispatcher.Sender, replies: seq<Http.Reply>,
                            e164: Phone.Formatter)
    requires w.partner.Some? && w.partner.value < |t.partners|
    requires Send(t, w, lead, me, replies, e164).result.Delegated?
    ensures var s := Send(t, w, lead, me, replies, e164);
            var id := w.partner.value;
            |s.t.partners| == |t.partners| && s.t.partners[id].phone == Some(w.phone)
            && s.t.partners[id].name == t.partners[id].name && s.t.partners[id].mobile == t.partners[id].mobile
            && forall k | 0 <= k < |t.partners| && k != id :: s.t.partners[k] == t.partners[k]
  {
    var t1 := WrittenBack(t, w, lead, e164).0;
    Dispatcher.DispatchKeepsContacts(t1, FormFor(w), me, replies);
  }

  /**
   * A CRM wizard without a contact never sends: the dispatcher has no
   * recipient and raises, so the lead's phone update is rolled back too.
   */
  lemma CrmWithoutContactRaises(t: Tables, w: Wizard, lead: LeadNumbers, me: Dispatcher.Sender,
                                replies: seq<Http.Reply>, e164: Phone.Formatter)
    requires w.partner.None?
    requires Sendable(w.config.Some?, w.template.Some?, w.message) && Dialable(w.phone)
    ensures Send(t, w, lead, me, replies, e164) == Handled(Refused(SendRaised(Dispatcher.MissingNumber)), t, lead, [])
  {
  }

  /**
   * `action_send_message`: the checks, the phone write-back, the dispatcher
   * call, and the rollback when it raises.
   */
  method SendMessage(db: Db, lead: LeadRecord, w: Wizard, me: Dispatcher.Sender, replies: seq<Http.Reply>,
                     e164: Phone.Formatter) returns (result: Ending, requests: seq<Dispatcher.Request>)
    requires w.partner.Some? ==> w.partner.value < |db.partners|
    modifies db, lead
    ensures Handled(result, db.View(), lead.View(), requests) == Send(old(db.View()), w, old(lead.View()), me, replies, e164)
  {
    var check := FormCheck(w.config.Some?, w.template.Some?, w.message, w.phone);
    if check.Some? {
      return Refused(FormRefused(check.value)), [];
    }
    var saved, savedLead := db.View(), lead.View();
    if w.partner.Some? {
      var id := w.partner.value;
      if db.partners[id].phone != Some(w.phone) {
        db.partners := db.partners[id := WithPhoneWritten(db.partners[id], w.phone, e164)];
      }
    } else if w.origin == Lead && lead.phone != Some(w.phone) && lead.mobile != Some(w.phone) {
      lead.phone := Some(w.phone);
    }
    assert (db.View(), lead.View()) == WrittenBack(saved, w, savedLead, e164);
    var outcome;
    outcome, requests := Dispatcher.SendMessage(db, FormFor(w), me, replies);
    if outcome.Raised? {
      // the UserError raised in its place rolls the transaction back
      db.Restore(saved);
      lead.phone, lead.mobile := savedLead.phone, savedLead.mobile;
      return Refused(SendRaised(outcome.error)), requests;
    }
    return Delegated(outcome), requests;
  }
}
