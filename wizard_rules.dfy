/**
 * The rules the send wizards of the sale, purchase, CRM, inventory and
 * point-of-sale modules share: the phone constraint and clean-up, the
 * precondition of a send, the computed message, the report PDF a wizard
 * attaches and the defaults it opens with.
 */
module WizardRules {
  import opened Wrappers
  import opened Text
  import opened Records
  import Dispatcher
  import Phone

  // ---------------------------------------------------------------------
  // The phone

  /** `_check_phone`: a phone is set and holds at least one digit. */
  predicate PhoneAccepted(phone: Option<string>)
  {
    Truthy(phone) && HasDigit(phone.value)
  }

  /** `phone.replace('+', '').replace(' ', '')` */
  function Cleaned(phone: string): (r: string)
    ensures |r| <= |phone|
    ensures Lacks(r, '+') && Lacks(r, ' ') && DrawnFrom(r, phone)
    ensures Lacks(phone, '+') && Lacks(phone, ' ') ==> r == phone
  {
    var noPlus := Without(phone, '+');
    var r := Without(noPlus, ' ');
    assert forall i | 0 <= i < |r| :: r[i] in noPlus;
    r
  }

  /**
   * Cleaning works piece by piece, and drops exactly the plus signs and
   * spaces: every other character is kept, in order.
   */
  lemma CleanedConcat(a: string, b: string)
    ensures Cleaned(a + b) == Cleaned(a) + Cleaned(b)
  {
    WithoutConcat(a, b, '+');
    WithoutConcat(Without(a, '+'), Without(b, '+'), ' ');
  }

  lemma CleanedOne(x: char)
    ensures Cleaned([x]) == (if x == '+' || x == ' ' then [] else [x])
  {
    WithoutOne(x, '+');
    WithoutOne(x, ' ');
    assert Without([], ' ') == [];
  }

  /** The check before a wizard sends: the cleaned phone is `isdigit()`. */
  predicate Dialable(phone: string)
  {
    IsDigitString(Cleaned(phone))
  }

  /** A phone that passes the send check also passes the constraint. */
  lemma DialableAccepted(phone: string)
    requires Dialable(phone)
    ensures PhoneAccepted(Some(phone))
  {
    var c := Cleaned(phone);
    assert IsDigit(c[0]);
    var j :| 0 <= j < |phone| && phone[j] == c[0];
    assert IsDigit(phone[j]);
  }

  /**
   * The converse fails: the constraint lets a phone with a letter through,
   * and only the send check refuses it.
   */
  lemma AcceptedNotDialable()
    ensures PhoneAccepted(Some("1a")) && !Dialable("1a")
  {
    var s := "1a";
    assert IsDigit(s[0]);
    assert s[1..] == "a" && s[1..][1..] == [];
    assert Without(s, '+') == s;
    assert Without(s, ' ') == s;
  }

  /** Cleaning a cleaned phone changes nothing. */
  lemma CleanedIdempotent(phone: string)
    ensures Cleaned(Cleaned(phone)) == Cleaned(phone)
  {
  }

  /** `number[1:]` when the number starts with '+': what the dispatcher dials for a stored phone. */
  function Dialled(phone: string): (r: string)
    ensures phone != [] && phone[0] == '+' ==> r == phone[1..]
    ensures (phone == [] || phone[0] != '+') ==> r == phone
  {
    if phone != [] && phone[0] == '+' then phone[1..] else phone
  }

  /** Writing a contact's phone; the stored normalized phone is recomputed from it. */
  function WithPhoneWritten(p: Partner, phone: string, e164: Phone.Formatter): (r: Partner)
    ensures r.phone == Some(phone) && r.normalizedPhone == Phone.NormalizedField(Some(phone), e164)
    ensures r.name == p.name && r.mobile == p.mobile && r.normalizedMobile == p.normalizedMobile
  {
    p.(phone := Some(phone), normalizedPhone := Phone.NormalizedField(Some(phone), e164))
  }

  // ---------------------------------------------------------------------
  // The send precondition

  /** A send needs a provider and a template or a non-empty message. */
  predicate Sendable(hasConfig: bool, hasTemplate: bool, message: Option<string>)
  {
    hasConfig && (hasTemplate || Truthy(message))
  }

  datatype FormError = NothingToSend | InvalidFormat

  /** The two checks each wizard's send action makes, in this order, before anything is written. */
  function FormCheck(hasConfig: bool, hasTemplate: bool, message: Option<string>, phone: string): (r: Option<FormError>)
    ensures r.None? <==> Sendable(hasConfig, hasTemplate, message) && Dialable(phone)
    ensures r == Some(InvalidFormat) <==> Sendable(hasConfig, hasTemplate, message) && !Dialable(phone)
  {
    if !Sendable(hasConfig, hasTemplate, message) then Some(NothingToSend)
    else if !Dialable(phone) then Some(InvalidFormat)
    else None
  }

  // ---------------------------------------------------------------------
  // The computed message

  datatype ComputeError = ModelNotFound

  /**
   * `_compute_message` of the purchase, CRM and inventory wizards: nothing
   * without a template or a record; otherwise the dispatcher's calculation
   * for the record, falling back to the raw template text when it fails.
   * `model` is the `ir.model` id found for the record's model.
   */
  function ComputedMessage(template: Option<Dispatcher.TemplateRef>, record: Option<nat>, model: Option<nat>,
                           found: bool, mappings: seq<Dispatcher.Mapping>): (r: Result<Option<string>, ComputeError>)
    ensures template.None? || record.None? ==> r == Ok(None)
    ensures template.Some? && record.Some? ==> (r.Err? <==> model.None?)
    ensures template.Some? && record.Some? && model.Some? ==>
              var outcome := Dispatcher.Calculation(template, Dispatcher.Source(model, record.value, found, mappings));
              r == Ok(if outcome.Ok? then outcome.value.message else template.value.message)
  {
    if template.None? || record.None? then Ok(None)
    else if model.None? then Err(ModelNotFound)
    else match Dispatcher.Calculation(template, Dispatcher.Source(model, record.value, found, mappings))
      case Ok(c) => Ok(c.message)
      case Err(_) => Ok(template.value.message)
  }

  /**
   * Whatever the calculation does, a template without mappings, or one bound
   * to another model, yields its own text.
   */
  lemma RawTemplateText(template: Dispatcher.TemplateRef, record: nat, model: nat, found: bool,
                        mappings: seq<Dispatcher.Mapping>)
    requires mappings == [] || (template.available.Some? && template.available != Some(model))
    ensures ComputedMessage(Some(template), Some(record), Some(model), found, mappings) == Ok(template.message)
  {
    var outcome := Dispatcher.Calculation(Some(template), Dispatcher.Source(Some(model), record, found, mappings));
    if template.available.Some? && template.available != Some(model) {
      assert outcome == Err(Dispatcher.WrongModel);
    }
  }

  // ---------------------------------------------------------------------
  // The report PDF

  /** The record a wizard is opened on. */
  datatype Origin = PurchaseOrder | Lead | Transfer | PosOrder

  datatype ReportType = Standard | Custom

  /** WhatsApp's 100 MB document limit, in bytes. */
  const MaxPdfBytes: nat := 100 * 1024 * 1024

  datatype ReportError = StandardUnavailable | ReportMissing(xmlId: string) | TooLarge | RenderFailed

  /** The report each wizard renders for a report type; leads have no standard report. */
  function ReportXmlId(origin: Origin, kind: ReportType): (r: Result<string, ReportError>)
    ensures r.Err? <==> origin == Lead && kind == Standard
    ensures r.Err? ==> r.error == StandardUnavailable
  {
    match (origin, kind)
    case (PurchaseOrder, Standard) => Ok("purchase.action_report_purchase_order")
    case (PurchaseOrder, Custom) => Ok("meta_whatsapp_purchase.action_report_custom_purchaseorder")
    case (Lead, Standard) => Err(StandardUnavailable)
    case (Lead, Custom) => Ok("meta_whatsapp_crm.action_report_custom_crm_lead")
    case (Transfer, Standard) => Ok("stock.action_report_picking")
    case (Transfer, Custom) => Ok("meta_whatsapp_inventory.action_report_custom_inventory_transfer")
    case (PosOrder, Standard) => Ok("point_of_sale.action_report_pos_order")
    case (PosOrder, Custom) => Ok("meta_whatsapp_pos.action_report_custom_pos_order")
  }

  /** The file name of the generated PDF. */
  function PdfName(origin: Origin, recordName: string): string
  {
    recordName + match origin
      case PurchaseOrder => "_purchase_order.pdf"
      case Lead => "_lead.pdf"
      case Transfer => "_transfer.pdf"
      case PosOrder => "_order.pdf"
  }

  /**
   * The report looked up among the `installed` external ids, rendered
   * (`rendered` is the PDF's size, `None` when rendering raises), checked
   * against the limit and stored as an attachment.
   */
  function ReportPdf(origin: Origin, kind: ReportType, recordName: string, installed: set<string>,
                     rendered: Option<nat>): (r: Result<Dispatcher.Attachment, ReportError>)
    ensures r.Ok? <==> ReportXmlId(origin, kind).Ok? && ReportXmlId(origin, kind).value in installed
                       && rendered.Some? && rendered.value <= MaxPdfBytes
    ensures r.Ok? ==> r.value.mimetype == "application/pdf" && r.value.size == rendered.value
                      && r.value.name == PdfName(origin, recordName)
    ensures r == Err(TooLarge) <==> ReportXmlId(origin, kind).Ok? && ReportXmlId(origin, kind).value in installed
                                    && rendered.Some? && rendered.value > MaxPdfBytes
  {
    match ReportXmlId(origin, kind)
    case Err(e) => Err(e)
    case Ok(xmlId) =>
      if xmlId !in installed then Err(ReportMissing(xmlId))
      else if rendered.None? then Err(RenderFailed)
      else if rendered.value > MaxPdfBytes then Err(TooLarge)
      else Ok(Dispatcher.Attachment(PdfName(origin, recordName), "application/pdf", rendered.value, rendered.value > 0))
  }

  // ---------------------------------------------------------------------
  // The defaults a wizard opens with

  /** The default values `default_get` returns, reduced to those it changes. */
  datatype Defaults = Defaults(message: Option<string>, attachPdf: bool, reportType: ReportType,
                               attachments: seq<Dispatcher.Attachment>)

  /**
   * The record the wizard is opened on: its name, the summary text built
   * from it, and (for a purchase order) whether a purchase analysis line
   * exists for it.
   */
  datatype Opened = Opened(name: string, summary: string, analysed: bool)

  /** Only a purchase order needs an analysis line for its summary. */
  predicate SummaryOffered(origin: Origin, record: Opened)
  {
    origin != PurchaseOrder || record.analysed
  }

  /**
   * `default_get` of the purchase, CRM and inventory wizards: the summary
   * fills an empty message; with "attach PDF" the report's PDF becomes the
   * only default attachment, and any failure to produce it raises.
   */
  function DefaultGet(origin: Origin, res: Defaults, record: Option<Opened>, installed: set<string>,
                      rendered: Option<nat>): (r: Result<Defaults, ReportError>)
    requires origin != PosOrder
    ensures record.None? ==> r == Ok(res)
    ensures r.Ok? ==> r.value.attachPdf == res.attachPdf && r.value.reportType == res.reportType
    ensures r.Ok? && Truthy(res.message) ==> r.value.message == res.message
    ensures r.Ok? && record.Some? && !Truthy(res.message) ==>
              r.value.message == (if SummaryOffered(origin, record.value) then Some(record.value.summary) else res.message)
    ensures r.Err? <==> record.Some? && res.attachPdf
                        && ReportPdf(origin, res.reportType, record.value.name, installed, rendered).Err?
    ensures record.Some? && res.attachPdf && r.Ok? ==>
              |r.value.attachments| == 1 && r.value.attachments[0].size <= MaxPdfBytes
              && r.value.attachments[0].name == PdfName(origin, record.value.name)
    ensures (record.None? || !res.attachPdf) && r.Ok? ==> r.value.attachments == res.attachments
  {
    if record.None? then Ok(res)
    else
      var rec := record.value;
      var res1 := if SummaryOffered(origin, rec) && !Truthy(res.message) then res.(message := Some(rec.summary)) else res;
      if !res.attachPdf then Ok(res1)
      else match ReportPdf(origin, res.reportType, rec.name, installed, rendered)
        case Err(e) => Err(e)
        case Ok(pdf) => Ok(res1.(attachments := [pdf]))
  }

  /** A CRM wizard asked for the standard report with a PDF never opens. */
  lemma LeadStandardReportRaises(res: Defaults, record: Opened, installed: set<string>, rendered: Option<nat>)
    requires res.attachPdf && res.reportType == Standard
    ensures DefaultGet(Lead, res, Some(record), installed, rendered) == Err(StandardUnavailable)
  {
  }
}
