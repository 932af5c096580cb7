/**
 * The sale order wizard: its computed message, and its send action, which
 * talks to the Graph API itself rather than through the dispatcher. The
 * action sends the template or the text, then uploads and sends each
 * attachment, writing one `sent` history row per message. A request failure
 * writes a `failed` row and raises, which rolls every row back.
 */
module SaleWizard {
  import opened Wrappers
  import opened Text
  import opened Records
  import opened WizardRules
  import Dispatcher
  import Http

  // ---------------------------------------------------------------------
  // The computed message

  const PartnerPlaceholder := "{{partner_name}}"
  const OrderPlaceholder := "{{order_name}}"
  const AmountPlaceholder := "{{amount_total}}"

  /** The order as the message sees it; `amount` is the printed total. */
  datatype SaleOrder = SaleOrder(name: string, amount: string)

  /** Replacing on a template without text (`False.replace`) raises. */
  datatype MessageError = NoTemplateText

  /**
   * `_compute_message`: with a template and an order, the template's text
   * with the customer name, the order name and the total put in for their
   * placeholders, in that order; nothing otherwise.
   */
  function SaleMessage(template: Option<Dispatcher.TemplateRef>, order: Option<SaleOrder>, partnerName: string)
    : (r: Result<Option<string>, MessageError>)
    ensures template.None? || order.None? ==> r == Ok(None)
    ensures template.Some? && order.Some? ==> (r.Err? <==> template.value.message.None?)
    ensures r.Ok? && r.value.Some? ==> template.Some? && order.Some?
  {
    if template.None? || order.None? then Ok(None)
    else if template.value.message.None? then Err(NoTemplateText)
    else
      var text := template.value.message.value;
      var withPartner := ReplaceAll(text, PartnerPlaceholder, partnerName);
      var withOrder := ReplaceAll(withPartner, OrderPlaceholder, order.value.name);
      Ok(Some(ReplaceAll(withOrder, AmountPlaceholder, order.value.amount)))
  }

  /** A template text without any of the three placeholders is the message as it stands. */
  lemma TextWithoutPlaceholders(template: Dispatcher.TemplateRef, order: SaleOrder, partnerName: string)
    requires template.message.Some?
    requires !Contains(template.message.value, PartnerPlaceholder)
    requires !Contains(template.message.value, OrderPlaceholder)
    requires !Contains(template.message.value, AmountPlaceholder)
    ensures SaleMessage(Some(template), Some(order), partnerName) == Ok(template.message)
  {
    var text := template.message.value;
    ReplaceAllAbsent(text, PartnerPlaceholder, partnerName);
    ReplaceAllAbsent(text, OrderPlaceholder, order.name);
    ReplaceAllAbsent(text, AmountPlaceholder, order.amount);
  }

  /**
   * The customer's name goes where the partner placeholder stands, in a
   * text with nothing else to replace (no other `{`, in the text or the
   * name).
   */
  lemma PartnerNamePutIn(template: Dispatcher.TemplateRef, order: SaleOrder, partnerName: string,
                         before: string, after: string)
    requires template.message == Some(before + PartnerPlaceholder + after)
    requires Lacks(before, '{') && Lacks(after, '{') && Lacks(partnerName, '{')
    ensures SaleMessage(Some(template), Some(order), partnerName) == Ok(Some(before + partnerName + after))
  {
    ReplaceAllLone(before, PartnerPlaceholder, after, partnerName);
    var filled := before + partnerName + after;
    LacksConcat(before, partnerName, '{');
    LacksConcat(before + partnerName, after, '{');
    LacksFirstNotContains(filled, OrderPlaceholder);
    LacksFirstNotContains(filled, AmountPlaceholder);
    ReplaceAllAbsent(filled, OrderPlaceholder, order.name);
    ReplaceAllAbsent(filled, AmountPlaceholder, order.amount);
  }

  /** The order's name goes where the order placeholder stands, in a text with no other `{`. */
  lemma OrderNamePutIn(template: Dispatcher.TemplateRef, order: SaleOrder, partnerName: string,
                       before: string, after: string)
    requires template.message == Some(before + OrderPlaceholder + after)
    requires Lacks(before, '{') && Lacks(after, '{') && Lacks(order.name, '{')
    ensures SaleMessage(Some(template), Some(order), partnerName) == Ok(Some(before + order.name + after))
  {
    var text := before + OrderPlaceholder + after;
    PlaceholderNotFound(before, OrderPlaceholder, after, PartnerPlaceholder);
    ReplaceAllAbsent(text, PartnerPlaceholder, partnerName);
    ReplaceAllLone(before, OrderPlaceholder, after, order.name);
    var filled := before + order.name + after;
    LacksConcat(before, order.name, '{');
    LacksConcat(before + order.name, after, '{');
    LacksFirstNotContains(filled, AmountPlaceholder);
    ReplaceAllAbsent(filled, AmountPlaceholder, order.amount);
  }

  /** The order's total goes where the amount placeholder stands, in a text with no other `{`. */
  lemma AmountPutIn(template: Dispatcher.TemplateRef, order: SaleOrder, partnerName: string,
                    before: string, after: string)
    requires template.message == Some(before + AmountPlaceholder + after)
    requires Lacks(before, '{') && Lacks(after, '{')
    ensures SaleMessage(Some(template), Some(order), partnerName) == Ok(Some(before + order.amount + after))
  {
    var text := before + AmountPlaceholder + after;
    PlaceholderNotFound(before, AmountPlaceholder, after, PartnerPlaceholder);
    ReplaceAllAbsent(text, PartnerPlaceholder, partnerName);
    PlaceholderNotFound(before, AmountPlaceholder, after, OrderPlaceholder);
    ReplaceAllAbsent(text, OrderPlaceholder, order.name);
    ReplaceAllLone(before, AmountPlaceholder, after, order.amount);
  }

  /** The shape of the three placeholders: `{{`, then no further `{`. */
  predicate Placeholder(p: string)
  {
    |p| >= 3 && p[0] == '{' && p[1] == '{' && Lacks(p[2..], '{')
  }

  /**
   * Around one placeholder, with no other `{` in the text, a placeholder
   * that differs from it at the third character does not occur.
   */
  lemma PlaceholderNotFound(before: string, here: string, after: string, other: string)
    requires Placeholder(here) && Placeholder(other) && other[2] != here[2]
    requires Lacks(before, '{') && Lacks(after, '{')
    ensures !Contains(before + here + after, other)
  {
    var text := before + here + after;
    var b := |before|;
    forall k | 0 <= k <= |text| ensures !OccursAt(text, other, k) {
      if k + |other| <= |text| {
        var w := text[k..k + |other|];
        assert w[0] == text[k] && w[1] == text[k + 1] && w[2] == text[k + 2];
        if k < b {
          assert text[k] == before[k];
        } else if k == b {
          assert text[k + 2] == here[2];
        } else if k < b + |here| {
          if k + 1 < b + |here| {
            assert text[k + 1] == here[2..][k + 1 - b - 2];
          } else {
            assert text[k + 1] == after[0];
          }
        } else {
          assert text[k] == after[k - b - |here|];
        }
      }
    }
  }

  // ---------------------------------------------------------------------
  // The calls

  /** The media class a MIME type is sent as: by its prefix, documents by default. */
  datatype MediaClass = ImageMedia | VideoMedia | AudioMedia | DocumentMedia

  function MediaClassOf(mime: string): (k: MediaClass)
    ensures k == ImageMedia <==> StartsWith(mime, "image")
    ensures k == VideoMedia <==> !StartsWith(mime, "image") && StartsWith(mime, "video")
    ensures k == AudioMedia <==> !StartsWith(mime, "image") && !StartsWith(mime, "video") && StartsWith(mime, "audio")
  {
    if StartsWith(mime, "image") then ImageMedia
    else if StartsWith(mime, "video") then VideoMedia
    else if StartsWith(mime, "audio") then AudioMedia
    else DocumentMedia
  }

  datatype Payload =
    | TemplatePayload(to: string, name: string, lang: string)
    | TextPayload(to: string, body: string)
    | UploadPayload(file: string, mimetype: string)
    | MediaPayload(to: string, kind: MediaClass, mediaId: Option<string>, filename: Option<string>)

  /** The sale wizard's form. `config` is the provider's id. */
  datatype SaleForm = SaleForm(
    partner: nat, phone: string, template: Option<Dispatcher.TemplateRef>, message: Option<string>,
    config: Option<nat>, attachments: seq<Dispatcher.Attachment>)

  /**
   * A reply read with `raise_for_status()` and `.json()`: no response, an
   * error status or a body that is not JSON each raise a request exception.
   */
  predicate Readable(r: Http.Reply)
  {
    r.Response? && !Http.StatusRaises(r) && r.body.Some?
  }

  /** What a message call's reply gives: a request exception, an `IndexError`, or the ids. */
  datatype Read = Failure | Crash | Ids(messageId: Option<string>, conversationId: Option<string>)

  /**
   * `messages[0].id` and `conversations[0].id`, each read with `[{}]` as the
   * default list: an absent `messages` key gives no id, an empty list raises.
   */
  function ReadSend(r: Http.Reply): (read: Read)
    ensures read.Failure? <==> !Readable(r)
    ensures read.Crash? <==> Readable(r) && r.body.value.messageIds == Some([])
    ensures read.Ids? && r.body.value.messageIds.Some? ==> read.messageId == Some(r.body.value.messageIds.value[0])
  {
    if !Readable(r) then Failure
    else match r.body.value.messageIds
      case None => Ids(None, r.body.value.conversationId)
      case Some(ids) => if ids == [] then Crash else Ids(Some(ids[0]), r.body.value.conversationId)
  }

  // ---------------------------------------------------------------------
  // The action

  /** How the action ends: a form check refused it, a request failed, an exception escaped, or done. */
  datatype Outcome = Refused(reason: FormError) | RequestFailed(reply: Http.Reply) | Crashed | Done

  /** The state the action carries: the tables, the calls made, and the first message's conversation. */
  datatype Run = Run(t: Tables, requests: seq<Payload>, conversation: Option<string>)

  datatype Step = Go(run: Run) | Stop(outcome: Outcome, run: Run)

  /** A `sent` history row for this form. */
  function SentRow(w: SaleForm, to: string, user: nat, message: Option<string>, template: Option<nat>,
                   messageId: Option<string>, conversation: Option<string>): HistoryRecord
  {
    Blank(Sent).(number := Some(to), partner := Some(w.partner), user := Some(user), message := message,
                 config := w.config, template := template, messageId := messageId, conversationId := conversation)
  }

  /** The row a request failure writes before the action raises. */
  function FailedRow(w: SaleForm, to: string, user: nat, reply: Http.Reply): HistoryRecord
  {
    Blank(Failed).(number := Some(to), partner := Some(w.partner), user := Some(user),
                   message := Some(if Truthy(w.message) then w.message.value else "Attachment sending failed"),
                   config := w.config, template := if w.template.Some? then Some(w.template.value.id) else None,
                   error := Some(reply))
  }

  /** The first call: the template when there is one, otherwise the text. */
  function MainPayload(w: SaleForm, to: string): (p: Payload)
    ensures p.TemplatePayload? <==> w.template.Some?
  {
    if w.template.Some? then TemplatePayload(to, w.template.value.name, ReplaceChar(w.template.value.langCode, '-', '_'))
    else TextPayload(to, w.message.GetOr(""))
  }

  function MainStep(t: Tables, w: SaleForm, to: string, user: nat, replies: seq<Http.Reply>): (s: Step)
    ensures s.Stop? ==> s.outcome.RequestFailed? || s.outcome.Crashed?
  {
    var payload := MainPayload(w, to);
    var reply := Http.Nth(replies, 0);
    var run := Run(t, [payload], None);
    match ReadSend(reply)
    case Failure => Stop(RequestFailed(reply), run)
    case Crash => Stop(Crashed, run)
    case Ids(id, conversation) =>
      var row := SentRow(w, to, user, w.message, if w.template.Some? then Some(w.template.value.id) else None,
                         id, conversation);
      Go(Run(t.(history := t.history + [row]), [payload], conversation))
  }

  /** The text of an attachment's history row. */
  function AttachmentNote(a: Dispatcher.Attachment): string
  {
    "Sent attachment: " + a.name
  }

  /** The media message for an uploaded attachment; only a document carries its file name. */
  function MediaPayloadFor(a: Dispatcher.Attachment, to: string, upload: Http.Reply): (p: Payload)
    ensures p.MediaPayload? && p.to == to && p.kind == MediaClassOf(a.mimetype)
    ensures p.filename.Some? <==> p.kind == DocumentMedia
    ensures p.filename.Some? ==> p.filename.value == a.name
  {
    var kind := MediaClassOf(a.mimetype);
    MediaPayload(to, kind, Http.ReturnedId(upload), if kind == DocumentMedia then Some(a.name) else None)
  }

  /**
   * One attachment: decoding data that is not there raises; otherwise the
   * upload, then the media message, then its `sent` row.
   */
  function AttachmentStep(run: Run, a: Dispatcher.Attachment, w: SaleForm, to: string, user: nat,
                          replies: seq<Http.Reply>): (s: Step)
    ensures s.Stop? ==> s.outcome.RequestFailed? || s.outcome.Crashed?
    ensures s.run.conversation == run.conversation
  {
    if !a.hasData then Stop(Crashed, run)
    else
      var n := |run.requests|;
      var upload := Http.Nth(replies, n);
      var run1 := run.(requests := run.requests + [UploadPayload(a.name, a.mimetype)]);
      if !Readable(upload) then Stop(RequestFailed(upload), run1)
      else
        var run2 := run1.(requests := run1.requests + [MediaPayloadFor(a, to, upload)]);
        var reply := Http.Nth(replies, n + 1);
        match ReadSend(reply)
        case Failure => Stop(RequestFailed(reply), run2)
        case Crash => Stop(Crashed, run2)
        case Ids(id, _) =>
          var row := SentRow(w, to, user, Some(AttachmentNote(a)), None, id, run.conversation);
          Go(run2.(t := run2.t.(history := run2.t.history + [row])))
  }

  function AttachmentPhase(run: Run, atts: seq<Dispatcher.Attachment>, w: SaleForm, to: string, user: nat,
                           replies: seq<Http.Reply>): (s: Step)
    ensures s.Stop? ==> s.outcome.RequestFailed? || s.outcome.Crashed?
    decreases |atts|
  {
    if atts == [] then Go(run)
    else match AttachmentStep(run, atts[0], w, to, user, replies)
      case Stop(o, r) => Stop(o, r)
      case Go(r) => AttachmentPhase(r, atts[1..], w, to, user, replies)
  }

  /** A step that goes on hands its run to the rest of the phase. */
  lemma AttachmentPhaseGoes(run: Run, atts: seq<Dispatcher.Attachment>, w: SaleForm, to: string, user: nat,
                            replies: seq<Http.Reply>)
    requires atts != [] && AttachmentStep(run, atts[0], w, to, user, replies).Go?
    ensures AttachmentPhase(run, atts, w, to, user, replies)
            == AttachmentPhase(AttachmentStep(run, atts[0], w, to, user, replies).run, atts[1..], w, to, user, replies)
  {
  }

  datatype SaleSent = SaleSent(outcome: Outcome, t: Tables, requests: seq<Payload>)

  /**
   * `action_send_message` as a function of the tables and the replies in
   * call order: anything short of completion leaves the tables as they were.
   */
  function Send(t: Tables, w: SaleForm, user: nat, replies: seq<Http.Reply>): (s: SaleSent)
    ensures s.outcome != Done ==> s.t == t
    ensures s.outcome.Refused? <==> FormCheck(w.config.Some?, w.template.Some?, w.message, w.phone).Some?
    ensures s.outcome.Refused? ==> s.requests == []
  {
    var check := FormCheck(w.config.Some?, w.template.Some?, w.message, w.phone);
    if check.Some? then SaleSent(Refused(check.value), t, [])
    else
      var to := Cleaned(w.phone);
      match MainStep(t, w, to, user, replies)
      case Stop(o, r) => SaleSent(o, t, r.requests)
      case Go(r) =>
        match AttachmentPhase(r, w.attachments, w, to, user, replies)
        case Stop(o, r2) => SaleSent(o, t, r2.requests)
        case Go(r2) => SaleSent(Done, r2.t, r2.requests)
  }

  // ---------------------------------------------------------------------
  // What a completed send leaves behind

  /** An attachment's two calls: its upload, then its media message, classed by MIME type. */
  predicate CallsFor(upload: Payload, media: Payload, a: Dispatcher.Attachment, to: string)
  {
    upload == UploadPayload(a.name, a.mimetype)
    && media.MediaPayload? && media.to == to && media.kind == MediaClassOf(a.mimetype)
    && media.filename == (if MediaClassOf(a.mimetype) == DocumentMedia then Some(a.name) else None)
  }

  /** Two calls per attachment, in the attachments' order. */
  predicate AttachmentCalls(rs: seq<Payload>, atts: seq<Dispatcher.Attachment>, to: string)
  {
    |rs| == 2 * |atts| && forall k | 0 <= k < |atts| :: CallsFor(rs[2 * k], rs[2 * k + 1], atts[k], to)
  }

  /** A `sent` row naming an attachment. */
  predicate RowFor(row: HistoryRecord, a: Dispatcher.Attachment, to: string)
  {
    row.status == Sent && row.number == Some(to) && row.message == Some(AttachmentNote(a))
  }

  /** One `sent` row per attachment, naming it. */
  predicate AttachmentRows(rows: seq<HistoryRecord>, atts: seq<Dispatcher.Attachment>, to: string)
  {
    |rows| == |atts| && forall k | 0 <= k < |atts| :: RowFor(rows[k], atts[k], to)
  }

  lemma CallsCons(upload: Payload, media: Payload, rest: seq<Payload>, atts: seq<Dispatcher.Attachment>, to: string)
    requires atts != [] && CallsFor(upload, media, atts[0], to) && AttachmentCalls(rest, atts[1..], to)
    ensures AttachmentCalls([upload, media] + rest, atts, to)
  {
    var rs := [upload, media] + rest;
    forall k | 1 <= k < |atts|
      ensures CallsFor(rs[2 * k], rs[2 * k + 1], atts[k], to)
    {
      assert rs[2 * k] == rest[2 * (k - 1)] && rs[2 * k + 1] == rest[2 * (k - 1) + 1];
      assert atts[k] == atts[1..][k - 1];
    }
  }

  lemma RowsCons(row: HistoryRecord, rest: seq<HistoryRecord>, atts: seq<Dispatcher.Attachment>, to: string)
    requires atts != [] && RowFor(row, atts[0], to) && AttachmentRows(rest, atts[1..], to)
    ensures AttachmentRows([row] + rest, atts, to)
  {
    forall k | 1 <= k < |atts|
      ensures RowFor(([row] + rest)[k], atts[k], to)
    {
      assert atts[k] == atts[1..][k - 1];
    }
  }

  lemma AttachmentStepLogs(run: Run, a: Dispatcher.Attachment, w: SaleForm, to: string, user: nat,
                            replies: seq<Http.Reply>)
    requires AttachmentStep(run, a, w, to, user, replies).Go?
    ensures var mid := AttachmentStep(run, a, w, to, user, replies).run;
            var n := |run.t.history|;
            mid.requests == run.requests + [UploadPayload(a.name, a.mimetype), MediaPayloadFor(a, to, Http.Nth(replies, |run.requests|))]
            && |mid.t.history| == n + 1 && mid.t == run.t.(history := run.t.history + [mid.t.history[n]])
            && RowFor(mid.t.history[n], a, to)
  {
  }

  lemma PhaseUnfolds(run: Run, atts: seq<Dispatcher.Attachment>, w: SaleForm, to: string, user: nat,
                      replies: seq<Http.Reply>)
    requires atts != [] && AttachmentStep(run, atts[0], w, to, user, replies).Go?
    ensures AttachmentPhase(run, atts, w, to, user, replies)
            == AttachmentPhase(AttachmentStep(run, atts[0], w, to, user, replies).run, atts[1..], w, to, user, replies)
  {
  }

  /** One step's calls and row, followed by the rest's, are the calls and rows of the whole. */
  lemma PhaseCons(run: Run, mid: Run, r: Run, step: seq<Payload>, row: HistoryRecord,
                  restCalls: seq<Payload>, restRows: seq<HistoryRecord>)
    requires mid.requests == run.requests + step && mid.t == run.t.(history := run.t.history + [row])
    requires r.requests == mid.requests + restCalls && r.t == mid.t.(history := mid.t.history + restRows)
    ensures r.requests == run.requests + (step + restCalls)
    ensures r.t == run.t.(history := run.t.history + ([row] + restRows))
  {
    assert (run.requests + step) + restCalls == run.requests + (step + restCalls);
    assert (run.t.history + [row]) + restRows == run.t.history + ([row] + restRows);
  }

  /** The loop's calls and rows: whatever the attachments are, two calls and one row each. */
  lemma {:induction false} AttachmentPhaseLogs(run: Run, atts: seq<Dispatcher.Attachment>, w: SaleForm, to: string,
                                               user: nat, replies: seq<Http.Reply>)
    returns (calls: seq<Payload>, rows: seq<HistoryRecord>)
    requires AttachmentPhase(run, atts, w, to, user, replies).Go?
    ensures var r := AttachmentPhase(run, atts, w, to, user, replies).run;
            r.requests == run.requests + calls && AttachmentCalls(calls, atts, to)
            && r.t == run.t.(history := run.t.history + rows) && AttachmentRows(rows, atts, to)
    decreases |atts|
  {
    if atts == [] {
      return [], [];
    }
    var a := atts[0];
    var mid := AttachmentStep(run, a, w, to, user, replies).run;
    PhaseUnfolds(run, atts, w, to, user, replies);
    AttachmentStepLogs(run, a, w, to, user, replies);
    var upload := UploadPayload(a.name, a.mimetype);
    var media := MediaPayloadFor(a, to, Http.Nth(replies, |run.requests|));
    var row := mid.t.history[|run.t.history|];
    var restCalls, restRows := AttachmentPhaseLogs(mid, atts[1..], w, to, user, replies);
    CallsCons(upload, media, restCalls, atts, to);
    RowsCons(row, restRows, atts, to);
    PhaseCons(run, mid, AttachmentPhase(mid, atts[1..], w, to, user, replies).run, [upload, media], row, restCalls, restRows);
    calls, rows := [upload, media] + restCalls, [row] + restRows;
  }

  /**
   * A completed send made one message call and two per attachment, in the
   * attachments' order, and wrote one `sent` row for each message, the
   * first holding the form's message and the rest naming their attachment;
   * no other table changed.
   */
  lemma DoneLogsEverySend(t: Tables, w: SaleForm, user: nat, replies: seq<Http.Reply>)
    requires Send(t, w, user, replies).outcome == Done
    ensures var s := Send(t, w, user, replies);
            var to := Cleaned(w.phone);
            |s.requests| == 1 + 2 * |w.attachments| && s.requests[0] == MainPayload(w, to)
            && AttachmentCalls(s.requests[1..], w.attachments, to)
            && |s.t.history| == |t.history| + 1 + |w.attachments| && s.t.history[..|t.history|] == t.history
            && s.t.history[|t.history|].status == Sent && s.t.history[|t.history|].message == w.message
            && AttachmentRows(s.t.history[|t.history| + 1..], w.attachments, to)
            && s.t == t.(history := s.t.history)
  {
    var to := Cleaned(w.phone);
    var r := MainStep(t, w, to, user, replies).run;
    var calls, rows := AttachmentPhaseLogs(r, w.attachments, w, to, user, replies);
    var s := Send(t, w, user, replies);
    assert s.requests[1..] == calls;
    assert s.t.history[|t.history| + 1..] == rows;
  }

  // ---------------------------------------------------------------------
  // The attachment row as written

  /**
   * One attachment as written: its history row carries an `attachment_id`
   * key the history model does not declare, so creating the row raises
   * (not a request error) once the upload and the media message are out.
   */
  function AttachmentStepAsWritten(run: Run, a: Dispatcher.Attachment, w: SaleForm, to: string, user: nat,
                                   replies: seq<Http.Reply>): (s: Step)
    ensures s.Stop? && s.run.requests == AttachmentStep(run, a, w, to, user, replies).run.requests
    ensures AttachmentStep(run, a, w, to, user, replies).Go? ==> s.outcome == Crashed
    ensures s.outcome.RequestFailed? || s.outcome.Crashed?
  {
    match AttachmentStep(run, a, w, to, user, replies)
    case Stop(o, r) => Stop(o, r)
    case Go(r) => Stop(Crashed, r.(t := run.t))
  }

  /**
   * `action_send_message` as written: without attachments it is the intended
   * action; with some, the first attachment ends it with an exception, and
   * the transaction rolls back the main message's row with everything else.
   */
  function SendAsWritten(t: Tables, w: SaleForm, user: nat, replies: seq<Http.Reply>): (s: SaleSent)
    ensures w.attachments == [] ==> s == Send(t, w, user, replies)
    ensures w.attachments != [] ==> s.outcome != Done && s.t == t
  {
    var check := FormCheck(w.config.Some?, w.template.Some?, w.message, w.phone);
    if check.Some? then SaleSent(Refused(check.value), t, [])
    else
      var to := Cleaned(w.phone);
      match MainStep(t, w, to, user, replies)
      case Stop(o, r) => SaleSent(o, t, r.requests)
      case Go(r) =>
        if w.attachments == [] then SaleSent(Done, r.t, r.requests)
        else
          var s := AttachmentStepAsWritten(r, w.attachments[0], w, to, user, replies);
          SaleSent(s.outcome, t, s.run.requests)
  }

  /**
   * A send the intended action completes, with at least one attachment,
   * crashes as written after three calls: the first message and the first
   * attachment's upload and media message have gone out, and no row is kept.
   */
  lemma AttachmentSendRollsBackAsWritten(t: Tables, w: SaleForm, user: nat, replies: seq<Http.Reply>)
    requires Send(t, w, user, replies).outcome == Done && w.attachments != []
    ensures var s := SendAsWritten(t, w, user, replies);
            var to := Cleaned(w.phone);
            s.outcome == Crashed && s.t == t && |s.requests| == 3 && s.requests[0] == MainPayload(w, to)
            && CallsFor(s.requests[1], s.requests[2], w.attachments[0], to)
  {
    var to := Cleaned(w.phone);
    var r := MainStep(t, w, to, user, replies).run;
    assert AttachmentStep(r, w.attachments[0], w, to, user, replies).Go?;
    AttachmentStepLogs(r, w.attachments[0], w, to, user, replies);
  }

  /** The action: the checks, the first message, the attachment loop, and the rollback on failure. */
  method SendMessage(db: Db, w: SaleForm, user: nat, replies: seq<Http.Reply>)
    returns (outcome: Outcome, requests: seq<Payload>)
    modifies db
    ensures SaleSent(outcome, db.View(), requests) == Send(old(db.View()), w, user, replies)
  {
    var check := FormCheck(w.config.Some?, w.template.Some?, w.message, w.phone);
    if check.Some? {
      return Refused(check.value), [];
    }
    var saved := db.View();
    var to := Cleaned(w.phone);
    var payload := MainPayload(w, to);
    requests := [payload];
    var reply := Http.Nth(replies, 0);
    var read := ReadSend(reply);
    if read.Failure? {
      db.history := db.history + [FailedRow(w, to, user, reply)];
      // the UserError raised next rolls the transaction back
      db.Restore(saved);
      return RequestFailed(reply), requests;
    }
    if read.Crash? {
      db.Restore(saved);
      return Crashed, requests;
    }
    var conversation := read.conversationId;
    db.history := db.history + [SentRow(w, to, user, w.message, if w.template.Some? then Some(w.template.value.id) else None,
                                        read.messageId, conversation)];
    assert MainStep(saved, w, to, user, replies) == Go(Run(db.View(), requests, conversation));
    var stop;
    stop, requests := SendAttachments(db, w.attachments, w, to, user, conversation, requests, replies);
    if stop.Some? {
      if stop.value.RequestFailed? {
        db.history := db.history + [FailedRow(w, to, user, stop.value.reply)];
      }
      db.Restore(saved);
      return stop.value, requests;
    }
    return Done, requests;
  }

  /**
   * The attachment loop: one `SendAttachment` per attachment, leaving at the
   * first that stops; the rows are those of `AttachmentPhase`.
   */
  method SendAttachments(db: Db, atts: seq<Dispatcher.Attachment>, w: SaleForm, to: string, user: nat,
                         conversation: Option<string>, requests: seq<Payload>, replies: seq<Http.Reply>)
    returns (stop: Option<Outcome>, requests': seq<Payload>)
    modifies db`history
    ensures var s := AttachmentPhase(Run(old(db.View()), requests, conversation), atts, w, to, user, replies);
            (stop.None? <==> s.Go?) && (stop.Some? ==> stop.value == s.outcome)
            && requests' == s.run.requests && (s.Go? ==> db.View() == s.run.t)
  {
    ghost var start := Run(db.View(), requests, conversation);
    requests' := requests;
    var i := 0;
    while i < |atts|
      invariant 0 <= i <= |atts|
      invariant AttachmentPhase(Run(db.View(), requests', conversation), atts[i..], w, to, user, replies)
                == AttachmentPhase(start, atts, w, to, user, replies)
    {
      assert atts[i..][1..] == atts[i + 1..];
      ghost var before := Run(db.View(), requests', conversation);
      stop, requests' := SendAttachment(db, atts[i], w, to, user, conversation, requests', replies);
      if stop.Some? {
        return;
      }
      AttachmentPhaseGoes(before, atts[i..], w, to, user, replies);
      i := i + 1;
    }
    assert atts[i..] == [];
    stop := None;
  }

  /** One attachment's upload, media message and row, as `AttachmentStep` says. */
  method SendAttachment(db: Db, a: Dispatcher.Attachment, w: SaleForm, to: string, user: nat,
                        conversation: Option<string>, requests: seq<Payload>, replies: seq<Http.Reply>)
    returns (stop: Option<Outcome>, requests': seq<Payload>)
    modifies db`history
    ensures var s := AttachmentStep(Run(old(db.View()), requests, conversation), a, w, to, user, replies);
            (stop.None? <==> s.Go?) && (stop.Some? ==> stop.value == s.outcome && stop.value != Done)
            && requests' == s.run.requests && (s.Go? ==> db.View() == s.run.t)
  {
    if !a.hasData {
      return Some(Crashed), requests;
    }
    var n := |requests|;
    var upload := Http.Nth(replies, n);
    requests' := requests + [UploadPayload(a.name, a.mimetype)];
    if !Readable(upload) {
      return Some(RequestFailed(upload)), requests';
    }
    requests' := requests' + [MediaPayloadFor(a, to, upload)];
    var reply := Http.Nth(replies, n + 1);
    var read := ReadSend(reply);
    if read.Failure? {
      return Some(RequestFailed(reply)), requests';
    }
    if read.Crash? {
      return Some(Crashed), requests';
    }
    db.history := db.history + [SentRow(w, to, user, Some(AttachmentNote(a)), None, read.messageId, conversation)];
    stop := None;
  }
}
