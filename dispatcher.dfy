/**
 * The send-message dispatcher (`message.configuration`): placeholder
 * substitution, media validation and upload, the operators' group channel,
 * and the template / text / media sends with the single history row each
 * dispatch leaves behind.
 */
module Dispatcher {
  import opened Wrappers
  import opened Text
  import opened Records
  import Http

  // ---------------------------------------------------------------------
  // Media classes

  datatype MediaKind = Audio | Document | Image | Sticker | Video

  /** The MIME types each media class accepts. */
  function MimeTypes(k: MediaKind): seq<string>
  {
    match k
    case Audio => ["audio/aac", "audio/mp4", "audio/mpeg", "audio/amr", "audio/ogg"]
    case Document => ["text/plain", "application/pdf", "application/vnd.ms-powerpoint",
                      "application/msword", "application/vnd.ms-excel",
                      "application/vnd.openxmlformats-officedocument.wordprocessingml.document",
                      "application/vnd.openxmlformats-officedocument.presentationml.presentation",
                      "application/vnd.openxmlformats-officedocument.spreadsheetml.sheet"]
    case Image => ["image/jpeg", "image/png"]
    case Sticker => ["image/webp"]
    case Video => ["video/mp4", "video/3gpp"]
  }

  /** Size limits in tenths of a mebibyte: 16, 100, 5, 0.1 and 16 MB. */
  function LimitTenths(k: MediaKind): nat
  {
    match k
    case Audio => 160
    case Document => 1000
    case Image => 50
    case Sticker => 1
    case Video => 160
  }

  /** The first class, in table order, that lists a MIME type. */
  function MediaKindOf(mime: string): (r: Option<MediaKind>)
    ensures r.Some? ==> mime in MimeTypes(r.value)
    ensures r.None? ==> forall k: MediaKind :: mime !in MimeTypes(k)
  {
    if mime in MimeTypes(Audio) then Some(Audio)
    else if mime in MimeTypes(Document) then Some(Document)
    else if mime in MimeTypes(Image) then Some(Image)
    else if mime in MimeTypes(Sticker) then Some(Sticker)
    else if mime in MimeTypes(Video) then Some(Video)
    else None
  }

  /** `len(data) / (1024 * 1024) <= limit`, in exact integer arithmetic. */
  predicate WithinLimit(k: MediaKind, size: nat)
  {
    size * 10 <= LimitTenths(k) * 1048576
  }

  datatype MediaError = Unsupported | TooLarge(kind: MediaKind)

  /**
   * `validate_media`: the class of the lower-cased MIME type, provided the
   * file fits that class's size limit.
   */
  function ValidateMedia(mime: string, size: nat): (r: Result<MediaKind, MediaError>)
    ensures r.Ok? <==> MediaKindOf(Lower(mime)).Some? && WithinLimit(MediaKindOf(Lower(mime)).value, size)
    ensures r.Ok? ==> Lower(mime) in MimeTypes(r.value) && WithinLimit(r.value, size)
    ensures r == Err(Unsupported) <==> forall k: MediaKind :: Lower(mime) !in MimeTypes(k)
    ensures r.Err? && r.error.TooLarge? ==> Lower(mime) in MimeTypes(r.error.kind) && !WithinLimit(r.error.kind, size)
  {
    match MediaKindOf(Lower(mime))
    case None => Err(Unsupported)
    case Some(k) => if WithinLimit(k, size) then Ok(k) else Err(TooLarge(k))
  }

  // ---------------------------------------------------------------------
  // Placeholder substitution

  /** A template reference as the dispatcher sees it. */
  datatype TemplateRef = TemplateRef(id: nat, name: string, langCode: string, message: Option<string>, available: Option<nat>)

  /** A parameter mapping with the mapped field's value on the record; `None` when reading it raises. */
  datatype Mapping = Mapping(parameterName: string, field: string, value: Option<string>)

  /**
   * The record the template is filled from: its model, the id typed in
   * `number_field` (0 when missing), whether that record exists, and the
   * template's mappings in their stored order.
   */
  datatype Source = Source(model: Option<nat>, recordId: nat, recordFound: bool, mappings: seq<Mapping>)

  /** The calculated text and the texts of the single body component's parameters. */
  datatype Calculated = Calculated(message: Option<string>, parameters: seq<string>)

  datatype CalcError = WrongModel | MissingRecordId | RecordNotFound | FieldUnreadable(field: string)

  /** The API components: one body component carrying the parameters, when there are any. */
  function Components(c: Calculated): (r: seq<seq<string>>)
    ensures |r| <= 1 && (|r| == 1 <==> c.parameters != [])
    ensures |r| == 1 ==> r[0] == c.parameters
  {
    if c.parameters != [] then [c.parameters] else []
  }

  /** Replaces each mapping's placeholder by its value, one mapping after the other. */
  function Substituted(text: string, ms: seq<Mapping>): string
    requires forall k | 0 <= k < |ms| :: ms[k].value.Some?
    decreases |ms|
  {
    if ms == [] then text
    else Substituted(ReplaceAll(text, ms[0].parameterName, ms[0].value.value), ms[1..])
  }

  function ValuesOf(ms: seq<Mapping>): (r: seq<string>)
    ensures |r| == |ms|
    ensures forall k | 0 <= k < |ms| :: r[k] == ms[k].value.GetOr("")
  {
    seq(|ms|, k requires 0 <= k < |ms| => ms[k].value.GetOr(""))
  }

  /** The first mapping whose field cannot be read. */
  function FirstUnreadable(ms: seq<Mapping>): (r: Option<nat>)
    ensures r.Some? ==> r.value < |ms| && ms[r.value].value.None?
    ensures r.None? ==> forall k | 0 <= k < |ms| :: ms[k].value.Some?
  {
    FirstMatch(ms, (m: Mapping) => m.value.None?)
  }

  /** The calculation gets as far as the record: a template for the model, with mappings to fill. */
  predicate ReachesRecord(template: Option<TemplateRef>, src: Source)
  {
    && template.Some? && src.model.Some?
    && !(template.value.available.Some? && template.value.available != src.model)
    && src.mappings != []
  }

  /**
   * `get_calculated_message_and_parameters`: without a template or model the
   * template text as is; a template bound to another model is an error;
   * without mappings the template text as is; otherwise the record must be
   * named and exist, and each mapping contributes one parameter, in order.
   */
  function Calculation(template: Option<TemplateRef>, src: Source): (r: Result<Calculated, CalcError>)
    ensures (template.None? || src.model.None?) ==>
              r.Ok? && r.value.parameters == [] && r.value.message == (if template.Some? then template.value.message else None)
    ensures r == Err(WrongModel) <==> template.Some? && src.model.Some? && template.value.available.Some? && template.value.available != src.model
    ensures r.Ok? && template.Some? && src.model.Some? ==>
              |r.value.parameters| == |src.mappings|
              && forall k | 0 <= k < |src.mappings| :: src.mappings[k].value == Some(r.value.parameters[k])
    ensures r.Ok? && src.mappings == [] ==> r.value.message == (if template.Some? then template.value.message else None)
    ensures r == Err(MissingRecordId) <==> ReachesRecord(template, src) && src.recordId == 0
    ensures r == Err(RecordNotFound) <==> ReachesRecord(template, src) && src.recordId != 0 && !src.recordFound
    ensures r.Err? && r.error.FieldUnreadable? <==>
              ReachesRecord(template, src) && src.recordId != 0 && src.recordFound && FirstUnreadable(src.mappings).Some?
    ensures r.Err? && r.error.FieldUnreadable? ==> r.error.field == src.mappings[FirstUnreadable(src.mappings).value].field
    ensures r.Ok? && ReachesRecord(template, src) ==>
              r.value.message == Some(Substituted(template.value.message.GetOr(""), src.mappings))
  {
    if template.None? || src.model.None? then
      Ok(Calculated(if template.Some? then template.value.message else None, []))
    else if template.value.available.Some? && template.value.available != src.model then Err(WrongModel)
    else if src.mappings == [] then Ok(Calculated(template.value.message, []))
    else if src.recordId == 0 then Err(MissingRecordId)
    else if !src.recordFound then Err(RecordNotFound)
    else match FirstUnreadable(src.mappings)
      case Some(k) => Err(FieldUnreadable(src.mappings[k].field))
      case None => Ok(Calculated(Some(Substituted(template.value.message.GetOr(""), src.mappings)), ValuesOf(src.mappings)))
  }

  /**
   * A template with one mapping whose field can be read: the value goes
   * where the placeholder first stands, the text before it is kept, every
   * later occurrence is replaced too, and the value is the one parameter.
   */
  lemma CalculationPutsInValue(template: TemplateRef, src: Source, i: nat)
    requires ReachesRecord(Some(template), src) && src.recordId != 0 && src.recordFound
    requires |src.mappings| == 1 && src.mappings[0].value.Some? && src.mappings[0].parameterName != []
    requires OccursAt(template.message.GetOr(""), src.mappings[0].parameterName, i)
    requires forall j | 0 <= j < i :: !OccursAt(template.message.GetOr(""), src.mappings[0].parameterName, j)
    ensures var text, m := template.message.GetOr(""), src.mappings[0];
            Calculation(Some(template), src)
            == Ok(Calculated(Some(text[..i] + m.value.value + ReplaceAll(text[i + |m.parameterName|..], m.parameterName, m.value.value)),
                             [m.value.value]))
  {
    var text, m := template.message.GetOr(""), src.mappings[0];
    assert FirstUnreadable(src.mappings).None?;
    assert Substituted(text, src.mappings) == ReplaceAll(text, m.parameterName, m.value.value);
    assert ValuesOf(src.mappings) == [m.value.value];
    assert Calculation(Some(template), src)
           == Ok(Calculated(Some(Substituted(text, src.mappings)), ValuesOf(src.mappings)));
    ReplaceAllFirst(text, m.parameterName, m.value.value, i);
  }

  /** The substitution loop, computing what `Calculation` specifies. */
  method CalculateMessage(template: Option<TemplateRef>, src: Source) returns (r: Result<Calculated, CalcError>)
    ensures r == Calculation(template, src)
  {
    if template.None? || src.model.None? {
      return Ok(Calculated(if template.Some? then template.value.message else None, []));
    }
    var t := template.value;
    if t.available.Some? && t.available != src.model {
      return Err(WrongModel);
    }
    var ms := src.mappings;
    if ms == [] {
      return Ok(Calculated(t.message, []));
    }
    if src.recordId == 0 {
      return Err(MissingRecordId);
    }
    if !src.recordFound {
      return Err(RecordNotFound);
    }
    var bad, text, parameters := SubstituteAll(t.message.GetOr(""), ms);
    if bad.Some? {
      return Err(FieldUnreadable(ms[bad.value].field));
    }
    return Ok(Calculated(Some(text), parameters));
  }

  /**
   * The loop over the mappings: each value read replaces its placeholder in
   * the text and joins the parameters, until a field cannot be read.
   */
  method SubstituteAll(text: string, ms: seq<Mapping>) returns (bad: Option<nat>, out: string, parameters: seq<string>)
    ensures bad == FirstUnreadable(ms)
    ensures bad.None? ==> out == Substituted(text, ms) && parameters == ValuesOf(ms)
  {
    out, parameters := text, [];
    var i := 0;
    while i < |ms|
      invariant 0 <= i <= |ms|
      invariant forall k | 0 <= k < i :: ms[k].value.Some?
      invariant parameters == ValuesOf(ms[..i])
      invariant (forall k | i <= k < |ms| :: ms[k].value.Some?) ==> Substituted(out, ms[i..]) == Substituted(text, ms)
    {
      var m := ms[i];
      if m.value.None? {
        assert FirstUnreadable(ms) == Some(i);
        return Some(i), out, parameters;
      }
      assert ms[i..][1..] == ms[i + 1..];
      out := ReplaceAll(out, m.parameterName, m.value.value);
      parameters := parameters + [m.value.value];
      assert ms[..i + 1] == ms[..i] + [m];
      i := i + 1;
    }
    assert ms[..i] == ms;
    return None, out, parameters;
  }

  /** Values equal to their own placeholders leave the template text unchanged. */
  lemma {:induction false} SelfSubstitution(text: string, ms: seq<Mapping>)
    requires forall k | 0 <= k < |ms| :: ms[k].value == Some(ms[k].parameterName)
    ensures Substituted(text, ms) == text
    decreases |ms|
  {
    if ms != [] {
      ReplaceAllSelf(text, ms[0].parameterName);
      SelfSubstitution(text, ms[1..]);
    }
  }

  /** Placeholders that do not occur in the text leave it unchanged. */
  lemma {:induction false} AbsentPlaceholders(text: string, ms: seq<Mapping>)
    requires forall k | 0 <= k < |ms| :: ms[k].value.Some? && ms[k].parameterName != [] && !Contains(text, ms[k].parameterName)
    ensures Substituted(text, ms) == text
    decreases |ms|
  {
    if ms != [] {
      ReplaceAllAbsent(text, ms[0].parameterName, ms[0].value.value);
      AbsentPlaceholders(text, ms[1..]);
    }
  }

  // ---------------------------------------------------------------------
  // The operators' group channel

  /** A user of the database with the contact that represents them. */
  datatype Member = Member(user: nat, partner: nat)

  /** A provider with its operators. */
  datatype ProviderOps = ProviderOps(id: nat, operators: set<Member>)

  function OperatorPartners(ops: set<Member>): set<nat>
  {
    set m | m in ops :: m.partner
  }

  predicate IsGroupOf(c: Channel, partner: nat, config: Option<nat>)
  {
    c.kind == Group && partner in c.members && (config.None? || c.config == config)
  }

  /**
   * `get_or_create_chat_channel`: refused (None) for a provider without
   * operators or one the current user does not operate; otherwise the first
   * group channel holding the contact, topped up with every operator, or a
   * new one holding the contact and every operator. Without a provider the
   * operators are a plain list of the current user's contact, and topping up
   * an existing channel subtracts its members from that list, which fails and
   * is caught: an existing channel is then refused too, and only a new one is
   * made.
   */
  function GroupChannelLookup(channels: seq<Channel>, partner: nat, partnerName: string,
                              config: Option<ProviderOps>, me: Member): (r: Option<Pick<Channel>>)
    ensures r.None? <==> (config.Some? && (config.value.operators == {} || me !in config.value.operators))
                         || (config.None? && exists j | 0 <= j < |channels| :: IsGroupOf(channels[j], partner, None))
    ensures r.Some? ==> r.value.id < |r.value.rows| && |channels| <= |r.value.rows| <= |channels| + 1
    ensures r.Some? && config.None? ==> r.value.id == |channels| && r.value.rows[..|channels|] == channels
    ensures r.Some? ==> var c := r.value.rows[r.value.id];
              c.kind == Group && partner in c.members
              && (if config.Some? then OperatorPartners(config.value.operators) <= c.members else me.partner in c.members)
    ensures r.Some? ==> forall j | 0 <= j < |channels| && j != r.value.id :: r.value.rows[j] == channels[j]
  {
    if config.Some? && (config.value.operators == {} || me !in config.value.operators) then None
    else
      var ops := if config.Some? then OperatorPartners(config.value.operators) else {me.partner};
      var cid := if config.Some? then Some(config.value.id) else None;
      match FirstMatch(channels, (c: Channel) => IsGroupOf(c, partner, cid))
      case Some(i) =>
        if config.None? then None
        else Some(Pick(channels[i := channels[i].(members := channels[i].members + ops)], i))
      case None => Some(Pick(channels + [Channel(Group, cid, ops + {partner}, "WhatsApp Group - " + partnerName)], |channels|))
  }

  // ---------------------------------------------------------------------
  // Dispatch

  datatype Attachment = Attachment(name: string, mimetype: string, size: nat, hasData: bool)

  /** The send form's fields. `recipient` is a contact id; `numberField` picks the phone on "phone", else the mobile. */
  datatype SendForm = SendForm(
    recipient: Option<nat>, numberField: string, config: Option<ProviderOps>,
    template: Option<TemplateRef>, message: Option<string>, attachments: seq<Attachment>, source: Source)

  /** The current user, with the providers they may send through. */
  datatype Sender = Sender(member: Member, allowedProviders: set<nat>)

  datatype Payload =
    | TextPayload(to: string, body: string)
    | TemplatePayload(to: string, name: string, lang: string)
    | UploadPayload(file: string, kind: MediaKind)
    | MediaPayload(to: string, kind: MediaKind, mediaId: string, caption: string)
    | DeletePayload(mediaId: string)

  datatype Stage = TemplateStage | TextStage | UploadStage(index: nat) | MediaStage(index: nat) | DeleteStage(index: nat)

  datatype Request = Request(stage: Stage, payload: Payload)

  datatype UploadError = Invalid(reason: MediaError) | UploadRefused | NoMediaId

  datatype SendError = MissingNumber | ProviderNotAllowed | TemplateError(reason: CalcError) | MediaUploadError(file: string, upload: UploadError)

  datatype Warning = MissingConfig | NothingToSend

  /**
   * How a dispatch ends: an exception out of the action (no history row),
   * a warning, a failed send at some stage, or completion (sent or not).
   */
  datatype Outcome = Raised(error: SendError) | Warned(warning: Warning) | SendFailed(stage: Stage) | Finished(sent: bool)

  /** The state a dispatch carries along: tables, the pending history row, the calls made, and the flags. */
  datatype Run = Run(t: Tables, log: HistoryRecord, requests: seq<Request>, success: bool, attempted: bool)

  datatype Step = Stop(outcome: Outcome, run: Run) | Go(run: Run)

  /** The number the form sends to: the selected field, with one leading '+' removed. */
  function RecipientNumber(partners: seq<Partner>, form: SendForm): Option<string>
  {
    if form.recipient.None? || form.recipient.value >= |partners| then None
    else
      var p := partners[form.recipient.value];
      var n := if form.numberField == "phone" then p.phone else p.mobile;
      if !Truthy(n) then None
      else if n.value[0] == '+' then Some(n.value[1..]) else Some(n.value)
  }

  /** Writes the pending row with a status. */
  function Logged(run: Run, status: Status): Run
  {
    run.(t := run.t.(history := run.t.history + [run.log.(status := status)]))
  }

  /** A message send: success records the returned ids on the pending row; failure writes it as failed and stops. */
  function SendStep(run: Run, stage: Stage, payload: Payload, replies: seq<Http.Reply>): (s: Step)
    ensures s.run.requests == run.requests + [Request(stage, payload)]
    ensures s.Go? <==> Http.Accepted(Http.Nth(replies, |run.requests|))
    ensures s.Go? ==> s.run.t == run.t && s.run.success && s.run.attempted == run.attempted
    ensures s.Stop? ==> s.outcome == SendFailed(stage) && s.run.t.history == run.t.history + [run.log.(status := Failed)]
  {
    var reply := Http.Nth(replies, |run.requests|);
    var run1 := run.(requests := run.requests + [Request(stage, payload)]);
    if Http.Accepted(reply) then
      Go(run1.(log := run1.log.(messageId := Some(Http.MessageId(reply)), conversationId := Http.ConversationId(reply),
                                isSent := true),
               success := true))
    else Stop(SendFailed(stage), Logged(run1, Failed))
  }

  /** The template stage: a calculated text goes out as a plain text message, otherwise the template itself. */
  function TemplatePayloadFor(to: string, tpl: TemplateRef, c: Calculated): (p: Payload)
    ensures p.TextPayload? <==> Truthy(c.message)
  {
    if Truthy(c.message) then TextPayload(to, c.message.value)
    else TemplatePayload(to, tpl.name, ReplaceChar(tpl.langCode, '-', '_'))
  }

  function TemplatePhase(run: Run, form: SendForm, to: string, replies: seq<Http.Reply>): Step
  {
    if form.template.None? then Go(run)
    else
      var run1 := run.(attempted := true);
      match Calculation(form.template, form.source)
      case Err(e) => Stop(Raised(TemplateError(e)), run1)
      case Ok(c) => SendStep(run1, TemplateStage, TemplatePayloadFor(to, form.template.value, c), replies)
  }

  function Mirror(run: Run, channel: Option<nat>, body: string, me: Member, attachment: Option<string>): Run
    requires run.log.messageId.Some?
  {
    if channel.None? then run
    else run.(t := run.t.(mail := run.t.mail + [MailMessage(channel.value, Some(body), Some(me.partner),
                                                            run.log.messageId, None, attachment)]))
  }

  function TextPhase(run: Run, form: SendForm, to: string, channel: Option<nat>, me: Member, replies: seq<Http.Reply>): Step
  {
    if !Truthy(form.message) || form.template.Some? then Go(run)
    else
      var run1 := run.(attempted := true);
      match SendStep(run1, TextStage, TextPayload(to, form.message.value), replies)
      case Stop(o, r) => Stop(o, r)
      case Go(r) => Go(Mirror(r, channel, form.message.value, me, None))
  }

  /** `upload_media` after the empty-data check: validation, then the upload call. */
  function UploadResult(a: Attachment, reply: Http.Reply): (r: Result<(MediaKind, string), UploadError>)
    ensures r.Ok? ==> ValidateMedia(a.mimetype, a.size) == Ok(r.value.0)
    ensures r.Ok? ==> reply.Response? && reply.status == 200 && Http.ReturnedId(reply) == Some(r.value.1) && r.value.1 != ""
  {
    match ValidateMedia(a.mimetype, a.size)
    case Err(e) => Err(Invalid(e))
    case Ok(kind) =>
      if !(reply.Response? && reply.status == 200 && reply.body.Some?) then Err(UploadRefused)
      else if !Truthy(Http.ReturnedId(reply)) then Err(NoMediaId)
      else Ok((kind, Http.ReturnedId(reply).value))
  }

  /** One attachment: skipped without data; otherwise validated, uploaded, sent, mirrored and deleted remotely. */
  function MediaStep(run: Run, a: Attachment, index: nat, form: SendForm, to: string, channel: Option<nat>,
                     me: Member, replies: seq<Http.Reply>): Step
  {
    var run1 := run.(attempted := true);
    if !a.hasData then Go(run1)
    else
      var validated := ValidateMedia(a.mimetype, a.size);
      if validated.Err? then Stop(Raised(MediaUploadError(a.name, Invalid(validated.error))), run1)
      else
        var upload := Request(UploadStage(index), UploadPayload(a.name, validated.value));
        var run2 := run1.(requests := run1.requests + [upload]);
        match UploadResult(a, Http.Nth(replies, |run1.requests|))
        case Err(e) => Stop(Raised(MediaUploadError(a.name, e)), run2)
        case Ok((kind, mediaId)) => MediaSend(run2, a.name, index, kind, mediaId, form, to, channel, me, replies)
  }

  /** An uploaded attachment: the media message, its mirror in the channel, and the remote delete. */
  function MediaSend(run: Run, name: string, index: nat, kind: MediaKind, mediaId: string, form: SendForm, to: string,
                     channel: Option<nat>, me: Member, replies: seq<Http.Reply>): Step
  {
    var caption := if Truthy(form.message) then form.message.value else "";
    match SendStep(run, MediaStage(index), MediaPayload(to, kind, mediaId, caption), replies)
    case Stop(o, r) => Stop(o, r)
    case Go(r) =>
      var r1 := Mirror(r, channel, caption, me, Some(name));
      Go(r1.(requests := r1.requests + [Request(DeleteStage(index), DeletePayload(mediaId))]))
  }

  function MediaPhase(run: Run, atts: seq<Attachment>, from: nat, form: SendForm, to: string, channel: Option<nat>,
                      me: Member, replies: seq<Http.Reply>): Step
    decreases |atts|
  {
    if atts == [] then Go(run)
    else match MediaStep(run, atts[0], from, form, to, channel, me, replies)
      case Stop(o, r) => Stop(o, r)
      case Go(r) => MediaPhase(r, atts[1..], from + 1, form, to, channel, me, replies)
  }

  /** After all stages: nothing attempted is a warning; otherwise the row is `sent` iff some send succeeded. */
  function Conclude(run: Run): (s: Step)
    ensures s.Stop?
  {
    if !run.attempted then Stop(Warned(NothingToSend), Logged(run, Failed))
    else Stop(Finished(run.success), Logged(run, if run.success then Sent else Failed))
  }

  datatype Dispatched = Dispatched(outcome: Outcome, t: Tables, requests: seq<Request>)

  /** The stages after the channel lookup, in order. */
  function Stages(run: Run, form: SendForm, to: string, channel: Option<nat>, me: Member, replies: seq<Http.Reply>): Step
  {
    match TemplatePhase(run, form, to, replies)
    case Stop(o, r) => Stop(o, r)
    case Go(r1) =>
      match TextPhase(r1, form, to, channel, me, replies)
      case Stop(o, r) => Stop(o, r)
      case Go(r2) =>
        Finish(MediaPhase(r2, form.attachments, 0, form, to, channel, me, replies))
  }

  /** A run still going after the media stage concludes. */
  function Finish(s: Step): (r: Step)
    ensures r.Stop?
  {
    if s.Stop? then s else Conclude(s.run)
  }

  function FormLog(form: SendForm, to: string, me: Member): HistoryRecord
  {
    Blank(Sent).(number := Some(to), user := Some(me.user), message := form.message,
                 config := if form.config.Some? then Some(form.config.value.id) else None,
                 template := if form.template.Some? then Some(form.template.value.id) else None,
                 partner := form.recipient)
  }

  /** `action_send_message`, as a function of the tables and the replies the API gives in call order. */
  function Dispatch(t: Tables, form: SendForm, me: Sender, replies: seq<Http.Reply>): (r: Dispatched)
    ensures RecipientNumber(t.partners, form).None? ==> r == Dispatched(Raised(MissingNumber), t, [])
    ensures RecipientNumber(t.partners, form).Some? && form.config.None? ==>
              r.outcome == Warned(MissingConfig) && r.requests == [] && |r.t.history| == |t.history| + 1
              && r.t.history[..|t.history|] == t.history && r.t.history[|t.history|].status == Failed
    ensures RecipientNumber(t.partners, form).Some? && form.config.Some? && form.config.value.id !in me.allowedProviders ==>
              r == Dispatched(Raised(ProviderNotAllowed), t, [])
    ensures r.outcome.Raised? ==> r.t == t
  {
    match RecipientNumber(t.partners, form)
    case None => Dispatched(Raised(MissingNumber), t, [])
    case Some(to) =>
      var log := FormLog(form, to, me.member);
      if form.config.None? then
        Dispatched(Warned(MissingConfig), t.(history := t.history + [log.(status := Failed)]), [])
      else if form.config.value.id !in me.allowedProviders then Dispatched(Raised(ProviderNotAllowed), t, [])
      else
        var partner := form.recipient.value;
        var lookup := GroupChannelLookup(t.channels, partner, t.partners[partner].name, form.config, me.member);
        var t1 := if lookup.Some? then t.(channels := lookup.value.rows) else t;
        var channel := if lookup.Some? then Some(lookup.value.id) else None;
        var s := Stages(Run(t1, log, [], false, false), form, to, channel, me.member, replies);
        // an exception rolls the transaction back; the calls already made stay made
        Dispatched(s.outcome, if s.outcome.Raised? then t else s.run.t, s.run.requests)
  }

  // ---------------------------------------------------------------------
  // What a dispatch guarantees

  predicate IsMessageCall(s: Stage)
  {
    s.TemplateStage? || s.TextStage? || s.MediaStage?
  }

  predicate IsMediaCall(s: Stage)
  {
    s.UploadStage? || s.MediaStage? || s.DeleteStage?
  }

  /** Some message call was made, and every message call made was accepted. */
  predicate SomeMessageCall(requests: seq<Request>)
  {
    exists k | 0 <= k < |requests| :: IsMessageCall(requests[k].stage)
  }

  predicate MessageCallsAccepted(requests: seq<Request>, replies: seq<Http.Reply>)
  {
    forall k | 0 <= k < |requests| :: IsMessageCall(requests[k].stage) ==> Http.Accepted(Http.Nth(replies, k))
  }

  /** A run in progress: no row written yet, and `success` says whether a message call went out, all of them accepted. */
  predicate InProgress(h0: seq<HistoryRecord>, replies: seq<Http.Reply>, run: Run)
  {
    run.t.history == h0
    && (run.success <==> SomeMessageCall(run.requests))
    && MessageCallsAccepted(run.requests, replies)
  }

  /**
   * A finished run: an exception leaves the history as it was; any other end
   * writes exactly one row, `sent` only on completion with a success; a failed
   * send is the last call made and was not accepted; on completion, the row is
   * `sent` iff a message call went out, and every one went through.
   */
  predicate Ended(h0: seq<HistoryRecord>, replies: seq<Http.Reply>, s: Step)
  {
    var h := s.run.t.history;
    var rs := s.run.requests;
    s.Stop?
    && (s.outcome.Raised? ==> h == h0)
    && (!s.outcome.Raised? ==>
          |h| == |h0| + 1 && h[..|h0|] == h0 && (h[|h0|].status == Sent <==> s.outcome == Finished(true))
          && h[|h0|].status in {Sent, Failed})
    && (s.outcome.SendFailed? ==>
          |rs| > 0 && rs[|rs| - 1].stage == s.outcome.stage && !Http.Accepted(Http.Nth(replies, |rs| - 1)))
    && (s.outcome.Finished? ==> (s.outcome.sent <==> SomeMessageCall(rs)) && MessageCallsAccepted(rs, replies))
  }

  predicate Sound(h0: seq<HistoryRecord>, replies: seq<Http.Reply>, s: Step)
  {
    if s.Go? then InProgress(h0, replies, s.run) else Ended(h0, replies, s)
  }

  lemma SendStepSound(h0: seq<HistoryRecord>, run: Run, stage: Stage, payload: Payload, replies: seq<Http.Reply>)
    requires InProgress(h0, replies, run) && IsMessageCall(stage)
    ensures Sound(h0, replies, SendStep(run, stage, payload, replies))
  {
    var s := SendStep(run, stage, payload, replies);
    var rs := s.run.requests;
    assert rs[|rs| - 1].stage == stage;
    assert forall k | 0 <= k < |run.requests| :: rs[k] == run.requests[k];
    if s.Go? {
      assert SomeMessageCall(rs);
    }
  }

  /** An upload or delete call does not count as a message call, so appending one keeps a run in progress. */
  lemma AppendOtherCall(h0: seq<HistoryRecord>, replies: seq<Http.Reply>, run: Run, req: Request)
    requires InProgress(h0, replies, run) && !IsMessageCall(req.stage)
    ensures InProgress(h0, replies, run.(requests := run.requests + [req]))
  {
    var rs := run.requests + [req];
    assert forall k | 0 <= k < |run.requests| :: rs[k] == run.requests[k];
    if SomeMessageCall(rs) {
      var k :| 0 <= k < |rs| && IsMessageCall(rs[k].stage);
      assert k < |run.requests|;
    }
  }

  lemma MediaStepSound(h0: seq<HistoryRecord>, run: Run, a: Attachment, index: nat, form: SendForm, to: string,
                       channel: Option<nat>, me: Member, replies: seq<Http.Reply>)
    requires InProgress(h0, replies, run)
    ensures Sound(h0, replies, MediaStep(run, a, index, form, to, channel, me, replies))
  {
    var run1 := run.(attempted := true);
    if a.hasData && ValidateMedia(a.mimetype, a.size).Ok? {
      var upload := Request(UploadStage(index), UploadPayload(a.name, ValidateMedia(a.mimetype, a.size).value));
      AppendOtherCall(h0, replies, run1, upload);
      var run2 := run1.(requests := run1.requests + [upload]);
      match UploadResult(a, Http.Nth(replies, |run1.requests|))
      case Err(_) =>
      case Ok((kind, mediaId)) =>
        var caption := if Truthy(form.message) then form.message.value else "";
        var s := SendStep(run2, MediaStage(index), MediaPayload(to, kind, mediaId, caption), replies);
        SendStepSound(h0, run2, MediaStage(index), MediaPayload(to, kind, mediaId, caption), replies);
        if s.Go? {
          var r1 := Mirror(s.run, channel, caption, me, Some(a.name));
          AppendOtherCall(h0, replies, r1, Request(DeleteStage(index), DeletePayload(mediaId)));
        }
    }
  }

  lemma {:induction false} MediaPhaseSound(h0: seq<HistoryRecord>, run: Run, atts: seq<Attachment>, from: nat, form: SendForm,
                                           to: string, channel: Option<nat>, me: Member, replies: seq<Http.Reply>)
    requires InProgress(h0, replies, run)
    ensures Sound(h0, replies, MediaPhase(run, atts, from, form, to, channel, me, replies))
    decreases |atts|
  {
    if atts != [] {
      MediaStepSound(h0, run, atts[0], from, form, to, channel, me, replies);
      match MediaStep(run, atts[0], from, form, to, channel, me, replies)
      case Stop(_, _) =>
      case Go(r) => MediaPhaseSound(h0, r, atts[1..], from + 1, form, to, channel, me, replies);
    }
  }

  lemma TemplatePhaseSound(h0: seq<HistoryRecord>, run: Run, form: SendForm, to: string, replies: seq<Http.Reply>)
    requires InProgress(h0, replies, run)
    ensures Sound(h0, replies, TemplatePhase(run, form, to, replies))
  {
    if form.template.Some? && Calculation(form.template, form.source).Ok? {
      SendStepSound(h0, run.(attempted := true), TemplateStage,
                    TemplatePayloadFor(to, form.template.value, Calculation(form.template, form.source).value), replies);
    }
  }

  lemma TextPhaseSound(h0: seq<HistoryRecord>, run: Run, form: SendForm, to: string, channel: Option<nat>, me: Member,
                       replies: seq<Http.Reply>)
    requires InProgress(h0, replies, run)
    ensures Sound(h0, replies, TextPhase(run, form, to, channel, me, replies))
  {
    if Truthy(form.message) && form.template.None? {
      SendStepSound(h0, run.(attempted := true), TextStage, TextPayload(to, form.message.value), replies);
    }
  }

  lemma FinishSound(h0: seq<HistoryRecord>, replies: seq<Http.Reply>, s: Step)
    requires Sound(h0, replies, s)
    ensures Ended(h0, replies, Finish(s))
  {
  }

  lemma StagesSound(h0: seq<HistoryRecord>, run: Run, form: SendForm, to: string, channel: Option<nat>, me: Member,
                    replies: seq<Http.Reply>)
    requires run.t.history == h0 && run.requests == [] && !run.success && !run.attempted
    ensures Ended(h0, replies, Stages(run, form, to, channel, me, replies))
  {
    TemplatePhaseSound(h0, run, form, to, replies);
    var s1 := TemplatePhase(run, form, to, replies);
    if s1.Go? {
      TextPhaseSound(h0, s1.run, form, to, channel, me, replies);
      var s2 := TextPhase(s1.run, form, to, channel, me, replies);
      if s2.Go? {
        MediaPhaseSound(h0, s2.run, form.attachments, 0, form, to, channel, me, replies);
        FinishSound(h0, replies, MediaPhase(s2.run, form.attachments, 0, form, to, channel, me, replies));
      }
    }
  }

  /**
   * Every dispatch leaves at most one history row: none when the action
   * raises, otherwise one, `sent` exactly when the action completes having
   * made at least one message call, all of them accepted; a failed send is
   * the last call made.
   */
  lemma DispatchLeavesOneRow(t: Tables, form: SendForm, me: Sender, replies: seq<Http.Reply>)
    ensures var d := Dispatch(t, form, me, replies);
            Ended(t.history, replies, Stop(d.outcome, Run(d.t, Blank(Sent), d.requests, false, false)))
            && (d.outcome.Raised? ==> d.t == t)
  {
    var d := Dispatch(t, form, me, replies);
    match RecipientNumber(t.partners, form)
    case None =>
    case Some(to) =>
      if form.config.Some? && form.config.value.id in me.allowedProviders {
        var partner := form.recipient.value;
        var lookup := GroupChannelLookup(t.channels, partner, t.partners[partner].name, form.config, me.member);
        var t1 := if lookup.Some? then t.(channels := lookup.value.rows) else t;
        var channel := if lookup.Some? then Some(lookup.value.id) else None;
        StagesSound(t.history, Run(t1, FormLog(form, to, me.member), [], false, false), form, to, channel, me.member, replies);
      }
  }

  // ---------------------------------------------------------------------
  // The order of the calls

  /** `rs` is `prefix` followed by calls of the attachment loop only. */
  predicate ExtendsWithMedia(rs: seq<Request>, prefix: seq<Request>)
  {
    |prefix| <= |rs| && rs[..|prefix|] == prefix
    && forall k | |prefix| <= k < |rs| :: IsMediaCall(rs[k].stage)
  }

  lemma ExtendsWithMediaTransitive(a: seq<Request>, b: seq<Request>, c: seq<Request>)
    requires ExtendsWithMedia(b, a) && ExtendsWithMedia(c, b)
    ensures ExtendsWithMedia(c, a)
  {
    assert c[..|a|] == c[..|b|][..|a|];
  }

  lemma MediaStepAppends(run: Run, a: Attachment, index: nat, form: SendForm, to: string,
                         channel: Option<nat>, me: Member, replies: seq<Http.Reply>)
    ensures ExtendsWithMedia(MediaStep(run, a, index, form, to, channel, me, replies).run.requests, run.requests)
  {
    var run1 := run.(attempted := true);
    if a.hasData && ValidateMedia(a.mimetype, a.size).Ok? {
      var upload := Request(UploadStage(index), UploadPayload(a.name, ValidateMedia(a.mimetype, a.size).value));
      var run2 := run1.(requests := run1.requests + [upload]);
      assert ExtendsWithMedia(run2.requests, run.requests);
      match UploadResult(a, Http.Nth(replies, |run1.requests|))
      case Err(_) =>
      case Ok((kind, mediaId)) =>
        var caption := if Truthy(form.message) then form.message.value else "";
        var s := SendStep(run2, MediaStage(index), MediaPayload(to, kind, mediaId, caption), replies);
        assert ExtendsWithMedia(s.run.requests, run2.requests);
        ExtendsWithMediaTransitive(run.requests, run2.requests, s.run.requests);
        if s.Go? {
          var r1 := Mirror(s.run, channel, caption, me, Some(a.name));
          var r2 := r1.(requests := r1.requests + [Request(DeleteStage(index), DeletePayload(mediaId))]);
          assert ExtendsWithMedia(r2.requests, r1.requests);
          ExtendsWithMediaTransitive(run.requests, r1.requests, r2.requests);
        }
    }
  }

  /** The attachment loop only appends upload, media and delete calls. */
  lemma {:induction false} MediaPhaseAppends(run: Run, atts: seq<Attachment>, from: nat, form: SendForm, to: string,
                                             channel: Option<nat>, me: Member, replies: seq<Http.Reply>)
    ensures ExtendsWithMedia(MediaPhase(run, atts, from, form, to, channel, me, replies).run.requests, run.requests)
    decreases |atts|
  {
    if atts != [] {
      var s := MediaStep(run, atts[0], from, form, to, channel, me, replies);
      MediaStepAppends(run, atts[0], from, form, to, channel, me, replies);
      if s.Go? {
        MediaPhaseAppends(s.run, atts[1..], from + 1, form, to, channel, me, replies);
        ExtendsWithMediaTransitive(run.requests, s.run.requests,
                                   MediaPhase(s.run, atts[1..], from + 1, form, to, channel, me, replies).run.requests);
      }
    }
  }

  /**
   * The calls go out in the action's stage order: the template call or else
   * the text call comes first, the text call only without a template, and
   * every later call belongs to the attachment loop.
   */
  predicate InStageOrder(rs: seq<Request>, form: SendForm)
  {
    (forall k | 1 <= k < |rs| :: IsMediaCall(rs[k].stage))
    && (|rs| > 0 ==> (rs[0].stage == TemplateStage <==> form.template.Some?)
                     && (rs[0].stage == TextStage <==> form.template.None? && Truthy(form.message)))
  }

  lemma StagesInOrder(run: Run, form: SendForm, to: string, channel: Option<nat>, me: Member, replies: seq<Http.Reply>)
    requires run.requests == []
    ensures InStageOrder(Stages(run, form, to, channel, me, replies).run.requests, form)
  {
    var s1 := TemplatePhase(run, form, to, replies);
    if s1.Go? {
      var s2 := TextPhase(s1.run, form, to, channel, me, replies);
      if s2.Go? {
        MediaPhaseAppends(s2.run, form.attachments, 0, form, to, channel, me, replies);
        var rs := MediaPhase(s2.run, form.attachments, 0, form, to, channel, me, replies).run.requests;
        var n := |s2.run.requests|;
        assert n <= 1;
        if n == 1 {
          assert rs[0] == s2.run.requests[0];
        }
      }
    }
  }

  lemma DispatchCallOrder(t: Tables, form: SendForm, me: Sender, replies: seq<Http.Reply>)
    ensures var rs := Dispatch(t, form, me, replies).requests;
            (forall k | 1 <= k < |rs| :: IsMediaCall(rs[k].stage))
            && (|rs| > 0 ==> (rs[0].stage == TemplateStage <==> form.template.Some?)
                             && (rs[0].stage == TextStage <==> form.template.None? && Truthy(form.message)))
  {
    match RecipientNumber(t.partners, form)
    case None =>
    case Some(to) =>
      if form.config.Some? && form.config.value.id in me.allowedProviders {
        var partner := form.recipient.value;
        var lookup := GroupChannelLookup(t.channels, partner, t.partners[partner].name, form.config, me.member);
        var t1 := if lookup.Some? then t.(channels := lookup.value.rows) else t;
        var channel := if lookup.Some? then Some(lookup.value.id) else None;
        StagesInOrder(Run(t1, FormLog(form, to, me.member), [], false, false), form, to, channel, me.member, replies);
      }
  }

  /**
   * What a reply must be for the action to carry on after a call: an
   * accepted message for a message call, a 200 with a media id for an
   * upload; the reply to a delete call is never read.
   */
  predicate CallAnswered(r: Request, reply: Http.Reply)
  {
    match r.stage
    case UploadStage(_) => reply.Response? && reply.status == 200 && reply.body.Some? && Truthy(Http.ReturnedId(reply))
    case DeleteStage(_) => true
    case _ => Http.Accepted(reply)
  }

  /** The first `n` calls were answered so that the action carried on. */
  predicate CallsAnswered(rs: seq<Request>, replies: seq<Http.Reply>, n: nat)
    requires n <= |rs|
  {
    forall k | 0 <= k < n :: CallAnswered(rs[k], Http.Nth(replies, k))
  }

  /**
   * A step that made calls stopped at its first failure: every call but the
   * last carried on; a step still going, or one that concluded, had every
   * call answered; a failed send ends on that send's unaccepted call.
   */
  predicate EndsAtFirstFailure(s: Step, replies: seq<Http.Reply>)
  {
    var rs := s.run.requests;
    (|rs| > 0 ==> CallsAnswered(rs, replies, |rs| - 1))
    && (s.Go? || s.outcome.Finished? || s.outcome.Warned? ==> CallsAnswered(rs, replies, |rs|))
    && (s.Stop? && s.outcome.SendFailed? ==>
          |rs| > 0 && rs[|rs| - 1].stage == s.outcome.stage && !Http.Accepted(Http.Nth(replies, |rs| - 1)))
  }

  lemma CallsAnsweredAppend(rs: seq<Request>, x: Request, replies: seq<Http.Reply>)
    requires CallsAnswered(rs, replies, |rs|)
    ensures CallsAnswered(rs + [x], replies, |rs|)
    ensures CallAnswered(x, Http.Nth(replies, |rs|)) ==> CallsAnswered(rs + [x], replies, |rs| + 1)
  {
    assert forall k | 0 <= k < |rs| :: (rs + [x])[k] == rs[k];
    assert (rs + [x])[|rs|] == x;
  }

  /** A message send from a run whose calls were all answered stops at its own call or goes on. */
  lemma SendStepEnds(run: Run, stage: Stage, payload: Payload, replies: seq<Http.Reply>)
    requires IsMessageCall(stage) && CallsAnswered(run.requests, replies, |run.requests|)
    ensures EndsAtFirstFailure(SendStep(run, stage, payload, replies), replies)
  {
    CallsAnsweredAppend(run.requests, Request(stage, payload), replies);
  }

  lemma MediaStepEnds(run: Run, a: Attachment, index: nat, form: SendForm, to: string,
                      channel: Option<nat>, me: Member, replies: seq<Http.Reply>)
    requires CallsAnswered(run.requests, replies, |run.requests|)
    ensures EndsAtFirstFailure(MediaStep(run, a, index, form, to, channel, me, replies), replies)
  {
    if a.hasData && ValidateMedia(a.mimetype, a.size).Ok? {
      var upload := Request(UploadStage(index), UploadPayload(a.name, ValidateMedia(a.mimetype, a.size).value));
      CallsAnsweredAppend(run.requests, upload, replies);
      match UploadResult(a, Http.Nth(replies, |run.requests|))
      case Err(_) =>
      case Ok((kind, mediaId)) =>
        MediaSendEnds(run.(attempted := true, requests := run.requests + [upload]), a.name, index, kind, mediaId,
                      form, to, channel, me, replies);
    }
  }

  /** The send, mirror and delete of an uploaded attachment. */
  lemma MediaSendEnds(run: Run, name: string, index: nat, kind: MediaKind, mediaId: string, form: SendForm, to: string,
                      channel: Option<nat>, me: Member, replies: seq<Http.Reply>)
    requires CallsAnswered(run.requests, replies, |run.requests|)
    ensures EndsAtFirstFailure(MediaSend(run, name, index, kind, mediaId, form, to, channel, me, replies), replies)
  {
    var caption := if Truthy(form.message) then form.message.value else "";
    var s := SendStep(run, MediaStage(index), MediaPayload(to, kind, mediaId, caption), replies);
    SendStepEnds(run, MediaStage(index), MediaPayload(to, kind, mediaId, caption), replies);
    if s.Go? {
      var r1 := Mirror(s.run, channel, caption, me, Some(name));
      CallsAnsweredAppend(r1.requests, Request(DeleteStage(index), DeletePayload(mediaId)), replies);
    }
  }

  lemma {:induction false} MediaPhaseEnds(run: Run, atts: seq<Attachment>, from: nat, form: SendForm, to: string,
                                          channel: Option<nat>, me: Member, replies: seq<Http.Reply>)
    requires CallsAnswered(run.requests, replies, |run.requests|)
    ensures EndsAtFirstFailure(MediaPhase(run, atts, from, form, to, channel, me, replies), replies)
    decreases |atts|
  {
    if atts != [] {
      var s := MediaStep(run, atts[0], from, form, to, channel, me, replies);
      MediaStepEnds(run, atts[0], from, form, to, channel, me, replies);
      if s.Go? {
        MediaPhaseEnds(s.run, atts[1..], from + 1, form, to, channel, me, replies);
      }
    }
  }

  lemma StagesEnd(run: Run, form: SendForm, to: string, channel: Option<nat>, me: Member, replies: seq<Http.Reply>)
    requires run.requests == []
    ensures EndsAtFirstFailure(Stages(run, form, to, channel, me, replies), replies)
  {
    var s1 := TemplatePhase(run, form, to, replies);
    if form.template.Some? {
      match Calculation(form.template, form.source)
      case Err(_) =>
      case Ok(c) => SendStepEnds(run.(attempted := true), TemplateStage, TemplatePayloadFor(to, form.template.value, c), replies);
    }
    if s1.Go? {
      var s2 := TextPhase(s1.run, form, to, channel, me, replies);
      if Truthy(form.message) && form.template.None? {
        SendStepEnds(s1.run.(attempted := true), TextStage, TextPayload(to, form.message.value), replies);
      }
      if s2.Go? {
        MediaPhaseEnds(s2.run, form.attachments, 0, form, to, channel, me, replies);
      }
    }
  }

  /**
   * The first failing call ends the action's calls: every call before the
   * last one was answered so that the action carried on, a completed
   * dispatch had every call answered, and a failed send's last call is that
   * send, unaccepted.
   */
  lemma DispatchStopsAtFirstFailure(t: Tables, form: SendForm, me: Sender, replies: seq<Http.Reply>)
    ensures var d := Dispatch(t, form, me, replies);
            var rs := d.requests;
            (|rs| > 0 ==> CallsAnswered(rs, replies, |rs| - 1))
            && (d.outcome.Finished? ==> CallsAnswered(rs, replies, |rs|))
            && (d.outcome.SendFailed? ==>
                  |rs| > 0 && rs[|rs| - 1].stage == d.outcome.stage && !Http.Accepted(Http.Nth(replies, |rs| - 1)))
  {
    match RecipientNumber(t.partners, form)
    case None =>
    case Some(to) =>
      if form.config.Some? && form.config.value.id in me.allowedProviders {
        var partner := form.recipient.value;
        var lookup := GroupChannelLookup(t.channels, partner, t.partners[partner].name, form.config, me.member);
        var t1 := if lookup.Some? then t.(channels := lookup.value.rows) else t;
        var channel := if lookup.Some? then Some(lookup.value.id) else None;
        StagesEnd(Run(t1, FormLog(form, to, me.member), [], false, false), form, to, channel, me.member, replies);
      }
  }

  /**
   * Attachments without data still count as an attempt: a dispatch with no
   * template, no text and only such attachments makes no call and ends as a
   * plain failure, not with the nothing-to-send warning.
   */
  lemma EmptyAttachmentsCountAsAttempt(t: Tables, form: SendForm, me: Sender, replies: seq<Http.Reply>)
    requires RecipientNumber(t.partners, form).Some?
    requires form.config.Some? && form.config.value.id in me.allowedProviders
    requires form.template.None? && !Truthy(form.message)
    requires form.attachments != [] && forall k | 0 <= k < |form.attachments| :: !form.attachments[k].hasData
    ensures Dispatch(t, form, me, replies).outcome == Finished(false)
    ensures Dispatch(t, form, me, replies).requests == []
  {
    var to := RecipientNumber(t.partners, form).value;
    var partner := form.recipient.value;
    var lookup := GroupChannelLookup(t.channels, partner, t.partners[partner].name, form.config, me.member);
    var t1 := if lookup.Some? then t.(channels := lookup.value.rows) else t;
    var channel := if lookup.Some? then Some(lookup.value.id) else None;
    var run := Run(t1, FormLog(form, to, me.member), [], false, false);
    EmptyAttachmentsSkipped(run, form.attachments, 0, form, to, channel, me.member, replies);
  }

  lemma {:induction false} EmptyAttachmentsSkipped(run: Run, atts: seq<Attachment>, from: nat, form: SendForm, to: string,
                                                   channel: Option<nat>, me: Member, replies: seq<Http.Reply>)
    requires forall k | 0 <= k < |atts| :: !atts[k].hasData
    ensures MediaPhase(run, atts, from, form, to, channel, me, replies)
            == Go(if atts == [] then run else run.(attempted := true))
    decreases |atts|
  {
    if atts != [] {
      EmptyAttachmentsSkipped(run.(attempted := true), atts[1..], from + 1, form, to, channel, me, replies);
    }
  }

  /** A dispatch never writes a contact: the contact table ends as it began. */
  lemma DispatchKeepsContacts(t: Tables, form: SendForm, me: Sender, replies: seq<Http.Reply>)
    ensures Dispatch(t, form, me, replies).t.partners == t.partners
  {
    match RecipientNumber(t.partners, form)
    case None =>
    case Some(to) =>
      if form.config.Some? && form.config.value.id in me.allowedProviders {
        var partner := form.recipient.value;
        var lookup := GroupChannelLookup(t.channels, partner, t.partners[partner].name, form.config, me.member);
        var t1 := if lookup.Some? then t.(channels := lookup.value.rows) else t;
        var channel := if lookup.Some? then Some(lookup.value.id) else None;
        var run := Run(t1, FormLog(form, to, me.member), [], false, false);
        var s1 := TemplatePhase(run, form, to, replies);
        if s1.Go? {
          var s2 := TextPhase(s1.run, form, to, channel, me.member, replies);
          if s2.Go? {
            MediaPhaseKeepsContacts(s2.run, form.attachments, 0, form, to, channel, me.member, replies);
          }
        }
      }
  }

  lemma {:induction false} MediaPhaseKeepsContacts(run: Run, atts: seq<Attachment>, from: nat, form: SendForm, to: string,
                                                   channel: Option<nat>, me: Member, replies: seq<Http.Reply>)
    ensures MediaPhase(run, atts, from, form, to, channel, me, replies).run.t.partners == run.t.partners
    decreases |atts|
  {
    if atts != [] {
      MediaStepKeepsContacts(run, atts[0], from, form, to, channel, me, replies);
      match MediaStep(run, atts[0], from, form, to, channel, me, replies)
      case Stop(_, _) =>
      case Go(r) => MediaPhaseKeepsContacts(r, atts[1..], from + 1, form, to, channel, me, replies);
    }
  }

  lemma MediaStepKeepsContacts(run: Run, a: Attachment, index: nat, form: SendForm, to: string,
                               channel: Option<nat>, me: Member, replies: seq<Http.Reply>)
    ensures MediaStep(run, a, index, form, to, channel, me, replies).run.t.partners == run.t.partners
  {
  }

  // ---------------------------------------------------------------------
  // The action

  /** `get_or_create_chat_channel` on the channel table; the id of the channel, or None when refused. */
  method GetOrCreateGroupChannel(db: Db, partner: nat, partnerName: string, config: Option<ProviderOps>, me: Member)
    returns (channel: Option<nat>)
    modifies db`channels
    ensures var r := GroupChannelLookup(old(db.channels), partner, partnerName, config, me);
            if r.None? then channel.None? && db.channels == old(db.channels)
            else channel == Some(r.value.id) && db.channels == r.value.rows
  {
    if config.Some? && (config.value.operators == {} || me !in config.value.operators) {
      return None;
    }
    var ops := if config.Some? then OperatorPartners(config.value.operators) else {me.partner};
    var cid := if config.Some? then Some(config.value.id) else None;
    var found := FirstMatch(db.channels, (c: Channel) => IsGroupOf(c, partner, cid));
    if found.Some? {
      if config.None? {
        return None;
      }
      var i := found.value;
      db.channels := db.channels[i := db.channels[i].(members := db.channels[i].members + ops)];
      return Some(i);
    }
    db.channels := db.channels + [Channel(Group, cid, ops + {partner}, "WhatsApp Group - " + partnerName)];
    return Some(|db.channels| - 1);
  }

  /** One message call: on acceptance the ids go on the pending row, otherwise the row is written as failed. */
  method Call(db: Db, log: HistoryRecord, requests: seq<Request>, stage: Stage, payload: Payload, replies: seq<Http.Reply>,
              ghost success: bool, ghost attempted: bool)
    returns (accepted: bool, log1: HistoryRecord, requests1: seq<Request>)
    modifies db`history
    ensures var s := SendStep(Run(old(db.View()), log, requests, success, attempted), stage, payload, replies);
            accepted == s.Go? && s.run == Run(db.View(), log1, requests1, accepted || success, attempted)
  {
    var reply := Http.Nth(replies, |requests|);
    requests1 := requests + [Request(stage, payload)];
    accepted := Http.Accepted(reply);
    if accepted {
      log1 := log.(messageId := Some(Http.MessageId(reply)), conversationId := Http.ConversationId(reply), isSent := true);
    } else {
      log1 := log;
      db.history := db.history + [log.(status := Failed)];
    }
  }

  /** The template stage of the action. */
  method TemplateStageCall(db: Db, form: SendForm, to: string, log: HistoryRecord, replies: seq<Http.Reply>)
    returns (stop: Option<Outcome>, log1: HistoryRecord, requests1: seq<Request>, success1: bool, attempted1: bool)
    modifies db`history
    ensures var s := TemplatePhase(Run(old(db.View()), log, [], false, false), form, to, replies);
            (stop.Some? <==> s.Stop?) && (s.Stop? ==> s.outcome == stop.value)
            && s.run == Run(db.View(), log1, requests1, success1, attempted1)
  {
    if form.template.None? {
      return None, log, [], false, false;
    }
    attempted1 := true;
    var c := CalculateMessage(form.template, form.source);
    if c.Err? {
      return Some(Raised(TemplateError(c.error))), log, [], false, true;
    }
    var accepted;
    accepted, log1, requests1 := Call(db, log, [], TemplateStage, TemplatePayloadFor(to, form.template.value, c.value), replies, false, true);
    success1 := accepted;
    stop := if accepted then None else Some(SendFailed(TemplateStage));
  }

  /** The plain-text stage of the action, mirrored into the channel on success. */
  method TextStageCall(db: Db, form: SendForm, to: string, channel: Option<nat>, me: Member,
                       log: HistoryRecord, requests: seq<Request>, success: bool, attempted: bool, replies: seq<Http.Reply>)
    returns (stop: Option<Outcome>, log1: HistoryRecord, requests1: seq<Request>, success1: bool, attempted1: bool)
    modifies db`history, db`mail
    ensures var s := TextPhase(Run(old(db.View()), log, requests, success, attempted), form, to, channel, me, replies);
            (stop.Some? <==> s.Stop?) && (s.Stop? ==> s.outcome == stop.value)
            && s.run == Run(db.View(), log1, requests1, success1, attempted1)
  {
    if !Truthy(form.message) || form.template.Some? {
      return None, log, requests, success, attempted;
    }
    attempted1 := true;
    var accepted;
    accepted, log1, requests1 := Call(db, log, requests, TextStage, TextPayload(to, form.message.value), replies, success, true);
    success1 := accepted || success;
    if !accepted {
      return Some(SendFailed(TextStage)), log1, requests1, success1, attempted1;
    }
    stop := None;
    if channel.Some? {
      db.mail := db.mail + [MailMessage(channel.value, Some(form.message.value), Some(me.partner), log1.messageId, None, None)];
    }
  }

  /** The attachment loop of `action_send_message`: it runs `MediaPhase` over the form's attachments. */
  method MediaPhaseCall(db: Db, atts: seq<Attachment>, form: SendForm, to: string, channel: Option<nat>, me: Member,
                        log: HistoryRecord, requests: seq<Request>, success: bool, attempted: bool, replies: seq<Http.Reply>)
    returns (stop: Option<Outcome>, log1: HistoryRecord, requests1: seq<Request>, success1: bool, attempted1: bool)
    modifies db`history, db`mail
    ensures var s := MediaPhase(Run(old(db.View()), log, requests, success, attempted), atts, 0, form, to, channel, me, replies);
            (stop.Some? <==> s.Stop?) && (s.Stop? ==> s.outcome == stop.value)
            && s.run == Run(db.View(), log1, requests1, success1, attempted1)
  {
    ghost var start := Run(db.View(), log, requests, success, attempted);
    log1, requests1, success1, attempted1 := log, requests, success, attempted;
    var i := 0;
    while i < |atts|
      invariant 0 <= i <= |atts|
      invariant MediaPhase(Run(db.View(), log1, requests1, success1, attempted1), atts[i..], i, form, to, channel, me, replies)
                == MediaPhase(start, atts, 0, form, to, channel, me, replies)
    {
      assert atts[i..][1..] == atts[i + 1..];
      stop, log1, requests1, success1, attempted1 :=
        MediaStepCall(db, atts[i], i, form, to, channel, me, log1, requests1, success1, attempted1, replies);
      if stop.Some? {
        return;
      }
      i := i + 1;
    }
    return None, log1, requests1, success1, attempted1;
  }

  /** One turn of the attachment loop. */
  method MediaStepCall(db: Db, a: Attachment, index: nat, form: SendForm, to: string, channel: Option<nat>, me: Member,
                       log: HistoryRecord, requests: seq<Request>, success: bool, attempted: bool, replies: seq<Http.Reply>)
    returns (stop: Option<Outcome>, log1: HistoryRecord, requests1: seq<Request>, success1: bool, attempted1: bool)
    modifies db`history, db`mail
    ensures var s := MediaStep(Run(old(db.View()), log, requests, success, attempted), a, index, form, to, channel, me, replies);
            (stop.Some? <==> s.Stop?) && (s.Stop? ==> s.outcome == stop.value)
            && s.run == Run(db.View(), log1, requests1, success1, attempted1)
  {
    attempted1 := true;
    if !a.hasData {
      return None, log, requests, success, true;
    }
    var validated := ValidateMedia(a.mimetype, a.size);
    if validated.Err? {
      return Some(Raised(MediaUploadError(a.name, Invalid(validated.error)))), log, requests, success, true;
    }
    var uploadReply := Http.Nth(replies, |requests|);
    var withUpload := requests + [Request(UploadStage(index), UploadPayload(a.name, validated.value))];
    var upload := UploadResult(a, uploadReply);
    if upload.Err? {
      return Some(Raised(MediaUploadError(a.name, upload.error))), log, withUpload, success, true;
    }
    var (kind, mediaId) := upload.value;
    var caption := if Truthy(form.message) then form.message.value else "";
    var accepted;
    accepted, log1, requests1 := Call(db, log, withUpload, MediaStage(index), MediaPayload(to, kind, mediaId, caption), replies, success, true);
    success1 := accepted || success;
    if !accepted {
      return Some(SendFailed(MediaStage(index))), log1, requests1, success1, attempted1;
    }
    stop := None;
    if channel.Some? {
      db.mail := db.mail + [MailMessage(channel.value, Some(caption), Some(me.partner), log1.messageId, None, Some(a.name))];
    }
    requests1 := requests1 + [Request(DeleteStage(index), DeletePayload(mediaId))];
  }

  /**
   * `action_send_message`: the calls it makes, in order, and how it ends; the
   * tables end as `Dispatch` says.
   */
  method SendMessage(db: Db, form: SendForm, me: Sender, replies: seq<Http.Reply>)
    returns (outcome: Outcome, requests: seq<Request>)
    modifies db
    ensures Dispatched(outcome, db.View(), requests) == Dispatch(old(db.View()), form, me, replies)
  {
    var number := RecipientNumber(db.partners, form);
    if number.None? {
      return Raised(MissingNumber), [];
    }
    var to := number.value;
    var log := FormLog(form, to, me.member);
    if form.config.None? {
      db.history := db.history + [log.(status := Failed)];
      return Warned(MissingConfig), [];
    }
    if form.config.value.id !in me.allowedProviders {
      return Raised(ProviderNotAllowed), [];
    }
    var partner := form.recipient.value;
    var saved := db.View();
    var channel := GetOrCreateGroupChannel(db, partner, db.partners[partner].name, form.config, me.member);
    ghost var start := Run(db.View(), log, [], false, false);
    ghost var whole := Stages(start, form, to, channel, me.member, replies);
    assert Dispatch(old(db.View()), form, me, replies) == Dispatched(whole.outcome, if whole.outcome.Raised? then saved else whole.run.t, whole.run.requests);

    var stop, success, attempted;
    stop, log, requests, success, attempted := TemplateStageCall(db, form, to, log, replies);
    if stop.Some? {
      if stop.value.Raised? {
        db.Restore(saved);
      }
      return stop.value, requests;
    }
    ghost var afterTemplate := Run(db.View(), log, requests, success, attempted);
    stop, log, requests, success, attempted := TextStageCall(db, form, to, channel, me.member, log, requests, success, attempted, replies);
    if stop.Some? {
      if stop.value.Raised? {
        db.Restore(saved);
      }
      return stop.value, requests;
    }
    ghost var afterText := Run(db.View(), log, requests, success, attempted);
    assert whole == Finish(MediaPhase(afterText, form.attachments, 0, form, to, channel, me.member, replies));

    stop, log, requests, success, attempted := MediaPhaseCall(db, form.attachments, form, to, channel, me.member, log, requests, success, attempted, replies);
    if stop.Some? {
      if stop.value.Raised? {
        db.Restore(saved);
      }
      return stop.value, requests;
    }

    if !attempted {
      db.history := db.history + [log.(status := Failed)];
      return Warned(NothingToSend), requests;
    }
    db.history := db.history + [log.(status := if success then Sent else Failed)];
    return Finished(success), requests;
  }
}
