/**
 * The chatbot overlay on the webhook: when the company's selected chatbot is
 * the one configured for the addressed provider, inbound messages are matched
 * against the chatbot's scripts, and the first matching script answers the
 * customer (a text, a template, an interactive step or a server action that
 * may hand the conversation over to the operators), mirroring the exchange
 * into the operators' chat channel.
 */
module Chatbot {
  import opened Wrappers
  import opened Text
  import opened Records
  import Http
  import Phone
  import opened Webhook

  // ---------------------------------------------------------------------
  // Configuration

  /** `chatbot.script.step_type`; any other value is unsupported. */
  datatype StepType = MessageStep | TemplateStep | InteractiveStep | ActionStep | OtherStep

  /** The template a script sends: id, name, language code and computed message. */
  datatype ScriptTemplate = ScriptTemplate(id: nat, name: string, langCode: string, message: Option<string>)

  /** A server action; `binding` is the technical name of the model it is bound to. */
  datatype ScriptAction = ScriptAction(binding: Option<string>)

  /** `chatbot.script`: `trigger` is its `message` field, the text inbound messages are matched against. */
  datatype Script = Script(
    id: nat, configuration: nat, sequence: int, trigger: Option<string>, stepType: StepType,
    response: Option<string>, template: Option<ScriptTemplate>, action: Option<ScriptAction>)

  /** `chatbot.configuration`: its provider and the partners of its operators. */
  datatype ChatbotConfig = ChatbotConfig(id: nat, config: nat, operatorPartners: set<nat>)

  /**
   * What the overlay reads besides the tables: the provider addressed, the
   * company's selected chatbot and name, the chatbot configurations and
   * scripts, the partner of the user the request runs as, which models refuse
   * a record an action creates (with the error text), and the API's replies in
   * call order.
   */
  datatype Ctx = Ctx(
    provider: Provider, selected: Option<nat>, configs: seq<ChatbotConfig>, scripts: seq<Script>,
    companyName: string, botPartner: nat, rejects: string -> Option<string>, replies: seq<Http.Reply>)

  /** The chatbot configuration of a provider: the first one bound to it. */
  function ConfigFor(configs: seq<ChatbotConfig>, provider: nat): (r: Option<nat>)
    ensures r.Some? ==> r.value < |configs| && configs[r.value].config == provider
    ensures r.None? ==> forall k | 0 <= k < |configs| :: configs[k].config != provider
  {
    FirstMatch(configs, (c: ChatbotConfig) => c.config == provider)
  }

  function ChatbotId(ctx: Ctx): Option<nat>
  {
    match ConfigFor(ctx.configs, ctx.provider.id)
    case Some(i) => Some(ctx.configs[i].id)
    case None => None
  }

  /** The chatbot handles the provider's events only when it is the company's selected chatbot. */
  predicate Active(ctx: Ctx)
  {
    ctx.selected.Some? && ChatbotId(ctx) == ctx.selected
  }

  // ---------------------------------------------------------------------
  // Matching

  /** The message text the loop carries: set by text and button messages, kept by any other type. */
  function NextContent(prev: Option<string>, m: InboundMessage): (r: Option<string>)
    ensures m.msgType == Some("text") ==> r == Some(m.textBody.GetOr(""))
    ensures m.msgType == Some("button") ==> r == Some(m.buttonText.GetOr(""))
    ensures m.msgType !in {Some("text"), Some("button")} ==> r == prev
  {
    if m.msgType == Some("text") then Some(m.textBody.GetOr(""))
    else if m.msgType == Some("button") then Some(m.buttonText.GetOr(""))
    else prev
  }

  /** A script of the configuration whose stored message contains the inbound text, ignoring case. */
  predicate Triggers(s: Script, configuration: nat, content: string)
  {
    s.configuration == configuration && s.trigger.Some? && Contains(Lower(s.trigger.value), Lower(content))
  }

  /** The triggered script with the lowest sequence; among equal sequences, the lowest id. */
  function BestScript(scripts: seq<Script>, configuration: nat, content: string): (r: Option<nat>)
    ensures r.Some? ==> r.value < |scripts| && Triggers(scripts[r.value], configuration, content)
    ensures r.Some? ==> forall j | 0 <= j < |scripts| && Triggers(scripts[j], configuration, content) ::
                          scripts[r.value].sequence <= scripts[j].sequence
    ensures r.Some? ==> forall j | 0 <= j < r.value && Triggers(scripts[j], configuration, content) ::
                          scripts[r.value].sequence < scripts[j].sequence
    ensures r.None? <==> forall j | 0 <= j < |scripts| :: !Triggers(scripts[j], configuration, content)
    decreases |scripts|
  {
    if scripts == [] then None
    else
      var n := |scripts| - 1;
      var best := BestScript(scripts[..n], configuration, content);
      assert forall j | 0 <= j < n :: scripts[..n][j] == scripts[j];
      if Triggers(scripts[n], configuration, content) && (best.None? || scripts[n].sequence < scripts[best.value].sequence)
      then Some(n)
      else best
  }

  // ---------------------------------------------------------------------
  // A bot run: the tables, the calls made and what was posted in the channel

  /** A post in the chat channel: the inbound message, a reply, or the hand-off notice. */
  datatype Post = Inbound | Reply(body: Option<string>, author: nat, waId: Option<string>) | Welcome(notice: string, author: nat)

  /** A call to the messages endpoint: a text or a template, to the contact's number. */
  datatype Outgoing = TextOut(to: Option<string>, body: Option<string>) | TemplateOut(to: Option<string>, name: string, lang: string)

  datatype Bot = Bot(t: Tables, sent: seq<Outgoing>, posts: seq<Post>)

  /**
   * The conversation a script answers: the contact, the number replies go
   * to, the chat channel, the inbound message id and its channel copy.
   */
  datatype Target = Target(partner: nat, partnerName: string, number: Option<string>, channel: nat,
                           messageId: string, incoming: MailMessage)

  /** `partner.phone or partner.mobile`, without one leading '+'. */
  function ReplyNumber(p: Partner): (r: Option<string>)
    ensures Truthy(p.phone) ==> r == (if p.phone.value[0] == '+' then Some(p.phone.value[1..]) else p.phone)
    ensures !Truthy(p.phone) ==> r == (if Truthy(p.mobile) && p.mobile.value[0] == '+' then Some(p.mobile.value[1..]) else p.mobile)
  {
    var n := if Truthy(p.phone) then p.phone else p.mobile;
    if Truthy(n) && n.value[0] == '+' then Some(n.value[1..]) else n
  }

  function MailOf(tg: Target, p: Post): MailMessage
  {
    match p
    case Inbound => tg.incoming
    case Reply(body, author, waId) => MailMessage(tg.channel, body, Some(author), waId, None, None)
    case Welcome(body, author) => MailMessage(tg.channel, Some(body), Some(author), None, None, None)
  }

  /** A post in the channel: one mail message, recorded in the run's post list. */
  function PostTo(b: Bot, tg: Target, p: Post): (r: Bot)
    ensures r.t.mail == b.t.mail + [MailOf(tg, p)] && r.posts == b.posts + [p]
    ensures r.t.history == b.t.history && r.t.channels == b.t.channels && r.sent == b.sent
  {
    b.(t := b.t.(mail := b.t.mail + [MailOf(tg, p)]), posts := b.posts + [p])
  }

  /** `after` is `before` with rows appended. */
  predicate HistoryExtends(before: seq<HistoryRecord>, after: seq<HistoryRecord>)
  {
    |before| <= |after| && after[..|before|] == before
  }

  /** The history row of an accepted chatbot send. */
  function SentRecord(ctx: Ctx, tg: Target, body: Option<string>, reply: Http.Reply, script: Script, template: Option<nat>): HistoryRecord
    requires Http.Accepted(reply)
  {
    Blank(Sent).(number := tg.number, partner := Some(tg.partner), config := Some(ctx.provider.id),
                 messageId := Some(Http.MessageId(reply)), message := body, user := Some(ctx.provider.operator.user),
                 receivedDate := Some(Now), conversationId := Http.ConversationId(reply), replyTo := Some(tg.messageId),
                 template := template, chatbot := ChatbotId(ctx), script := Some(script.id))
  }

  function WelcomeText(ctx: Ctx): string
  {
    "Now you are talking with the user of " + ctx.companyName + "."
  }

  /**
   * The posts in the channel run from `before` to `after`: none, or the
   * inbound message first and then replies and notices, never the inbound
   * message again.
   */
  predicate PostsInboundOnce(before: seq<Post>, after: seq<Post>)
  {
    after == before
    || (|before| < |after| && after[..|before|] == before && after[|before|] == Inbound
        && forall k | |before| < k < |after| :: !after[k].Inbound?)
  }

  /**
   * `_send_chatbot_message`: one text call; an accepted one writes a `sent`
   * row and, unless it answers an action step that added no operators,
   * mirrors the inbound message and the reply, and the hand-off notice when
   * operators were added.
   */
  function SendText(b: Bot, ctx: Ctx, tg: Target, body: Option<string>, script: Script, operatorsAdded: bool): (r: Bot)
    ensures r.sent == b.sent + [TextOut(tg.number, body)]
    ensures r.t.channels == b.t.channels && r.t.partners == b.t.partners && HistoryExtends(b.t.history, r.t.history)
    ensures var reply := Http.Nth(ctx.replies, |b.sent|);
            (Http.Accepted(reply) ==> r.t.history == b.t.history + [SentRecord(ctx, tg, body, reply, script, None)])
            && (!Http.Accepted(reply) ==> r.t == b.t && r.posts == b.posts)
            && (r.posts != b.posts <==> Http.Accepted(reply) && (operatorsAdded || script.stepType != ActionStep))
    ensures PostsInboundOnce(b.posts, r.posts)
    ensures r.posts != b.posts ==>
              (Welcome(WelcomeText(ctx), ctx.provider.operator.partner) in r.posts[|b.posts|..] <==> operatorsAdded)
  {
    var reply := Http.Nth(ctx.replies, |b.sent|);
    var b1 := b.(sent := b.sent + [TextOut(tg.number, body)]);
    if !Http.Accepted(reply) then b1
    else
      var b2 := b1.(t := b1.t.(history := b1.t.history + [SentRecord(ctx, tg, body, reply, script, None)]));
      if operatorsAdded || script.stepType != ActionStep then
        var author := ctx.provider.operator.partner;
        var answer := Reply(body, author, Some(Http.MessageId(reply)));
        var b3 := PostTo(PostTo(b2, tg, Inbound), tg, answer);
        assert b3.posts[|b.posts|..] == [Inbound, answer];
        if operatorsAdded then
          var b4 := PostTo(b3, tg, Welcome(WelcomeText(ctx), author));
          assert b4.posts[|b.posts|..] == [Inbound, answer, Welcome(WelcomeText(ctx), author)];
          b4
        else b3
      else b2
  }

  /** The history text of a template send: the template's message, or "False" when it has none. */
  function TemplateText(tpl: ScriptTemplate): string
  {
    match tpl.message
    case Some(m) => m
    case None => "False"
  }

  /**
   * `_send_chatbot_template`: one template call in the template's language
   * (with '_' for '-'); an accepted one writes a `sent` row and mirrors the
   * inbound message and the template text.
   */
  function SendTemplate(b: Bot, ctx: Ctx, tg: Target, tpl: ScriptTemplate, script: Script): (r: Bot)
    ensures r.sent == b.sent + [TemplateOut(tg.number, tpl.name, ReplaceChar(tpl.langCode, '-', '_'))]
    ensures r.t.channels == b.t.channels && r.t.partners == b.t.partners && HistoryExtends(b.t.history, r.t.history)
    ensures var reply := Http.Nth(ctx.replies, |b.sent|);
            (Http.Accepted(reply) ==> r.t.history == b.t.history + [SentRecord(ctx, tg, Some(TemplateText(tpl)), reply, script, Some(tpl.id))])
            && (!Http.Accepted(reply) ==> r.t == b.t)
            && (r.posts != b.posts <==> Http.Accepted(reply))
    ensures PostsInboundOnce(b.posts, r.posts)
  {
    var reply := Http.Nth(ctx.replies, |b.sent|);
    var b1 := b.(sent := b.sent + [TemplateOut(tg.number, tpl.name, ReplaceChar(tpl.langCode, '-', '_'))]);
    if !Http.Accepted(reply) then b1
    else
      var b2 := b1.(t := b1.t.(history := b1.t.history + [SentRecord(ctx, tg, Some(TemplateText(tpl)), reply, script, Some(tpl.id))]));
      var author := ctx.provider.operator.partner;
      PostTo(PostTo(b2, tg, Inbound), tg, Reply(tpl.message, author, Some(Http.MessageId(reply))))
  }

  // ---------------------------------------------------------------------
  // Actions and steps

  datatype ActionOutcome = ActionOutcome(b: Bot, operatorsAdded: bool, result: Option<string>)

  /** The operators a hand-off adds: those of the provider's chatbot configuration. */
  function HandOffPartners(ctx: Ctx): set<nat>
  {
    match ConfigFor(ctx.configs, ctx.provider.id)
    case Some(i) => ctx.configs[i].operatorPartners
    case None => {}
  }

  /**
   * `_execute_chatbot_action`: an action bound to users hands the channel
   * over to the chatbot's operators; bound to another model it creates a
   * "chatbot - <name>" record (or reports the error); unbound it only answers.
   */
  function ExecuteAction(b: Bot, ctx: Ctx, tg: Target, action: ScriptAction, script: Script): (r: ActionOutcome)
    requires tg.channel < |b.t.channels|
    ensures r.b.sent == b.sent && r.b.posts == b.posts && r.b.t.history == b.t.history && r.b.t.mail == b.t.mail
    ensures |r.b.t.channels| == |b.t.channels| && r.b.t.partners == b.t.partners
    ensures r.operatorsAdded <==> action.binding == Some("res.users") && HandOffPartners(ctx) != {}
    ensures r.operatorsAdded ==>
              r.result == script.response
              && r.b.t.channels == b.t.channels[tg.channel := b.t.channels[tg.channel].(members := b.t.channels[tg.channel].members + HandOffPartners(ctx))]
    ensures action.binding == Some("res.users") && !r.operatorsAdded ==> r == ActionOutcome(b, false, None)
    ensures action.binding.None? ==> r == ActionOutcome(b, false, script.response)
    ensures action.binding.Some? && action.binding.value != "res.users" ==>
              !r.operatorsAdded && r.b.t.channels == b.t.channels
              && match ctx.rejects(action.binding.value)
                 case None =>
                   r.result == script.response
                   && r.b.t.linked == b.t.linked + [LinkedRecord(action.binding.value, "chatbot - " + tg.partnerName)]
                 case Some(e) =>
                   r.b == b && r.result == Some("Failed to create record in " + action.binding.value + ": " + e)
  {
    match action.binding
    case None => ActionOutcome(b, false, script.response)
    case Some(model) =>
      if model == "res.users" then
        var operators := HandOffPartners(ctx);
        if operators != {} then
          var ch := b.t.channels[tg.channel];
          ActionOutcome(b.(t := b.t.(channels := b.t.channels[tg.channel := ch.(members := ch.members + operators)])), true, script.response)
        else ActionOutcome(b, false, None)
      else
        match ctx.rejects(model)
        case Some(e) => ActionOutcome(b, false, Some("Failed to create record in " + model + ": " + e))
        case None =>
          ActionOutcome(b.(t := b.t.(linked := b.t.linked + [LinkedRecord(model, "chatbot - " + tg.partnerName)])), false, script.response)
  }

  /**
   * `_send_chatbot_interactive`: the template if there is one, else the
   * response text, else the action's result; with none of them, nothing.
   */
  function Interactive(b: Bot, ctx: Ctx, tg: Target, script: Script): (r: Bot)
    requires tg.channel < |b.t.channels|
    ensures |r.t.channels| == |b.t.channels| && HistoryExtends(b.t.history, r.t.history)
    ensures PostsInboundOnce(b.posts, r.posts)
    ensures script.template.Some? ==> r == SendTemplate(b, ctx, tg, script.template.value, script)
    ensures script.template.None? && Truthy(script.response) ==> r == SendText(b, ctx, tg, script.response, script, false)
    ensures script.template.None? && !Truthy(script.response) && script.action.None? ==> r == b
  {
    if script.template.Some? then SendTemplate(b, ctx, tg, script.template.value, script)
    else if Truthy(script.response) then SendText(b, ctx, tg, script.response, script, false)
    else if script.action.Some? then
      var a := ExecuteAction(b, ctx, tg, script.action.value, script);
      if Truthy(a.result) then SendText(a.b, ctx, tg, a.result, script, a.operatorsAdded) else a.b
    else b
  }

  /** After the step: whether operators were added, and the text the step answered with. */
  datatype StepOutcome = StepOutcome(b: Bot, operatorsAdded: bool, result: Option<string>)

  /** The step-type dispatch of `_execute_chatbot_script`. */
  function RunStep(b: Bot, ctx: Ctx, tg: Target, script: Script): (r: StepOutcome)
    requires tg.channel < |b.t.channels|
    ensures |r.b.t.channels| == |b.t.channels| && HistoryExtends(b.t.history, r.b.t.history)
    ensures PostsInboundOnce(b.posts, r.b.posts)
    ensures r.operatorsAdded ==> script.stepType == ActionStep
    ensures script.stepType == MessageStep ==> r == StepOutcome(SendText(b, ctx, tg, script.response, script, false), false, script.response)
    ensures script.stepType == TemplateStep && script.template.None? ==> r == StepOutcome(b, false, None)
    ensures script.stepType == ActionStep && script.action.None? ==> r == StepOutcome(b, false, None)
    ensures script.stepType in {InteractiveStep, OtherStep} ==> r.result.None?
  {
    match script.stepType
    case MessageStep => StepOutcome(SendText(b, ctx, tg, script.response, script, false), false, script.response)
    case TemplateStep =>
      if script.template.Some? then
        var tpl := script.template.value;
        StepOutcome(SendTemplate(b, ctx, tg, tpl, script), false, Some("Template: " + tpl.name))
      else StepOutcome(b, false, None)
    case InteractiveStep =>
      if script.template.Some? || Truthy(script.response) || script.action.Some? then
        StepOutcome(Interactive(b, ctx, tg, script), false, None)
      else StepOutcome(b, false, None)
    case ActionStep =>
      if script.action.Some? then
        var a := ExecuteAction(b, ctx, tg, script.action.value, script);
        if Truthy(a.result) then StepOutcome(SendText(a.b, ctx, tg, a.result, script, a.operatorsAdded), a.operatorsAdded, a.result)
        else StepOutcome(a.b, a.operatorsAdded, None)
      else StepOutcome(b, false, None)
    case OtherStep => StepOutcome(b, false, None)
  }

  /** The closing block: the inbound message and the step's answer, posted by the bot's user. */
  function Closing(s: StepOutcome, ctx: Ctx, tg: Target): Bot
  {
    PostTo(PostTo(s.b, tg, Inbound), tg, Reply(s.result, ctx.botPartner, Some(tg.messageId)))
  }

  /**
   * `_execute_chatbot_script` as written: the closing block runs whenever no
   * operators were added and the step answered, even when the send already
   * mirrored the exchange.
   */
  function ExecuteScriptAsWritten(b: Bot, ctx: Ctx, tg: Target, script: Script): (r: Bot)
    requires tg.channel < |b.t.channels|
    ensures |r.t.channels| == |b.t.channels| && HistoryExtends(b.t.history, r.t.history)
  {
    var s := RunStep(b, ctx, tg, script);
    if !s.operatorsAdded && Truthy(s.result) then Closing(s, ctx, tg) else s.b
  }

  /**
   * `_execute_chatbot_script` as intended: the closing block mirrors the
   * exchange only when the step has not already done so.
   */
  function ExecuteScript(b: Bot, ctx: Ctx, tg: Target, script: Script): (r: Bot)
    requires tg.channel < |b.t.channels|
    ensures |r.t.channels| == |b.t.channels| && HistoryExtends(b.t.history, r.t.history)
  {
    var s := RunStep(b, ctx, tg, script);
    if !s.operatorsAdded && Truthy(s.result) && s.b.posts == b.posts then Closing(s, ctx, tg) else s.b
  }

  /**
   * A triggered script mirrors the inbound message into the channel at most
   * once, and before any reply: whatever the step posts starts with it.
   */
  lemma InboundMirroredOnce(b: Bot, ctx: Ctx, tg: Target, script: Script)
    requires tg.channel < |b.t.channels|
    ensures PostsInboundOnce(b.posts, ExecuteScript(b, ctx, tg, script).posts)
  {
    var s := RunStep(b, ctx, tg, script);
    if !s.operatorsAdded && Truthy(s.result) && s.b.posts == b.posts {
      var r := Closing(s, ctx, tg);
      assert r.posts == b.posts + [Inbound, Reply(s.result, ctx.botPartner, Some(tg.messageId))];
    }
  }

  /**
   * A step that answered mirrors the exchange: a message step whose text was
   * accepted, or an action step that added no operators, leaves the inbound
   * message in the channel.
   */
  lemma AnsweredStepMirrors(b: Bot, ctx: Ctx, tg: Target, script: Script)
    requires tg.channel < |b.t.channels|
    requires (script.stepType == MessageStep && Truthy(script.response))
             || (script.stepType == ActionStep && !RunStep(b, ctx, tg, script).operatorsAdded
                 && Truthy(RunStep(b, ctx, tg, script).result))
    ensures ExecuteScript(b, ctx, tg, script).posts[..|b.posts|] == b.posts
    ensures |ExecuteScript(b, ctx, tg, script).posts| > |b.posts|
    ensures ExecuteScript(b, ctx, tg, script).posts[|b.posts|] == Inbound
  {
    var s := RunStep(b, ctx, tg, script);
    var r := ExecuteScript(b, ctx, tg, script);
    if s.b.posts == b.posts {
      assert r == Closing(s, ctx, tg);
      assert r.posts == b.posts + [Inbound, Reply(s.result, ctx.botPartner, Some(tg.messageId))];
    } else {
      assert r == s.b;
    }
  }

  // ---------------------------------------------------------------------
  // The double mirror of the code as written

  function OneContact(): Partner
  {
    Partner("Ann", Some("+15550001"), None, None, None)
  }

  function SampleCtx(): Ctx
  {
    Ctx(Provider(0, "token", Operator(0, 1, "Op")), Some(0), [ChatbotConfig(0, 0, {})], [],
        "Acme", 1, (m: string) => None, [Http.Response(200, Some(Http.Body(None, Some(["wamid.out"]), None)))])
  }

  function SampleTarget(): Target
  {
    Target(0, "Ann", Some("15550001"), 0, "wamid.in", MailMessage(0, Some("hi"), Some(0), Some("wamid.in"), None, None))
  }

  function SampleScript(): Script
  {
    Script(0, 0, 1, Some("hi"), MessageStep, Some("Hello!"), None, None)
  }

  function SampleBot(): Bot
  {
    Bot(Tables([], [OneContact()], [Channel(Chat, Some(0), {0, 1}, "Op - Ann")], [], []), [], [])
  }

  /**
   * A message step whose reply is accepted posts the inbound message (and
   * the reply) twice in the code as written, and once as intended.
   */
  lemma MessageStepMirrorsTwice()
    ensures var posts := ExecuteScriptAsWritten(SampleBot(), SampleCtx(), SampleTarget(), SampleScript()).posts;
            |posts| == 4 && posts[0] == Inbound && posts[2] == Inbound
    ensures var posts := ExecuteScript(SampleBot(), SampleCtx(), SampleTarget(), SampleScript()).posts;
            |posts| == 2 && posts[0] == Inbound && !posts[1].Inbound?
  {
    var b, ctx, tg, script := SampleBot(), SampleCtx(), SampleTarget(), SampleScript();
    var reply := Http.Nth(ctx.replies, 0);
    assert Http.Accepted(reply);
    var s := RunStep(b, ctx, tg, script);
    assert s.result == Some("Hello!") && !s.operatorsAdded;
    assert |s.b.posts| == 2;
  }

  // ---------------------------------------------------------------------
  // The pass over a notification

  /** The chatbot pass so far: the run, and the message text the loop carries. */
  datatype Pass = Pass(b: Bot, content: Option<string>)

  datatype Handled = Handled(pass: Pass, triggered: bool)

  /**
   * One inbound message: skipped without its history row or a chatbot
   * configuration; otherwise contact and chat channel are found or created,
   * and the best triggered script answers (and is recorded on the row), or
   * with none the inbound message is mirrored.
   */
  function OnMessage(p: Pass, ctx: Ctx, e164: Phone.Formatter, m: InboundMessage, contacts: seq<Contact>): (r: Handled)
    ensures r.pass.content == NextContent(p.content, m)
    ensures r.triggered ==> StatusTarget(p.b.t.history, m.id, ctx.provider.id).Some? && ConfigFor(ctx.configs, ctx.provider.id).Some?
    ensures StatusTarget(p.b.t.history, m.id, ctx.provider.id).None? || ConfigFor(ctx.configs, ctx.provider.id).None? ==>
              r.pass.b == p.b
    ensures |r.pass.b.t.history| == |p.b.t.history| || r.triggered
    ensures |r.pass.b.t.history| >= |p.b.t.history|
    ensures !Truthy(r.pass.content) ==> !r.triggered
    ensures r.triggered ==>
              var row := StatusTarget(p.b.t.history, m.id, ctx.provider.id).value;
              r.pass.b.t.history[row].chatbot == ChatbotId(ctx) && r.pass.b.t.history[row].script.Some?
              && r.pass.b.t.history[row].messageId == Some(m.id)
    ensures !r.triggered && StatusTarget(p.b.t.history, m.id, ctx.provider.id).Some? && ConfigFor(ctx.configs, ctx.provider.id).Some? ==>
              r.pass.b.posts == p.b.posts + [Inbound] && r.pass.b.sent == p.b.sent
  {
    var content := NextContent(p.content, m);
    var b := p.b;
    match StatusTarget(b.t.history, m.id, ctx.provider.id)
    case None => Handled(Pass(b, content), false)
    case Some(row) =>
      match ConfigFor(ctx.configs, ctx.provider.id)
      case None => Handled(Pass(b, content), false)
      case Some(c) =>
        var contact := PartnerLookup(b.t.partners, m.sender, contacts, e164);
        var partner := contact.rows[contact.id];
        var chat := ChatChannelLookup(b.t.channels, ctx.provider, contact.id, partner.name);
        var parent := if Truthy(m.replyTo) then ParentMessage(b.t.mail, m.replyTo.value, chat.id) else None;
        var tg := Target(contact.id, partner.name, ReplyNumber(partner), chat.id, m.id,
                         MailMessage(chat.id, content, Some(contact.id), Some(m.id), parent, None));
        var b1 := b.(t := b.t.(partners := contact.rows, channels := chat.rows));
        Respond(b1, ctx, tg, row, ctx.configs[c].id, content)
  }

  /**
   * The answer once contact and channel are known: the best script for the
   * text of chatbot `chatbot` runs and is recorded on the status row, or,
   * with none, the inbound message is mirrored.
   */
  function Respond(b: Bot, ctx: Ctx, tg: Target, row: nat, chatbot: nat, content: Option<string>): (r: Handled)
    requires tg.channel < |b.t.channels| && row < |b.t.history|
    ensures r.pass.content == content
    ensures |r.pass.b.t.history| >= |b.t.history|
    ensures r.triggered <==> Truthy(content) && BestScript(ctx.scripts, chatbot, content.value).Some?
    ensures r.triggered ==>
              r.pass.b.t.history[row] == b.t.history[row].(chatbot := Some(chatbot), script := r.pass.b.t.history[row].script)
              && r.pass.b.t.history[row].script.Some?
    ensures !r.triggered ==> r.pass.b == PostTo(b, tg, Inbound)
  {
    var best := if Truthy(content) then BestScript(ctx.scripts, chatbot, content.value) else None;
    match best
    case None => Handled(Pass(PostTo(b, tg, Inbound), content), false)
    case Some(i) =>
      var script := ctx.scripts[i];
      var b2 := ExecuteScript(b, ctx, tg, script);
      var h := b2.t.history;
      var b3 := b2.(t := b2.t.(history := h[row := h[row].(chatbot := Some(chatbot), script := Some(script.id))]));
      Handled(Pass(b3, content), true)
  }

  /** The messages of one change, up to and including the first that triggers a script. */
  function PassMessages(p: Pass, ctx: Ctx, e164: Phone.Formatter, ms: seq<InboundMessage>, contacts: seq<Contact>): Pass
    decreases |ms|
  {
    if ms == [] then p
    else
      var h := OnMessage(p, ctx, e164, ms[0], contacts);
      if h.triggered then h.pass else PassMessages(h.pass, ctx, e164, ms[1..], contacts)
  }

  function PassChange(p: Pass, ctx: Ctx, e164: Phone.Formatter, c: Change): Pass
  {
    if c.field == Some("messages") then PassMessages(p, ctx, e164, c.value.messages, c.value.contacts) else p
  }

  function PassChanges(p: Pass, ctx: Ctx, e164: Phone.Formatter, cs: seq<Change>): Pass
    decreases |cs|
  {
    if cs == [] then p else PassChanges(PassChange(p, ctx, e164, cs[0]), ctx, e164, cs[1..])
  }

  function PassEntries(p: Pass, ctx: Ctx, e164: Phone.Formatter, es: seq<Entry>): Pass
    decreases |es|
  {
    if es == [] then p else PassEntries(PassChanges(p, ctx, e164, es[0].changes), ctx, e164, es[1..])
  }

  /** Once a message of a change triggers a script, the change's later messages are not looked at. */
  lemma {:induction false} TriggerEndsChange(p: Pass, ctx: Ctx, e164: Phone.Formatter, ms: seq<InboundMessage>,
                                             later: seq<InboundMessage>, contacts: seq<Contact>)
    requires exists k | 0 <= k < |ms| :: Triggered(p, ctx, e164, ms, contacts, k)
    ensures PassMessages(p, ctx, e164, ms + later, contacts) == PassMessages(p, ctx, e164, ms, contacts)
    decreases |ms|
  {
    var h := OnMessage(p, ctx, e164, ms[0], contacts);
    assert (ms + later)[0] == ms[0];
    if !h.triggered {
      var k :| 0 <= k < |ms| && Triggered(p, ctx, e164, ms, contacts, k);
      assert k > 0;
      assert Triggered(h.pass, ctx, e164, ms[1..], contacts, k - 1);
      assert (ms + later)[1..] == ms[1..] + later;
      TriggerEndsChange(h.pass, ctx, e164, ms[1..], later, contacts);
    }
  }

  /** The message at `k` is reached (no earlier one triggered) and triggers a script. */
  predicate Triggered(p: Pass, ctx: Ctx, e164: Phone.Formatter, ms: seq<InboundMessage>, contacts: seq<Contact>, k: nat)
    decreases k
  {
    k < |ms|
    && var h := OnMessage(p, ctx, e164, ms[0], contacts);
       if k == 0 then h.triggered else !h.triggered && Triggered(h.pass, ctx, e164, ms[1..], contacts, k - 1)
  }

  /**
   * `_process_whatsapp_notification` with the chatbot module installed, as
   * intended: the base ingestion (mirroring only when the chatbot is not
   * active), then the chatbot pass when it is.
   */
  function Overlay(t: Tables, ctx: Ctx, e164: Phone.Formatter, n: Notification): (r: Bot)
    ensures !Active(ctx) ==> r == Bot(AfterEntries(t, ctx.provider, e164, n.entries, true), [], [])
  {
    if !Active(ctx) then Bot(AfterEntries(t, ctx.provider, e164, n.entries, true), [], [])
    else
      var t1 := AfterEntries(t, ctx.provider, e164, n.entries, false);
      PassEntries(Pass(Bot(t1, [], []), None), ctx, e164, n.entries).b
  }

  /**
   * The POST handler with the chatbot module installed, as written: the
   * overlay passes `create_channel_message` to a base method that takes no
   * such argument, so every readable notification raises before anything is
   * stored, and the handler answers with an error.
   */
  function EventAsWritten(t: Tables, body: EventBody): (r: (EventReply, Tables))
    ensures r.1 == t && r.0 != ReceivedReply
    ensures r.0 == EventError(InvalidJson) <==> body == NotJson
    ensures r.0 == EventError(ProcessingError) <==> body != NotJson
  {
    match body
    case Json(_) => (EventError(ProcessingError), t)
    case _ => (EventReplyFor(body), t)
  }

  /**
   * With the overlay as written, an inbound text message is lost: the reply
   * is an error and no history row is written, where the intended overlay
   * (with no chatbot selected) records the message.
   */
  lemma OverlayLosesMessages(t: Tables, ctx: Ctx, e164: Phone.Formatter, m: InboundMessage)
    requires ctx.selected.None?
    ensures var n := Notification([Entry([Change(Some("messages"), ChangeValue([m], [], []))])]);
            EventAsWritten(t, Json(n)) == (EventError(ProcessingError), t)
            && |Overlay(t, ctx, e164, n).t.history| == |t.history| + 1
  {
    var c := Change(Some("messages"), ChangeValue([m], [], []));
    var t1 := AfterMessage(t, ctx.provider, e164, m, [], true);
    MessageAppendsOne(t, ctx.provider, e164, m, [], true);
    assert AfterMessages(t, ctx.provider, e164, [m], [], true) == t1;
    assert AfterChange(t, ctx.provider, e164, c, true) == t1;
    assert AfterChanges(t, ctx.provider, e164, [c], true) == t1;
    assert AfterEntries(t, ctx.provider, e164, [Entry([c])], true) == t1;
  }

  // ---------------------------------------------------------------------
  // The overlay, step by step on the database

  method SendChatbotMessage(db: Db, ctx: Ctx, tg: Target, body: Option<string>, script: Script, operatorsAdded: bool,
                            sent: seq<Outgoing>, ghost posts: seq<Post>)
    returns (sent1: seq<Outgoing>, mirrored: bool, ghost posts1: seq<Post>)
    modifies db
    ensures Bot(db.View(), sent1, posts1) == SendText(Bot(old(db.View()), sent, posts), ctx, tg, body, script, operatorsAdded)
    ensures mirrored <==> posts1 != posts
  {
    var reply := Http.Nth(ctx.replies, |sent|);
    sent1, mirrored, posts1 := sent + [TextOut(tg.number, body)], false, posts;
    if !Http.Accepted(reply) {
      return;
    }
    db.history := db.history + [SentRecord(ctx, tg, body, reply, script, None)];
    if operatorsAdded || script.stepType != ActionStep {
      var author := ctx.provider.operator.partner;
      db.mail := db.mail + [tg.incoming, MailOf(tg, Reply(body, author, Some(Http.MessageId(reply))))];
      posts1 := posts + [Inbound, Reply(body, author, Some(Http.MessageId(reply)))];
      mirrored := true;
      if operatorsAdded {
        db.mail := db.mail + [MailOf(tg, Welcome(WelcomeText(ctx), author))];
        posts1 := posts1 + [Welcome(WelcomeText(ctx), author)];
      }
    }
  }

  method SendChatbotTemplate(db: Db, ctx: Ctx, tg: Target, tpl: ScriptTemplate, script: Script,
                             sent: seq<Outgoing>, ghost posts: seq<Post>)
    returns (sent1: seq<Outgoing>, mirrored: bool, ghost posts1: seq<Post>)
    modifies db
    ensures Bot(db.View(), sent1, posts1) == SendTemplate(Bot(old(db.View()), sent, posts), ctx, tg, tpl, script)
    ensures mirrored <==> posts1 != posts
  {
    var reply := Http.Nth(ctx.replies, |sent|);
    sent1, mirrored, posts1 := sent + [TemplateOut(tg.number, tpl.name, ReplaceChar(tpl.langCode, '-', '_'))], false, posts;
    if !Http.Accepted(reply) {
      return;
    }
    db.history := db.history + [SentRecord(ctx, tg, Some(TemplateText(tpl)), reply, script, Some(tpl.id))];
    var author := ctx.provider.operator.partner;
    db.mail := db.mail + [tg.incoming, MailOf(tg, Reply(tpl.message, author, Some(Http.MessageId(reply))))];
    posts1 := posts + [Inbound, Reply(tpl.message, author, Some(Http.MessageId(reply)))];
    mirrored := true;
  }

  method ExecuteChatbotAction(db: Db, ctx: Ctx, tg: Target, action: ScriptAction, script: Script)
    returns (operatorsAdded: bool, result: Option<string>)
    requires tg.channel < |db.channels|
    modifies db
    ensures var r := ExecuteAction(Bot(old(db.View()), [], []), ctx, tg, action, script);
            db.View() == r.b.t && operatorsAdded == r.operatorsAdded && result == r.result
  {
    operatorsAdded, result := false, None;
    if action.binding.None? {
      result := script.response;
      return;
    }
    var model := action.binding.value;
    if model == "res.users" {
      var operators := HandOffPartners(ctx);
      if operators != {} {
        var ch := db.channels[tg.channel];
        db.channels := db.channels[tg.channel := ch.(members := ch.members + operators)];
        operatorsAdded, result := true, script.response;
      }
    } else {
      var refused := ctx.rejects(model);
      if refused.Some? {
        result := Some("Failed to create record in " + model + ": " + refused.value);
      } else {
        db.linked := db.linked + [LinkedRecord(model, "chatbot - " + tg.partnerName)];
        result := script.response;
      }
    }
  }

  /** The action branch shared by action and interactive steps: run the action, send its answer. */
  method ActionAndAnswer(db: Db, ctx: Ctx, tg: Target, action: ScriptAction, script: Script,
                         sent: seq<Outgoing>, ghost posts: seq<Post>)
    returns (operatorsAdded: bool, result: Option<string>, sent1: seq<Outgoing>, mirrored: bool, ghost posts1: seq<Post>)
    requires tg.channel < |db.channels|
    modifies db
    ensures var a := ExecuteAction(Bot(old(db.View()), sent, posts), ctx, tg, action, script);
            operatorsAdded == a.operatorsAdded && result == a.result
            && Bot(db.View(), sent1, posts1) == (if Truthy(a.result) then SendText(a.b, ctx, tg, a.result, script, a.operatorsAdded) else a.b)
            && (mirrored <==> posts1 != posts)
  {
    ghost var a := ExecuteAction(Bot(db.View(), sent, posts), ctx, tg, action, script);
    ghost var a0 := ExecuteAction(Bot(db.View(), [], []), ctx, tg, action, script);
    assert a.b == a0.b.(sent := sent, posts := posts);
    operatorsAdded, result := ExecuteChatbotAction(db, ctx, tg, action, script);
    sent1, mirrored, posts1 := sent, false, posts;
    if Truthy(result) {
      sent1, mirrored, posts1 := SendChatbotMessage(db, ctx, tg, result, script, operatorsAdded, sent, posts);
    }
  }

  method SendChatbotInteractive(db: Db, ctx: Ctx, tg: Target, script: Script, sent: seq<Outgoing>, ghost posts: seq<Post>)
    returns (sent1: seq<Outgoing>, mirrored: bool, ghost posts1: seq<Post>)
    requires tg.channel < |db.channels|
    modifies db
    ensures Bot(db.View(), sent1, posts1) == Interactive(Bot(old(db.View()), sent, posts), ctx, tg, script)
    ensures mirrored <==> posts1 != posts
  {
    if script.template.Some? {
      sent1, mirrored, posts1 := SendChatbotTemplate(db, ctx, tg, script.template.value, script, sent, posts);
    } else if Truthy(script.response) {
      sent1, mirrored, posts1 := SendChatbotMessage(db, ctx, tg, script.response, script, false, sent, posts);
    } else if script.action.Some? {
      var _, _, s, m, p := ActionAndAnswer(db, ctx, tg, script.action.value, script, sent, posts);
      sent1, mirrored, posts1 := s, m, p;
    } else {
      sent1, mirrored, posts1 := sent, false, posts;
    }
  }

  /** `_execute_chatbot_script`, mirroring the exchange once. */
  method ExecuteChatbotScript(db: Db, ctx: Ctx, tg: Target, script: Script, sent: seq<Outgoing>, ghost posts: seq<Post>)
    returns (sent1: seq<Outgoing>, ghost posts1: seq<Post>)
    requires tg.channel < |db.channels|
    modifies db
    ensures Bot(db.View(), sent1, posts1) == ExecuteScript(Bot(old(db.View()), sent, posts), ctx, tg, script)
  {
    ghost var b := Bot(db.View(), sent, posts);
    var operatorsAdded, result, mirrored := false, None, false;
    sent1, posts1 := sent, posts;
    match script.stepType {
      case MessageStep =>
        result := script.response;
        sent1, mirrored, posts1 := SendChatbotMessage(db, ctx, tg, script.response, script, false, sent, posts);
      case TemplateStep =>
        if script.template.Some? {
          result := Some("Template: " + script.template.value.name);
          sent1, mirrored, posts1 := SendChatbotTemplate(db, ctx, tg, script.template.value, script, sent, posts);
        }
      case InteractiveStep =>
        if script.template.Some? || Truthy(script.response) || script.action.Some? {
          sent1, mirrored, posts1 := SendChatbotInteractive(db, ctx, tg, script, sent, posts);
        }
      case ActionStep =>
        if script.action.Some? {
          var answer;
          operatorsAdded, answer, sent1, mirrored, posts1 := ActionAndAnswer(db, ctx, tg, script.action.value, script, sent, posts);
          if Truthy(answer) {
            result := answer;
          }
        }
      case OtherStep =>
    }
    assert RunStep(b, ctx, tg, script) == StepOutcome(Bot(db.View(), sent1, posts1), operatorsAdded, result);
    if !operatorsAdded && Truthy(result) && !mirrored {
      db.mail := db.mail + [tg.incoming, MailOf(tg, Reply(result, ctx.botPartner, Some(tg.messageId)))];
      posts1 := posts1 + [Inbound, Reply(result, ctx.botPartner, Some(tg.messageId))];
    }
  }

  /** One inbound message of the chatbot pass; `triggered` says whether a script answered it. */
  method ChatbotMessage(db: Db, ctx: Ctx, e164: Phone.Formatter, m: InboundMessage, contacts: seq<Contact>,
                        content: Option<string>, sent: seq<Outgoing>, ghost posts: seq<Post>)
    returns (content1: Option<string>, triggered: bool, sent1: seq<Outgoing>, ghost posts1: seq<Post>)
    modifies db
    ensures OnMessage(Pass(Bot(old(db.View()), sent, posts), content), ctx, e164, m, contacts)
            == Handled(Pass(Bot(db.View(), sent1, posts1), content1), triggered)
  {
    content1, triggered, sent1, posts1 := NextContent(content, m), false, sent, posts;
    var row := StatusTarget(db.history, m.id, ctx.provider.id);
    if row.None? {
      return;
    }
    var c := ConfigFor(ctx.configs, ctx.provider.id);
    if c.None? {
      return;
    }
    var partner := FindOrCreatePartner(db, m.sender, contacts, e164);
    var name := db.partners[partner].name;
    var channel := GetOrCreateChatChannel(db, ctx.provider, partner, name);
    var parent := None;
    if Truthy(m.replyTo) {
      parent := ParentMessage(db.mail, m.replyTo.value, channel);
    }
    var tg := Target(partner, name, ReplyNumber(db.partners[partner]), channel, m.id,
                     MailMessage(channel, content1, Some(partner), Some(m.id), parent, None));
    triggered, sent1, posts1 := RespondToMessage(db, ctx, tg, row.value, ctx.configs[c.value].id, content1, sent, posts);
  }

  /** The answer to one message once contact and channel are known, as `Respond` says. */
  method RespondToMessage(db: Db, ctx: Ctx, tg: Target, row: nat, chatbot: nat, content: Option<string>,
                          sent: seq<Outgoing>, ghost posts: seq<Post>)
    returns (triggered: bool, sent1: seq<Outgoing>, ghost posts1: seq<Post>)
    requires tg.channel < |db.channels| && row < |db.history|
    modifies db
    ensures Respond(Bot(old(db.View()), sent, posts), ctx, tg, row, chatbot, content)
            == Handled(Pass(Bot(db.View(), sent1, posts1), content), triggered)
  {
    triggered, sent1, posts1 := false, sent, posts;
    var best := None;
    if Truthy(content) {
      best := BestScript(ctx.scripts, chatbot, content.value);
    }
    if best.None? {
      db.mail := db.mail + [tg.incoming];
      posts1 := posts + [Inbound];
      return;
    }
    sent1, posts1 := RunTriggeredScript(db, ctx, tg, ctx.scripts[best.value], row, chatbot, sent, posts);
    triggered := true;
  }

  /** A triggered script runs, then the status row records the chatbot and the script. */
  method RunTriggeredScript(db: Db, ctx: Ctx, tg: Target, script: Script, row: nat, chatbot: nat,
                            sent: seq<Outgoing>, ghost posts: seq<Post>)
    returns (sent1: seq<Outgoing>, ghost posts1: seq<Post>)
    requires tg.channel < |db.channels| && row < |db.history|
    modifies db
    ensures var b2 := ExecuteScript(Bot(old(db.View()), sent, posts), ctx, tg, script);
            row < |b2.t.history|
            && Bot(db.View(), sent1, posts1)
               == b2.(t := b2.t.(history := b2.t.history[row := b2.t.history[row].(chatbot := Some(chatbot), script := Some(script.id))]))
  {
    sent1, posts1 := ExecuteChatbotScript(db, ctx, tg, script, sent, posts);
    var h := db.history;
    db.history := h[row := h[row].(chatbot := Some(chatbot), script := Some(script.id))];
  }

  /** The chatbot pass over a notification, message by message, leaving a change at its first trigger. */
  method ChatbotPass(db: Db, ctx: Ctx, e164: Phone.Formatter, n: Notification) returns (sent: seq<Outgoing>)
    modifies db
    ensures var r := PassEntries(Pass(Bot(old(db.View()), [], []), None), ctx, e164, n.entries).b;
            db.View() == r.t && sent == r.sent
  {
    var content := None;
    sent := [];
    ghost var posts: seq<Post> := [];
    ghost var goal := PassEntries(Pass(Bot(db.View(), [], []), None), ctx, e164, n.entries);
    var i := 0;
    while i < |n.entries|
      invariant 0 <= i <= |n.entries|
      invariant PassEntries(Pass(Bot(db.View(), sent, posts), content), ctx, e164, n.entries[i..]) == goal
    {
      assert n.entries[i..][1..] == n.entries[i + 1..];
      var changes := n.entries[i].changes;
      ghost var entryGoal := PassChanges(Pass(Bot(db.View(), sent, posts), content), ctx, e164, changes);
      var k := 0;
      while k < |changes|
        invariant 0 <= k <= |changes|
        invariant PassChanges(Pass(Bot(db.View(), sent, posts), content), ctx, e164, changes[k..]) == entryGoal
      {
        assert changes[k..][1..] == changes[k + 1..];
        var change := changes[k];
        if change.field == Some("messages") {
          var ms := change.value.messages;
          ghost var changeGoal := PassMessages(Pass(Bot(db.View(), sent, posts), content), ctx, e164, ms, change.value.contacts);
          var j := 0;
          while j < |ms|
            invariant 0 <= j <= |ms|
            invariant PassMessages(Pass(Bot(db.View(), sent, posts), content), ctx, e164, ms[j..], change.value.contacts) == changeGoal
          {
            assert ms[j..][1..] == ms[j + 1..];
            var triggered;
            content, triggered, sent, posts := ChatbotMessage(db, ctx, e164, ms[j], change.value.contacts, content, sent, posts);
            if triggered {
              break;
            }
            j := j + 1;
          }
        }
        k := k + 1;
      }
      i := i + 1;
    }
  }

  /** `_process_whatsapp_notification` with the chatbot module installed (as intended). */
  method ProcessWithChatbot(db: Db, ctx: Ctx, e164: Phone.Formatter, n: Notification) returns (sent: seq<Outgoing>)
    modifies db
    ensures var r := Overlay(old(db.View()), ctx, e164, n); db.View() == r.t && sent == r.sent
  {
    var selected := ctx.selected;
    var c := ConfigFor(ctx.configs, ctx.provider.id);
    if selected.None? || c.None? || ctx.configs[c.value].id != selected.value {
      ProcessNotification(db, ctx.provider, e164, n, true);
      return [];
    }
    ProcessNotification(db, ctx.provider, e164, n, false);
    sent := ChatbotPass(db, ctx, e164, n);
  }

  /** The POST handler with the chatbot module installed (as intended): it answers as the base handler does. */
  method HandleEventWithChatbot(db: Db, ctx: Ctx, e164: Phone.Formatter, body: EventBody)
    returns (reply: EventReply, sent: seq<Outgoing>)
    modifies db
    ensures reply == EventReplyFor(body)
    ensures body.Json? ==> var r := Overlay(old(db.View()), ctx, e164, body.notification); db.View() == r.t && sent == r.sent
    ensures body.FailsAfter? ==> db.View() == AfterEntries(old(db.View()), ctx.provider, e164, body.done.entries, !Active(ctx))
                                 && sent == []
    ensures body == EmptyBody || body == NotJson ==> db.View() == old(db.View()) && sent == []
  {
    sent := [];
    match body
    case EmptyBody => reply := EventError(ProcessingError);
    case NotJson => reply := EventError(InvalidJson);
    case FailsAfter(done) =>
      ProcessNotification(db, ctx.provider, e164, done, !Active(ctx));
      reply := EventError(ProcessingError);
    case Json(n) =>
      sent := ProcessWithChatbot(db, ctx, e164, n);
      reply := ReceivedReply;
  }
}
