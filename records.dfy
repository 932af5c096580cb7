/**
 * The database tables the integration reads and writes: message history,
 * contacts, discuss channels, channel messages and the records a chatbot
 * action creates. Record ids are positions in their table.
 */
module Records {
  import opened Wrappers
  import Http

  /** `whatsapp.message.history.status` */
  datatype Status = Sent | Delivered | Read | Received | Failed

  /** A date field: a provider timestamp, or the server clock at write time. */
  datatype Stamp = At(seconds: int) | Now

  /** One `whatsapp.message.history` row (fields of every module that extends it). */
  datatype HistoryRecord = HistoryRecord(
    number: Option<string>,
    partner: Option<nat>,
    config: Option<nat>,
    user: Option<nat>,
    messageId: Option<string>,
    message: Option<string>,
    status: Status,
    sendDate: Stamp,
    receivedDate: Option<Stamp>,
    conversationId: Option<string>,
    replyTo: Option<string>,
    template: Option<nat>,
    isSent: bool,
    chatbot: Option<nat>,
    script: Option<nat>,
    campaign: Option<nat>,
    error: Option<Http.Reply>,
    attachment: Option<string>)

  /** A row with every optional field empty; `sendDate` defaults to the clock. */
  function Blank(status: Status): HistoryRecord
  {
    HistoryRecord(None, None, None, None, None, None, status, Now, None, None, None,
                  None, false, None, None, None, None, None)
  }

  /**
   * `res.partner`, reduced to the fields the integration reads and writes,
   * with the stored normalized forms of its phone and mobile.
   */
  datatype Partner = Partner(
    name: string, phone: Option<string>, mobile: Option<string>,
    normalizedPhone: Option<string>, normalizedMobile: Option<string>)

  datatype ChannelKind = Chat | Group

  /** `discuss.channel` with its WhatsApp provider and its member partners. */
  datatype Channel = Channel(kind: ChannelKind, config: Option<nat>, members: set<nat>, name: string)

  /** A `mail.message` posted in a channel, with the WhatsApp id it mirrors. */
  datatype MailMessage = MailMessage(
    channel: nat, body: Option<string>, author: Option<nat>,
    waId: Option<string>, parent: Option<nat>, attachment: Option<string>)

  /** A record a chatbot action creates in a configured model. */
  datatype LinkedRecord = LinkedRecord(model: string, name: string)

  datatype Tables = Tables(
    history: seq<HistoryRecord>,
    partners: seq<Partner>,
    channels: seq<Channel>,
    mail: seq<MailMessage>,
    linked: seq<LinkedRecord>)

  /**
   * What an ORM search with `limit=1` returns on a model ordered by
   * ascending id (tables keep rows in creation order): the first row
   * satisfying the domain, if any.
   */
  function FirstMatch<T>(rows: seq<T>, domain: T -> bool): (r: Option<nat>)
    ensures r.Some? ==> r.value < |rows| && domain(rows[r.value])
    ensures r.Some? ==> forall j | 0 <= j < r.value :: !domain(rows[j])
    ensures r.None? ==> forall j | 0 <= j < |rows| :: !domain(rows[j])
  {
    if rows == [] then None
    else if domain(rows[0]) then Some(0)
    else match FirstMatch(rows[1..], domain)
      case None => None
      case Some(i) => Some(i + 1)
  }

  /**
   * The same search on a model ordered by descending id, as channel
   * messages are: the last row satisfying the domain, if any.
   */
  function LastMatch<T>(rows: seq<T>, domain: T -> bool): (r: Option<nat>)
    ensures r.Some? ==> r.value < |rows| && domain(rows[r.value])
    ensures r.Some? ==> forall j | r.value < j < |rows| :: !domain(rows[j])
    ensures r.None? ==> forall j | 0 <= j < |rows| :: !domain(rows[j])
  {
    if rows == [] then None
    else if domain(rows[|rows| - 1]) then Some(|rows| - 1)
    else LastMatch(rows[..|rows| - 1], domain)
  }

  /** A table after a get-or-create: the rows and the id of the row found or appended. */
  datatype Pick<T> = Pick(rows: seq<T>, id: nat)

  class Db {
    var history: seq<HistoryRecord>
    var partners: seq<Partner>
    var channels: seq<Channel>
    var mail: seq<MailMessage>
    var linked: seq<LinkedRecord>

    function View(): Tables
      reads this
    {
      Tables(history, partners, channels, mail, linked)
    }

    constructor (t: Tables)
      ensures View() == t
    {
      history, partners, channels, mail, linked := t.history, t.partners, t.channels, t.mail, t.linked;
    }

    /** A transaction rolled back: every table as it was in the snapshot `t`. */
    method Restore(t: Tables)
      modifies this
      ensures View() == t
    {
      history, partners, channels, mail, linked := t.history, t.partners, t.channels, t.mail, t.linked;
    }
  }
}
