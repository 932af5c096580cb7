/**
 * Fetching a provider's templates from Meta (`get_message_template`): each
 * listed template in an installed language is created or overwritten,
 * keyed by its remote id and provider, and its components, buttons, apps
 * and example parameters are rebuilt from the listing.
 */
module TemplateSync {
  import opened Wrappers
  import opened Text
  import opened Records
  import opened Templates

  // ---------------------------------------------------------------------
  // The listing as Meta returns it

  datatype RemoteApp = RemoteApp(platform: Platform, packageName: Option<string>, signatureHash: Option<string>, bundleId: Option<string>)

  datatype RemoteButton = RemoteButton(
    kind: ButtonType, text: Option<string>, phoneNumber: Option<string>, url: Option<string>,
    otpType: Option<OtpType>, autofillText: Option<string>, supportedApps: seq<RemoteApp>)

  datatype NamedParam = NamedParam(paramName: Option<string>, example: Option<string>)

  /** A component's `example` object; a key that is absent is `None`. */
  datatype Example = Example(
    headerText: Option<seq<string>>, bodyText: Option<seq<seq<string>>>,
    headerNamed: Option<seq<NamedParam>>, bodyNamed: Option<seq<NamedParam>>)

  datatype RemoteComponent = RemoteComponent(
    kind: ComponentType, format: Option<Format>, text: Option<string>,
    securityRecommendation: Option<bool>, codeExpiration: Option<int>,
    latitude: Option<real>, longitude: Option<real>, name: Option<string>, address: Option<string>,
    buttons: seq<RemoteButton>, example: Example)

  datatype RemoteTemplate = RemoteTemplate(
    id: Option<string>, name: Option<string>, language: string, category: Option<Category>,
    status: Option<TemplateStatus>, components: seq<RemoteComponent>)

  /** The listing call's reply: its status and, when the body is JSON, its `data` list. */
  datatype Listing = Listing(status: int, data: Option<seq<RemoteTemplate>>)

  // ---------------------------------------------------------------------
  // The stored catalog

  datatype Parameter = Parameter(name: Option<string>, example: Option<string>)

  datatype StoredComponent = StoredComponent(fields: Component, parameters: seq<Parameter>)

  datatype ParameterFormat = Positional | Structured

  /** The fields of a template row that the fetch writes. */
  datatype StoredTemplate = StoredTemplate(
    name: Option<string>, remoteId: Option<string>, lang: nat, category: Option<Category>,
    status: TemplateStatus, parameterFormat: ParameterFormat, config: nat, addStatus: AddStatus,
    components: seq<StoredComponent>)

  datatype SyncError = FetchFailed(status: int) | NotJson | MalformedExample | MissingParameterModel

  // ---------------------------------------------------------------------
  // Languages

  /** The Odoo code for a Meta language: "en" is "en_US", any other code has '_' replaced by '-'. */
  function OdooLangCode(meta: string): string
  {
    if meta == "en" then "en_US" else ReplaceChar(meta, '_', '-')
  }

  /** The first installed language whose code is the Odoo code or its '-'-to-'_' variant. */
  function LanguageOf(langs: seq<string>, meta: string): (r: Option<nat>)
    ensures r.Some? ==>
              r.value < |langs| && (langs[r.value] == OdooLangCode(meta) || langs[r.value] == ReplaceChar(OdooLangCode(meta), '-', '_'))
  {
    var code := OdooLangCode(meta);
    FirstMatch(langs, (l: string) => l == code || l == ReplaceChar(code, '-', '_'))
  }

  lemma {:induction false} ReplaceCharBack(s: string)
    requires forall i | 0 <= i < |s| :: s[i] != '-'
    ensures ReplaceChar(ReplaceChar(s, '_', '-'), '-', '_') == s
  {
    var r := ReplaceChar(ReplaceChar(s, '_', '-'), '-', '_');
    assert forall i | 0 <= i < |s| :: r[i] == s[i];
  }

  /**
   * A template in a language that is installed under Meta's own code is
   * never skipped: Meta codes such as "pt_BR" are found as "pt-BR" or as
   * "pt_BR", and "en" as "en_US".
   */
  lemma InstalledLanguageFound(langs: seq<string>, meta: string)
    requires (meta != "en" && meta in langs && forall i | 0 <= i < |meta| :: meta[i] != '-') || (meta == "en" && "en_US" in langs)
    ensures LanguageOf(langs, meta).Some?
  {
    var code := OdooLangCode(meta);
    var k :| 0 <= k < |langs| && langs[k] == (if meta == "en" then "en_US" else meta);
    if meta != "en" {
      ReplaceCharBack(meta);
    }
    assert langs[k] == code || langs[k] == ReplaceChar(code, '-', '_');
  }

  // ---------------------------------------------------------------------
  // Components

  /** Example parameters named "1", "2", … in order. */
  function PositionalParameters(list: seq<string>): (r: seq<Parameter>)
    ensures |r| == |list|
    ensures forall i | 0 <= i < |list| :: r[i].example == Some(list[i]) && r[i].name.Some?
  {
    seq(|list|, i requires 0 <= i < |list| => Parameter(Some(NatToString(i + 1)), Some(list[i])))
  }

  /** The positional parameter names read back as their positions, so no two are equal. */
  lemma PositionalNames(list: seq<string>)
    ensures var r := PositionalParameters(list);
            (forall i | 0 <= i < |r| :: IsDigitString(r[i].name.value) && ParseNat(r[i].name.value) == i + 1)
            && forall i, j | 0 <= i < j < |r| :: r[i].name != r[j].name
  {
    var r := PositionalParameters(list);
    forall i | 0 <= i < |r|
      ensures IsDigitString(r[i].name.value) && ParseNat(r[i].name.value) == i + 1
    {
      ParseNatToString(i + 1);
    }
  }

  /**
   * The parameters an example yields: positional ones from `header_text`,
   * else from the first list of `body_text` (an empty `body_text` raises);
   * named ones from `header_text_named_params`, else `body_text_named_params`.
   */
  function ExampleParameters(e: Example): (r: Result<seq<Parameter>, SyncError>)
    ensures r.Err? <==> (e.headerText.None? || e.headerText.value == []) && e.bodyText == Some([])
  {
    if e.headerText.Some? || e.bodyText.Some? then
      if e.headerText.Some? && e.headerText.value != [] then Ok(PositionalParameters(e.headerText.value))
      else if e.bodyText.None? then Ok([])
      else if e.bodyText.value == [] then Err(MalformedExample)
      else Ok(PositionalParameters(e.bodyText.value[0]))
    else if e.headerNamed.Some? || e.bodyNamed.Some? then
      var list := if e.headerNamed.Some? && e.headerNamed.value != [] then e.headerNamed.value else e.bodyNamed.GetOr([]);
      Ok(seq(|list|, i requires 0 <= i < |list| => Parameter(list[i].paramName, list[i].example)))
    else Ok([])
  }

  function AppRecord(a: RemoteApp): App
  {
    App(a.platform,
        if a.platform == Android then a.packageName else None,
        if a.platform == Android then a.signatureHash else None,
        if a.platform == Ios then a.bundleId else None)
  }

  /** A button row: OTP fields only on OTP buttons, the autofill text only for ONE_TAP, apps only on OTP buttons. */
  function ButtonRecord(b: RemoteButton): Button
  {
    Button(b.kind, b.text, b.phoneNumber, b.url, None,
           if b.kind == Otp then b.otpType else None,
           if b.kind == Otp && b.otpType == Some(OneTap) then b.autofillText else None,
           if b.kind == Otp then seq(|b.supportedApps|, k requires 0 <= k < |b.supportedApps| => AppRecord(b.supportedApps[k])) else [])
  }

  /** A component row: each field copied only where it applies. */
  function ComponentRecord(c: RemoteComponent): Component
  {
    var location := c.kind == Header && c.format == Some(LocationFormat);
    Component(c.kind, c.format, c.text, None,
              if location then c.latitude.GetOr(0.0) else 0.0,
              if location then c.longitude.GetOr(0.0) else 0.0,
              if location then c.name else None,
              if location then c.address else None,
              c.kind == Body && c.securityRecommendation.GetOr(false),
              if c.kind == Footer then c.codeExpiration.GetOr(0) else 0,
              if c.kind == Buttons then seq(|c.buttons|, k requires 0 <= k < |c.buttons| => ButtonRecord(c.buttons[k])) else [])
  }

  predicate HasExample(e: Example)
  {
    e.headerText.Some? || e.bodyText.Some? || e.headerNamed.Some? || e.bodyNamed.Some?
  }

  function StoredComponentOf(c: RemoteComponent): Result<StoredComponent, SyncError>
  {
    if c.kind in {Header, Body} && HasExample(c.example) then
      match ExampleParameters(c.example)
      case Err(e) => Err(e)
      case Ok(ps) => Ok(StoredComponent(ComponentRecord(c), ps))
    else Ok(StoredComponent(ComponentRecord(c), []))
  }

  /** The rebuilt components, in the listing's order; the first malformed example aborts. */
  function StoredComponents(cs: seq<RemoteComponent>): (r: Result<seq<StoredComponent>, SyncError>)
    ensures r.Ok? ==> |r.value| == |cs| && forall k | 0 <= k < |cs| :: StoredComponentOf(cs[k]) == Ok(r.value[k])
    ensures r.Err? ==> exists k | 0 <= k < |cs| :: StoredComponentOf(cs[k]).Err?
    decreases |cs|
  {
    if cs == [] then Ok([])
    else match StoredComponentOf(cs[0])
      case Err(e) => Err(e)
      case Ok(c) =>
        match StoredComponents(cs[1..])
        case Err(e) => Err(e)
        case Ok(rest) => Ok([c] + rest)
  }

  // ---------------------------------------------------------------------
  // Upsert

  predicate SameKey(t: StoredTemplate, remoteId: Option<string>, config: nat)
  {
    t.remoteId == remoteId && t.config == config
  }

  /** The template data written for a listed template. */
  function TemplateRow(rt: RemoteTemplate, lang: nat, config: nat, cs: seq<StoredComponent>): StoredTemplate
  {
    StoredTemplate(rt.name, rt.id, lang, rt.category, rt.status.GetOr(Pending),
                   if rt.category in {Some(Marketing), Some(Utility)} then Positional else Structured,
                   config, if rt.status.Some? then Added else New, cs)
  }

  /**
   * One listed template: skipped when its language is not installed;
   * otherwise the first row with its remote id and provider is overwritten,
   * or a new row appended.
   */
  function Upserted(rows: seq<StoredTemplate>, config: nat, langs: seq<string>, rt: RemoteTemplate)
    : (r: Result<seq<StoredTemplate>, SyncError>)
    ensures r.Ok? && LanguageOf(langs, rt.language).None? ==> r.value == rows
    ensures r.Ok? && LanguageOf(langs, rt.language).Some? ==>
              StoredComponents(rt.components).Ok? &&
              (exists k | 0 <= k < |r.value| :: r.value[k] == TemplateRow(rt, LanguageOf(langs, rt.language).value, config, StoredComponents(rt.components).value))
    ensures r.Ok? ==> |rows| <= |r.value| <= |rows| + 1
    ensures r.Ok? ==> forall k | 0 <= k < |rows| && !SameKey(rows[k], rt.id, config) :: r.value[k] == rows[k]
    ensures r.Ok? ==> forall k | 0 <= k < |r.value| :: (k < |rows| && r.value[k] == rows[k]) || SameKey(r.value[k], rt.id, config)
  {
    match LanguageOf(langs, rt.language)
    case None => Ok(rows)
    case Some(lang) =>
      match StoredComponents(rt.components)
      case Err(e) => Err(e)
      case Ok(cs) =>
        var row := TemplateRow(rt, lang, config, cs);
        match FirstMatch(rows, (t: StoredTemplate) => SameKey(t, rt.id, config))
        case Some(i) => assert rows[i := row][i] == row; Ok(rows[i := row])
        case None => assert (rows + [row])[|rows|] == row; Ok(rows + [row])
  }

  /** The listed templates in order; the first error aborts. */
  function SyncedRows(rows: seq<StoredTemplate>, config: nat, langs: seq<string>, ts: seq<RemoteTemplate>)
    : Result<seq<StoredTemplate>, SyncError>
    decreases |ts|
  {
    if ts == [] then Ok(rows)
    else match Upserted(rows, config, langs, ts[0])
      case Err(e) => Err(e)
      case Ok(rows1) => SyncedRows(rows1, config, langs, ts[1..])
  }

  /** `get_message_template`: the rows after the fetch and the number of templates listed. */
  function Synced(rows: seq<StoredTemplate>, config: nat, langs: seq<string>, listing: Listing)
    : Result<(seq<StoredTemplate>, nat), SyncError>
  {
    if listing.status != 200 then Err(FetchFailed(listing.status))
    else if listing.data.None? then Err(NotJson)
    else match SyncedRows(rows, config, langs, listing.data.value)
      case Err(e) => Err(e)
      case Ok(r) => Ok((r, |listing.data.value|))
  }

  /**
   * `get_message_template` as written: once the listing is read, the action
   * looks up a parameter model that no installed module declares, which
   * raises before the first template; the action re-raises it, so no row is
   * ever stored.
   */
  function SyncedAsWritten(rows: seq<StoredTemplate>, config: nat, langs: seq<string>, listing: Listing)
    : (r: Result<(seq<StoredTemplate>, nat), SyncError>)
    ensures r.Err?
    ensures listing.status == 200 && listing.data.Some? ==> r == Err(MissingParameterModel)
    ensures !(listing.status == 200 && listing.data.Some?) ==> r == Synced(rows, config, langs, listing)
  {
    if listing.status != 200 then Err(FetchFailed(listing.status))
    else if listing.data.None? then Err(NotJson)
    else Err(MissingParameterModel)
  }

  /**
   * An empty listing shows the gap: as written the fetch fails, where the
   * intended sync succeeds and leaves the rows as they were.
   */
  lemma EmptyListingFailsAsWritten(rows: seq<StoredTemplate>, config: nat, langs: seq<string>)
    ensures SyncedAsWritten(rows, config, langs, Listing(200, Some([]))) == Err(MissingParameterModel)
    ensures Synced(rows, config, langs, Listing(200, Some([]))) == Ok((rows, 0))
  {
  }

  /** No two rows share a remote id and a provider. */
  predicate KeysUnique(rows: seq<StoredTemplate>)
  {
    forall i, j | 0 <= i < j < |rows| :: !SameKey(rows[j], rows[i].remoteId, rows[i].config)
  }

  lemma UpsertKeepsKeysUnique(rows: seq<StoredTemplate>, config: nat, langs: seq<string>, rt: RemoteTemplate)
    requires KeysUnique(rows)
    ensures var r := Upserted(rows, config, langs, rt); r.Ok? ==> KeysUnique(r.value)
  {
    var r := Upserted(rows, config, langs, rt);
    if r.Ok? && LanguageOf(langs, rt.language).Some? {
      var found := FirstMatch(rows, (t: StoredTemplate) => SameKey(t, rt.id, config));
      if found.Some? {
        var i := found.value;
        assert forall k | 0 <= k < |rows| :: r.value[k] == (if k == i then TemplateRow(rt, LanguageOf(langs, rt.language).value, config, StoredComponents(rt.components).value) else rows[k]);
      }
    }
  }

  /** Fetching keeps the remote-id-and-provider key unique, however often the listing repeats an id. */
  lemma {:induction false} SyncKeepsKeysUnique(rows: seq<StoredTemplate>, config: nat, langs: seq<string>, ts: seq<RemoteTemplate>)
    requires KeysUnique(rows)
    ensures var r := SyncedRows(rows, config, langs, ts); r.Ok? ==> KeysUnique(r.value)
    decreases |ts|
  {
    if ts != [] {
      UpsertKeepsKeysUnique(rows, config, langs, ts[0]);
      var r1 := Upserted(rows, config, langs, ts[0]);
      if r1.Ok? {
        SyncKeepsKeysUnique(r1.value, config, langs, ts[1..]);
      }
    }
  }

  /**
   * `after` keeps every row of `before` that belongs to another provider,
   * and every row it changes or adds belongs to `config`.
   */
  predicate OthersKept(before: seq<StoredTemplate>, after: seq<StoredTemplate>, config: nat)
  {
    |before| <= |after|
    && (forall k | 0 <= k < |before| && before[k].config != config :: after[k] == before[k])
    && forall k | 0 <= k < |after| :: (k < |before| && after[k] == before[k]) || after[k].config == config
  }

  lemma OthersKeptTransitive(a: seq<StoredTemplate>, b: seq<StoredTemplate>, c: seq<StoredTemplate>, config: nat)
    requires OthersKept(a, b, config) && OthersKept(b, c, config)
    ensures OthersKept(a, c, config)
  {
    forall k | 0 <= k < |a| && a[k].config != config
      ensures c[k] == a[k]
    {
      assert b[k] == a[k];
    }
    forall k | 0 <= k < |c| && c[k].config != config
      ensures k < |a| && c[k] == a[k]
    {
      assert k < |b| && c[k] == b[k];
    }
  }

  /** Fetching for one provider leaves every row of every other provider as it was. */
  lemma {:induction false} SyncKeepsOtherProviders(rows: seq<StoredTemplate>, config: nat, langs: seq<string>, ts: seq<RemoteTemplate>)
    ensures var r := SyncedRows(rows, config, langs, ts); r.Ok? ==> OthersKept(rows, r.value, config)
    decreases |ts|
  {
    if ts != [] {
      var r1 := Upserted(rows, config, langs, ts[0]);
      if r1.Ok? {
        assert OthersKept(rows, r1.value, config);
        SyncKeepsOtherProviders(r1.value, config, langs, ts[1..]);
        var r := SyncedRows(r1.value, config, langs, ts[1..]);
        if r.Ok? {
          OthersKeptTransitive(rows, r1.value, r.value, config);
        }
      }
    }
  }

  // ---------------------------------------------------------------------
  // The fetch on the catalog

  /** The template table. */
  class Catalog {
    var templates: seq<StoredTemplate>

    constructor (rows: seq<StoredTemplate>)
      ensures templates == rows
    {
      templates := rows;
    }

    /** Rebuilds the components of a listed template, one by one. */
    static method BuildStoredComponents(cs: seq<RemoteComponent>) returns (r: Result<seq<StoredComponent>, SyncError>)
      ensures r == StoredComponents(cs)
    {
      var built: seq<StoredComponent> := [];
      for i := 0 to |cs|
        invariant |built| == i && forall k | 0 <= k < i :: StoredComponentOf(cs[k]) == Ok(built[k])
      {
        var c := StoredComponentOf(cs[i]);
        if c.Err? {
          StoredComponentsFailAt(cs, i);
          return Err(c.error);
        }
        built := built + [c.value];
      }
      StoredComponentsSucceed(cs, built);
      return Ok(built);
    }

    /**
     * The fetch: every listed template upserted in order; a failed fetch or
     * a malformed example raises, and the transaction is rolled back.
     */
    method Sync(config: nat, langs: seq<string>, listing: Listing) returns (r: Result<nat, SyncError>)
      modifies this
      ensures var spec := Synced(old(templates), config, langs, listing);
              (r.Ok? <==> spec.Ok?)
              && (r.Ok? ==> r.value == spec.value.1 && templates == spec.value.0)
              && (r.Err? ==> r.error == spec.error && templates == old(templates))
    {
      if listing.status != 200 {
        return Err(FetchFailed(listing.status));
      }
      if listing.data.None? {
        return Err(NotJson);
      }
      var saved := templates;
      var ts := listing.data.value;
      var i := 0;
      while i < |ts|
        invariant 0 <= i <= |ts|
        invariant SyncedRows(templates, config, langs, ts[i..]) == SyncedRows(saved, config, langs, ts)
      {
        var rt := ts[i];
        assert ts[i..][1..] == ts[i + 1..];
        var lang := LanguageOf(langs, rt.language);
        if lang.Some? {
          var cs := BuildStoredComponents(rt.components);
          if cs.Err? {
            templates := saved;
            return Err(cs.error);
          }
          var row := TemplateRow(rt, lang.value, config, cs.value);
          var existing := FirstMatch(templates, (t: StoredTemplate) => SameKey(t, rt.id, config));
          if existing.Some? {
            templates := templates[existing.value := row];
          } else {
            templates := templates + [row];
          }
        }
        i := i + 1;
      }
      return Ok(|ts|);
    }
  }

  lemma {:induction false} StoredComponentsFailAt(cs: seq<RemoteComponent>, i: nat)
    requires i < |cs| && StoredComponentOf(cs[i]).Err? && forall k | 0 <= k < i :: StoredComponentOf(cs[k]).Ok?
    ensures StoredComponents(cs) == Err(StoredComponentOf(cs[i]).error)
    decreases |cs|
  {
    if i > 0 {
      StoredComponentsFailAt(cs[1..], i - 1);
    }
  }

  lemma {:induction false} StoredComponentsSucceed(cs: seq<RemoteComponent>, built: seq<StoredComponent>)
    requires |built| == |cs| && forall k | 0 <= k < |cs| :: StoredComponentOf(cs[k]) == Ok(built[k])
    ensures StoredComponents(cs) == Ok(built)
    decreases |cs|
  {
    if cs != [] {
      StoredComponentsSucceed(cs[1..], built[1..]);
      assert built == [built[0]] + built[1..];
    }
  }
}
