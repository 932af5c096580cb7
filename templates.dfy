/**
 * The message-template catalog (`whatsapp.template` and its components,
 * buttons, supported apps and parameter mappings): the stored message
 * computed from the BODY component and written back to it, the JSON
 * payloads of the create and resubmit actions, and the field constraints.
 */
module Templates {
  import opened Wrappers
  import opened Text
  import Http

  datatype Category = Authentication | Marketing | Utility

  datatype TemplateStatus = Pending | Approved | Rejected | Paused

  datatype AddStatus = New | Added

  datatype ComponentType = Header | Body | Footer | Buttons

  datatype Format = TextFormat | ImageFormat | VideoFormat | DocumentFormat | LocationFormat

  datatype Platform = Android | Ios

  /** A supported app of an OTP button. */
  datatype App = App(platform: Platform, packageName: Option<string>, signatureHash: Option<string>, bundleId: Option<string>)

  datatype ButtonType = PhoneNumber | Url | QuickReply | CopyCode | Mpm | Otp | Spm | Catalog

  datatype OtpType = CopyCodeOtp | OneTap

  datatype Button = Button(
    kind: ButtonType, text: Option<string>, phoneNumber: Option<string>, url: Option<string>,
    example: Option<string>, otpType: Option<OtpType>, autofillText: Option<string>, apps: seq<App>)

  /** A template component; float coordinates are truthy when non-zero. */
  datatype Component = Component(
    kind: ComponentType, format: Option<Format>, text: Option<string>, mediaFile: Option<string>,
    latitude: real, longitude: real, locationName: Option<string>, locationAddress: Option<string>,
    securityRecommendation: bool, codeExpiration: int, buttons: seq<Button>)

  // ---------------------------------------------------------------------
  // The stored message

  predicate AtMostOneBody(comps: seq<Component>)
  {
    forall i, j | 0 <= i < j < |comps| :: !(comps[i].kind == Body && comps[j].kind == Body)
  }

  function BodyIndex(comps: seq<Component>): (r: Option<nat>)
    ensures r.Some? ==> r.value < |comps| && comps[r.value].kind == Body
    ensures r.None? ==> forall k | 0 <= k < |comps| :: comps[k].kind != Body
    decreases |comps|
  {
    if comps == [] then None
    else if comps[0].kind == Body then Some(0)
    else match BodyIndex(comps[1..])
      case None => None
      case Some(k) => Some(k + 1)
  }

  /** `_compute_message`: the BODY component's text, or nothing. */
  function MessageOf(comps: seq<Component>): Option<string>
  {
    match BodyIndex(comps)
    case None => None
    case Some(k) => if Truthy(comps[k].text) then comps[k].text else None
  }

  /**
   * `_inverse_message`: a non-empty message on a template that is not an
   * authentication template goes into the BODY component, which is created
   * when missing; otherwise a BODY text is cleared.
   */
  function WithMessage(comps: seq<Component>, m: Option<string>, category: Option<Category>): (r: seq<Component>)
    ensures |comps| <= |r| <= |comps| + 1
    ensures forall k | 0 <= k < |comps| :: r[k].kind == comps[k].kind
    ensures forall k | 0 <= k < |comps| && comps[k].kind != Body :: r[k] == comps[k]
  {
    match BodyIndex(comps)
    case Some(k) =>
      if Truthy(m) && category != Some(Authentication) then comps[k := comps[k].(text := m)]
      else if Truthy(comps[k].text) then comps[k := comps[k].(text := None)]
      else comps
    case None =>
      if Truthy(m) && category != Some(Authentication) then
        comps + [Component(Body, None, m, None, 0.0, 0.0, None, None, false, 0, [])]
      else comps
  }

  /**
   * Writing the message and computing it back agree: the BODY text read back
   * is the written message when it is non-empty and the template is not an
   * authentication template, and nothing otherwise; the catalog still holds
   * at most one BODY component.
   */
  lemma MessageRoundTrip(comps: seq<Component>, m: Option<string>, category: Option<Category>)
    requires AtMostOneBody(comps)
    ensures AtMostOneBody(WithMessage(comps, m, category))
    ensures MessageOf(WithMessage(comps, m, category)) == (if Truthy(m) && category != Some(Authentication) then m else None)
  {
    var r := WithMessage(comps, m, category);
    match BodyIndex(comps)
    case Some(k) =>
      assert forall j | 0 <= j < |r| :: (r[j].kind == Body <==> j == k);
      FirstBodyIs(r, k);
    case None =>
      if Truthy(m) && category != Some(Authentication) {
        assert forall j | 0 <= j < |r| :: (r[j].kind == Body <==> j == |comps|);
        FirstBodyIs(r, |comps|);
      }
  }

  lemma {:induction false} FirstBodyIs(comps: seq<Component>, k: nat)
    requires k < |comps| && forall j | 0 <= j < |comps| :: (comps[j].kind == Body <==> j == k)
    ensures BodyIndex(comps) == Some(k)
    decreases |comps|
  {
    if k > 0 {
      FirstBodyIs(comps[1..], k - 1);
    }
  }

  // ---------------------------------------------------------------------
  // Payloads

  datatype AppJson = AppJson(id: Option<Platform>, packageName: Option<string>, signatureHash: Option<string>, bundleId: Option<string>)

  /**
   * A button object. `example` is the single element of the example list;
   * the outer option of `otpType` and `autofillText` says whether the key is
   * present, the inner one its possibly empty value.
   */
  datatype ButtonJson = ButtonJson(
    kind: ButtonType, text: Option<string>, phoneNumber: Option<string>, url: Option<string>,
    example: Option<string>, otpType: Option<Option<OtpType>>, supportedApps: Option<seq<AppJson>>,
    autofillText: Option<Option<string>>)

  datatype Location = Location(latitude: real, longitude: real, name: Option<string>, address: Option<string>)

  /**
   * A component object. `format` is present on headers only (possibly empty);
   * `securityRecommendation` stands for the key being present (with value true).
   */
  datatype ComponentJson = ComponentJson(
    kind: ComponentType, format: Option<Option<Format>>, text: Option<string>, headerHandle: Option<string>,
    location: Option<Location>, securityRecommendation: bool, codeExpiration: Option<int>,
    buttons: Option<seq<ButtonJson>>)

  /** The app object; the resubmit payload also carries the platform as `id`. */
  function AppJsonOf(a: App, withId: bool): AppJson
  {
    AppJson(if withId then Some(a.platform) else None,
            if a.platform == Android && Truthy(a.packageName) then a.packageName else None,
            if a.platform == Android && Truthy(a.signatureHash) then a.signatureHash else None,
            if a.platform == Ios && Truthy(a.bundleId) then a.bundleId else None)
  }

  function AppsJson(apps: seq<App>, withId: bool): (r: seq<AppJson>)
    ensures |r| == |apps|
  {
    seq(|apps|, k requires 0 <= k < |apps| => AppJsonOf(apps[k], withId))
  }

  function ButtonJsonOf(b: Button, withAppId: bool): ButtonJson
  {
    var base := ButtonJson(b.kind, b.text, None, None, None, None, None, None);
    if b.kind == PhoneNumber && Truthy(b.phoneNumber) then base.(phoneNumber := b.phoneNumber)
    else if b.kind == Url && Truthy(b.url) then
      base.(url := b.url, example := if Truthy(b.example) then b.example else None)
    else if b.kind == Otp then
      base.(otpType := Some(b.otpType),
            supportedApps := if b.apps != [] then Some(AppsJson(b.apps, withAppId)) else None,
            autofillText := if b.otpType == Some(OneTap) then Some(b.autofillText) else None)
    else base
  }

  function ButtonsJson(bs: seq<Button>, withAppId: bool): (r: seq<ButtonJson>)
    ensures |r| == |bs|
  {
    seq(|bs|, k requires 0 <= k < |bs| => ButtonJsonOf(bs[k], withAppId))
  }

  /** Authentication templates send no header. */
  predicate Skipped(category: Option<Category>, c: Component)
  {
    category == Some(Authentication) && c.kind == Header
  }

  /** A media header whose file is uploaded first, to obtain the example handle. */
  predicate NeedsUpload(c: Component)
  {
    c.kind == Header && c.format.Some? && c.format.value in {ImageFormat, VideoFormat, DocumentFormat} && Truthy(c.mediaFile)
  }

  /** `_upload_media`'s reply: status 200 or 201 and a non-empty `id`; anything else raises. */
  function UploadedId(reply: Http.Reply): (r: Option<string>)
    ensures r.Some? ==> Truthy(r)
  {
    if reply.Response? && reply.status in {200, 201} && reply.body.Some? && Truthy(reply.body.value.id)
    then reply.body.value.id else None
  }

  /** One component object, key by key. */
  function ComponentJsonOf(category: Option<Category>, c: Component, withAppId: bool, handle: Option<string>): ComponentJson
  {
    var base := ComponentJson(c.kind, None, None, None, None, false, None, None);
    match c.kind
    case Header =>
      var h := base.(format := Some(c.format));
      if c.format == Some(TextFormat) && Truthy(c.text) then h.(text := c.text)
      else if NeedsUpload(c) then h.(headerHandle := handle)
      else if c.format == Some(LocationFormat) && c.latitude != 0.0 && c.longitude != 0.0 then
        h.(location := Some(Location(c.latitude, c.longitude,
                                     if Truthy(c.locationName) then c.locationName else None,
                                     if Truthy(c.locationAddress) then c.locationAddress else None)))
      else h
    case Body =>
      base.(text := if (category == Some(Marketing) || category == Some(Utility)) && Truthy(c.text) then c.text else None,
            securityRecommendation := category == Some(Authentication) && c.securityRecommendation)
    case Footer =>
      base.(text := if Truthy(c.text) then c.text else None,
            codeExpiration := if category == Some(Authentication) && c.codeExpiration != 0 then Some(c.codeExpiration) else None)
    case Buttons =>
      if c.buttons == [] then base else base.(buttons := Some(ButtonsJson(c.buttons, withAppId)))
  }

  /**
   * Each key of a component object is present exactly when the component's
   * kind, the template's category and the component's own fields call for it.
   */
  lemma ComponentJsonKeys(category: Option<Category>, c: Component, withAppId: bool, handle: Option<string>)
    ensures var r := ComponentJsonOf(category, c, withAppId, handle);
            && r.kind == c.kind && (r.format.Some? <==> c.kind == Header) && (r.format.Some? ==> r.format.value == c.format)
            && (r.text.Some? <==> Truthy(c.text) && ((c.kind == Header && c.format == Some(TextFormat))
                                                  || (c.kind == Body && (category == Some(Marketing) || category == Some(Utility)))
                                                  || c.kind == Footer))
            && (r.text.Some? ==> r.text == c.text)
            && r.headerHandle == (if NeedsUpload(c) then handle else None)
            && (r.location.Some? <==> c.kind == Header && c.format == Some(LocationFormat) && c.latitude != 0.0 && c.longitude != 0.0)
            && (r.securityRecommendation <==> c.kind == Body && category == Some(Authentication) && c.securityRecommendation)
            && (r.codeExpiration.Some? <==> c.kind == Footer && category == Some(Authentication) && c.codeExpiration != 0)
            && (r.codeExpiration.Some? ==> r.codeExpiration.value == c.codeExpiration)
            && (r.buttons.Some? <==> c.kind == Buttons && c.buttons != [])
            && (r.buttons.Some? ==> r.buttons.value == ButtonsJson(c.buttons, withAppId))
  {
  }

  datatype TemplateError =
    UploadFailed(reply: Http.Reply) | NoMediaEndpoint | NotEditable | MissingRemoteId | RequestFailed(reply: Http.Reply)

  /** The components payload and the number of uploads made for it. */
  datatype Built = Built(components: seq<ComponentJson>, uploads: nat)

  /**
   * The component loop shared by the create and resubmit actions: each
   * component in order, headers of authentication templates skipped, media
   * headers uploaded with the next reply (`next` counts the calls so far).
   */
  function BuiltComponents(category: Option<Category>, comps: seq<Component>, withAppId: bool,
                           replies: seq<Http.Reply>, next: nat): (r: Result<Built, TemplateError>)
    ensures r.Ok? ==> r.value.uploads >= next
    decreases |comps|
  {
    if comps == [] then Ok(Built([], next))
    else if Skipped(category, comps[0]) then BuiltComponents(category, comps[1..], withAppId, replies, next)
    else
      var handle := if NeedsUpload(comps[0]) then UploadedId(Http.Nth(replies, next)) else None;
      if NeedsUpload(comps[0]) && handle.None? then Err(UploadFailed(Http.Nth(replies, next)))
      else
        var used := if NeedsUpload(comps[0]) then next + 1 else next;
        match BuiltComponents(category, comps[1..], withAppId, replies, used)
        case Err(e) => Err(e)
        case Ok(rest) => Ok(Built([ComponentJsonOf(category, comps[0], withAppId, handle)] + rest.components, rest.uploads))
  }

  function Prepend(done: seq<ComponentJson>, r: Result<Built, TemplateError>): Result<Built, TemplateError>
  {
    if r.Ok? then Ok(Built(done + r.value.components, r.value.uploads)) else r
  }

  method BuildApps(apps: seq<App>, withId: bool) returns (r: seq<AppJson>)
    ensures r == AppsJson(apps, withId)
  {
    r := [];
    for i := 0 to |apps|
      invariant r == AppsJson(apps[..i], withId)
    {
      r := r + [AppJsonOf(apps[i], withId)];
    }
    assert apps[..|apps|] == apps;
  }

  method BuildButton(b: Button, withAppId: bool) returns (r: ButtonJson)
    ensures r == ButtonJsonOf(b, withAppId)
  {
    r := ButtonJson(b.kind, b.text, None, None, None, None, None, None);
    if b.kind == PhoneNumber && Truthy(b.phoneNumber) {
      r := r.(phoneNumber := b.phoneNumber);
    } else if b.kind == Url && Truthy(b.url) {
      r := r.(url := b.url);
      if Truthy(b.example) {
        r := r.(example := b.example);
      }
    } else if b.kind == Otp {
      r := r.(otpType := Some(b.otpType));
      if b.apps != [] {
        var apps := BuildApps(b.apps, withAppId);
        r := r.(supportedApps := Some(apps));
      }
      if b.otpType == Some(OneTap) {
        r := r.(autofillText := Some(b.autofillText));
      }
    }
  }

  method BuildButtons(bs: seq<Button>, withAppId: bool) returns (r: seq<ButtonJson>)
    ensures r == ButtonsJson(bs, withAppId)
  {
    r := [];
    for i := 0 to |bs|
      invariant r == ButtonsJson(bs[..i], withAppId)
    {
      var b := BuildButton(bs[i], withAppId);
      r := r + [b];
    }
    assert bs[..|bs|] == bs;
  }

  /** One component object, key by key. */
  method BuildComponent(category: Option<Category>, c: Component, withAppId: bool, handle: Option<string>)
    returns (r: ComponentJson)
    ensures r == ComponentJsonOf(category, c, withAppId, handle)
  {
    r := ComponentJson(c.kind, None, None, None, None, false, None, None);
    if c.kind == Header {
      r := r.(format := Some(c.format));
      if c.format == Some(TextFormat) && Truthy(c.text) {
        r := r.(text := c.text);
      } else if NeedsUpload(c) {
        r := r.(headerHandle := handle);
      } else if c.format == Some(LocationFormat) && c.latitude != 0.0 && c.longitude != 0.0 {
        var location := Location(c.latitude, c.longitude, None, None);
        if Truthy(c.locationName) {
          location := location.(name := c.locationName);
        }
        if Truthy(c.locationAddress) {
          location := location.(address := c.locationAddress);
        }
        r := r.(location := Some(location));
      }
    } else if c.kind == Body {
      if (category == Some(Marketing) || category == Some(Utility)) && Truthy(c.text) {
        r := r.(text := c.text);
      }
      if category == Some(Authentication) && c.securityRecommendation {
        r := r.(securityRecommendation := true);
      }
    } else if c.kind == Footer {
      if Truthy(c.text) {
        r := r.(text := c.text);
      }
      if category == Some(Authentication) && c.codeExpiration != 0 {
        r := r.(codeExpiration := Some(c.codeExpiration));
      }
    } else if c.buttons != [] {
      var bs := BuildButtons(c.buttons, withAppId);
      r := r.(buttons := Some(bs));
    }
  }

  /** The component loop, with its uploads; calls are numbered from `next`. */
  method BuildComponents(category: Option<Category>, comps: seq<Component>, withAppId: bool,
                         replies: seq<Http.Reply>, next: nat) returns (r: Result<Built, TemplateError>)
    ensures r == BuiltComponents(category, comps, withAppId, replies, next)
  {
    var done: seq<ComponentJson> := [];
    var calls := next;
    var i := 0;
    assert comps[0..] == comps;
    ghost var whole := BuiltComponents(category, comps, withAppId, replies, next);
    if whole.Ok? {
      assert [] + whole.value.components == whole.value.components;
    }
    while i < |comps|
      invariant 0 <= i <= |comps|
      invariant Prepend(done, BuiltComponents(category, comps[i..], withAppId, replies, calls))
                == BuiltComponents(category, comps, withAppId, replies, next)
    {
      var c := comps[i];
      assert comps[i..][1..] == comps[i + 1..];
      if !Skipped(category, c) {
        var handle := None;
        if NeedsUpload(c) {
          handle := UploadedId(Http.Nth(replies, calls));
          if handle.None? {
            return Err(UploadFailed(Http.Nth(replies, calls)));
          }
          calls := calls + 1;
        }
        var j := BuildComponent(category, c, withAppId, handle);
        PrependOne(done, j, BuiltComponents(category, comps[i + 1..], withAppId, replies, calls));
        done := done + [j];
      }
      i := i + 1;
    }
    assert done + [] == done;
    return Ok(Built(done, calls));
  }

  lemma PrependOne(done: seq<ComponentJson>, j: ComponentJson, r: Result<Built, TemplateError>)
    ensures Prepend(done, if r.Ok? then Ok(Built([j] + r.value.components, r.value.uploads)) else r)
            == Prepend(done + [j], r)
  {
    if r.Ok? {
      assert done + ([j] + r.value.components) == (done + [j]) + r.value.components;
    }
  }

  // ---------------------------------------------------------------------
  // What the component loop builds

  /** The components the payload keeps, in order: all but the headers of authentication templates. */
  function Kept(category: Option<Category>, comps: seq<Component>): (r: seq<Component>)
    ensures |r| <= |comps|
    ensures forall k | 0 <= k < |r| :: !Skipped(category, r[k])
  {
    if comps == [] then []
    else if Skipped(category, comps[0]) then Kept(category, comps[1..])
    else [comps[0]] + Kept(category, comps[1..])
  }

  /** How many of the components upload a media file. */
  function UploadCount(cs: seq<Component>): (n: nat)
    ensures n <= |cs|
  {
    if cs == [] then 0 else (if NeedsUpload(cs[0]) then 1 else 0) + UploadCount(cs[1..])
  }

  /**
   * The header handle of the `k`th kept component: for a media header, the
   * id answered by the upload call numbered after the uploads before it.
   */
  function HandleAt(cs: seq<Component>, k: nat, replies: seq<Http.Reply>, next: nat): Option<string>
    requires k < |cs|
  {
    if NeedsUpload(cs[k]) then UploadedId(UploadReply(cs, k, replies, next)) else None
  }

  /** The reply to the upload of the `k`th kept component: the call numbered after the uploads before it. */
  function UploadReply(cs: seq<Component>, k: nat, replies: seq<Http.Reply>, next: nat): Http.Reply
    requires k <= |cs|
  {
    Http.Nth(replies, next + UploadCount(cs[..k]))
  }

  /** The `k`th kept component is a media header whose upload gives no id. */
  predicate UploadFails(cs: seq<Component>, k: nat, replies: seq<Http.Reply>, next: nat)
    requires k < |cs|
  {
    NeedsUpload(cs[k]) && HandleAt(cs, k, replies, next).None?
  }

  /** Every kept media header's upload gives an id. */
  predicate AllUploadsSucceed(cs: seq<Component>, replies: seq<Http.Reply>, next: nat)
  {
    forall k | 0 <= k < |cs| :: !UploadFails(cs, k, replies, next)
  }

  /** The `k`th kept component is the first whose upload fails. */
  predicate FirstFailure(cs: seq<Component>, k: nat, replies: seq<Http.Reply>, next: nat)
  {
    k < |cs| && UploadFails(cs, k, replies, next) && forall j | 0 <= j < k :: !UploadFails(cs, j, replies, next)
  }

  /** One object per kept component, in order, each built with its upload handle, after one upload per media header. */
  predicate PayloadOf(category: Option<Category>, cs: seq<Component>, withAppId: bool, replies: seq<Http.Reply>, next: nat,
                      b: Built)
  {
    && |b.components| == |cs| && b.uploads == next + UploadCount(cs)
    && forall k | 0 <= k < |cs| :: b.components[k] == ComponentJsonOf(category, cs[k], withAppId, HandleAt(cs, k, replies, next))
  }

  /**
   * The payload of the component loop: it fails exactly when the upload of
   * some kept media header fails, and then with the reply of the first such
   * upload; otherwise it holds one object per kept component, in order,
   * each built with that component's upload handle, after one upload per
   * kept media header.
   */
  lemma BuiltComponentsPayload(category: Option<Category>, comps: seq<Component>, withAppId: bool,
                               replies: seq<Http.Reply>, next: nat)
    ensures var r := BuiltComponents(category, comps, withAppId, replies, next);
            var kept := Kept(category, comps);
            && (r.Ok? <==> AllUploadsSucceed(kept, replies, next))
            && (r.Ok? ==> PayloadOf(category, kept, withAppId, replies, next, r.value))
            && (r.Err? ==> exists k: nat :: FirstFailure(kept, k, replies, next)
                                            && r.error == UploadFailed(UploadReply(kept, k, replies, next)))
  {
    BuiltFromKept(category, comps, withAppId, replies, next);
    var kept := Kept(category, comps);
    BuiltOkPayload(category, kept, withAppId, replies, next);
    BuiltErrFirst(category, kept, withAppId, replies, next);
  }

  /** Skipped components contribute nothing: building the kept ones gives the same result. */
  lemma {:induction false} BuiltFromKept(category: Option<Category>, comps: seq<Component>, withAppId: bool,
                                         replies: seq<Http.Reply>, next: nat)
    ensures BuiltComponents(category, comps, withAppId, replies, next)
            == BuiltComponents(category, Kept(category, comps), withAppId, replies, next)
    decreases |comps|
  {
    if comps != [] {
      forall n: nat {
        BuiltFromKept(category, comps[1..], withAppId, replies, n);
      }
      if !Skipped(category, comps[0]) {
        var kept := Kept(category, comps);
        assert kept[0] == comps[0] && kept[1..] == Kept(category, comps[1..]);
      }
    }
  }

  /** Past the first kept component, handles are those of the rest, counted after its upload. */
  lemma HandleShift(cs: seq<Component>, k: nat, replies: seq<Http.Reply>, next: nat)
    requires 1 <= k < |cs|
    ensures UploadReply(cs, k, replies, next)
            == UploadReply(cs[1..], k - 1, replies, next + (if NeedsUpload(cs[0]) then 1 else 0))
    ensures HandleAt(cs, k, replies, next)
            == HandleAt(cs[1..], k - 1, replies, next + (if NeedsUpload(cs[0]) then 1 else 0))
  {
    var pre := cs[..k];
    assert pre[0] == cs[0] && pre[1..] == cs[1..][..k - 1];
    assert cs[1..][k - 1] == cs[k];
  }

  lemma {:induction false} BuiltOkPayload(category: Option<Category>, cs: seq<Component>, withAppId: bool,
                                          replies: seq<Http.Reply>, next: nat)
    requires forall k | 0 <= k < |cs| :: !Skipped(category, cs[k])
    ensures var r := BuiltComponents(category, cs, withAppId, replies, next);
            && (r.Ok? <==> AllUploadsSucceed(cs, replies, next))
            && (r.Ok? ==> PayloadOf(category, cs, withAppId, replies, next, r.value))
    decreases |cs|
  {
    if cs != [] {
      var t := cs[1..];
      var used := next + (if NeedsUpload(cs[0]) then 1 else 0);
      BuiltStep(category, cs, withAppId, replies, next);
      BuiltOkPayload(category, t, withAppId, replies, used);
      ShiftAll(cs, replies, next);
      var r := BuiltComponents(category, cs, withAppId, replies, next);
      if r.Ok? {
        var rest := BuiltComponents(category, t, withAppId, replies, used);
        assert r.value.components[1..] == rest.value.components;
      }
    }
  }

  /** Every kept component past the first has the handle and upload outcome it has among the rest. */
  lemma ShiftAll(cs: seq<Component>, replies: seq<Http.Reply>, next: nat)
    requires cs != []
    ensures var used := next + (if NeedsUpload(cs[0]) then 1 else 0);
            && (forall k | 1 <= k < |cs| :: HandleAt(cs, k, replies, next) == HandleAt(cs[1..], k - 1, replies, used))
            && (AllUploadsSucceed(cs, replies, next) <==> !UploadFails(cs, 0, replies, next) && AllUploadsSucceed(cs[1..], replies, used))
    ensures UploadCount(cs) == (if NeedsUpload(cs[0]) then 1 else 0) + UploadCount(cs[1..])
  {
    var t := cs[1..];
    var used := next + (if NeedsUpload(cs[0]) then 1 else 0);
    forall k | 1 <= k < |cs|
      ensures HandleAt(cs, k, replies, next) == HandleAt(t, k - 1, replies, used)
      ensures UploadFails(cs, k, replies, next) == UploadFails(t, k - 1, replies, used)
    {
      HandleShift(cs, k, replies, next);
    }
    if !AllUploadsSucceed(t, replies, used) {
      var k' :| 0 <= k' < |t| && UploadFails(t, k', replies, used);
      assert UploadFails(cs, k' + 1, replies, next);
    }
  }

  lemma {:induction false} BuiltErrFirst(category: Option<Category>, cs: seq<Component>, withAppId: bool,
                                         replies: seq<Http.Reply>, next: nat)
    requires forall k | 0 <= k < |cs| :: !Skipped(category, cs[k])
    ensures var r := BuiltComponents(category, cs, withAppId, replies, next);
            r.Err? ==> exists k: nat :: FirstFailure(cs, k, replies, next)
                                        && r.error == UploadFailed(UploadReply(cs, k, replies, next))
    decreases |cs|
  {
    var r := BuiltComponents(category, cs, withAppId, replies, next);
    if r.Err? {
      BuiltStep(category, cs, withAppId, replies, next);
      if UploadFails(cs, 0, replies, next) {
        assert FirstFailure(cs, 0, replies, next);
      } else {
        var used := next + (if NeedsUpload(cs[0]) then 1 else 0);
        BuiltErrFirst(category, cs[1..], withAppId, replies, used);
        var k: nat :| FirstFailure(cs[1..], k, replies, used)
                      && r.error == UploadFailed(UploadReply(cs[1..], k, replies, used));
        FirstFailureShift(cs, k, replies, next);
      }
    }
  }

  /** One turn of the loop over a kept component. */
  lemma BuiltStep(category: Option<Category>, cs: seq<Component>, withAppId: bool, replies: seq<Http.Reply>, next: nat)
    requires cs != [] && !Skipped(category, cs[0])
    ensures var r := BuiltComponents(category, cs, withAppId, replies, next);
            var rest := BuiltComponents(category, cs[1..], withAppId, replies, next + (if NeedsUpload(cs[0]) then 1 else 0));
            && cs[..0] == []
            && (UploadFails(cs, 0, replies, next) ==> r == Err(UploadFailed(UploadReply(cs, 0, replies, next))))
            && (!UploadFails(cs, 0, replies, next) && rest.Err? ==> r == rest)
            && (!UploadFails(cs, 0, replies, next) && rest.Ok? ==>
                  r == Ok(Built([ComponentJsonOf(category, cs[0], withAppId, HandleAt(cs, 0, replies, next))] + rest.value.components,
                                rest.value.uploads)))
  {
    assert cs[..0] == [];
  }

  /** A first failure among the rest is the first failure overall when the first component's upload succeeds. */
  lemma FirstFailureShift(cs: seq<Component>, k: nat, replies: seq<Http.Reply>, next: nat)
    requires cs != [] && !UploadFails(cs, 0, replies, next)
    requires FirstFailure(cs[1..], k, replies, next + (if NeedsUpload(cs[0]) then 1 else 0))
    ensures FirstFailure(cs, k + 1, replies, next)
    ensures UploadReply(cs, k + 1, replies, next)
            == UploadReply(cs[1..], k, replies, next + (if NeedsUpload(cs[0]) then 1 else 0))
  {
    var used := next + (if NeedsUpload(cs[0]) then 1 else 0);
    forall j | 1 <= j <= k + 1
      ensures UploadFails(cs, j, replies, next) == UploadFails(cs[1..], j - 1, replies, used)
    {
      HandleShift(cs, j, replies, next);
    }
    HandleShift(cs, k + 1, replies, next);
  }

  /** The body of the create and resubmit calls; `category` is absent from a resubmit that does not send it. */
  datatype TemplatePayload = TemplatePayload(name: string, category: Option<Option<Category>>, language: string, components: seq<ComponentJson>)

  /** Meta's language code: the Odoo code with '-' replaced by '_'. */
  function ApiLanguage(code: string): (r: string)
    ensures |r| == |code| && forall i | 0 <= i < |r| :: r[i] != '-'
    ensures forall i | 0 <= i < |code| :: r[i] == (if code[i] == '-' then '_' else code[i])
  {
    ReplaceChar(code, '-', '_')
  }

  /** A create or update call succeeds on status 200 or 201. */
  predicate Succeeded(reply: Http.Reply)
  {
    reply.Response? && reply.status in {200, 201}
  }

  /**
   * `action_create_template`: the posted payload and the remote id the reply
   * carries; an upload or create failure is an error.
   */
  function CreateResult(name: string, lang: string, category: Option<Category>, comps: seq<Component>,
                        replies: seq<Http.Reply>): (r: Result<(TemplatePayload, Option<string>), TemplateError>)
    ensures r.Ok? ==> r.value.0.category == Some(category) && r.value.0.language == ApiLanguage(lang)
    ensures var b := BuiltComponents(category, comps, false, replies, 0);
            r.Ok? <==> b.Ok? && Succeeded(Http.Nth(replies, b.value.uploads)) && Http.Nth(replies, b.value.uploads).body.Some?
    ensures var b := BuiltComponents(category, comps, false, replies, 0);
            r.Ok? ==> r.value.0.name == name && r.value.0.components == b.value.components
    ensures var b := BuiltComponents(category, comps, false, replies, 0); b.Err? ==> r == Err(b.error)
  {
    match BuiltComponents(category, comps, false, replies, 0)
    case Err(e) => Err(e)
    case Ok(b) =>
      var reply := Http.Nth(replies, b.uploads);
      if Succeeded(reply) && reply.body.Some? then
        Ok((TemplatePayload(name, Some(category), ApiLanguage(lang), b.components), reply.body.value.id))
      else Err(RequestFailed(reply))
  }

  /**
   * `action_resubmit_template`: the components are built (and their media
   * uploaded) first; then only APPROVED, REJECTED or PAUSED templates with a
   * remote id are posted, the category only for REJECTED or PAUSED ones.
   */
  function ResubmitResult(name: string, lang: string, category: Option<Category>, status: Option<TemplateStatus>,
                          remoteId: Option<string>, comps: seq<Component>, replies: seq<Http.Reply>)
    : (r: Result<TemplatePayload, TemplateError>)
    ensures r.Ok? ==> status in {Some(Approved), Some(Rejected), Some(Paused)} && Truthy(remoteId)
    ensures r.Ok? ==> (r.value.category.Some? <==> status in {Some(Rejected), Some(Paused)})
    ensures r.Ok? ==> r.value.language == ApiLanguage(lang)
    ensures BuiltComponents(category, comps, true, replies, 0).Ok? && status !in {Some(Approved), Some(Rejected), Some(Paused)}
            ==> r == Err(NotEditable)
    ensures var b := BuiltComponents(category, comps, true, replies, 0); b.Err? ==> r == Err(b.error)
    ensures var b := BuiltComponents(category, comps, true, replies, 0);
            r.Ok? <==> b.Ok? && status in {Some(Approved), Some(Rejected), Some(Paused)} && Truthy(remoteId)
                       && Succeeded(Http.Nth(replies, b.value.uploads))
    ensures var b := BuiltComponents(category, comps, true, replies, 0);
            r.Ok? ==> r.value.name == name && r.value.components == b.value.components
  {
    match BuiltComponents(category, comps, true, replies, 0)
    case Err(e) => Err(e)
    case Ok(b) =>
      if status !in {Some(Approved), Some(Rejected), Some(Paused)} then Err(NotEditable)
      else if !Truthy(remoteId) then Err(MissingRemoteId)
      else
        var reply := Http.Nth(replies, b.uploads);
        if Succeeded(reply) then
          Ok(TemplatePayload(name, if status in {Some(Rejected), Some(Paused)} then Some(category) else None,
                             ApiLanguage(lang), b.components))
        else Err(RequestFailed(reply))
  }

  // ---------------------------------------------------------------------
  // The media upload as written

  /** Some component the payload keeps is a media header with a file, so the build uploads it. */
  predicate UploadsMedia(category: Option<Category>, comps: seq<Component>)
  {
    exists i | 0 <= i < |comps| :: !Skipped(category, comps[i]) && NeedsUpload(comps[i])
  }

  /**
   * The component loop as written: `_upload_media` builds its URL from the
   * provider's `phone_number_id`, a field the provider model does not
   * declare, so the first media header to upload raises before any request
   * is made; the action turns that into its own error.
   */
  function BuiltComponentsAsWritten(category: Option<Category>, comps: seq<Component>, withAppId: bool,
                                    replies: seq<Http.Reply>, next: nat): (r: Result<Built, TemplateError>)
    ensures r.Err? <==> UploadsMedia(category, comps)
    ensures r.Err? ==> r.error == NoMediaEndpoint
    ensures r.Ok? ==> r.value.uploads == next
    decreases |comps|
  {
    if comps == [] then Ok(Built([], next))
    else
      var rest := BuiltComponentsAsWritten(category, comps[1..], withAppId, replies, next);
      UploadsMediaCons(category, comps);
      if Skipped(category, comps[0]) then rest
      else if NeedsUpload(comps[0]) then Err(NoMediaEndpoint)
      else match rest
        case Err(e) => Err(e)
        case Ok(b) => Ok(Built([ComponentJsonOf(category, comps[0], withAppId, None)] + b.components, b.uploads))
  }

  lemma UploadsMediaCons(category: Option<Category>, comps: seq<Component>)
    requires comps != []
    ensures UploadsMedia(category, comps)
            <==> (!Skipped(category, comps[0]) && NeedsUpload(comps[0])) || UploadsMedia(category, comps[1..])
  {
    if UploadsMedia(category, comps[1..]) {
      var i :| 0 <= i < |comps[1..]| && !Skipped(category, comps[1..][i]) && NeedsUpload(comps[1..][i]);
      assert comps[i + 1] == comps[1..][i];
    }
    if UploadsMedia(category, comps) && !(!Skipped(category, comps[0]) && NeedsUpload(comps[0])) {
      var i :| 0 <= i < |comps| && !Skipped(category, comps[i]) && NeedsUpload(comps[i]);
      assert i > 0 && comps[1..][i - 1] == comps[i];
    }
  }

  /** Where nothing is uploaded, the build as written is the intended one. */
  lemma {:induction false} AsWrittenBuildAgrees(category: Option<Category>, comps: seq<Component>, withAppId: bool,
                                                replies: seq<Http.Reply>, next: nat)
    requires !UploadsMedia(category, comps)
    ensures BuiltComponentsAsWritten(category, comps, withAppId, replies, next)
            == BuiltComponents(category, comps, withAppId, replies, next)
    decreases |comps|
  {
    if comps != [] {
      UploadsMediaCons(category, comps);
      AsWrittenBuildAgrees(category, comps[1..], withAppId, replies, next);
    }
  }

  /** `action_create_template` as written: a template with a media header to upload always fails. */
  function CreateResultAsWritten(name: string, lang: string, category: Option<Category>, comps: seq<Component>,
                                 replies: seq<Http.Reply>): (r: Result<(TemplatePayload, Option<string>), TemplateError>)
    ensures r == Err(NoMediaEndpoint) <==> UploadsMedia(category, comps)
    ensures !UploadsMedia(category, comps) ==> r == CreateResult(name, lang, category, comps, replies)
  {
    match BuiltComponentsAsWritten(category, comps, false, replies, 0)
    case Err(e) => Err(e)
    case Ok(_) =>
      AsWrittenBuildAgrees(category, comps, false, replies, 0);
      var created := CreateResult(name, lang, category, comps, replies);
      assert created.Err? ==> created.error != NoMediaEndpoint;
      created
  }

  /** `action_resubmit_template` as written: the same failure, raised before the status is checked. */
  function ResubmitResultAsWritten(name: string, lang: string, category: Option<Category>, status: Option<TemplateStatus>,
                                   remoteId: Option<string>, comps: seq<Component>, replies: seq<Http.Reply>)
    : (r: Result<TemplatePayload, TemplateError>)
    ensures r == Err(NoMediaEndpoint) <==> UploadsMedia(category, comps)
    ensures !UploadsMedia(category, comps) ==> r == ResubmitResult(name, lang, category, status, remoteId, comps, replies)
  {
    match BuiltComponentsAsWritten(category, comps, true, replies, 0)
    case Err(e) => Err(e)
    case Ok(_) =>
      AsWrittenBuildAgrees(category, comps, true, replies, 0);
      var resubmitted := ResubmitResult(name, lang, category, status, remoteId, comps, replies);
      assert resubmitted.Err? ==> resubmitted.error != NoMediaEndpoint;
      resubmitted
  }

  /**
   * A marketing template whose only component is an image header with a
   * file: as written its creation fails whatever the API would answer; with
   * the upload addressed as intended, an accepted upload and an accepted
   * create succeed.
   */
  lemma ImageHeaderTemplateFailsAsWritten()
    ensures var header := Component(Header, Some(ImageFormat), None, Some("img"), 0.0, 0.0, None, None, false, 0, []);
            var replies := [Http.Response(200, Some(Http.Body(Some("h"), None, None))),
                            Http.Response(200, Some(Http.Body(Some("t"), None, None)))];
            CreateResultAsWritten("promo", "en", Some(Marketing), [header], replies) == Err(NoMediaEndpoint)
            && CreateResult("promo", "en", Some(Marketing), [header], replies).Ok?
  {
    var header := Component(Header, Some(ImageFormat), None, Some("img"), 0.0, 0.0, None, None, false, 0, []);
    var replies := [Http.Response(200, Some(Http.Body(Some("h"), None, None))),
                    Http.Response(200, Some(Http.Body(Some("t"), None, None)))];
    assert UploadsMedia(Some(Marketing), [header]) by {
      assert !Skipped(Some(Marketing), [header][0]) && NeedsUpload([header][0]);
    }
    assert Http.Nth(replies, 0) == replies[0] && Http.Nth(replies, 1) == replies[1];
    assert BuiltComponents(Some(Marketing), [header][1..], false, replies, 1) == Ok(Built([], 1));
  }

  // ---------------------------------------------------------------------
  // Constraints

  datatype ConstraintError =
    | HeaderTextRequired | HeaderMediaRequired(format: Format) | HeaderLocationRequired | HeaderFormatMissing
    | HeaderNotAllowed | BodyTextRequired | ExpirationRequired
    | OtpTypeRequired | OtpOutsideAuthentication | OtpAppsRequired | ButtonTextRequired
    | PackageNameRequired | SignatureHashRequired | BundleIdRequired
    | DuplicatePlatform | DuplicateParameter

  /** `_check_component_format`, for a component of a template of the given category. */
  function ComponentCheck(c: Component, category: Option<Category>): Option<ConstraintError>
  {
    if c.kind == Header && category != Some(Authentication) then
      if c.format == Some(TextFormat) && !Truthy(c.text) then Some(HeaderTextRequired)
      else if c.format.Some? && c.format.value in {ImageFormat, VideoFormat, DocumentFormat} && !Truthy(c.mediaFile) then
        Some(HeaderMediaRequired(c.format.value))
      else if c.format == Some(LocationFormat) && (c.latitude == 0.0 || c.longitude == 0.0) then Some(HeaderLocationRequired)
      else if c.format.None? && (Truthy(c.text) || Truthy(c.mediaFile) || c.latitude != 0.0 || c.longitude != 0.0
                                 || Truthy(c.locationName) || Truthy(c.locationAddress)) then Some(HeaderFormatMissing)
      else None
    else if c.kind == Header then Some(HeaderNotAllowed)
    else if c.kind == Body then
      if (category == Some(Marketing) || category == Some(Utility)) && !Truthy(c.text) then Some(BodyTextRequired) else None
    else if c.kind == Footer && category == Some(Authentication) && c.codeExpiration == 0 then Some(ExpirationRequired)
    else None
  }

  /** `_check_button_format`, for a button of a template of the given category. */
  function ButtonCheck(b: Button, category: Option<Category>): Option<ConstraintError>
  {
    if b.kind == Otp && b.otpType.None? then Some(OtpTypeRequired)
    else if b.kind == Otp && category != Some(Authentication) then Some(OtpOutsideAuthentication)
    else if b.kind == Otp && b.apps == [] then Some(OtpAppsRequired)
    else if !Truthy(b.text) then Some(ButtonTextRequired)
    else None
  }

  /** `_check_app_format` */
  function AppCheck(a: App): Option<ConstraintError>
  {
    match a.platform
    case Android =>
      if !Truthy(a.packageName) then Some(PackageNameRequired)
      else if !Truthy(a.signatureHash) then Some(SignatureHashRequired)
      else None
    case Ios => if !Truthy(a.bundleId) then Some(BundleIdRequired) else None
  }

  /** The key at index `k` occurs at another index too. */
  predicate ClashesAt<K(==)>(keys: seq<K>, k: nat)
    requires k < |keys|
  {
    exists j | 0 <= j < |keys| :: j != k && keys[j] == keys[k]
  }

  predicate Distinct<K(==)>(keys: seq<K>)
  {
    forall i, j | 0 <= i < j < |keys| :: keys[i] != keys[j]
  }

  /** The first record, from `from` on, whose search for another record with its key finds one. */
  function FirstClash<K(==)>(keys: seq<K>, from: nat): (r: Option<nat>)
    ensures r.Some? ==> from <= r.value < |keys| && ClashesAt(keys, r.value)
    ensures r.None? ==> forall k | from <= k < |keys| :: !ClashesAt(keys, k)
    decreases |keys| - from
  {
    if from >= |keys| then None
    else if ClashesAt(keys, from) then Some(from)
    else FirstClash(keys, from + 1)
  }

  /** Checking every record for a clash accepts exactly the sequences without repeated keys. */
  lemma NoClashIffDistinct<K>(keys: seq<K>)
    ensures FirstClash(keys, 0).None? <==> Distinct(keys)
  {
    if Distinct(keys) {
      forall k | 0 <= k < |keys|
        ensures !ClashesAt(keys, k)
      {
        forall j | 0 <= j < |keys| && j != k
          ensures keys[j] != keys[k]
        {
          if j < k {
            assert keys[j] != keys[k];
          } else {
            assert keys[k] != keys[j];
          }
        }
      }
    }
    if FirstClash(keys, 0).None? {
      forall i, j | 0 <= i < j < |keys|
        ensures keys[i] != keys[j]
      {
        assert !ClashesAt(keys, i);
      }
    }
  }

  function Platforms(apps: seq<App>): (r: seq<Platform>)
    ensures |r| == |apps| && forall k | 0 <= k < |apps| :: r[k] == apps[k].platform
  {
    seq(|apps|, k requires 0 <= k < |apps| => apps[k].platform)
  }

  /** `_check_unique_platform`, run for every app of one button. */
  function UniquePlatformCheck(apps: seq<App>): (r: Option<ConstraintError>)
    ensures r.None? <==> Distinct(Platforms(apps))
  {
    NoClashIffDistinct(Platforms(apps));
    if FirstClash(Platforms(apps), 0).Some? then Some(DuplicatePlatform) else None
  }

  datatype ParameterMapping = ParameterMapping(parameterName: string, field: string)

  function ParameterNames(ms: seq<ParameterMapping>): (r: seq<string>)
    ensures |r| == |ms| && forall k | 0 <= k < |ms| :: r[k] == ms[k].parameterName
  {
    seq(|ms|, k requires 0 <= k < |ms| => ms[k].parameterName)
  }

  /** `_check_unique_mapping`, run for every mapping of one template. */
  function UniqueMappingCheck(ms: seq<ParameterMapping>): (r: Option<ConstraintError>)
    ensures r.None? <==> Distinct(ParameterNames(ms))
    ensures r.Some? ==> r.value == DuplicateParameter
  {
    NoClashIffDistinct(ParameterNames(ms));
    if FirstClash(ParameterNames(ms), 0).Some? then Some(DuplicateParameter) else None
  }

  predicate ButtonAccepted(b: Button, category: Option<Category>)
  {
    ButtonCheck(b, category).None? && UniquePlatformCheck(b.apps).None?
    && forall k | 0 <= k < |b.apps| :: AppCheck(b.apps[k]).None?
  }

  predicate ComponentAccepted(c: Component, category: Option<Category>)
  {
    ComponentCheck(c, category).None? && forall k | 0 <= k < |c.buttons| :: ButtonAccepted(c.buttons[k], category)
  }

  /** An app object that names the app: a package and signature, or a bundle id. */
  predicate CompleteApp(a: AppJson)
  {
    (a.packageName.Some? && a.signatureHash.Some?) || a.bundleId.Some?
  }

  /** A button object with its label and, for OTP, its type and at least one complete app. */
  predicate CompleteButton(b: ButtonJson)
  {
    Truthy(b.text)
    && (b.kind == Otp ==>
          b.otpType.Some? && b.otpType.value.Some? && b.supportedApps.Some? && |b.supportedApps.value| > 0
          && forall k | 0 <= k < |b.supportedApps.value| :: CompleteApp(b.supportedApps.value[k]))
  }

  /** A component object carrying the data its kind, format and category call for. */
  predicate CompleteComponent(category: Option<Category>, j: ComponentJson)
  {
    (j.kind == Header ==>
       category != Some(Authentication)
       && (j.format == Some(Some(TextFormat)) ==> Truthy(j.text))
       && (j.format in {Some(Some(ImageFormat)), Some(Some(VideoFormat)), Some(Some(DocumentFormat))} ==> Truthy(j.headerHandle))
       && (j.format == Some(Some(LocationFormat)) ==> j.location.Some?))
    && (j.kind == Body && (category == Some(Marketing) || category == Some(Utility)) ==> Truthy(j.text))
    && (j.kind == Footer && category == Some(Authentication) ==> j.codeExpiration.Some?)
    && (j.buttons.Some? ==> forall k | 0 <= k < |j.buttons.value| :: CompleteButton(j.buttons.value[k]))
  }

  lemma AcceptedButtonComplete(b: Button, category: Option<Category>, withAppId: bool)
    requires ButtonAccepted(b, category)
    ensures CompleteButton(ButtonJsonOf(b, withAppId))
  {
    if b.kind == Otp {
      var apps := AppsJson(b.apps, withAppId);
      assert forall k | 0 <= k < |apps| :: apps[k] == AppJsonOf(b.apps[k], withAppId);
    }
  }

  lemma AcceptedComponentComplete(c: Component, category: Option<Category>, withAppId: bool, handle: Option<string>)
    requires ComponentAccepted(c, category) && !Skipped(category, c)
    requires NeedsUpload(c) ==> Truthy(handle)
    ensures CompleteComponent(category, ComponentJsonOf(category, c, withAppId, handle))
  {
    if c.kind == Buttons && c.buttons != [] {
      var bs := ButtonsJson(c.buttons, withAppId);
      forall k | 0 <= k < |bs|
        ensures CompleteButton(bs[k])
      {
        AcceptedButtonComplete(c.buttons[k], category, withAppId);
      }
    }
  }

  /**
   * A template whose components, buttons and apps all pass their
   * constraints yields, when its uploads succeed, a components payload in
   * which every object carries what its kind requires: header text, media
   * handle or location; body text for marketing and utility templates; code
   * expiry on authentication footers; button labels; OTP types and apps.
   */
  lemma {:induction false} AcceptedTemplatePayload(category: Option<Category>, comps: seq<Component>, withAppId: bool,
                                                   replies: seq<Http.Reply>, next: nat)
    requires forall k | 0 <= k < |comps| :: ComponentAccepted(comps[k], category)
    ensures var r := BuiltComponents(category, comps, withAppId, replies, next);
            r.Ok? ==> forall k | 0 <= k < |r.value.components| :: CompleteComponent(category, r.value.components[k])
    decreases |comps|
  {
    if comps != [] {
      var c := comps[0];
      var handle := if NeedsUpload(c) then UploadedId(Http.Nth(replies, next)) else None;
      assert !Skipped(category, c);
      if !(NeedsUpload(c) && handle.None?) {
        var used := if NeedsUpload(c) then next + 1 else next;
        AcceptedTemplatePayload(category, comps[1..], withAppId, replies, used);
        AcceptedComponentComplete(c, category, withAppId, handle);
        var r := BuiltComponents(category, comps, withAppId, replies, next);
        var rest := BuiltComponents(category, comps[1..], withAppId, replies, used);
        assert rest.Ok? ==> forall j | 0 <= j < |rest.value.components| :: CompleteComponent(category, rest.value.components[j]);
        if r.Ok? {
          assert r.value.components == [ComponentJsonOf(category, c, withAppId, handle)] + rest.value.components;
          forall k | 0 <= k < |r.value.components|
            ensures CompleteComponent(category, r.value.components[k])
          {
            if k > 0 {
              assert r.value.components[k] == rest.value.components[k - 1];
              assert CompleteComponent(category, rest.value.components[k - 1]);
            } else {
              assert r.value.components[0] == ComponentJsonOf(category, c, withAppId, handle);
            }
          }
        }
      }
    }
  }

  /** Whatever the components, an authentication template's payload has no header. */
  lemma {:induction false} AuthenticationPayloadHasNoHeader(comps: seq<Component>, withAppId: bool,
                                                            replies: seq<Http.Reply>, next: nat)
    ensures var r := BuiltComponents(Some(Authentication), comps, withAppId, replies, next);
            r.Ok? ==> forall k | 0 <= k < |r.value.components| :: r.value.components[k].kind != Header
    decreases |comps|
  {
    if comps != [] {
      var used := if NeedsUpload(comps[0]) then next + 1 else next;
      AuthenticationPayloadHasNoHeader(comps[1..], withAppId, replies, next);
      AuthenticationPayloadHasNoHeader(comps[1..], withAppId, replies, used);
    }
  }

  /** A template record; the actions write its remote id and statuses, the message writes its components. */
  class Template {
    const name: string
    const langCode: string
    const category: Option<Category>
    var remoteId: Option<string>
    var status: Option<TemplateStatus>
    var addStatus: AddStatus
    var components: seq<Component>
    var message: Option<string>

    /** A new template: no remote id, no status, `new`, its message computed from its components. */
    constructor(name: string, langCode: string, category: Option<Category>, components: seq<Component>)
      ensures this.name == name && this.langCode == langCode && this.category == category
      ensures remoteId.None? && status.None? && addStatus == New
      ensures this.components == components && message == MessageOf(components)
    {
      this.name := name;
      this.langCode := langCode;
      this.category := category;
      remoteId := None;
      status := None;
      addStatus := New;
      this.components := components;
      message := MessageOf(components);
    }

    /** Writes the message field and its inverse onto the components. */
    method SetMessage(m: Option<string>)
      modifies this`message, this`components
      ensures message == m && components == WithMessage(old(components), m, category)
    {
      message := m;
      components := WithMessage(components, m, category);
    }

    method CreateTemplate(replies: seq<Http.Reply>) returns (r: Result<TemplatePayload, TemplateError>)
      modifies this`remoteId, this`addStatus, this`status
      ensures var spec := CreateResult(name, langCode, category, components, replies);
              (r.Ok? <==> spec.Ok?)
              && (r.Ok? ==> r.value == spec.value.0 && remoteId == spec.value.1 && addStatus == Added && status == Some(Pending))
              && (r.Err? ==> r.error == spec.error && unchanged(this))
    {
      var built := BuildComponents(category, components, false, replies, 0);
      if built.Err? {
        return Err(built.error);
      }
      var reply := Http.Nth(replies, built.value.uploads);
      if !(Succeeded(reply) && reply.body.Some?) {
        return Err(RequestFailed(reply));
      }
      remoteId := reply.body.value.id;
      addStatus := Added;
      status := Some(Pending);
      return Ok(TemplatePayload(name, Some(category), ApiLanguage(langCode), built.value.components));
    }

    method ResubmitTemplate(replies: seq<Http.Reply>) returns (r: Result<TemplatePayload, TemplateError>)
      modifies this`status
      ensures r == ResubmitResult(name, langCode, category, old(status), remoteId, components, replies)
      ensures status == (if r.Ok? then Some(Pending) else old(status))
    {
      var built := BuildComponents(category, components, true, replies, 0);
      if built.Err? {
        return Err(built.error);
      }
      if status !in {Some(Approved), Some(Rejected), Some(Paused)} {
        return Err(NotEditable);
      }
      if !Truthy(remoteId) {
        return Err(MissingRemoteId);
      }
      var reply := Http.Nth(replies, built.value.uploads);
      if !Succeeded(reply) {
        return Err(RequestFailed(reply));
      }
      var sendCategory := if status in {Some(Rejected), Some(Paused)} then Some(category) else None;
      status := Some(Pending);
      return Ok(TemplatePayload(name, sendCategory, ApiLanguage(langCode), built.value.components));
    }
  }
}
