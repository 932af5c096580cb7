# WhatsApp for Odoo — a Dafny model

This project models the core of an Odoo WhatsApp integration suite (the
Meta WhatsApp Business Cloud API behind a family of Odoo modules) and proves
properties of that model. It covers these parts:

- **Contacts and phone numbers.** How a contact's stored phone and mobile are
  normalised (`Phone`). How the user form keeps provider operators in step
  (`Providers.OnChangeProviders`).
- **Providers.** Their state, webhook address and verify token (`Providers`).
- **The webhook** (`Webhook`):
  - the GET handshake;
  - the POST event handler that never raises;
  - the notification walk that appends a history row per inbound message,
    upserts delivery statuses, finds or creates the sender's contact and
    mirrors messages into a chat channel.
- **The send dispatcher** (`Dispatcher`, `message.configuration`):
  - media validation and parameter substitution;
  - the group channel helper;
  - `action_send_message`, whose first failing call logs one failed row,
    and whose raised errors roll the transaction back.
- **Templates** (`Templates`): the message/BODY round trip, the payloads sent
  to create and resubmit a template, and the constraint validators.
- **Template sync from Meta** (`TemplateSync`).
- **The chatbot overlay** on the webhook (`Chatbot`).
- **The two marketing-campaign editions** (`Campaigns`): their actions, the
  queued-campaign cron and the per-recipient send loop.
- **The send wizards** of the sale, purchase, inventory and CRM apps
  (`SaleWizard`, `Wizards`, `WizardRules`).
- **The point-of-sale action** (`PosOrder`).
- **The author** of a history row (`HistoryAuthor`).

The shared database is the class `Records.Db`. Each action that changes it is
a method proved against a function on `Records.Tables`, and the lemmas state
what the source promises about those functions. An action that raises a
`UserError` restores the tables as they were (`Db.Restore`), as Odoo rolls the
transaction back. HTTP calls already made stay made; they are kept as the
sequence of requests issued. Replies from the Graph API are inputs: one
`Http.Reply` per call, in call order. The phone-number library is a table of
the digit strings it can format (`Phone.Formatter`). The rendered PDF size and
the installed reports are parameters.

Where the docstrings and field help of the source promise more than its code
does, the model follows the code:

- Phone cleaning is not idempotent (`Phone.CleanNotIdempotent`).
- Inbound messages are never de-duplicated (`Webhook.RedeliveryDuplicates`).
- The wizards check the phone with spaces removed but dial it with the spaces
  kept (`Wizards.SpacesReachTheDispatcher`).
- A CRM wizard without a contact always raises
  (`Wizards.CrmWithoutContactRaises`).

## Model

| member | source | states |
|---|---|---|
| Phone.KeepDialChars | meta_whatsapp_all_in_one/models/inherit.py:32 | the kept string holds only dial characters (digits and '+') and is no longer than the input |
| Phone.DigitsOf | meta_whatsapp_all_in_one/models/inherit.py:39 | the string handed to the parser holds only digits and is no longer than its input |
| Phone.KeepDialCharsConcat | meta_whatsapp_all_in_one/models/inherit.py:32 | keeping dial characters distributes over concatenation: each character is kept or dropped on its own |
| Phone.DigitsOfConcat | meta_whatsapp_all_in_one/models/inherit.py:39 | keeping digits distributes over concatenation: each character is kept or dropped on its own |
| Phone.FiltersOne | meta_whatsapp_all_in_one/models/inherit.py:32-39 | a single character is kept exactly when it is a dial character, and handed to the parser exactly when it is a digit |
| Phone.KeepDialCharsOfDialString | meta_whatsapp_all_in_one/models/inherit.py:32 | a string of dial characters is kept whole |
| Phone.DigitsOfAllDigits | meta_whatsapp_all_in_one/models/inherit.py:39 | a string of digits is handed to the parser whole |
| Phone.CleanStrips | meta_whatsapp_all_in_one/models/inherit.py:32-38 | after the dial characters are kept and a "00" prefix dropped, cleaning removes exactly a leading run of zeros followed by a run of '+' and keeps the rest unchanged; when only zeros go, the rest does not start with '0' |
| Phone.StripsZerosThenPluses | meta_whatsapp_all_in_one/models/inherit.py:35-38 | stripping leading zeros and then leading '+' removes a run of zeros followed by a run of '+', and nothing else |
| Phone.CleanDropsPlus | meta_whatsapp_all_in_one/models/inherit.py:32-38 | '+' followed by digits not starting with '0' cleans to those digits |
| Phone.Clean | meta_whatsapp_all_in_one/models/inherit.py:32-38 | after dropping "00", then leading zeros, then leading '+', the result holds only dial characters and never starts with '+' |
| Phone.Normalize | meta_whatsapp_all_in_one/models/inherit.py:27-43 | when the library formats the digits of the cleaned number, their E.164 form; otherwise the cleaned number itself |
| Phone.NormalizeAsWritten | meta_whatsapp_all_in_one/models/inherit.py:27-43 | as written, the library is called without a default region on a string with no '+', refuses every number, and the cleaned number comes back, never starting with '+' |
| Phone.NormalizeAsWrittenMissesE164 | meta_whatsapp_all_in_one/models/inherit.py:37-43 | "+442079460000", which the library formats as itself, comes back as written as "442079460000" |
| Phone.NormalizedField | meta_whatsapp_all_in_one/models/inherit.py:17-25 | the stored normalized field is empty exactly when the source field is empty, else the normalisation of it |
| Phone.ContactWith | meta_whatsapp_all_in_one/models/inherit.py:14-25 | a contact created with a phone and mobile carries normalized fields that agree with them |
| Phone.WithPhone | meta_whatsapp_all_in_one/models/inherit.py:17-20 | writing the phone recomputes the normalized phone and leaves the name, mobile and normalized mobile as they were |
| Phone.CleanIdempotent | meta_whatsapp_all_in_one/models/inherit.py:33-38 | cleaning twice equals cleaning once when the cleaned number does not start with '0' |
| Phone.CleanNotIdempotent | meta_whatsapp_all_in_one/models/inherit.py:35-38 | "+05" cleans to "05", which cleans again to "5": cleaning is not idempotent in general |
| Providers.WebhookUrl | meta_whatsapp_all_in_one/models/configuration.py:90-94 | the URL is the base URL, then "/whatsapp/webhook/", then the provider id in decimal digits |
| Providers.GenerateToken | meta_whatsapp_all_in_one/models/configuration.py:96-99 | a token has exactly 32 characters, each an ASCII letter, digit or punctuation mark |
| Providers.ProviderConfig.constructor | meta_whatsapp_all_in_one/models/configuration.py:96-99 | a new provider is in draft, has no operators and holds a 32-character token from the alphabet |
| Providers.ProviderConfig.RegenerateToken | meta_whatsapp_all_in_one/models/configuration.py:101-104 | the new token again has 32 characters from the alphabet |
| Providers.StateAfterVerifyAsWritten | meta_whatsapp_all_in_one/models/configuration.py:160-192 | as written, a failed verification leaves the state as it was: the "error" write is rolled back by the `UserError` raised after it |
| Providers.StateAfterVerify | meta_whatsapp_all_in_one/models/configuration.py:170-191 | the intended rule: verified exactly on status 200, error exactly otherwise, no response included |
| Providers.FailedVerifyLeavesDraft | meta_whatsapp_all_in_one/models/configuration.py:187-189 | a draft provider answered with 401 stays in draft as written, where the error state was meant |
| Providers.ProviderConfig.Verify | meta_whatsapp_all_in_one/models/configuration.py:160-192 | succeeds exactly on status 200; the state becomes the intended verified/error state |
| Providers.ProviderConfig.ResetToDraft | meta_whatsapp_all_in_one/models/configuration.py:194-196 | the state becomes draft |
| Providers.OperatorsAfter | meta_whatsapp_all_in_one/models/inherit.py:67-79 | the user is an operator afterwards iff the provider is allowed, or, with no allowed set, it is the default or already had them; nobody else's membership changes |
| Providers.OnChangeProviders | meta_whatsapp_all_in_one/models/inherit.py:61-79 | every provider's operators become `OperatorsAfter` of their old value; states and tokens are untouched |
| Providers.GrantOperator | meta_whatsapp_all_in_one/models/inherit.py:68-72 | the user joins every allowed provider and the default one; no other provider changes |
| Providers.RevokeOutside | meta_whatsapp_all_in_one/models/inherit.py:73-79 | the user leaves every provider outside the allowed ones; the allowed ones and every other operator stay |
| Webhook.RequestTarget | meta_whatsapp_all_in_one/controller/main_controller.py:21-32 | a request path resolves only to an existing provider |
| Webhook.WebhookUrlReachesProvider | meta_whatsapp_all_in_one/controller/main_controller.py:21-32 | the address a provider publishes routes back to that provider |
| Webhook.Handshake | meta_whatsapp_all_in_one/controller/main_controller.py:39-66 | the challenge is echoed verbatim iff mode, challenge and token are all present, mode is "subscribe" and the token equals the provider's; the missing-parameters error iff one of the three is absent or empty; the invalid-mode error iff all are present and the mode is not "subscribe"; the invalid-token error iff all are present, the mode is "subscribe" and the token differs |
| Webhook.MessageContent | meta_whatsapp_all_in_one/controller/main_controller.py:107-110 | text messages store their body; any other type stores a bracketed "[<type> message]" tag |
| Webhook.CoerceStatus | meta_whatsapp_all_in_one/controller/main_controller.py:180-181 | sent, delivered and read are kept; every other status, or none, is stored as failed; never "received" |
| Webhook.PartnerLookup | meta_whatsapp_all_in_one/controller/main_controller.py:252-286 | returns the first contact whose normalized mobile or phone equals the normalized number, else appends one new contact and returns it, and then no earlier contact matched |
| Webhook.PartnerLookupStable | meta_whatsapp_all_in_one/controller/main_controller.py:258-286 | looking the same number up again finds the contact the first lookup returned, without creating another |
| Webhook.ChatChannelLookup | meta_whatsapp_all_in_one/controller/main_controller.py:218-250 | returns a chat channel of this provider holding the operator and the contact; a new one is appended only when none existed, with exactly those two members |
| Webhook.InboundRecord | meta_whatsapp_all_in_one/controller/main_controller.py:128-141 | the row has status received, sender number, provider, message id, content, and the replied-to id only when present |
| Webhook.MessagesAppendInOrder | meta_whatsapp_all_in_one/controller/main_controller.py:104-141 | each inbound message appends exactly one row, in payload order, and no earlier row changes |
| Webhook.MessageAppendsOne | meta_whatsapp_all_in_one/controller/main_controller.py:128-141 | one inbound message appends one row with its id, status received and its content |
| Webhook.RedeliveryDuplicates | meta_whatsapp_all_in_one/controller/main_controller.py:128-141 | the same message delivered twice leaves two rows with the same message id |
| Webhook.StatusUpsert | meta_whatsapp_all_in_one/controller/main_controller.py:183-216 | a status rewrites status and date of the row with its message id and provider, leaving all other rows alone, or else appends exactly one row |
| Webhook.StatusesKeepKeysUnique | meta_whatsapp_all_in_one/controller/main_controller.py:167-216 | status updates never create a second row for a (message id, provider) key |
| Webhook.OtherFieldsIgnored | meta_whatsapp_all_in_one/controller/main_controller.py:99-101 | changes to fields other than `messages` leave every table unchanged |
| Webhook.FindOrCreatePartner | meta_whatsapp_all_in_one/controller/main_controller.py:252-286 | the contact table and the id returned are those of `PartnerLookup` |
| Webhook.GetOrCreateChatChannel | meta_whatsapp_all_in_one/controller/main_controller.py:218-250 | the channel table and the id returned are those of `ChatChannelLookup` |
| Webhook.ReceiveMessage | meta_whatsapp_all_in_one/controller/main_controller.py:106-165 | the tables become `AfterMessage` of the old tables |
| Webhook.ApplyStatusUpdate | meta_whatsapp_all_in_one/controller/main_controller.py:168-216 | the tables become `AfterStatus` of the old tables |
| Webhook.ReceiveMessages | meta_whatsapp_all_in_one/controller/main_controller.py:104-165 | the loop over a change's messages leaves the tables at `AfterMessages` of the old ones |
| Webhook.ApplyStatusUpdates | meta_whatsapp_all_in_one/controller/main_controller.py:167-216 | the loop over a change's statuses leaves the tables at `AfterStatuses` of the old ones |
| Webhook.ProcessChange | meta_whatsapp_all_in_one/controller/main_controller.py:100-216 | the tables become `AfterChange` of the old tables: messages first, then statuses |
| Webhook.ProcessNotification | meta_whatsapp_all_in_one/controller/main_controller.py:95-216 | the tables become `AfterEntries` of the old tables, entry by entry |
| Webhook.EventReplyFor | meta_whatsapp_all_in_one/controller/main_controller.py:73-93 | the reply is "received" iff the body is a readable notification whose walk completes; invalid JSON gets its own error; an empty body (whose 400 reply itself raises) and a walk that fails part-way get the generic processing error |
| Webhook.HandleEventNotification | meta_whatsapp_all_in_one/controller/main_controller.py:68-93 | never raises; a readable notification is processed with mirroring on; a walk that fails part-way keeps what the entries before the failure stored; an empty or unreadable body changes nothing |
| Webhook.ParentMessageNewest | meta_whatsapp_all_in_one/controller/main_controller.py:156-163 | the parent is a message of the same channel with the replied-to WhatsApp id, and the newest such; none iff no message matches |
| Dispatcher.MediaKindOf | meta_whatsapp_all_in_one/models/message_configure.py:243-247 | the class found is one whose MIME list holds the type; none found means no list holds it |
| Dispatcher.ValidateMedia | meta_whatsapp_all_in_one/models/message_configure.py:205-271 | accepts iff the lower-cased type is in a class's table and the size does not exceed that class's limit; unsupported and too-large are told apart |
| Dispatcher.Components | meta_whatsapp_all_in_one/models/message_configure.py:195-203 | exactly one body component, holding the parameters, iff there is at least one parameter |
| Dispatcher.Calculation | meta_whatsapp_all_in_one/models/message_configure.py:130-203 | without template or model: the template's message as it stands (none without a template) and no parameters, whatever the mappings; another model raises; without mappings the raw message; a missing record id, a missing record and an unreadable field each raise, exactly in those cases and in that order, the unreadable one naming the first such field; otherwise the message is the template text with every mapping's placeholder replaced by its value, in mapping order, and one text parameter per mapping |
| Dispatcher.CalculationPutsInValue | meta_whatsapp_all_in_one/models/message_configure.py:163-203 | one readable mapping: the text up to the first occurrence of its placeholder is kept, the value stands there, and the rest is replaced in turn; the value is the only parameter |
| Dispatcher.CalculateMessage | meta_whatsapp_all_in_one/models/message_configure.py:163-203 | the substitution loop computes `Calculation` |
| Dispatcher.SubstituteAll | meta_whatsapp_all_in_one/models/message_configure.py:167-193 | the loop stops at the first mapping whose field cannot be read; otherwise the text has every placeholder replaced in mapping order and the parameters are the values in order |
| Dispatcher.SelfSubstitution | meta_whatsapp_all_in_one/models/message_configure.py:185-187 | mappings whose value equals their parameter name leave the text unchanged |
| Dispatcher.AbsentPlaceholders | meta_whatsapp_all_in_one/models/message_configure.py:185-187 | placeholders that do not occur in the text leave it unchanged |
| Text.ReplaceAllFirst | meta_whatsapp_all_in_one/models/message_configure.py:186-187 | `str.replace` keeps the text before the first occurrence, puts the replacement there, and goes on after the occurrence |
| Text.ReplaceAllLone | meta_whatsapp_all_in_one/models/message_configure.py:186-187 | a pattern that stands once, in a text where its first character occurs nowhere else, is replaced there and nothing else changes |
| Text.ReplaceAllKeepsPrefix | meta_whatsapp_all_in_one/models/message_configure.py:186-187 | `str.replace` keeps the text up to the first occurrence as it is |
| Text.LStripRemovesPrefix | meta_whatsapp_all_in_one/models/inherit.py:35-38 | `lstrip` removes a prefix made only of the character and keeps the rest as it was |
| Text.WithoutConcat | meta_whatsapp_purchase/models/whatsapp_purchase_wizard.py:178 | removing a character with `replace` distributes over concatenation |
| Text.WithoutOne | meta_whatsapp_purchase/models/whatsapp_purchase_wizard.py:178 | a single character is removed exactly when it is the one given |
| Dispatcher.GroupChannelLookup | meta_whatsapp_all_in_one/models/message_configure.py:632-699 | no channel iff the provider has no operators or the user is not one, or, without a provider, a group channel of the contact already exists (topping it up fails); otherwise the contact's group channel ends holding every operator (the current user without a provider) and the contact, with at most one channel added and no other changed; without a provider a new one is always appended |
| Dispatcher.GetOrCreateGroupChannel | meta_whatsapp_all_in_one/models/message_configure.py:632-699 | the channel table and the result are those of `GroupChannelLookup` |
| Dispatcher.SendStep | meta_whatsapp_all_in_one/models/message_configure.py:406-446 | every call is recorded; an accepted reply continues with success noted; any other reply stops with one failed row logged |
| Dispatcher.UploadResult | meta_whatsapp_all_in_one/models/message_configure.py:273-307 | an upload succeeds only for valid media answered with status 200 and a non-empty media id |
| Dispatcher.DispatchLeavesOneRow | meta_whatsapp_all_in_one/models/message_configure.py:432-612 | a send that does not raise appends exactly one history row and changes no earlier row; the row is sent iff some message call was accepted |
| Dispatcher.StagesInOrder | meta_whatsapp_all_in_one/models/message_configure.py:378-592 | after the channel lookup the template call or else the text call comes first, and every later call belongs to the attachment loop |
| Dispatcher.DispatchCallOrder | meta_whatsapp_all_in_one/models/message_configure.py:378-592 | calls go template first, text only without a template, then only upload, media and delete calls |
| Dispatcher.DispatchStopsAtFirstFailure | meta_whatsapp_all_in_one/models/message_configure.py:406-592 | the first failing call ends the calls: every call but the last was answered so that the action went on, a completed dispatch had every call answered, and a failed send ends on its own unaccepted call |
| Dispatcher.Dispatch | meta_whatsapp_all_in_one/models/message_configure.py:332-622 | no number raises with no call and no change; no provider warns with one failed row and no call; a provider the user may not use raises with no call; any raised error leaves the tables as they were |
| Dispatcher.EmptyAttachmentsCountAsAttempt | meta_whatsapp_all_in_one/models/message_configure.py:512-517 | a form with only unusable attachments makes no call and ends as a warning with a failed row |
| Dispatcher.DispatchKeepsContacts | meta_whatsapp_all_in_one/models/message_configure.py:332-622 | a dispatch never changes the contact table |
| Dispatcher.MediaPhaseCall | meta_whatsapp_all_in_one/models/message_configure.py:512-592 | the attachment loop makes the calls, history rows and channel posts `MediaPhase` describes, and stops where it does |
| Dispatcher.SendMessage | meta_whatsapp_all_in_one/models/message_configure.py:332-622 | outcome, requests and the new tables are those of `Dispatch` on the old tables |
| Templates.BodyIndex | meta_whatsapp_all_in_one/models/message_template.py:84-87 | finds a BODY component when there is one, and none otherwise |
| Templates.WithMessage | meta_whatsapp_all_in_one/models/message_template.py:89-102 | writing the message adds at most one component and changes only BODY components |
| Templates.MessageRoundTrip | meta_whatsapp_all_in_one/models/message_template.py:84-102 | reading back the message just written gives it, except empty or on an AUTHENTICATION template, where it reads as none |
| Templates.BuiltComponents | meta_whatsapp_all_in_one/models/message_template.py:143-215 | the upload replies are read from `next` on |
| Templates.BuiltComponentsPayload | meta_whatsapp_all_in_one/models/message_template.py:143-215 | building succeeds iff every kept media header's upload gives an id; then the payload has one object per kept component, in order, each built with the handle of its own upload, after one upload per media header; otherwise it fails with the reply of the first failing upload |
| Templates.ComponentJsonKeys | meta_whatsapp_all_in_one/models/message_template.py:143-215 | each key of a component object, both ways: the format only for a header, the text only where the type and category send one, the header handle only for a media header, and so on |
| Templates.Kept | meta_whatsapp_all_in_one/models/message_template.py:143-147 | no component the category skips is kept |
| Templates.BuildApps | meta_whatsapp_all_in_one/models/message_template.py:200-210 | the loop computes `AppsJson` |
| Templates.BuildButton | meta_whatsapp_all_in_one/models/message_template.py:176-210 | the button loop body computes `ButtonJsonOf` |
| Templates.BuildButtons | meta_whatsapp_all_in_one/models/message_template.py:176-210 | the loop computes `ButtonsJson` |
| Templates.BuildComponent | meta_whatsapp_all_in_one/models/message_template.py:143-215 | one component's payload is `ComponentJsonOf` |
| Templates.BuildComponents | meta_whatsapp_all_in_one/models/message_template.py:143-215 | the loop computes `BuiltComponents` |
| Templates.ApiLanguage | meta_whatsapp_all_in_one/models/message_template.py:217 | the language code keeps its length, each '-' becomes '_' and every other character stays |
| Templates.CreateResult | meta_whatsapp_all_in_one/models/message_template.py:134-246 | creation succeeds iff the components build and the create call is accepted with a body; the payload then carries the name, the category, the API language code and exactly the built components; a build error is returned as it is |
| Templates.BuiltComponentsAsWritten | meta_whatsapp_all_in_one/models/message_template.py:104-132 | as written, building fails with no media endpoint iff some kept component needs an upload, since the upload URL reads an undeclared provider field; no upload reply is consumed |
| Templates.AsWrittenBuildAgrees | meta_whatsapp_all_in_one/models/message_template.py:143-215 | without a media upload the as-written build equals the intended one |
| Templates.CreateResultAsWritten | meta_whatsapp_all_in_one/models/message_template.py:134-246 | as written, creation fails before any request iff a component needs an upload; otherwise it is `CreateResult` |
| Templates.ResubmitResultAsWritten | meta_whatsapp_all_in_one/models/message_template.py:248-364 | as written, resubmission fails before any request iff a component needs an upload; otherwise it is `ResubmitResult` |
| Templates.ImageHeaderTemplateFailsAsWritten | meta_whatsapp_all_in_one/models/message_template.py:122 | a marketing template with an image header fails as written, while the intended creation succeeds |
| Templates.ResubmitResult | meta_whatsapp_all_in_one/models/message_template.py:248-364 | resubmission succeeds iff the components build, the status is approved, rejected or paused, a remote id exists and the edit call succeeds; the category is sent iff rejected or paused; the payload carries the name, the API language code and exactly the built components; a build error is returned as it is |
| Templates.FirstClash | meta_whatsapp_all_in_one/models/message_template.py:650-694 | finds a repeated key when there is one, none otherwise |
| Templates.NoClashIffDistinct | meta_whatsapp_all_in_one/models/message_template.py:650-694 | no clash is found iff all keys are distinct |
| Templates.UniquePlatformCheck | meta_whatsapp_all_in_one/models/message_template.py:650-658 | a button's apps pass iff no platform appears twice |
| Templates.UniqueMappingCheck | meta_whatsapp_all_in_one/models/message_template.py:685-694 | a template's mappings pass iff their parameter names are distinct |
| Templates.AcceptedButtonComplete | meta_whatsapp_all_in_one/models/message_template.py:592-603 | a button that passes the validator yields a payload with text and its type's required fields |
| Templates.AcceptedComponentComplete | meta_whatsapp_all_in_one/models/message_template.py:509-529 | a component that passes the validator yields a complete payload for its category |
| Templates.AcceptedTemplatePayload | meta_whatsapp_all_in_one/models/message_template.py:143-215 | validated components build into complete payloads |
| Templates.AuthenticationPayloadHasNoHeader | meta_whatsapp_all_in_one/models/message_template.py:143-147 | an AUTHENTICATION template's payload never holds a HEADER |
| Templates.Template.constructor | meta_whatsapp_all_in_one/models/message_template.py:84-87 | a new template is unsent, and its message is read from its components |
| Templates.Template.SetMessage | meta_whatsapp_all_in_one/models/message_template.py:89-102 | the components become `WithMessage` of the old ones |
| Templates.Template.CreateTemplate | meta_whatsapp_all_in_one/models/message_template.py:134-246 | the payload is `CreateResult`; success stores the remote id, added and pending |
| Templates.Template.ResubmitTemplate | meta_whatsapp_all_in_one/models/message_template.py:248-364 | the payload is `ResubmitResult`; success sets pending, failure keeps the status |
| TemplateSync.LanguageOf | meta_whatsapp_all_in_one/models/configuration.py:216-232 | a language found is installed under the mapped code, with "en" mapped to en_US |
| TemplateSync.InstalledLanguageFound | meta_whatsapp_all_in_one/models/configuration.py:226-228 | a language installed under the mapped code is found |
| TemplateSync.PositionalParameters | meta_whatsapp_all_in_one/models/configuration.py:299-308 | one parameter per example, each named and carrying its example |
| TemplateSync.PositionalNames | meta_whatsapp_all_in_one/models/configuration.py:303-307 | positional parameters are named "1", "2", … in order |
| TemplateSync.ExampleParameters | meta_whatsapp_all_in_one/models/configuration.py:299-316 | reading examples fails only when neither header nor body text gives a list |
| TemplateSync.StoredComponents | meta_whatsapp_all_in_one/models/configuration.py:260-316 | all components are stored one for one, or one of them fails |
| TemplateSync.Upserted | meta_whatsapp_all_in_one/models/configuration.py:225-258 | an uninstalled language changes nothing; otherwise the row with the same (remote id, provider) is overwritten or one row is appended, and no other row changes |
| TemplateSync.UpsertKeepsKeysUnique | meta_whatsapp_all_in_one/models/configuration.py:234-258 | an upsert keeps the (remote id, provider) keys unique |
| TemplateSync.SyncKeepsKeysUnique | meta_whatsapp_all_in_one/models/configuration.py:225-316 | a whole sync keeps the keys unique |
| TemplateSync.SyncKeepsOtherProviders | meta_whatsapp_all_in_one/models/configuration.py:234-237 | a sync leaves every other provider's templates as they were |
| TemplateSync.SyncedAsWritten | meta_whatsapp_all_in_one/models/configuration.py:198-330 | as written every sync fails: a listing with data fails on the undeclared parameter model, and any other listing fails as the intended sync does |
| TemplateSync.EmptyListingFailsAsWritten | meta_whatsapp_all_in_one/models/configuration.py:223 | even an empty listing fails as written, while the intended sync succeeds with nothing changed |
| TemplateSync.Catalog.Sync | meta_whatsapp_all_in_one/models/configuration.py:198-330 | the catalog becomes `Synced` of the old one, or stays unchanged on error |
| Chatbot.ConfigFor | meta_whatsapp_chat_bot/controller/whatsapp.py:32-34 | the chatbot configuration found belongs to this provider; none found means none does |
| Chatbot.NextContent | meta_whatsapp_chat_bot/controller/whatsapp.py:91-96 | text takes its body, button takes its text, any other type keeps the previous content |
| Chatbot.BestScript | meta_whatsapp_chat_bot/controller/whatsapp.py:151-163 | the script chosen matches case-insensitively and has the lowest sequence among matches; none iff nothing matches |
| Chatbot.ReplyNumber | meta_whatsapp_chat_bot/controller/whatsapp.py:258-260 | the reply goes to the phone when the contact has one, otherwise to the mobile (or nowhere), in either case less one leading '+' |
| Chatbot.PostTo | meta_whatsapp_chat_bot/controller/whatsapp.py:235-249 | a channel post appends one mail message and touches nothing else |
| Chatbot.SendText | meta_whatsapp_chat_bot/controller/whatsapp.py:292-400 | one text request is made; success appends a sent row linked to chatbot and script; the inbound message is mirrored at most once |
| Chatbot.SendTemplate | meta_whatsapp_chat_bot/controller/whatsapp.py:402-497 | one template request with the language's '-' replaced by '_'; the same history and mirroring rules |
| Chatbot.ExecuteAction | meta_whatsapp_chat_bot/controller/whatsapp.py:499-542 | operators are added iff the binding is res.users with someone to add; other bindings return the response without adding; no binding returns the response |
| Chatbot.Interactive | meta_whatsapp_chat_bot/controller/whatsapp.py:252-290 | prefers the template, then the response, then the action; with none of them nothing happens |
| Chatbot.RunStep | meta_whatsapp_chat_bot/controller/whatsapp.py:186-230 | a message step sends its response; template and action steps without a target send nothing; only action steps add operators |
| Chatbot.ExecuteScriptAsWritten | meta_whatsapp_chat_bot/controller/whatsapp.py:186-249 | the step, then the closing block that mirrors the inbound message and the answer again |
| Chatbot.ExecuteScript | meta_whatsapp_chat_bot/controller/whatsapp.py:186-249 | the corrected step keeps channels and extends history |
| Chatbot.InboundMirroredOnce | meta_whatsapp_chat_bot/controller/whatsapp.py:231-249 | the corrected script posts the inbound message at most once |
| Chatbot.AnsweredStepMirrors | meta_whatsapp_chat_bot/controller/whatsapp.py:186-249 | a message step with a response, or an action step that answered without adding operators, leaves the inbound message as the first new post |
| Chatbot.MessageStepMirrorsTwice | meta_whatsapp_chat_bot/controller/whatsapp.py:198-249 | as written, a message step posts the inbound message twice; the corrected script posts it once |
| Chatbot.OnMessage | meta_whatsapp_chat_bot/controller/whatsapp.py:71-182 | a message triggers only with a history row and a configuration; empty content never triggers; no row is added except by a triggered script, which is recorded on the message's row |
| Chatbot.Respond | meta_whatsapp_chat_bot/controller/whatsapp.py:151-182 | a script runs iff the text is non-empty and some script of the chatbot matches it; it is then recorded with the chatbot on the status row; otherwise the inbound message is mirrored and nothing else happens |
| Chatbot.TriggerEndsChange | meta_whatsapp_chat_bot/controller/whatsapp.py:165-177 | after a triggered script the rest of that change's messages are not processed |
| Chatbot.Overlay | meta_whatsapp_chat_bot/controller/whatsapp.py:15-45 | without an active chatbot the plain webhook runs with mirroring on |
| Chatbot.OverlayLosesMessages | meta_whatsapp_chat_bot/controller/whatsapp.py:29-45 | as written, the unknown keyword to the parent raises, so an inbound message is answered with an error and stores nothing; the corrected overlay stores it |
| Chatbot.EventAsWritten | meta_whatsapp_chat_bot/controller/whatsapp.py:29-45 | as written, the handler never answers "received" and never stores anything: invalid JSON gets its own error, every other body the generic processing error |
| Chatbot.SendChatbotMessage | meta_whatsapp_chat_bot/controller/whatsapp.py:292-400 | the tables, requests and posts are those of `SendText` |
| Chatbot.SendChatbotTemplate | meta_whatsapp_chat_bot/controller/whatsapp.py:402-497 | the tables, requests and posts are those of `SendTemplate` |
| Chatbot.ExecuteChatbotAction | meta_whatsapp_chat_bot/controller/whatsapp.py:499-542 | the channels and the result are those of `ExecuteAction` |
| Chatbot.SendChatbotInteractive | meta_whatsapp_chat_bot/controller/whatsapp.py:252-290 | the new state is that of `Interactive` |
| Chatbot.ExecuteChatbotScript | meta_whatsapp_chat_bot/controller/whatsapp.py:186-249 | the new state is that of `ExecuteScript` |
| Chatbot.ChatbotMessage | meta_whatsapp_chat_bot/controller/whatsapp.py:71-182 | one message's effect is `OnMessage` |
| Chatbot.RespondToMessage | meta_whatsapp_chat_bot/controller/whatsapp.py:151-182 | the new state is that of `Respond` |
| Chatbot.RunTriggeredScript | meta_whatsapp_chat_bot/controller/whatsapp.py:165-177 | the script runs as `ExecuteScript` says, then the status row records the chatbot and the script |
| Chatbot.ActionAndAnswer | meta_whatsapp_chat_bot/controller/whatsapp.py:213-230 | the action runs as `ExecuteAction` says; a non-empty result is sent as `SendText` says; nothing else happens |
| Chatbot.ChatbotPass | meta_whatsapp_chat_bot/controller/whatsapp.py:47-182 | the chatbot pass over all entries is `PassEntries` |
| Chatbot.ProcessWithChatbot | meta_whatsapp_chat_bot/controller/whatsapp.py:15-182 | the new tables and requests are those of `Overlay` |
| Chatbot.HandleEventWithChatbot | meta_whatsapp_all_in_one/controller/main_controller.py:68-93 | same reply as the plain handler; a readable notification goes through the corrected overlay; one that fails part-way keeps only the plain ingestion of the entries before the failure and sends nothing; an empty or unreadable body changes nothing |
| Campaigns.SendNowError | meta_whatsapp_marketing/models/whatsapp_config.py:103-116 | queueing is refused iff the provider, the template or the partners are missing, or, in the current edition, a list is chosen without one |
| Campaigns.PartnerRecipient | meta_whatsapp_marketing/models/whatsapp_config.py:338-341 | a partner is reached at its phone, or at its mobile in the current edition when it has no phone |
| Campaigns.PartnerRecipients | meta_whatsapp_marketing/models/whatsapp_config.py:326-328 | one recipient per partner, in order |
| Campaigns.ContactRecipient | meta_whatsapp_marketing/models/whatsapp_config.py:334-337 | a list contact is reached at its WhatsApp number, linked to a contact with that phone when one exists |
| Campaigns.ContactRecipients | meta_whatsapp_marketing/models/whatsapp_config.py:319-322 | one recipient per list contact, in order |
| Campaigns.Recipients | meta_whatsapp_marketing/models/whatsapp_config.py:318-328 | recipients are the list's contacts, or the list's partners, or the campaign's partners; the legacy edition always uses the partners |
| Campaigns.RecipientsAsWritten | meta_whatsapp_marketing/models/whatsapp_config.py:319-320 | as written, a list campaign reads a field the list model lacks and fails; other campaigns get `Recipients` |
| Campaigns.Dialled | meta_whatsapp_marketing/models/whatsapp_config.py:343-359 | a leading '+' is stripped once; other numbers are unchanged |
| Campaigns.Requests | meta_whatsapp_marketing/models/whatsapp_config.py:333-359 | at most one request per recipient; recipients without a number are skipped |
| Campaigns.NumbersComeFromRecipients | meta_whatsapp_marketing/models/whatsapp_config.py:333-343 | every number dialled is the number of some recipient |
| Campaigns.NumbersKeepRecipients | meta_whatsapp_marketing/models/whatsapp_config.py:333-343 | every recipient's number is dialled; when all recipients have one, there is one number per recipient |
| Campaigns.RequestsFollowNumbers | meta_whatsapp_marketing/models/whatsapp_config.py:333-359 | a full pass makes one request per number, in recipient order, each for the campaign template and language and that number |
| Campaigns.RequestsPerRecipient | meta_whatsapp_marketing/models/whatsapp_config.py:333-359 | one request per recipient when all have a number; none when none has |
| Campaigns.SendFromLogsFailures | meta_whatsapp_marketing/models/whatsapp_config.py:361-410 | only failed requests log rows, each a failed row with the error and the campaign |
| Campaigns.SendFromLogsEachFailure | meta_whatsapp_marketing/models/whatsapp_config.py:361-410 | a complete pass of the per-recipient loop logs, in order, one failed row for each request that raised and nothing for the others: exactly `FailureLog` |
| Campaigns.SendFromLogsUpToFailure | meta_whatsapp_marketing/models/whatsapp_config.py:361-410 | a pass cut short logs exactly `FailureLog` of the recipients up to the one whose reply ended it |
| Campaigns.FailureLog | meta_whatsapp_marketing/models/whatsapp_config.py:396-410 | the rows a run logs: as many as the raising replies among the recipients with a number, each a logged failure of the campaign |
| Campaigns.FailureLogNamesRecipients | meta_whatsapp_marketing/models/whatsapp_config.py:396-410 | each logged row carries a recipient's contact and the number that was dialled for it |
| Campaigns.SendToStep | meta_whatsapp_marketing/models/whatsapp_config.py:361-410 | one recipient: a request only for a truthy number; a raising reply appends exactly its failed row (contact, dialled number, error), any other reply appends none; a malformed reply ends the send |
| Campaigns.SendFromAppends | meta_whatsapp_marketing/models/whatsapp_config.py:361-410 | the loop only appends rows and requests, at most one row per request |
| Campaigns.SendFromLogsOnlyFailures | meta_whatsapp_marketing/models/whatsapp_config.py:361-410 | every row the loop adds is a logged failure of the campaign, with the error reply |
| Campaigns.SendFromRequests | meta_whatsapp_marketing/models/whatsapp_config.py:333-410 | a complete pass makes exactly the requests of `Requests`; a pass cut short stops on a malformed reply after a request |
| Campaigns.SendCampaign | meta_whatsapp_marketing/models/whatsapp_config.py:305-410 | missing provider or template raises; no recipients raises in the current edition |
| Campaigns.SendCampaignLogsFailures | meta_whatsapp_marketing/models/whatsapp_config.py:361-410 | every row a campaign send logs is a failed row for that campaign |
| Campaigns.SendCampaignLogsEachFailure | meta_whatsapp_marketing/models/whatsapp_config.py:361-410 | a completed send logs exactly `FailureLog` of its recipients; a send ended by a malformed reply logs exactly `FailureLog` of the recipients up to the one that ended it |
| Campaigns.AcceptedRunLogsNothing | meta_whatsapp_marketing/models/whatsapp_config.py:361-410 | when every request is accepted, nothing is logged and nothing fails |
| Campaigns.UnansweredRunLogsEach | meta_whatsapp_marketing/models/whatsapp_config.py:361-410 | when no request gets a response, one failed row is logged per request |
| Campaigns.ListCampaignSendsNothingAsWritten | meta_whatsapp_marketing/models/whatsapp_config.py:319-320 | as written, a list campaign fails before making any request |
| Campaigns.CronStep | meta_whatsapp_marketing/models/whatsapp_config.py:180-194 | only queued campaigns change; a queued one ends sent iff its send raised nothing, otherwise back in draft with that error appended as a note; the schedule is cleared; the history gains exactly the send's rows and the requests are the send's |
| Campaigns.CronFrom | meta_whatsapp_marketing/models/whatsapp_config.py:180-194 | the cron keeps the number of campaigns and the contact table |
| Campaigns.CronTouchesOnlyQueued | meta_whatsapp_marketing/models/whatsapp_config.py:180-194 | campaigns not in the queue are left exactly as they were; each queued one ends sent iff its own send, made after the earlier campaigns' requests, raised nothing, and otherwise carries that error as a note |
| Campaigns.CronDecidesQueued | meta_whatsapp_marketing/models/whatsapp_config.py:186-194 | each queued campaign's outcome in the whole job is decided by its own send, given the requests the earlier campaigns made |
| Campaigns.CronStepAt | meta_whatsapp_marketing/models/whatsapp_config.py:186-194 | the job leaves campaign k as one step would, run on the tables and requests the job reached before k |
| Campaigns.Marketing.constructor | meta_whatsapp_marketing/models/whatsapp_config.py:103-116 | the campaign table starts as given |
| Campaigns.Marketing.SendNow | meta_whatsapp_marketing/models/whatsapp_config.py:103-116 | accepted campaigns move to in_queue and nothing else changes; refused ones change nothing |
| Campaigns.Marketing.Schedule | meta_whatsapp_marketing/models/whatsapp_config.py:128-131 | the campaign becomes scheduled |
| Campaigns.Marketing.Cancel | meta_whatsapp_marketing/models/whatsapp_config.py:143-147 | the campaign returns to draft with no scheduled date |
| Campaigns.Marketing.OnTemplateChange | meta_whatsapp_marketing/models/whatsapp_config.py:98-101 | the message is the template's message, or empty without a template |
| Campaigns.Marketing.OnListChange | meta_whatsapp_marketing/models/whatsapp_config.py:79-96 | the partners become one contact per list contact, reusing a same-phone contact or creating one; only the contact table changes |
| Campaigns.RefillContacts | meta_whatsapp_marketing/models/whatsapp_config.py:84-94 | the loop leaves the contact table and chosen ids of `ListMembers`; only the contact table changes |
| Campaigns.Marketing.SendMessages | meta_whatsapp_marketing/models/whatsapp_config.py:305-410 | requests and logged rows are those of `SendCampaign` |
| Campaigns.Marketing.CronSendQueued | meta_whatsapp_marketing/models/whatsapp_config.py:180-194 | campaigns, tables and requests are those of `CronFrom` |
| Campaigns.FindOrCreateContact | meta_whatsapp_marketing/models/whatsapp_config.py:85-94 | the contact found or created is `RefillOne`; only the contact table changes |
| Campaigns.RefillOne | meta_whatsapp_marketing/models/whatsapp_config.py:85-94 | the chosen contact has the list contact's number as phone; at most one contact is appended |
| Campaigns.ListMembers | meta_whatsapp_marketing/models/whatsapp_config.py:83-94 | one contact per list contact |
| Campaigns.RefillMapsContacts | meta_whatsapp_marketing/models/whatsapp_config.py:83-94 | every list contact's number is the phone of the contact chosen for it |
| Campaigns.RefillCoversList | meta_whatsapp_marketing/models/whatsapp_config.py:79-96 | the refilled partners are exactly contacts holding list numbers, without repeats |
| WizardRules.Cleaned | meta_whatsapp_purchase/models/whatsapp_purchase_wizard.py:178 | the cleaned phone has no '+' and no space, every character comes from the typed phone, and a phone without either is unchanged |
| WizardRules.CleanedConcat | meta_whatsapp_purchase/models/whatsapp_purchase_wizard.py:178 | cleaning distributes over concatenation |
| WizardRules.CleanedOne | meta_whatsapp_purchase/models/whatsapp_purchase_wizard.py:178 | a single character is dropped exactly when it is '+' or a space |
| WizardRules.DialableAccepted | meta_whatsapp_purchase/models/whatsapp_purchase_wizard.py:162-180 | a phone that passes the format check also passes the phone constraint |
| WizardRules.AcceptedNotDialable | meta_whatsapp_purchase/models/whatsapp_purchase_wizard.py:162-180 | "1a" passes the constraint but fails the format check |
| WizardRules.CleanedIdempotent | meta_whatsapp_purchase/models/whatsapp_purchase_wizard.py:178 | cleaning a cleaned phone changes nothing |
| WizardRules.Dialled | meta_whatsapp_all_in_one/models/message_configure.py:340-341 | the dispatcher strips one leading '+' and nothing else |
| WizardRules.WithPhoneWritten | meta_whatsapp_purchase/models/whatsapp_purchase_wizard.py:183-184 | the contact's phone becomes the typed phone with its normalized phone recomputed; nothing else changes |
| WizardRules.FormCheck | meta_whatsapp_purchase/models/whatsapp_purchase_wizard.py:174-180 | the form passes iff a provider is set, a template or message is given and the cleaned phone is all digits; a bad phone is reported as such |
| WizardRules.ComputedMessage | meta_whatsapp_purchase/models/whatsapp_purchase_wizard.py:133-160 | no template or no record gives no message; a missing model raises; otherwise the calculated message, or the raw template message on a calculation error |
| WizardRules.RawTemplateText | meta_whatsapp_purchase/models/whatsapp_purchase_wizard.py:150-160 | a failing calculation falls back to the raw template message |
| WizardRules.ReportXmlId | meta_whatsapp_crm/models/whatsapp_crm_wizard.py:96-109 | every origin and report type has a report id, except the standard report for leads, which raises |
| WizardRules.ReportPdf | meta_whatsapp_purchase/models/whatsapp_purchase_wizard.py:96-131 | a PDF is produced iff its report is installed, it renders and it is at most 100 MiB; it is a PDF of the rendered size |
| WizardRules.DefaultGet | meta_whatsapp_purchase/models/whatsapp_purchase_wizard.py:76-131 | a given message is kept; the summary fills only an empty one; with a PDF requested, a failing PDF raises and a good one becomes the only attachment |
| WizardRules.LeadStandardReportRaises | meta_whatsapp_crm/models/whatsapp_crm_wizard.py:96-99 | asking a lead wizard for the standard report always raises |
| Wizards.PhoneWriteFor | meta_whatsapp_crm/models/whatsapp_crm_wizard.py:179-182 | a contact gets the phone iff it differs; without one, a lead gets it iff neither of its numbers already equals it |
| Wizards.FormFor | meta_whatsapp_purchase/models/whatsapp_purchase_wizard.py:186-202 | the dispatcher reads the contact's phone field, with the wizard's provider, template, attachments and non-empty message |
| Wizards.Send | meta_whatsapp_purchase/models/whatsapp_purchase_wizard.py:169-202 | a refused or raised send leaves tables and lead unchanged; a delegated one passed the form check |
| Wizards.DispatcherDialsTypedPhone | meta_whatsapp_purchase/models/whatsapp_purchase_wizard.py:178-202 | after the write-back the dispatcher dials the typed phone less one '+', not the cleaned digits |
| Wizards.SpacesReachTheDispatcher | meta_whatsapp_purchase/models/whatsapp_purchase_wizard.py:178-184 | "+1 555" passes the check as "1555" but is dialled as "1 555" |
| Wizards.DelegatedKeepsPhone | meta_whatsapp_inventory/models/whatsapp_inventory_wizard.py:178-179 | a completed send leaves the contact's phone as the typed phone and every other contact unchanged |
| Wizards.CrmWithoutContactRaises | meta_whatsapp_crm/models/whatsapp_crm_wizard.py:179-200 | a CRM wizard without a contact always raises for a missing number, and its lead update is rolled back |
| Wizards.SendMessage | meta_whatsapp_crm/models/whatsapp_crm_wizard.py:165-200 | the tables, lead, result and requests are those of `Send` |
| Wizards.LeadRecord.constructor | meta_whatsapp_crm/models/whatsapp_crm_wizard.py:179-182 | a lead holds the phone and mobile given |
| SaleWizard.SaleMessage | meta_whatsapp_sale/models/whatsapp_sale_wizard.py:57-69 | no template or order gives no message; a template without text raises; a message exists only with both |
| SaleWizard.TextWithoutPlaceholders | meta_whatsapp_sale/models/whatsapp_sale_wizard.py:63-68 | a template text without placeholders comes through unchanged |
| SaleWizard.PartnerNamePutIn | meta_whatsapp_sale/models/whatsapp_sale_wizard.py:60-69 | the customer's name replaces the partner placeholder in a text with nothing else to replace |
| SaleWizard.OrderNamePutIn | meta_whatsapp_sale/models/whatsapp_sale_wizard.py:60-69 | the order's name replaces the order placeholder in a text with nothing else to replace |
| SaleWizard.AmountPutIn | meta_whatsapp_sale/models/whatsapp_sale_wizard.py:60-69 | the printed total replaces the amount placeholder in a text with nothing else to replace |
| SaleWizard.MediaClassOf | meta_whatsapp_sale/models/whatsapp_sale_wizard.py:175-185 | image, video and audio by MIME prefix in that order, document otherwise |
| SaleWizard.ReadSend | meta_whatsapp_sale/models/whatsapp_sale_wizard.py:104-125 | an unreadable reply fails; an empty message list crashes; otherwise the first message id is taken |
| SaleWizard.MainPayload | meta_whatsapp_sale/models/whatsapp_sale_wizard.py:99-131 | the template payload is sent iff a template is chosen, the text payload otherwise |
| SaleWizard.MainStep | meta_whatsapp_sale/models/whatsapp_sale_wizard.py:99-168 | a stop is a failed request or a crash |
| SaleWizard.MediaPayloadFor | meta_whatsapp_sale/models/whatsapp_sale_wizard.py:186-201 | the media payload goes to the number with the attachment's class; only documents carry the file name |
| SaleWizard.AttachmentStep | meta_whatsapp_sale/models/whatsapp_sale_wizard.py:170-225 | a stop is a failed request or a crash |
| SaleWizard.AttachmentPhase | meta_whatsapp_sale/models/whatsapp_sale_wizard.py:170-225 | a stop is a failed request or a crash |
| SaleWizard.Send | meta_whatsapp_sale/models/whatsapp_sale_wizard.py:78-243 | refused iff the form check fails, and then no call is made; any unfinished send leaves the tables unchanged |
| SaleWizard.DoneLogsEverySend | meta_whatsapp_sale/models/whatsapp_sale_wizard.py:99-225 | a finished send logs one sent row for the main message, then an upload and a media call and a "Sent attachment: <name>" row per attachment, in order |
| SaleWizard.AttachmentStepAsWritten | meta_whatsapp_sale/models/whatsapp_sale_wizard.py:170-243 | as written an attachment step always stops, after the same calls as the intended step; where the intended step goes on, it crashes with no row kept |
| SaleWizard.SendAsWritten | meta_whatsapp_sale/models/whatsapp_sale_wizard.py:78-243 | without attachments it is the intended send; with any, it never finishes and leaves the tables unchanged |
| SaleWizard.AttachmentSendRollsBackAsWritten | meta_whatsapp_sale/models/whatsapp_sale_wizard.py:209-243 | a send the intended action completes with attachments crashes as written after three calls (the message, then the first upload and media message) and keeps no row |
| SaleWizard.SendMessage | meta_whatsapp_sale/models/whatsapp_sale_wizard.py:78-243 | outcome, requests and tables are those of `Send` |
| SaleWizard.SendAttachment | meta_whatsapp_sale/models/whatsapp_sale_wizard.py:170-225 | one attachment's calls and rows are those of `AttachmentStep` |
| SaleWizard.SendAttachments | meta_whatsapp_sale/models/whatsapp_sale_wizard.py:170-225 | the attachment loop stops at the first attachment that stops; its calls and rows are those of `AttachmentPhase` |
| PosOrder.ComposerPhone | meta_whatsapp_pos/models/pos_order.py:12-29 | no customer and no number each raise; otherwise the phone is a non-empty number of the customer, the mobile when there is one |
| PosOrder.CheckedPhone | meta_whatsapp_pos/models/pos_order.py:47-55 | a phone without digits, then an empty message, then a non-digit cleaned phone are refused in that order; else the cleaned digits |
| PosOrder.PhoneWritten | meta_whatsapp_pos/models/pos_order.py:58-59 | the customer's phone becomes the cleaned phone; no other contact changes |
| PosOrder.FinalAttachments | meta_whatsapp_pos/models/pos_order.py:67-98 | without a PDF the attachments are kept; with one, the order's PDF (at most 100 MiB, named after the order) is appended or the send raises |
| PosOrder.PosForm | meta_whatsapp_pos/models/pos_order.py:101-108 | the corrected form is the written one with the number field set to "phone" |
| PosOrder.PosFormAsWritten | meta_whatsapp_pos/models/pos_order.py:101-108 | as written, the cleaned phone goes in the number selection, with the order's customer, the provider, the template, the message and the attachments |
| PosOrder.TagLandsOnOldestMatch | meta_whatsapp_pos/models/pos_order.py:117-127 | the attachment lands on the oldest row with the same customer and text; later rows, the new one included, stay as they were |
| PosOrder.PosSend | meta_whatsapp_pos/models/pos_order.py:42-132 | every refusal or raised send leaves the tables unchanged; only a raised dispatch has made calls; a send that gets through passed every check |
| PosOrder.DialsCleanedPhone | meta_whatsapp_pos/models/pos_order.py:53-108 | the corrected form reaches the customer at the cleaned phone just written |
| PosOrder.AsWrittenDialsMobile | meta_whatsapp_pos/models/pos_order.py:101-108 | as written, the dispatcher reads the customer's mobile, as with number field "mobile" |
| PosOrder.AsWrittenMissesPhoneOnlyCustomer | meta_whatsapp_pos/models/pos_order.py:58-112 | for a customer without a mobile the written form raises for a missing number, while the corrected one dials the phone |
| PosOrder.SentKeepsCleanedPhone | meta_whatsapp_pos/models/pos_order.py:58-59 | a send that gets through leaves the cleaned phone on the customer and every other contact unchanged |
| PosOrder.SendWhatsappMessage | meta_whatsapp_pos/models/pos_order.py:42-132 | result, requests and tables are those of `PosSend` |
| HistoryAuthor.Author | meta_whatsapp_marketing/models/whatsapp_message_history.py:52-60 | no user gives no author; a user with a company gives "<company> - <name>"; without a company, the name; the author always ends with the user's name |
| HistoryAuthor.AuthorSeparatesNames | meta_whatsapp_marketing/models/whatsapp_message_history.py:55-58 | two users of one company with different names get different authors |
| HistoryAuthor.AuthorCanBeAmbiguous | meta_whatsapp_marketing/models/whatsapp_message_history.py:55-56 | a company name holding " - " can make two different users read alike |
| HistoryAuthor.ComputeAuthors | meta_whatsapp_marketing/models/whatsapp_message_history.py:53-60 | one author per row, each that row's user's author; empty exactly for rows without a user |

## Left out

- I/O, the JSON encoding of requests and replies, HTTP headers and URLs other
  than the webhook address: each Graph API call is one request value and one
  reply value.
- Multipart media upload bodies and base64 encoding (RFC 4648, section 4):
  an attachment is its name, MIME type, size and whether it has data.
- The phone-number library: a table of formattable digit strings stands for
  it.
- Randomness: the token generator picks any character of the alphabet.
- The clock and datetime parsing: a timestamp is a number or missing.
- Floating point: sizes are compared in integer bytes; the sale order amount
  and the record summaries are given as strings.
- The JavaScript point-of-sale popup and receipt screen, the window-action
  launchers of the invoice, CRM, purchase, inventory, helpdesk and sale apps,
  and the declaration-only models.
- `action_get_status`, `action_remove_template`, `get_business_profile`, the
  phone-number detail fetch and the campaign `action_test`: they only copy
  API fields into records.
- The campaign percentage fields, which nothing computes.
- The concurrent find-or-create race and ORM search internals. A `limit=1`
  search on a model without its own order takes the first match by id;
  channel messages, ordered newest first, take the last (`Webhook.ParentMessage`).
- Campaigns.ContactRecipient, Campaigns.RefillOne, Campaigns.FindOrCreateContact:
  contacts are searched in table order, while `res.partner` orders by complete
  name and then by descending id; when several contacts share the number, the
  one chosen may differ.
- Webhook.PartnerLookup, Webhook.FindOrCreatePartner: the raw SQL query has no
  `ORDER BY`, so the database may return any matching contact; the model takes
  the first in table order.
- Webhook.ChatChannelLookup, Webhook.GetOrCreateChatChannel, Webhook.InboundRecord,
  Chatbot.SendText, Chatbot.SendTemplate: a provider always has an operator
  here, while the source searches for an operator user and may find none, in
  which case the channel and history rows would be created without one.
- Text.IsDigit, Text.Lower: digits and lower-casing are ASCII only; Python's
  `str.isdigit` and `str.lower` also cover other Unicode digits and letters.
- TemplateSync.SyncKeepsKeysUnique, TemplateSync.SyncKeepsOtherProviders: these
  are proved of the intended sync (`Synced`); as written every sync fails and
  the catalog never changes (`TemplateSync.SyncedAsWritten`), which keeps both
  properties trivially.
- TemplateSync.StoredComponents: the component and button constraints that
  creating the stored records would run (the header, body and footer format
  checks and the app-button check) are not applied to synced templates.
- Chatbot script matching uses plain case-insensitive containment of the
  inbound text in a script's stored message; the inbound text is the `ILIKE`
  pattern, so a `%` or `_` the customer types would act as a wildcard there,
  which the model does not interpret.
- Template sync stores selections as given; values outside the selection
  lists are not rejected.
- SaleWizard.Send, SaleWizard.SendMessage: these model the intended attachment
  row, without the undeclared `attachment_id` key; the action as written is
  `SaleWizard.SendAsWritten`.
- A 2xx reply whose body is not JSON is treated as a request failure, as
  `requests` 2.27 and later raise a subclass of `RequestException` for it.
- A 2xx reply with an empty `conversations` list is treated like one without
  the key.
- `ir.attachment` records are not modelled: the point-of-sale tag records the
  first attachment's name, and the sale and wizard PDFs are attachment values.
- The `ir.model` lookup of the wizards is a parameter (`model`).
- Providers.ProviderConfig.Verify: the reply text in the error message is not
  modelled.
- Dispatcher.MediaSend: the remote delete request is made for every uploaded
  attachment. With an empty provider `instance_id` the source's `delete_media`
  makes no request and returns `False`. Its reply is never read, so the
  outcome and the tables are the same either way.
- Records.Blank: `received_date` defaults to the current time; the clock is
  not modelled, so a new history row has no received date.
- Chatbot.BestScript: ties on sequence are broken by position in the table.
- Phone.KeepDialChars, Phone.DigitsOf: their own ensures give only the kind
  of characters kept and the length; which characters are kept, and in what
  order, is proved by `Phone.KeepDialCharsConcat`, `Phone.DigitsOfConcat` and
  `Phone.FiltersOne`, which together fix the result character by character.
- Phone.Clean: its own ensures give the shape of the result; what is removed
  is proved by `Phone.CleanStrips` and `Phone.StripsZerosThenPluses`.
- WizardRules.Cleaned: its own ensures do not state that the other characters
  stay in order; `WizardRules.CleanedConcat` and `WizardRules.CleanedOne` do.

## Findings

| source | as written | input that shows it | evidently intended | confidence | as-written member | corrected member |
|---|---|---|---|---|---|---|
| meta_whatsapp_chat_bot/controller/whatsapp.py:29-45 | the overlay passes `create_channel_message` to the parent notification handler, which takes no such argument, so every call raises `TypeError` and the event handler answers with an error | any readable notification with one text message | the parent runs, with mirroring on or off as asked | high, not executed | Chatbot.EventAsWritten, Chatbot.OverlayLosesMessages | Chatbot.Overlay |
| meta_whatsapp_chat_bot/controller/whatsapp.py:198-249 | a message step mirrors the inbound message while sending, and the closing block mirrors it again | a message step with a response, no operators added | the inbound message appears once in the channel | medium, not executed | Chatbot.ExecuteScriptAsWritten, Chatbot.MessageStepMirrorsTwice | Chatbot.ExecuteScript, Chatbot.InboundMirroredOnce |
| meta_whatsapp_pos/models/pos_order.py:101-108 | the cleaned phone is put in the `number` selection, so the dispatcher reads the customer's mobile | a customer with a phone and no mobile | the dispatcher reads the phone just written | high, not executed | PosOrder.PosFormAsWritten, PosOrder.AsWrittenMissesPhoneOnlyCustomer | PosOrder.PosForm, PosOrder.DialsCleanedPhone |
| meta_whatsapp_marketing/models/whatsapp_config.py:319-320 | the list's `recipients_model_id` is read, a field the list model does not declare | a campaign whose recipients come from a messaging list | the list's own recipients model field is read | high, not executed | Campaigns.RecipientsAsWritten, Campaigns.ListCampaignSendsNothingAsWritten | Campaigns.Recipients |
| meta_whatsapp_all_in_one/models/configuration.py:187-192 | the error state is written and a `UserError` raised at once, which rolls the write back | a draft provider answered with status 401 | the provider is left in the error state | medium, not executed | Providers.StateAfterVerifyAsWritten, Providers.FailedVerifyLeavesDraft | Providers.StateAfterVerify, Providers.ProviderConfig.Verify |
| meta_whatsapp_all_in_one/models/message_template.py:122 | the media upload URL reads `phone_number_id` from the provider, a field the provider model does not declare, so the upload raises before any request and creation or resubmission fails with a `UserError` | a marketing template with an image header and a media file | the upload goes to the provider's media endpoint | high, not executed | Templates.CreateResultAsWritten, Templates.ImageHeaderTemplateFailsAsWritten | Templates.CreateResult, Templates.ResubmitResult |
| meta_whatsapp_all_in_one/models/configuration.py:223 | the sync looks up a `whatsapp.template.component.parameter` model that no module declares, so it raises and every sync ends in a `UserError` with nothing stored | a listing with status 200 and an empty data list | the templates are upserted | high, not executed | TemplateSync.SyncedAsWritten, TemplateSync.EmptyListingFailsAsWritten | TemplateSync.Synced, TemplateSync.Catalog.Sync |
| meta_whatsapp_sale/models/whatsapp_sale_wizard.py:209-225 | the attachment history row passes an `attachment_id` key the history model does not declare; creating it raises an error that is not a request exception, so the transaction rolls back every row after the media message went out | a sale message with one attachment whose upload and send succeed | the attachment is logged and the send completes | high, not executed | SaleWizard.SendAsWritten, SaleWizard.AttachmentSendRollsBackAsWritten | SaleWizard.Send, SaleWizard.SendMessage |
| meta_whatsapp_all_in_one/models/inherit.py:37-43 | every '+' is stripped before `phonenumbers.parse` is called without a default region, so the library refuses every number and the cleaned digits come back in place of an E.164 form | "+442079460000" | "+442079460000" | medium, not executed | Phone.NormalizeAsWritten, Phone.NormalizeAsWrittenMissesE164 | Phone.Normalize |
