# Onboarding site core, modelled in Dafny

The system is a small Next.js site that signs up clients for a social-media
chatbot service. A visitor picks a plan (`starter`, `pro` or `pro_plus`),
fills in one of three onboarding forms and is sent to a Stripe payment link.
The API routes behind the forms do the following:

- parse the multipart body;
- validate it against a Zod schema;
- upload the attached files to Supabase storage;
- store the submission;
- send a welcome mail and an administrator notification through Resend.

Resend is wrapped in an in-memory duplicate-suppression store. A Stripe
webhook marks the submission paid and sends the payment receipts.

The model covers that deterministic core, one module per source unit:

| module | file | models |
|---|---|---|
| `Plans` | plans.dfy | plan names, the `?plan=` normalisation, the login fields each plan requires |
| `Checkout` | checkout.dfy | payment links, prices, the checkout URL and its `client_reference_id` |
| `Storage` | storage.dfy | the storage helper's generated file name and path, single and batch uploads |
| `Validations` | validations.dfy | the legacy and client schemas (violated paths), the file checks |
| `Text` | text.dfy | `trim`, UTF-16 length, decimal rendering, the `[^\w\s]` filter, index searches |
| `EmailDedupe` | email_dedupe.dfy | the duplicate key, cooldown, pruning, and both send functions |
| `EmailText` | email_text.dfy | log masking of addresses, the option lists in the admin mail, the URL helpers |
| `EmailTemplates` | email_templates.dfy | the recipients and subjects of the templates (HTML bodies are inputs) |
| `Effects` | effects.dfy | responses and the external effects a handler requests |
| `FormFields` | form_data.dfy | the multipart body as an ordered list of parts; `getFieldValue`, `additional_docs_<i>` |
| `JsonArray` | json_array.dfy | `JSON.stringify` / `JSON.parse` of a list of strings |
| `SubmitForm` | submit_form.dfy | the legacy `/api/submit-form` handler |
| `ClientOnboarding` | client_onboarding.dfy | the `/api/client-onboarding` handler |
| `EnhancedOnboarding` | enhanced_onboarding.dfy | the `/api/enhanced-onboarding` handler |
| `PaymentWebhook` | webhook.dfy | the Stripe webhook |
| `LegacyOnboardingForm` | onboarding_form.dfy | the legacy page's submit and redirect |
| `ClientOnboardingForm` | client_form.dfy | the client page's submit and redirect |
| `EnhancedOnboardingForm` | enhanced_form.dfy | the enhanced page's submit and redirect |
| `CheckboxGroup` | checkbox.dfy | the two checkbox-group components' list handling |
| `Wrappers` | wrappers.dfy | `Option` and `Result` |

Outside influences are parameters of the model:

- the clock;
- `Math.random`;
- the storage, database and mail providers' replies;
- the e-mail format check;
- the environment's `FROM_EMAIL` and `ADMIN_EMAIL`;
- `new URL(..).protocol`;
- the name formidable gives a stored file.

A handler returns an `Outcome`, which holds the HTTP response, the effects it
requested in order, and the duplicate-suppression store afterwards.
Validation returns either the typed form or the set of field paths that
failed.

The page modules connect each form to its endpoint. Each one proves that what
the page serialises is read back by the handler. Where the two sides
disagree, the module proves that too (see Findings).

## Model

| member | source | states |
|---|---|---|
| Plans.ParsePlan | src/pages/start.tsx:41-46 | only the three plan names are recognised, each as the plan it names |
| Plans.ParsePlanName | src/pages/start.tsx:42-46 | every plan's name is recognised as that plan |
| Plans.NormalizePlan | src/pages/onboarding.tsx:24-36 | a single valid `plan` query value selects that plan; anything else (missing, repeated, unknown) selects starter |
| Plans.NormalizeKeepsValidPlan | src/pages/start.tsx:40-53 | a link carrying a valid plan name opens the form on that plan |
| Plans.NormalizeIdempotent | src/pages/start.tsx:40-53 | normalising the plan a page already chose changes nothing |
| Plans.RequiredLoginFields | src/components/forms/OnboardingForm.tsx:46-57 | Instagram always comes first; starter needs one login, pro three, pro plus five |
| Plans.RequiredFieldsNested | src/components/forms/OnboardingForm.tsx:46-57 | a higher plan's required logins extend a lower plan's list (prefix order) |
| Checkout.PricingLink | src/lib/stripe.ts:13-17 | each plan's payment link is non-empty and has no query string |
| Checkout.StripePrice | src/lib/stripe.ts:26-30 | prices are USD 100, 150 and 200 dollars (in cents) in plan order |
| Checkout.CheckoutUrl | src/lib/stripe.ts:34-40 | the URL is the plan's link, followed by `?client_reference_id=<id>` exactly when the id is non-empty |
| Checkout.CheckoutReferenceRoundTrip | src/lib/stripe.ts:34-40 | the webhook recovers from the checkout URL exactly the non-empty submission id that was put in |
| Storage.FileExtension | src/lib/supabase-client.ts:16 | the extension is the text after the last dot (the whole name when there is none) and contains no dot |
| Storage.ExtensionAfterLastDot | src/lib/supabase-client.ts:16 | a name ending in `.ext` yields `ext` |
| Storage.GeneratedNameKeepsExtension | src/lib/supabase-client.ts:17 | the generated storage name keeps the original file's extension |
| Storage.GeneratedNameTimestamp | src/lib/supabase-client.ts:17 | the generated name starts with the decimal timestamp, which reads back as the clock value, followed by the first `-` |
| Storage.StoragePathSegments | src/lib/supabase-client.ts:18 | a path with a folder splits at its last `/` into that folder and the file name; without a folder it is the bare name |
| Storage.UploadFile | src/lib/supabase-client.ts:11-37 | success exactly when storage stored the file, giving its public URL; otherwise the error carries storage's message |
| Storage.UploadBatch | src/lib/supabase-client.ts:40-46 | one request per file in order; success gives every URL in order, and failure reports the first file that failed |
| Validations.ParseLoginSharing | src/lib/validations.ts:15-20 | exactly the four sharing preferences are accepted, each as itself |
| Validations.ParseDeliveryOption | src/lib/validations.ts:59 | every delivery option's name is accepted as that option and nothing else is |
| Validations.ParseCredentialSharing | src/lib/validations.ts:68 | every credential-sharing choice's name is accepted as that choice and nothing else is |
| Validations.ParseHasFaqs | src/lib/validations.ts:71 | `yes` and `no` are accepted as themselves and nothing else is |
| Validations.ValidateLegacy | src/lib/validations.ts:4-40 | valid exactly when no rule fails, with the failed paths otherwise; a valid form keeps every field of the input (name, e-mail, phone, company, plan, sharing preference, all five logins), its name is 2 to 100 UTF-16 units and its e-mail passes the check |
| Validations.StarterNeedsInstagram | src/lib/validations.ts:4-26 | a starter submission without a non-blank Instagram login is reported at `instagram_login` exactly when no key aborted the object (name, e-mail, plan and sharing preference present and well-typed) |
| Validations.ProNeedsAnyLogin | src/lib/validations.ts:27-38 | for pro and pro plus, the login rule holds exactly when some one of the five logins is non-blank |
| Validations.ValidateClient | src/lib/validations.ts:43-96 | valid exactly when no rule fails, with the failed paths otherwise; a valid form keeps every field of the input (names, handle, platforms, type, both lists and their companion texts, menu text, the four choices, contact address), holds consent, non-empty lists and bounded names |
| Validations.OtherNeedsText | src/lib/validations.ts:43-86 | choosing "Other" as a product category without non-blank companion text is reported at `product_categories_other` exactly when no key aborted the object |
| Validations.LegacyViolations | src/lib/validations.ts:4-40 | the legacy paths zod reports: every failing key, and `instagram_login` only when no key aborted |
| Validations.ClientViolations | src/lib/validations.ts:43-96 | the client paths zod reports: every failing key, and the two "Other" paths only when no key aborted |
| Validations.ConsentRequired | src/lib/validations.ts:75-77 | anything but an explicit `true` consent is rejected at `consent_checkbox` |
| Validations.ContactEmailRequired | src/lib/validations.ts:74 | a missing or malformed contact address is rejected at `contact_email` |
| Validations.ValidateFile | src/lib/validations.ts:118-139 | accepted exactly when within 5 MiB and of an allowed type; size is checked before type |
| Validations.ValidateMenuFile | src/lib/validations.ts:142-160 | accepted exactly when within 5 MiB and of a menu type; size is checked before type |
| Validations.MenuValidImpliesFileValid | src/lib/validations.ts:118-160 | every menu file the menu check accepts passes the general file check |
| Validations.SizeLimitInclusive | src/lib/validations.ts:130-132 | exactly 5 MiB passes the size check and one byte more fails it |
| Text.Trim | src/lib/validations.ts:24 | the trimmed text is empty exactly when the input is blank, and otherwise neither starts nor ends with whitespace |
| Text.Utf16Length | src/lib/validations.ts:5 | the length Zod compares is between one and two units per character, and equals the character count inside the BMP |
| Text.StripNonWord | src/lib/resend.ts:760 | only word and whitespace characters remain, every one of the input's is kept, and nothing new appears |
| Text.StripNonWordIdempotent | src/lib/resend.ts:760 | filtering a filtered subject changes nothing |
| Text.StripNonWordAppend | src/lib/resend.ts:760 | filtering works character by character: it distributes over concatenation |
| Text.NatToStringRoundTrip | src/lib/supabase-client.ts:17 | a rendered timestamp reads back as the same number |
| Text.NatToStringInjective | src/pages/api/enhanced-onboarding.ts:124 | distinct timestamps render as distinct texts |
| EmailDedupe.EmailKeyIgnoresPunctuation | src/lib/resend.ts:759-762 | subjects that differ only in punctuation share a duplicate key |
| EmailDedupe.EmailKeyNormalised | src/lib/resend.ts:760 | filtering the subject beforehand does not change the key |
| EmailDedupe.EmailKeyUniqueId | src/lib/resend.ts:761 | a non-empty unique id is appended after a colon, and different ids give different keys |
| EmailDedupe.EmailKey | src/lib/resend.ts:759-762 | the key begins with the type name and the recipient, each followed by a colon, and ends in `:<id>` whenever a non-empty unique id is given |
| EmailDedupe.IsDuplicate | src/lib/resend.ts:764-770 | a key counts as duplicate exactly when it is stored with a non-zero time less than five minutes before now; an unknown key never does |
| EmailDedupe.MarkSent | src/lib/resend.ts:772-786 | the key is stamped with the current time; the other entries survive unchanged exactly when they are at most a day old |
| EmailDedupe.MarkSentPrunes | src/lib/resend.ts:775-785 | after marking, no entry is older than a day |
| EmailDedupe.MarkThenDuplicate | src/lib/resend.ts:764-770 | a just-marked key counts as duplicate exactly while less than five minutes have passed |
| EmailDedupe.MarkSentLeavesOthers | src/lib/resend.ts:764-786 | marking one key never changes whether another key counts as duplicate later |
| EmailDedupe.OrDefault | src/lib/resend.ts:59-60 | a configured, non-empty variable is used as it is; an unset or empty one gives the fallback |
| EmailDedupe.SendEmailWithAttachments | src/lib/resend.ts:788-916 | skipped exactly when suppression is on and the key is fresh; otherwise the mail is handed over from the configured `FROM_EMAIL` address, the key marked first, and the result follows the provider's reply |
| EmailDedupe.SendEmail | src/lib/resend.ts:918-1021 | the same as sending with no attachments: a mail handed over carries none |
| EmailDedupe.SecondSendWithinCooldownSkipped | src/lib/resend.ts:814-831 | the same suppressed mail sent twice within five minutes goes out once |
| EmailDedupe.FailedSendSuppressesRetry | src/lib/resend.ts:830 | the key is marked before sending, so a failed send still suppresses a retry within the cooldown |
| EmailDedupe.SendAfterCooldownGoesOut | src/lib/resend.ts:764-770 | after the cooldown the same mail is handed over again |
| EmailDedupe.WithoutDedupeAlwaysSends | src/lib/resend.ts:941 | without suppression options every mail is handed to the provider |
| EmailText.MaskLocal | src/lib/resend.ts:65 | a local part of two or more characters keeps its first and last character, with stars in between; a single character is doubled; an empty part stays empty |
| EmailText.MaskLocalIdempotent | src/lib/resend.ts:65 | masking a masked local part changes nothing |
| EmailText.MaskEmailParts | src/lib/resend.ts:63-67 | the masked address's local part is the masked local part and its domain is the original's (`undefined` when it had none) |
| EmailText.MaskEmailOfAddress | src/lib/resend.ts:63-67 | for a plain address the mask hides only the inner local characters |
| EmailText.MaskEmailIdempotent | src/lib/resend.ts:63-67 | masking twice equals masking once |
| EmailText.OptionsText | src/lib/resend.ts:296-302 | a missing or empty list reads `None` |
| EmailText.OptionsOtherIsLastEntry | src/lib/resend.ts:296-302 | a non-empty companion text reads as one more list entry |
| EmailText.OptionsWithoutOther | src/lib/resend.ts:296-302 | without companion text the line is the list joined by commas |
| EmailText.CategoriesText | src/lib/resend.ts:304-305 | an empty list with no companion text reads as empty |
| EmailText.CategoriesAgainstOptions | src/lib/resend.ts:296-305 | for a non-empty list the category line equals the options line; an empty list gives a leading comma, not `None` |
| EmailText.ToLowerIdempotent | src/lib/resend.ts:256 | lower-casing twice equals lower-casing once |
| EmailText.ImageUrlIgnoresCase | src/lib/resend.ts:254-258 | the image check gives the same answer for a URL and its lower-cased form |
| EmailText.ImageUrlExtends | src/lib/resend.ts:254-258 | the check is a substring search, so text added on either side keeps an image URL an image URL |
| EmailText.PngUrlIsImage | src/lib/resend.ts:255 | an upper-case `.PNG` URL counts as an image |
| EmailText.SanitizeUrl | src/lib/resend.ts:261-272 | the URL is kept exactly when its scheme is http or https, otherwise `#` |
| EmailText.SanitizeIdempotent | src/lib/resend.ts:261-272 | sanitising twice equals sanitising once |
| EmailTemplates.AdminEmail | src/lib/resend.ts:60 | the administrator is the configured `ADMIN_EMAIL` when it is non-empty, and the built-in address when it is unset or empty |
| EmailTemplates.WelcomeEmail | src/lib/resend.ts:84-88 | the welcome mail goes to the one given address, which is also the address its duplicate key uses, under the fixed welcome subject |
| EmailTemplates.AdminNotificationEmail | src/lib/resend.ts:150-154 | the notification goes to the configured administrator only, and its subject is the fixed prefix, the name, then the plan in parentheses |
| EmailTemplates.EnhancedAdminEmail | src/pages/api/enhanced-onboarding.ts:174-178 | the enhanced notification goes to the literal built-in address whatever `ADMIN_EMAIL` says, and its subject is the fixed prefix followed by the business name |
| EmailTemplates.PaymentClientEmail | src/lib/resend.ts:591-611 | the receipt goes to the one given address, which its duplicate key uses, under the fixed receipt subject |
| EmailTemplates.PaymentAdminEmail | src/lib/resend.ts:684-704 | the payment notice goes to the configured administrator only, and its subject is the fixed prefix followed by the business name |
| FormFields.ValuesSent | src/pages/api/client-onboarding.ts:25 | the values read under a key are exactly the text parts sent under it |
| FormFields.FilesSent | src/pages/api/client-onboarding.ts:25 | the files read under a key are exactly the file parts sent under it |
| FormFields.FieldValue | src/pages/api/client-onboarding.ts:28-33 | the first value sent under the key, absent when nothing was sent or the first value is empty |
| FormFields.FirstValue | src/pages/api/submit-form.ts:28-42 | the first value sent under the key, an empty text included |
| FormFields.FirstFile | src/pages/api/client-onboarding.ts:63 | the first file sent under the key |
| FormFields.FieldValueFirstWins | src/pages/api/client-onboarding.ts:29-30 | parts appended after a key's first value never change what is read |
| FormFields.FieldValueSingle | src/pages/api/client-onboarding.ts:28-33 | a non-empty value that is the first under its key is read back |
| FormFields.ConsentOnlyTrue | src/pages/api/client-onboarding.ts:51 | consent holds exactly when the first value sent is the text `true` |
| FormFields.DocKeyInjective | src/pages/api/client-onboarding.ts:93 | different document indices give different `additional_docs_<i>` keys |
| FormFields.DocsUpToFromKeys | src/pages/api/client-onboarding.ts:91-100 | every collected document is the first file under some `additional_docs_<i>` below the bound |
| FormFields.DocsUpToCount | src/pages/api/client-onboarding.ts:91-100 | all keys present gives one document per key; no key present gives none |
| FormFields.CollectDocs | src/pages/api/client-onboarding.ts:91-100 | the loop collects at most ten documents, in index order, each under its numbered key |
| FormFields.ValuesOfRepeated | src/components/forms/EnhancedOnboardingForm.tsx:123-125 | appending every element under one key reads back as that list under that key and nothing under any other |
| FormFields.ValuesOfPairs | src/components/forms/ClientOnboardingForm.tsx:88-98 | when field keys are distinct, each key reads back exactly the values appended for it |
| FormFields.FieldValueOfOptional | src/pages/api/client-onboarding.ts:39 | a field appended at most once reads back its value unless that value is empty |
| FormFields.IfTruthy | src/components/forms/EnhancedOnboardingForm.tsx:118 | an optional field is appended only when it holds non-empty text |
| FormFields.FirstValueOfTruthy | src/pages/api/submit-form.ts:28-42 | a field appended only when truthy reads back as its non-empty value |
| FormFields.NonEmptyKeepsText | src/pages/api/client-onboarding.ts:32 | `value \|\| undefined` keeps every non-empty text and leaves it blank or filled as before |
| FormFields.FileBytes | src/pages/api/client-onboarding.ts:20-25 | the total formidable limits: no bytes for an empty body, and never less than any single file in it |
| FormFields.FileBytesAppend | src/pages/api/client-onboarding.ts:20-25 | the total of two bodies one after the other is the sum of their totals |
| FormFields.TextHasNoBytes | src/pages/api/client-onboarding.ts:20-25 | a body of text fields alone carries no file bytes |
| FormFields.FilesOfIndexedDocs | src/components/forms/ClientOnboardingForm.tsx:107-110 | the file under `additional_docs_<i>` is the page's i-th document when one exists, and nothing otherwise |
| FormFields.DocsUpToIndexed | src/pages/api/client-onboarding.ts:91-100 | keys filled in index order collect the documents in order, up to the bound |
| FormFields.IndexedDocsCollected | src/pages/api/client-onboarding.ts:91-100 | the documents a page numbers come back as its first ten, in order |
| JsonArray.ReadEscapedChar | src/pages/api/client-onboarding.ts:41 | reading an escaped character yields that character and leaves the rest unread |
| JsonArray.ReadEscaped | src/pages/api/client-onboarding.ts:41 | reading an escaped string up to its closing quote yields the string and the text after it |
| JsonArray.ReadItemsBack | src/pages/api/client-onboarding.ts:41 | the items of a non-empty encoded list read back as that list |
| JsonArray.DecodeEncode | src/components/forms/ClientOnboardingForm.tsx:91 | parsing what the page stringified gives back the same list |
| JsonArray.EncodeInjective | src/components/forms/ClientOnboardingForm.tsx:91 | different lists stringify differently |
| LegacyOnboardingForm.Fields | src/components/forms/OnboardingForm.tsx:68-72 | one field per schema key, each carrying its value only when truthy |
| LegacyOnboardingForm.ValuesReadBack | src/components/forms/OnboardingForm.tsx:68-72 | under each schema key the handler finds exactly the page's truthy value |
| LegacyOnboardingForm.ReadContact | src/pages/api/submit-form.ts:28-42 | the handler reads back the name, e-mail, phone and company the page sent |
| LegacyOnboardingForm.ReadPlan | src/pages/api/submit-form.ts:28-42 | the handler reads back the plan and the Instagram and Facebook logins |
| LegacyOnboardingForm.ReadLogins | src/pages/api/submit-form.ts:28-42 | the handler reads back the remaining logins and the sharing preference |
| LegacyOnboardingForm.ExtractSerialise | src/pages/api/submit-form.ts:28-42 | the input the handler extracts is exactly the page's form, with empty optional text treated as absent |
| LegacyOnboardingForm.FileReadBack | src/components/forms/OnboardingForm.tsx:75-77 | the handler finds the page's file, if any, under `file` |
| LegacyOnboardingForm.ValidatesAsNormalised | src/lib/validations.ts:4-40 | a form the page accepts passes the server schema unchanged, apart from empty optional text |
| LegacyOnboardingForm.EnumsParse | src/lib/validations.ts:9-20 | the page's plan and sharing preference parse back as themselves |
| LegacyOnboardingForm.LoginRuleOfInput | src/lib/validations.ts:21-40 | the server's login rule on the sent input is the page's login rule on the form |
| LegacyOnboardingForm.CheckoutRedirect | src/components/forms/OnboardingForm.tsx:86-89 | the page redirects exactly when the reply reports success, and then to the plan's payment link |
| LegacyOnboardingForm.RequiredFieldsSuffice | src/components/forms/OnboardingForm.tsx:46-59 | filling every login the page marks required satisfies the server's login rule |
| LegacyOnboardingForm.SubmitRoundTrip | src/pages/api/submit-form.ts:45-87 | a valid page submission is stored as the normalised form and answered 200; the redirect carries the new id, which the webhook reads back |
| ClientOnboardingForm.Fields | src/components/forms/ClientOnboardingForm.tsx:88-98 | one field per schema key, the lists as one JSON text each |
| ClientOnboardingForm.FieldReadBack | src/components/forms/ClientOnboardingForm.tsx:88-98 | under each key the handler reads the page's value, with empty text treated as absent |
| ClientOnboardingForm.FilesReadBack | src/components/forms/ClientOnboardingForm.tsx:101-106 | with the files kept in the submitted data (the corrected page), the handler finds the page's menu and FAQ files under their keys |
| ClientOnboardingForm.DocsReadBack | src/components/forms/ClientOnboardingForm.tsx:107-110 | with the files kept (the corrected page), the handler collects the page's first ten documents, in order |
| ClientOnboardingForm.UploadsOfSubmission | src/pages/api/client-onboarding.ts:63-112 | with the files kept (the corrected page), the uploads requested are the menu into `menus`, the FAQ into `documents`, then the first ten documents as one batch, each only when present |
| ClientOnboardingForm.Resolved | src/components/forms/ClientOnboardingForm.tsx:46 | the data the resolver hands to the submit function keeps the form's schema fields |
| ClientOnboardingForm.AsWrittenSendsNoFiles | src/components/forms/ClientOnboardingForm.tsx:46 | as written the body holds the text fields only: no file bytes, no upload requested, and an attached menu is not found by the handler |
| ClientOnboardingForm.ListReadBack | src/pages/api/client-onboarding.ts:41-43 | a list the page stringified is parsed back whole |
| ClientOnboardingForm.ExtractSerialise | src/pages/api/client-onboarding.ts:36-52 | with the contact address read from `contact_email`, the handler's input is exactly the page's form |
| ClientOnboardingForm.ExtractOf | src/pages/api/client-onboarding.ts:36-52 | a body that reads back every field of a form extracts to that form's input |
| ClientOnboardingForm.ReadBackName | src/pages/api/client-onboarding.ts:37-38 | the business name and Instagram handle are read back |
| ClientOnboardingForm.ReadBackBusiness | src/pages/api/client-onboarding.ts:39-40 | the other platforms and the business type are read back |
| ClientOnboardingForm.ReadBackOthers | src/pages/api/client-onboarding.ts:42-44 | the companion texts of both lists are read back |
| ClientOnboardingForm.ReadBackDelivery | src/pages/api/client-onboarding.ts:45-46 | the delivery option and menu text are read back |
| ClientOnboardingForm.ReadBackPlan | src/pages/api/client-onboarding.ts:47-48 | the plan and credential-sharing choice are read back |
| ClientOnboardingForm.ReadBackContact | src/pages/api/client-onboarding.ts:49-50 | the FAQ choice and the contact address are read back |
| ClientOnboardingForm.ReadBackConsent | src/pages/api/client-onboarding.ts:51 | the consent is read back |
| ClientOnboardingForm.BuildInputOf | src/pages/api/client-onboarding.ts:36-52 | the fields read back assemble into the page's form input |
| ClientOnboardingForm.ValidatesAsNormalised | src/lib/validations.ts:43-96 | a form meeting the schema validates as itself, apart from empty optional text |
| ClientOnboardingForm.SubmitRoundTrip | src/pages/api/client-onboarding.ts:13-178 | a schema-valid page submission whose files total at most 5 MiB reaches uploads and storage, and 200 when they succeed; the code as written rejects the same body with 400 |
| ClientOnboardingForm.RedirectCarriesId | src/components/forms/ClientOnboardingForm.tsx:120-122 | the page redirects to `/success?id=<new id>` exactly when the handler answers 200 |
| EnhancedOnboardingForm.ProductCategories | src/components/forms/EnhancedOnboardingForm.tsx:68-74 | no categories for an unset or `other` business type, otherwise the configured ones (none if not configured) |
| EnhancedOnboardingForm.Fields | src/components/forms/EnhancedOnboardingForm.tsx:115-156 | one field per key, in the order the page appends them |
| EnhancedOnboardingForm.SameKeyDocs | src/components/forms/EnhancedOnboardingForm.tsx:167-172 | every document is appended under the one key `additional_docs` |
| EnhancedOnboardingForm.ValuesReadBack | src/components/forms/EnhancedOnboardingForm.tsx:115-156 | under each key the handler finds exactly the values the page appended |
| EnhancedOnboardingForm.ReadIdentity | src/pages/api/enhanced-onboarding.ts:37-58 | the business name and contact address are read back |
| EnhancedOnboardingForm.ReadHandles | src/pages/api/enhanced-onboarding.ts:38-39 | the Instagram handle and other platforms are read back |
| EnhancedOnboardingForm.ReadBusinessType | src/pages/api/enhanced-onboarding.ts:40-41 | the business type and its companion text are read back |
| EnhancedOnboardingForm.ReadCategories | src/pages/api/enhanced-onboarding.ts:42-43 | the product categories are parsed back whole, with their companion text |
| EnhancedOnboardingForm.ReadQuestions | src/pages/api/enhanced-onboarding.ts:44-45 | the customer questions are parsed back whole, with their companion text |
| EnhancedOnboardingForm.ReadDeliveryChoice | src/pages/api/enhanced-onboarding.ts:46-47 | the delivery choice and the delivery list are read back (a missing list reads as empty) |
| EnhancedOnboardingForm.ReadDelivery | src/pages/api/enhanced-onboarding.ts:48-49 | the delivery companion text and the pickup list are read back |
| EnhancedOnboardingForm.ReadPickupNotes | src/pages/api/enhanced-onboarding.ts:50-51 | the pickup companion text and the delivery notes are read back |
| EnhancedOnboardingForm.ReadNotes | src/pages/api/enhanced-onboarding.ts:52-53 | the menu description and the plan are read back |
| EnhancedOnboardingForm.ReadCredentials | src/pages/api/enhanced-onboarding.ts:54-55 | the credential choice and the direct credentials are read back |
| EnhancedOnboardingForm.ReadFaqs | src/pages/api/enhanced-onboarding.ts:56-57 | the FAQ choice and the FAQ text are read back |
| EnhancedOnboardingForm.ReadConsent | src/pages/api/enhanced-onboarding.ts:59 | the consent is read back |
| EnhancedOnboardingForm.ExtractOf | src/pages/api/enhanced-onboarding.ts:36-60 | a body that reads back every field extracts to the page's input |
| EnhancedOnboardingForm.ExtractSerialise | src/pages/api/enhanced-onboarding.ts:36-60 | with each list sent as one JSON text, the handler's input is exactly the page's values |
| EnhancedOnboardingForm.FilesReadBack | src/components/forms/EnhancedOnboardingForm.tsx:159-166 | the handler finds the page's menu and FAQ files under their keys |
| EnhancedOnboardingForm.DocsReadBack | src/pages/api/enhanced-onboarding.ts:98-108 | with numbered keys, the handler collects the page's first ten documents in order |
| EnhancedOnboardingForm.AsWrittenDocsIgnored | src/components/forms/EnhancedOnboardingForm.tsx:167-172 | as written no document reaches the handler's collection, and no batch upload is requested |
| EnhancedOnboardingForm.PlainCategoryIsNotJson | src/pages/api/enhanced-onboarding.ts:42 | a plain category name such as `Cakes` is not JSON |
| EnhancedOnboardingForm.AsWrittenCategoriesBreak | src/pages/api/enhanced-onboarding.ts:42 | as written a first category that is not JSON makes the handler answer 500 with nothing done, and the page does not redirect |
| EnhancedOnboardingForm.CategoriesUnparsed | src/components/forms/EnhancedOnboardingForm.tsx:123-125 | as written such a category list does not parse |
| EnhancedOnboardingForm.CheckoutRedirect | src/components/forms/EnhancedOnboardingForm.tsx:182-197 | the page redirects exactly on a 2xx reply, and then to the plan's payment link |
| EnhancedOnboardingForm.SubmitRoundTrip | src/pages/api/enhanced-onboarding.ts:20-189 | a schema-valid submission whose files total at most 5 MiB and whose uploads succeed is answered 200 with the clock-and-random id; the redirect carries it to the webhook |
| ClientOnboarding.ParseListAbsent | src/pages/api/client-onboarding.ts:41 | a list that was not sent parses as empty (`'[]'`) |
| ClientOnboarding.ParseListSent | src/pages/api/client-onboarding.ts:41 | the first JSON text sent under a key parses back as its list |
| ClientOnboarding.ParseList | src/pages/api/client-onboarding.ts:41-43 | a field not sent reads as the empty list, and a non-empty list comes only from a value that was sent |
| ClientOnboarding.BuildInput | src/pages/api/client-onboarding.ts:36-52 | the object holds the parsed lists, the given contact address and the consent rule; names and type are always present (empty when not sent), optional texts present only when non-empty, the plan the first value sent |
| ClientOnboarding.ExtractAsWritten | src/pages/api/client-onboarding.ts:36-52 | as written the input never carries a contact address |
| ClientOnboarding.Extract | src/pages/api/client-onboarding.ts:36-52 | the corrected input carries the `contact_email` value (empty when absent) and the consent rule |
| ClientOnboarding.AfterValidation | src/pages/api/client-onboarding.ts:57-178 | answers 200, 400 or 500; a 200 means the insert succeeded and carries its id; other answers leave the mail store alone |
| ClientOnboarding.UploadFailure | src/pages/api/client-onboarding.ts:63-112 | a failed upload answers 400 after upload attempts only |
| ClientOnboarding.UploadEffects | src/pages/api/client-onboarding.ts:57-112 | at most three requests, each an upload |
| ClientOnboarding.RecordFor | src/pages/api/client-onboarding.ts:114-122 | the row holds the validated form, pending, tagged with the site; a file's URL is present exactly when that file was sent, and is the URL its upload returned |
| ClientOnboarding.Persist | src/pages/api/client-onboarding.ts:114-178 | 200 with the new id exactly when the insert succeeds, after the uploads and the insert; a failed insert answers 500 after the uploads and the insert, with no mail |
| ClientOnboarding.AfterExtraction | src/pages/api/client-onboarding.ts:55-195 | answers 200, 400 or 500; a 200 means the insert succeeded |
| ClientOnboarding.Handle | src/pages/api/client-onboarding.ts:13-196 | 405 for anything but POST; a body over formidable's 5 MiB answers 500; only a POST within the limit can succeed, with the new id; failures leave the mail store alone |
| ClientOnboarding.HandleAsWritten | src/pages/api/client-onboarding.ts:13-196 | as written the answer is 400, 405 or 500, never a success; 405 exactly for anything but POST; nothing is uploaded, stored or mailed |
| ClientOnboarding.OversizedBodyFails | src/pages/api/client-onboarding.ts:20-25 | a body holding a file over 5 MiB exceeds the total limit and is answered 500 with nothing done, as written and corrected |
| ClientOnboarding.AsWrittenAlwaysRejects | src/pages/api/client-onboarding.ts:50 | as written every parsed POST is answered 400 (or 500 when a list is not JSON), with nothing uploaded, stored or mailed |
| ClientOnboarding.NonPostRejected | src/pages/api/client-onboarding.ts:14-16 | anything but POST gets 405 and nothing else happens |
| ClientOnboarding.InvalidHasNoEffects | src/pages/api/client-onboarding.ts:183-189 | a schema failure answers 400 with nothing uploaded, stored or mailed |
| ClientOnboarding.UploadFailureAborts | src/pages/api/client-onboarding.ts:63-112 | a failed upload answers 400; nothing is stored and no mail is sent |
| ClientOnboarding.SuccessRecord | src/pages/api/client-onboarding.ts:115-124 | on success the stored row is the validated form, pending payment, with each uploaded file's URL |
| ClientOnboarding.MailRepliesDoNotMatter | src/pages/api/client-onboarding.ts:127-172 | the mail provider's replies change neither the answer nor what is stored |
| ClientOnboarding.PersistStoreIgnoresReplies | src/pages/api/client-onboarding.ts:126-172 | the mail store after a successful insert does not depend on the provider's replies |
| ClientOnboarding.MailsStoreIgnoresReplies | src/pages/api/client-onboarding.ts:126-172 | both keys are marked before the provider is called, so the store after the two mails ignores the replies |
| ClientOnboarding.WelcomeMailSent | src/pages/api/client-onboarding.ts:127-148 | with the recipient corrected to the stored contact address, after the insert the welcome mail goes to that address and its key is marked for the new id |
| ClientOnboarding.WelcomeAsWrittenUnaddressed | src/pages/api/client-onboarding.ts:127-144 | as written the welcome mail has no recipient (the row has no `email`), is keyed under `undefined`, and the answer is still 200 |
| EnhancedOnboarding.Extract | src/pages/api/enhanced-onboarding.ts:36-60 | extraction succeeds exactly when the four lists are JSON; the input carries the parsed categories and the consent rule |
| EnhancedOnboarding.BuildInput | src/pages/api/enhanced-onboarding.ts:36-60 | the object holds the four parsed lists and the consent rule; the e-mail is the first value sent (empty when none), the plan the first value sent, the companion text present only when non-empty |
| EnhancedOnboarding.SubmissionId | src/pages/api/enhanced-onboarding.ts:124 | the id is the decimal clock value followed by the random suffix |
| EnhancedOnboarding.Truthy | src/pages/api/enhanced-onboarding.ts:169 | only present, non-empty URLs are kept |
| EnhancedOnboarding.TruthyAppend | src/pages/api/enhanced-onboarding.ts:169 | filtering distributes over concatenation |
| EnhancedOnboarding.TruthyAllPresent | src/pages/api/enhanced-onboarding.ts:169 | when every URL is present and non-empty, none is dropped |
| EnhancedOnboarding.FilesUploadedCount | src/pages/api/enhanced-onboarding.ts:169 | the count is at most two plus the documents, and exactly the files uploaded when every URL is non-empty |
| EnhancedOnboarding.AfterValidation | src/pages/api/enhanced-onboarding.ts:66-189 | 200 exactly when no upload fails, with the generated id; a 400 follows uploads only; nothing is stored |
| EnhancedOnboarding.Submitted | src/pages/api/enhanced-onboarding.ts:124-189 | after the uploads the answer is 200 with the generated id whatever the mails do, and nothing is stored |
| EnhancedOnboarding.Handle | src/pages/api/enhanced-onboarding.ts:13-207 | 200 exactly for a POST within formidable's 5 MiB whose lists parse, whose input passes the schema and whose uploads succeed; nothing is ever stored |
| EnhancedOnboarding.AfterExtraction | src/pages/api/enhanced-onboarding.ts:63-206 | 200 exactly when the input parsed, passed the schema and the uploads succeeded |
| EnhancedOnboarding.ParseErrorVersusSchemaError | src/pages/api/enhanced-onboarding.ts:191-206 | a list that is not JSON answers 500, a schema failure 400, both with nothing done |
| EnhancedOnboarding.UploadBuckets | src/pages/api/enhanced-onboarding.ts:70-120 | at most three uploads, into the folder named like the bucket; the menu alone goes to `menus`, first; a batch is the collected documents |
| EnhancedOnboarding.UploadFailureSendsNoMail | src/pages/api/enhanced-onboarding.ts:70-120 | when an upload fails no mail is sent |
| EnhancedOnboarding.UploadFailureAfterExtraction | src/pages/api/enhanced-onboarding.ts:63-120 | whatever was parsed, a failed upload answers 400 or 500 and sends no mail |
| EnhancedOnboarding.MailRepliesDoNotMatter | src/pages/api/enhanced-onboarding.ts:126-183 | the mail provider's replies never change the answer |
| EnhancedOnboarding.SuccessSendsBothMails | src/pages/api/enhanced-onboarding.ts:126-183 | on success the effects are the uploads, then the welcome mail to the submitter, then the notification titled with the business name |
| EnhancedOnboarding.ResubmissionMailsAgain | src/pages/api/enhanced-onboarding.ts:127-179 | the mails are sent without suppression: sending the same body again repeats everything |
| SubmitForm.Extract | src/pages/api/submit-form.ts:28-42 | each schema field is the first value sent under its key |
| SubmitForm.FileUrl | src/pages/api/submit-form.ts:48-55 | no URL without a file; otherwise the stored name, or the original name when that is empty, or none |
| SubmitForm.RecordFor | src/pages/api/submit-form.ts:47-63 | the row holds the validated form, pending, tagged with the site; no file gives no URL, and a URL present is non-empty |
| SubmitForm.AfterValidation | src/pages/api/submit-form.ts:57-87 | the insert comes first; 200 with the new id exactly when it succeeds; a failed insert answers 500 with no mail |
| SubmitForm.Handle | src/pages/api/submit-form.ts:13-105 | 200 only for a parsed POST whose insert succeeds; failures leave the mail store alone; nothing is uploaded |
| SubmitForm.NonPostRejected | src/pages/api/submit-form.ts:14-16 | anything but POST gets 405 and nothing else happens |
| SubmitForm.InvalidHasNoEffects | src/pages/api/submit-form.ts:92-98 | a schema failure answers 400 with nothing stored or mailed |
| SubmitForm.StarterWithoutInstagramRejected | src/lib/validations.ts:21-26 | a starter submission without an Instagram login never reaches the database |
| SubmitForm.InsertFailureIsInternalError | src/pages/api/submit-form.ts:100-104 | a failed insert answers 500 and sends no mail |
| SubmitForm.SuccessIsValid | src/pages/api/submit-form.ts:83-87 | a 200 comes only from a body within the size limit that passes the schema |
| SubmitForm.MailsAfterInsert | src/pages/api/submit-form.ts:66-81 | after a successful insert, the welcome mail goes to the submitter and then the notification to the administrator |
| SubmitForm.SuccessRecordAndMails | src/pages/api/submit-form.ts:48-87 | on success the row is the validated form with the chosen file URL and pending payment, followed by both mails |
| SubmitForm.MailRepliesDoNotMatter | src/pages/api/submit-form.ts:66-81 | the provider's replies change neither the answer nor the insert |
| CheckboxGroup.Without | src/components/ui/FormCheckboxGroup.tsx:37-43 | unchecking removes every copy of the option and keeps everything else |
| CheckboxGroup.Toggle | src/components/ui/ConditionalCheckboxGroup.tsx:39-45 | checking appends the option at the end; unchecking leaves exactly the other options |
| CheckboxGroup.WithoutCounts | src/components/ui/FormCheckboxGroup.tsx:37-43 | unchecking keeps every other option with its multiplicity |
| CheckboxGroup.WithoutAppend | src/components/ui/FormCheckboxGroup.tsx:37-43 | unchecking preserves the order of the options kept |
| CheckboxGroup.UncheckAbsent | src/components/ui/FormCheckboxGroup.tsx:37-43 | unchecking an option not in the list changes nothing |
| CheckboxGroup.UncheckIdempotent | src/components/ui/ConditionalCheckboxGroup.tsx:39-45 | unchecking twice equals unchecking once |
| CheckboxGroup.CheckDuplicates | src/components/ui/ConditionalCheckboxGroup.tsx:39-45 | checking an option already in the list adds another copy |
| CheckboxGroup.CheckThenUncheck | src/components/ui/ConditionalCheckboxGroup.tsx:39-45 | checking then unchecking leaves the list with no copy of the option |
| CheckboxGroup.OtherTextFollowsCheckbox | src/components/ui/ConditionalCheckboxGroup.tsx:83-97 | checking "Other" shows its text box in a visible group, and unchecking it hides the box |
| PaymentWebhook.MarkPaid | src/lib/supabase.ts:42-55 | only the submission's row changes: it becomes completed with the session id |
| PaymentWebhook.SessionRows | src/lib/supabase.ts:57-69 | exactly the table's rows that carry the session id |
| PaymentWebhook.ActsOn | src/pages/api/stripe/webhook.ts:41-42 | a completion is acted on only with a non-empty `client_reference_id`; a missing or empty one is ignored |
| PaymentWebhook.UpdateAndGet | src/lib/supabase.ts:42-66 | an unknown id changes nothing; otherwise the row is marked, and read back exactly when it alone carries the session |
| PaymentWebhook.SingleRowHelpers | src/lib/supabase.ts:42-66 | the enhanced helpers as they would be if they threw on a missing row, like the legacy ones: an unknown id throws and changes nothing; otherwise the row is marked, and read back exactly when it alone carries the session |
| PaymentWebhook.Reconcile | src/pages/api/stripe/webhook.ts:47-73 | the enhanced helpers are tried first; when their lookup resolves, to a row or to null, that is the result and the legacy table is untouched; only when they throw is the legacy table tried, where an unknown id gives no row and no change, and a row found is completed with the session, as stored; the legacy table's other rows never change |
| PaymentWebhook.Receipts | src/pages/api/stripe/webhook.ts:80-116 | at most two receipts, to the payer or the administrator |
| PaymentWebhook.OnCompleted | src/pages/api/stripe/webhook.ts:38-119 | acknowledged or not found; with no reference nothing happens; not found exactly when the reconciliation yields no row, and then no mail is sent |
| PaymentWebhook.Handle | src/pages/api/stripe/webhook.ts:18-153 | answers 200, 400 or 405; only a verified completed checkout changes the tables; errors send no mail |
| PaymentWebhook.NonPostRejected | src/pages/api/stripe/webhook.ts:19-21 | anything but POST gets 405 and nothing else happens |
| PaymentWebhook.UnverifiedRejected | src/pages/api/stripe/webhook.ts:25-34 | a missing signature or one that fails verification answers 400 and changes nothing |
| PaymentWebhook.OtherEventsAcknowledged | src/pages/api/stripe/webhook.ts:121-145 | expired, failed and other events, and a completion without a reference, are acknowledged without effect |
| PaymentWebhook.UnknownSubmissionNotFound | src/pages/api/stripe/webhook.ts:58-72 | a reference the enhanced helpers throw on and the legacy table does not know answers not found, sends nothing and leaves the legacy table unchanged |
| PaymentWebhook.EnhancedNullNotFound | src/pages/api/stripe/webhook.ts:75-78 | an enhanced lookup that resolves to null answers not found, sends nothing and never tries the legacy table |
| PaymentWebhook.SessionRowsOfMarked | src/lib/supabase.ts:57-66 | when no other row carries the session, marking leaves exactly the paid row on it |
| PaymentWebhook.SingleRowHelpersMarkPaid | src/lib/supabase.ts:42-66 | helpers behaving like the legacy ones mark a known row paid and read it back when no other row carries the session |
| PaymentWebhook.EnhancedFirst | src/pages/api/stripe/webhook.ts:47-57 | an enhanced lookup that resolves to a row is acknowledged, the legacy table is untouched, and the receipts go to that row's address and the administrator |
| PaymentWebhook.LegacyFallback | src/pages/api/stripe/webhook.ts:58-72 | when the enhanced helpers throw, a submission the legacy table knows is marked paid there and acknowledged |
| PaymentWebhook.PaidRowOnSuccess | src/pages/api/stripe/webhook.ts:38-119 | an acknowledged completion has a row and sends receipts only to its address or the administrator; after an enhanced throw the legacy row is completed with the session id, after an enhanced lookup the row is the one it returned |
| PaymentWebhook.MarkPaidIdempotent | src/lib/supabase.ts:42-55 | marking the same row twice equals marking it once |
| PaymentWebhook.UpdateAndGetIdempotent | src/lib/supabase.ts:42-66 | repeating the update and read gives the same row and table |
| PaymentWebhook.SingleRowHelpersIdempotent | src/lib/supabase.ts:42-66 | helpers behaving like the legacy ones give the same reply when called again on the table they left |
| PaymentWebhook.ReplayIdempotent | src/pages/api/stripe/webhook.ts:38-119 | with idempotent enhanced helpers, a redelivered completion leaves the tables as the first delivery did and gets the same reply |
| PaymentWebhook.ReplayWithinCooldownSendsNoReceipt | src/lib/resend.ts:591-703 | with idempotent enhanced helpers, a completion redelivered within five minutes of a fully receipted one sends no mail |
| PaymentWebhook.MailRepliesDoNotMatter | src/pages/api/stripe/webhook.ts:80-116 | the mail provider's replies never change the reply or the tables |
| PaymentWebhook.ReceiptsDoNotDecide | src/pages/api/stripe/webhook.ts:80-116 | only the receipts depend on the clock and the mail provider |

## Left out

- HTTP and multipart transport: the body arrives already split into ordered parts. formidable's parser and its temporary files are not modelled; a body it cannot parse is an absent form.
- formidable's `maxFileSize` (10 MiB for the legacy handler, 5 MiB for the client and enhanced handlers) is also the default of its `maxTotalFileSize`. The model applies it to the total of the file bytes, which covers the per-file limit as well, and answers 500 as the handlers' catch does. Other formidable refusals are not modelled: an empty (0-byte) attachment, which formidable v3 rejects by default (`allowEmptyFiles: false`, `minFileSize: 1`) so that the handler answers 500, goes through the model like any other file; field counts and field sizes are not checked.
- The database, storage and Resend clients are replaced by their replies, supplied as inputs. Logging (`console.*`, `logAdminEmailOperation`) is left out.
- The HTML bodies of every mail template are inputs. Only recipients, subjects and the option-list text lines are modelled. `formatPrice`, `getFileNameFromUrl` and the unused `LEGACY_STRIPE_PRICING_LINKS` are left out.
- `isEmail` (Zod's e-mail check) and the scheme that `new URL` parses are oracles: WHATWG URL parsing is not modelled.
- The enhanced schema is an oracle (`EnhancedServices.schema`): that schema and the enhanced database helpers are not part of this model. In the webhook, what the enhanced update and lookup did is an input (`PaymentWebhook.EnhancedHelpers`). The upload helpers `uploadFileToSupabase` and `uploadMultipleFiles`, which the handlers import, are not part of this model either. Their results are inputs, and their requests are assumed to be those of `uploadFileToSupabaseStorage`.
- `Promise.all` in the batch upload: requests go out together, and the first failure in input order is the one reported. Which failure is actually reported first is left out.
- JSON: the arrays the pages send hold only strings and carry no whitespace. Whitespace, numbers and nested values in a list field are treated as a parse error, and escapes `\uXXXX` beyond the BMP are not modelled.
- ClientOnboarding.ParseList: a list field holding valid JSON that is not an array (`null`, `"x"`, `{}`, `true`) answers 400 in the source, because the schema rejects the value's type, but 500 in the model, which treats every value it cannot read as a list as a parse error.
- EnhancedOnboarding.Extract: has the same gap for its four list fields. Valid JSON that is not an array of strings answers 500 in the model. In the source such a value parses and goes on to the enhanced schema, whose verdict (400 on rejection) is not part of this model.
- EmailText.MaskLocal: counts characters, while `length` and `charAt` in the source count UTF-16 units. A local part with a character outside the BMP is masked differently: the source masks `a\U{1F600}` as `a*` followed by a lone low surrogate, the model leaves it as `a\U{1F600}`.
- EmailText.MaskEmailOfAddress: agrees with the source only for local parts whose characters all lie in the BMP; for other local parts see `EmailText.MaskLocal` above.
- ClientOnboarding.WelcomeAsWrittenUnaddressed: the source passes `[undefined]` as the recipient list; the model passes an empty list, and the key uses the text `undefined`, as the template literal does.
- `toLowerCase` is modelled on ASCII letters only. This is enough for the image-extension search.
- PaymentWebhook.MailRepliesDoNotMatter: states that the reply and the tables do not depend on the mail provider, not that the same mails are requested. The dedupe store can differ.
- PaymentWebhook.Reconcile: the enhanced helpers that `src/pages/api/stripe/webhook.ts:4-9` imports are not defined in `src/lib/supabase.ts`, so their reply (threw, or resolved to a row or to null) and the enhanced table they leave are inputs. The model therefore promises nothing about the enhanced row it reads back: not that it is completed, nor that it is the submission's row. `SingleRowHelpers` shows the behaviour the legacy helpers would give.
- PaymentWebhook.ReplayIdempotent: assumes the enhanced helpers are idempotent (`HelpersIdempotent`), because their behaviour is not known. `ReplayWithinCooldownSendsNoReceipt` assumes the same. `SingleRowHelpersIdempotent` shows that helpers behaving like the legacy ones meet the assumption.
- PaymentWebhook.Handle: the `details` of a 400 produced by a thrown error are not modelled.
- The page-side client validation (react-hook-form with the Zod resolver) is represented by the predicates `PageValid` and `SchemaValid`. `LegacyOnboardingForm.PageValid` also requires a non-empty e-mail, which any address the e-mail check accepts has.
- The returned database row is assumed to be the row inserted. Every handler's response time, the `NODE_ENV` error detail, and `validateResendConfig` (its address masking is `EmailText.MaskEmail`) are left out.
- The React rendering of the checkbox groups is left out, apart from whether the "Other" text box is shown.

## Findings

| source | as written | input that shows it | evidently intended | confidence | as-written member | corrected member |
|---|---|---|---|---|---|---|
| src/pages/api/client-onboarding.ts:50 | the handler puts the `email` field into the object it validates, while the schema (src/lib/validations.ts:74) requires `contact_email` and the page sends `contact_email` | any POST from the client page, e.g. one that passes every page check | the handler reads `contact_email` and the valid submission is stored | not executed | ClientOnboarding.AsWrittenAlwaysRejects | ClientOnboardingForm.SubmitRoundTrip |
| src/components/forms/EnhancedOnboardingForm.tsx:123-125 | the page appends each category under `product_categories`, and the handler JSON-parses only the first value (src/pages/api/enhanced-onboarding.ts:42) | the categories `["Cakes"]`: the text `Cakes` is not JSON, and the handler answers 500 | each list is sent as one JSON text, as on the client page | not executed | EnhancedOnboardingForm.AsWrittenCategoriesBreak | EnhancedOnboardingForm.ExtractSerialise |
| src/components/forms/ClientOnboardingForm.tsx:46 | the submit function receives the resolver's parsed output, and the client schema (src/lib/validations.ts:43-96) has no `menu_file`, `faq_file` or `additional_docs` key, so Zod strips them and the file appends at lines 100-111 add nothing | any submission with a menu file attached: the body holds no `menu_file` part and no upload is requested | the files reach the body, either declared in the schema or taken from the form state, and are uploaded | not executed | ClientOnboardingForm.AsWrittenSendsNoFiles | ClientOnboardingForm.UploadsOfSubmission |
| src/pages/api/client-onboarding.ts:131 | the welcome mail is addressed to `submission.email`, but the inserted row carries `contact_email` and no `email` | any successful client submission: the welcome mail has no recipient and its key reads `undefined` | the welcome mail goes to the contact address | not executed | ClientOnboarding.WelcomeAsWrittenUnaddressed | ClientOnboarding.WelcomeMailSent |
| src/components/forms/EnhancedOnboardingForm.tsx:169 | the page appends every document under `additional_docs`, and the handler collects only `additional_docs_0` … `additional_docs_9` (src/pages/api/enhanced-onboarding.ts:100-108) | any submission with one additional document: no upload of it is requested | documents are numbered, as on the client page | not executed | EnhancedOnboardingForm.AsWrittenDocsIgnored | EnhancedOnboardingForm.DocsReadBack |
