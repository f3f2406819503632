/** The client-onboarding page's submit: the validated form becomes
    multipart form data (lists as JSON text, every other present value as
    text, files under their own keys, documents under indexed keys), and
    on `success` the page goes to `/success?id=…`. Together with the
    handler's extraction this is a round trip.

    The page's resolver hands `onSubmit` the schema's output, and the
    schema has no file keys, so as written the file branches never append
    anything: `Resolved` is what `onSubmit` receives. `Serialise` of a
    submission with files is the page as its file branches intend. */
module ClientOnboardingForm {

  import opened Wrappers
  import opened Text
  import opened JsonArray
  import opened Plans
  import opened Validations
  import opened FormFields
  import opened Effects
  import opened EmailDedupe
  import opened ClientOnboarding

  /** What the page holds when the form is submitted. */
  datatype Submission = Submission(form: ClientForm, menuFile: Option<FileInfo>, faqFile: Option<FileInfo>, additionalDocs: seq<FileInfo>)

  /** The number of text fields the page appends. */
  const FieldCount: nat := 15

  /** The text fields' keys, in the order they are appended. */
  function KeyAt(j: nat): string
    requires j < FieldCount
  {
    match j
    case 0 => "business_name"
    case 1 => "instagram_handle"
    case 2 => "other_platforms"
    case 3 => "business_type"
    case 4 => "product_categories"
    case 5 => "product_categories_other"
    case 6 => "common_questions"
    case 7 => "common_questions_other"
    case 8 => "delivery_option"
    case 9 => "menu_text"
    case 10 => "plan"
    case 11 => "credential_sharing"
    case 12 => "has_faqs"
    case 13 => "contact_email"
    case _ => "consent_checkbox"
  }

  lemma KeysDistinct(j: nat)
    requires j < FieldCount
    ensures forall i :: 0 <= i < FieldCount && i != j ==> KeyAt(i) != KeyAt(j)
  {
  }

  /** Each field's text: arrays as `JSON.stringify`, absent optional values
      skipped, everything else through `toString`. */
  function ValueAt(f: ClientForm, j: nat): Option<string>
    requires j < FieldCount
  {
    match j
    case 0 => Some(f.businessName)
    case 1 => Some(f.instagramHandle)
    case 2 => f.otherPlatforms
    case 3 => Some(f.businessType)
    case 4 => Some(Encode(f.productCategories))
    case 5 => f.productCategoriesOther
    case 6 => Some(Encode(f.commonQuestions))
    case 7 => f.commonQuestionsOther
    case 8 => Some(DeliveryOptionName(f.deliveryOption))
    case 9 => f.menuText
    case 10 => Some(PlanName(f.plan))
    case 11 => Some(CredentialSharingName(f.credentialSharing))
    case 12 => Some(HasFaqsName(f.hasFaqs))
    case 13 => Some(f.contactEmail)
    case _ => Some(BoolText(f.consentCheckbox))
  }

  /** The (key, value) pairs appended, in order. */
  function Fields(f: ClientForm): (pairs: seq<(string, seq<string>)>)
    ensures |pairs| == FieldCount
    ensures forall i :: 0 <= i < |pairs| ==> pairs[i] == (KeyAt(i), OptSeq(ValueAt(f, i)))
  {
    seq(FieldCount, i requires 0 <= i < FieldCount => (KeyAt(i), OptSeq(ValueAt(f, i))))
  }

  /** The file parts: menu, FAQ, then document `i` under `additional_docs_i`. */
  function FileParts(sub: Submission): (fd: FormData)
    ensures forall i :: 0 <= i < |fd| ==> fd[i].FilePart?
  {
    (if sub.menuFile.Some? then [FilePart("menu_file", sub.menuFile.value)] else [])
    + (if sub.faqFile.Some? then [FilePart("faq_file", sub.faqFile.value)] else [])
    + IndexedDocs(sub.additionalDocs, 0)
  }

  /** `onSubmit`'s FormData. */
  function Serialise(sub: Submission): FormData
  {
    PartsOf(Fields(sub.form)) + FileParts(sub)
  }

  /** What `onSubmit` receives: the schema's parsed output, which keeps the
      form and strips the menu, FAQ and document values. */
  function Resolved(sub: Submission): (r: Submission)
    ensures r.form == sub.form
  {
    Submission(sub.form, None, None, [])
  }

  /** The object the handler should build from the page's form. */
  function InputOf(f: ClientForm): ClientInput
  {
    ClientInput(
      Some(f.businessName), Some(f.instagramHandle), NonEmpty(f.otherPlatforms), Some(f.businessType),
      Some(f.productCategories), NonEmpty(f.productCategoriesOther),
      Some(f.commonQuestions), NonEmpty(f.commonQuestionsOther),
      Some(DeliveryOptionName(f.deliveryOption)), NonEmpty(f.menuText),
      Some(PlanName(f.plan)), Some(CredentialSharingName(f.credentialSharing)), Some(HasFaqsName(f.hasFaqs)),
      Some(f.contactEmail), Some(f.consentCheckbox))
  }

  /** The form the server validates: the page's form with empty optional
      texts turned into absent ones. */
  function Normalised(f: ClientForm): ClientForm
  {
    f.(otherPlatforms := NonEmpty(f.otherPlatforms),
       productCategoriesOther := NonEmpty(f.productCategoriesOther),
       commonQuestionsOther := NonEmpty(f.commonQuestionsOther),
       menuText := NonEmpty(f.menuText))
  }

  /** The page's form meets every rule of the client schema. */
  predicate SchemaValid(f: ClientForm, isEmail: string -> bool)
  {
    && 2 <= Utf16Length(f.businessName) <= 100
    && 1 <= Utf16Length(f.instagramHandle) <= 50
    && 1 <= Utf16Length(f.businessType) <= 100
    && |f.productCategories| >= 1 && |f.commonQuestions| >= 1
    && isEmail(f.contactEmail) && f.consentCheckbox
    && (OtherOption in f.productCategories ==> Filled(f.productCategoriesOther))
    && (OtherOption in f.commonQuestions ==> Filled(f.commonQuestionsOther))
  }

  // ---------------------------------------------------------------- reading the form data back

  /** Each text field reads back as its value, empty texts as absent. */
  lemma FieldReadBack(sub: Submission, j: nat)
    requires j < FieldCount
    ensures FieldValue(Serialise(sub), KeyAt(j)) == NonEmpty(ValueAt(sub.form, j))
  {
    var pairs := Fields(sub.form);
    KeysDistinct(j);
    ValuesOfPairs(pairs, j);
    ValuesAppend(PartsOf(pairs), FileParts(sub), KeyAt(j));
    NoValuesInFiles(FileParts(sub), KeyAt(j));
    FieldValueOfOptional(Serialise(sub), KeyAt(j), ValueAt(sub.form, j));
  }

  /** The text parts carry no file: the body's files are those of its file
      parts. */
  lemma SerialiseFiles(sub: Submission, key: string)
    ensures Files(Serialise(sub), key) == Files(FileParts(sub), key)
  {
    NoFilesInText(PartsOf(Fields(sub.form)), key);
    FilesAppend(PartsOf(Fields(sub.form)), FileParts(sub), key);
  }

  /** The menu and FAQ parts carry their own file and nothing else does. */
  lemma FilePartsFile(sub: Submission, key: string)
    requires key == "menu_file" || key == "faq_file"
    ensures FirstFile(FileParts(sub), key) == (if key == "menu_file" then sub.menuFile else sub.faqFile)
  {
    var menu := if sub.menuFile.Some? then [FilePart("menu_file", sub.menuFile.value)] else [];
    var faq := if sub.faqFile.Some? then [FilePart("faq_file", sub.faqFile.value)] else [];
    FilesAppend(menu + faq, IndexedDocs(sub.additionalDocs, 0), key);
    FilesAppend(menu, faq, key);
    FilesOfIndexedDocsOther(sub.additionalDocs, 0, key);
    if sub.menuFile.Some? {
      FilesOfOne("menu_file", sub.menuFile.value, key);
    }
    if sub.faqFile.Some? {
      FilesOfOne("faq_file", sub.faqFile.value, key);
    }
  }

  /** The menu and FAQ files read back as sent. */
  lemma FilesReadBack(sub: Submission)
    ensures FirstFile(Serialise(sub), "menu_file") == sub.menuFile
    ensures FirstFile(Serialise(sub), "faq_file") == sub.faqFile
  {
    SerialiseFiles(sub, "menu_file");
    SerialiseFiles(sub, "faq_file");
    FilePartsFile(sub, "menu_file");
    FilePartsFile(sub, "faq_file");
  }

  /** The documents read back in order, the first ten of them. */
  lemma DocsReadBack(sub: Submission)
    ensures DocsUpTo(Serialise(sub), MaxDocs) == sub.additionalDocs[..Min(MaxDocs, |sub.additionalDocs|)]
  {
    var text := PartsOf(Fields(sub.form));
    var menu := if sub.menuFile.Some? then [FilePart("menu_file", sub.menuFile.value)] else [];
    var faq := if sub.faqFile.Some? then [FilePart("faq_file", sub.faqFile.value)] else [];
    var pre := text + menu + faq;
    assert Serialise(sub) == pre + IndexedDocs(sub.additionalDocs, 0);
    assert NoDocParts(pre);
    IndexedDocsCollected(pre, sub.additionalDocs, MaxDocs);
  }

  /** The handler uploads exactly the files the page attached: the menu to
      `menus`, the FAQ file and the first ten documents to `documents`. */
  lemma UploadsOfSubmission(sub: Submission)
    ensures var docs := sub.additionalDocs[..Min(MaxDocs, |sub.additionalDocs|)];
      UploadEffects(Serialise(sub))
      == (if sub.menuFile.Some? then [Upload("menus", "menus", sub.menuFile.value)] else [])
         + (if sub.faqFile.Some? then [Upload("documents", "documents", sub.faqFile.value)] else [])
         + (if sub.additionalDocs != [] then [UploadMany("documents", "documents", docs)] else [])
  {
    FilesReadBack(sub);
    DocsReadBack(sub);
  }

  /** A non-empty JSON list field reads back as the list. */
  lemma ListReadBack(sub: Submission, j: nat, key: string, xs: seq<string>)
    requires j < FieldCount && KeyAt(j) == key && ValueAt(sub.form, j) == Some(Encode(xs))
    ensures ParseList(Serialise(sub), key) == Some(xs)
  {
    FieldReadBack(sub, j);
    assert Encode(xs)[0] == '[';
    DecodeEncode(xs);
  }

  /** What the page sends is what the handler (with the contact address
      read from `contact_email`) extracts: every field and list comes back,
      with empty optional texts as absent ones. */
  lemma ExtractSerialise(sub: Submission)
    ensures Extract(Serialise(sub)) == Some(InputOf(sub.form))
  {
    ListReadBack(sub, 4, "product_categories", sub.form.productCategories);
    ListReadBack(sub, 6, "common_questions", sub.form.commonQuestions);
    ReadBackName(sub);
    ReadBackBusiness(sub);
    ReadBackOthers(sub);
    ReadBackDelivery(sub);
    ReadBackPlan(sub);
    ReadBackContact(sub);
    ReadBackConsent(sub);
    ExtractOf(Serialise(sub), sub.form);
  }

  /** Extraction of form data whose every field reads back. */
  lemma ExtractOf(fd: FormData, f: ClientForm)
    requires ParseList(fd, "product_categories") == Some(f.productCategories)
    requires ParseList(fd, "common_questions") == Some(f.commonQuestions)
    requires FieldValue(fd, "business_name") == NonEmpty(Some(f.businessName))
    requires FieldValue(fd, "instagram_handle") == NonEmpty(Some(f.instagramHandle))
    requires FieldValue(fd, "other_platforms") == NonEmpty(f.otherPlatforms)
    requires FieldValue(fd, "business_type") == NonEmpty(Some(f.businessType))
    requires FieldValue(fd, "product_categories_other") == NonEmpty(f.productCategoriesOther)
    requires FieldValue(fd, "common_questions_other") == NonEmpty(f.commonQuestionsOther)
    requires FieldValue(fd, "delivery_option") == NonEmpty(Some(DeliveryOptionName(f.deliveryOption)))
    requires FieldValue(fd, "menu_text") == NonEmpty(f.menuText)
    requires FieldValue(fd, "plan") == NonEmpty(Some(PlanName(f.plan)))
    requires FieldValue(fd, "credential_sharing") == NonEmpty(Some(CredentialSharingName(f.credentialSharing)))
    requires FieldValue(fd, "has_faqs") == NonEmpty(Some(HasFaqsName(f.hasFaqs)))
    requires FieldValue(fd, "contact_email") == NonEmpty(Some(f.contactEmail))
    requires FieldValue(fd, "consent_checkbox") == NonEmpty(Some(BoolText(f.consentCheckbox)))
    ensures Extract(fd) == Some(InputOf(f))
  {
    BuildInputOf(fd, f);
  }

  /** The business name and Instagram handle read back. */
  lemma ReadBackName(sub: Submission)
    ensures FieldValue(Serialise(sub), "business_name") == NonEmpty(Some(sub.form.businessName))
    ensures FieldValue(Serialise(sub), "instagram_handle") == NonEmpty(Some(sub.form.instagramHandle))
  {
    FieldReadBack(sub, 0);
    FieldReadBack(sub, 1);
  }

  /** The other platforms and the business type read back. */
  lemma ReadBackBusiness(sub: Submission)
    ensures FieldValue(Serialise(sub), "other_platforms") == NonEmpty(sub.form.otherPlatforms)
    ensures FieldValue(Serialise(sub), "business_type") == NonEmpty(Some(sub.form.businessType))
  {
    FieldReadBack(sub, 2);
    FieldReadBack(sub, 3);
  }

  /** The free-text companions of the two lists read back. */
  lemma ReadBackOthers(sub: Submission)
    ensures FieldValue(Serialise(sub), "product_categories_other") == NonEmpty(sub.form.productCategoriesOther)
    ensures FieldValue(Serialise(sub), "common_questions_other") == NonEmpty(sub.form.commonQuestionsOther)
  {
    FieldReadBack(sub, 5);
    FieldReadBack(sub, 7);
  }

  /** The delivery option and the menu text read back. */
  lemma ReadBackDelivery(sub: Submission)
    ensures FieldValue(Serialise(sub), "delivery_option") == NonEmpty(Some(DeliveryOptionName(sub.form.deliveryOption)))
    ensures FieldValue(Serialise(sub), "menu_text") == NonEmpty(sub.form.menuText)
  {
    FieldReadBack(sub, 8);
    FieldReadBack(sub, 9);
  }

  /** The plan and the credential-sharing choice read back. */
  lemma ReadBackPlan(sub: Submission)
    ensures FieldValue(Serialise(sub), "plan") == NonEmpty(Some(PlanName(sub.form.plan)))
    ensures FieldValue(Serialise(sub), "credential_sharing") == NonEmpty(Some(CredentialSharingName(sub.form.credentialSharing)))
  {
    FieldReadBack(sub, 10);
    FieldReadBack(sub, 11);
  }

  /** The FAQ choice and the contact address read back. */
  lemma ReadBackContact(sub: Submission)
    ensures FieldValue(Serialise(sub), "has_faqs") == NonEmpty(Some(HasFaqsName(sub.form.hasFaqs)))
    ensures FieldValue(Serialise(sub), "contact_email") == NonEmpty(Some(sub.form.contactEmail))
  {
    FieldReadBack(sub, 12);
    FieldReadBack(sub, 13);
  }

  /** The consent reads back. */
  lemma ReadBackConsent(sub: Submission)
    ensures FieldValue(Serialise(sub), "consent_checkbox") == NonEmpty(Some(BoolText(sub.form.consentCheckbox)))
  {
    FieldReadBack(sub, 14);
  }

  lemma NamesNonEmpty(f: ClientForm)
    ensures NonEmpty(Some(DeliveryOptionName(f.deliveryOption))) == Some(DeliveryOptionName(f.deliveryOption))
    ensures NonEmpty(Some(PlanName(f.plan))) == Some(PlanName(f.plan))
    ensures NonEmpty(Some(CredentialSharingName(f.credentialSharing))) == Some(CredentialSharingName(f.credentialSharing))
  {
    assert |DeliveryOptionName(f.deliveryOption)| > 0;
    assert |PlanName(f.plan)| > 0;
    assert |CredentialSharingName(f.credentialSharing)| > 0;
  }

  /** The handler's object, once every field reads back. */
  lemma BuildInputOf(fd: FormData, f: ClientForm)
    requires FieldValue(fd, "business_name") == NonEmpty(Some(f.businessName))
    requires FieldValue(fd, "instagram_handle") == NonEmpty(Some(f.instagramHandle))
    requires FieldValue(fd, "other_platforms") == NonEmpty(f.otherPlatforms)
    requires FieldValue(fd, "business_type") == NonEmpty(Some(f.businessType))
    requires FieldValue(fd, "product_categories_other") == NonEmpty(f.productCategoriesOther)
    requires FieldValue(fd, "common_questions_other") == NonEmpty(f.commonQuestionsOther)
    requires FieldValue(fd, "delivery_option") == NonEmpty(Some(DeliveryOptionName(f.deliveryOption)))
    requires FieldValue(fd, "menu_text") == NonEmpty(f.menuText)
    requires FieldValue(fd, "plan") == NonEmpty(Some(PlanName(f.plan)))
    requires FieldValue(fd, "credential_sharing") == NonEmpty(Some(CredentialSharingName(f.credentialSharing)))
    requires FieldValue(fd, "has_faqs") == NonEmpty(Some(HasFaqsName(f.hasFaqs)))
    requires FieldValue(fd, "contact_email") == NonEmpty(Some(f.contactEmail))
    requires FieldValue(fd, "consent_checkbox") == NonEmpty(Some(BoolText(f.consentCheckbox)))
    ensures BuildInput(fd, f.productCategories, f.commonQuestions, Some(FieldValue(fd, "contact_email").GetOr(""))) == InputOf(f)
  {
    var b := BuildInput(fd, f.productCategories, f.commonQuestions, Some(FieldValue(fd, "contact_email").GetOr("")));
    var i := InputOf(f);
    NamesNonEmpty(f);
    assert b.businessName == i.businessName;
    assert b.instagramHandle == i.instagramHandle;
    assert b.otherPlatforms == i.otherPlatforms;
    assert b.businessType == i.businessType;
    assert b.productCategoriesOther == i.productCategoriesOther;
    assert b.commonQuestionsOther == i.commonQuestionsOther;
    assert b.deliveryOption == i.deliveryOption;
    assert b.menuText == i.menuText;
    assert b.plan == i.plan;
    assert b.credentialSharing == i.credentialSharing;
    assert b.hasFaqs == i.hasFaqs;
    assert b.contactEmail == i.contactEmail;
    assert b.consentCheckbox == i.consentCheckbox;
  }

  /** A form that meets the schema passes the server's validation as the
      same form, up to empty optional texts. */
  lemma ValidatesAsNormalised(f: ClientForm, isEmail: string -> bool)
    requires SchemaValid(f, isEmail)
    ensures ValidateClient(InputOf(f), isEmail) == Valid(Normalised(f))
  {
    var i := InputOf(f);
    assert ClientViolations(i, isEmail) == {} by {
      ParsePlanName(f.plan);
    }
    ParsePlanName(f.plan);
    assert ParseDeliveryOption(DeliveryOptionName(f.deliveryOption)) == Some(f.deliveryOption);
    assert ParseCredentialSharing(CredentialSharingName(f.credentialSharing)) == Some(f.credentialSharing);
    assert ParseHasFaqs(HasFaqsName(f.hasFaqs)) == Some(f.hasFaqs);
  }

  /** As written the page sends only the text fields: whatever files the
      user picked, the handler uploads nothing, and a picked menu does not
      reach it. */
  lemma AsWrittenSendsNoFiles(sub: Submission)
    ensures Serialise(Resolved(sub)) == PartsOf(Fields(sub.form))
    ensures UploadEffects(Serialise(Resolved(sub))) == []
    ensures FileBytes(Serialise(Resolved(sub))) == 0
    ensures sub.menuFile.Some? ==> FirstFile(Serialise(Resolved(sub)), "menu_file") != FirstFile(Serialise(sub), "menu_file")
  {
    var text := PartsOf(Fields(sub.form));
    assert Serialise(Resolved(sub)) == text + [];
    UploadsOfSubmission(Resolved(sub));
    FilesReadBack(sub);
    FilesReadBack(Resolved(sub));
    TextHasNoBytes(text);
  }

  /** The full round trip: a valid form submitted by the page, with files
      within formidable's limit, reaches the uploads with its documents, the
      validated form equal to the page's, and, when the uploads and the
      insert succeed, 200 with the new id. The handler as written answers
      the same request 400. */
  lemma SubmitRoundTrip(sub: Submission, s: Services, store: SentStore)
    requires SchemaValid(sub.form, s.isEmail)
    requires FileBytes(Serialise(sub)) <= MaxFileBytes
    ensures var req := Request("POST", Some(Serialise(sub)));
      && Handle(req, s, store) == AfterValidation(Serialise(sub), Normalised(sub.form), s, store)
      && HandleAsWritten(req, s, store).response == InvalidFormData
    ensures !UploadFails(Serialise(sub), s.uploads) && s.insert.Success? ==>
      Handle(Request("POST", Some(Serialise(sub))), s, store).response.status == 200
  {
    var fd := Serialise(sub);
    var req := Request("POST", Some(fd));
    ExtractSerialise(sub);
    ValidatesAsNormalised(sub.form, s.isEmail);
    assert Handle(req, s, store) == AfterValidation(fd, Normalised(sub.form), s, store);
    assert ExtractAsWritten(fd).Some?;
    AsWrittenAlwaysRejects(req, s, store);
  }

  // ---------------------------------------------------------------- redirect

  /** The page's reaction to the JSON answer: on `success` it goes to
      `/success?id=…` (the text "undefined" when no id came back);
      otherwise it stays and shows an alert. */
  function SuccessRedirect(resp: Response): Option<string>
  {
    if resp.success then Some("/success?id=" + resp.submissionId.GetOr("undefined")) else None
  }

  /** The page is redirected exactly when the handler answered 200, and the
      redirect carries the id of the inserted row. */
  lemma RedirectCarriesId(req: Request, s: Services, store: SentStore)
    ensures var r := Handle(req, s, store);
      && (SuccessRedirect(r.response).Some? <==> r.response.status == 200)
      && (r.response.status == 200 ==> SuccessRedirect(r.response) == Some("/success?id=" + s.insert.value))
  {
  }
}
