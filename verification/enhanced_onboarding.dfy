/** The `/api/enhanced-onboarding` handler: the same multipart extraction
    as the client handler with four JSON lists, a schema that is not part of
    this model (a boolean oracle here), the three uploads, a submission id
    made from the clock and a random suffix, and two mails whose failures
    are swallowed. Nothing is written to the database. */
module EnhancedOnboarding {

  import opened Wrappers
  import opened Text
  import opened Validations
  import opened FormFields
  import opened EmailDedupe
  import opened EmailTemplates
  import opened Effects
  import CO = ClientOnboarding

  /** The `formData` object the handler builds before validation. */
  datatype EnhancedInput = EnhancedInput(
    businessName: string,
    instagramHandle: string,
    otherPlatforms: Option<string>,
    businessType: string,
    businessTypeOther: Option<string>,
    productCategories: seq<string>,
    productCategoriesOther: Option<string>,
    customerQuestions: seq<string>,
    customerQuestionsOther: Option<string>,
    deliveryPickup: Option<string>,
    deliveryOptions: seq<string>,
    deliveryOptionsOther: Option<string>,
    pickupOptions: seq<string>,
    pickupOptionsOther: Option<string>,
    deliveryNotes: Option<string>,
    menuDescription: Option<string>,
    plan: Option<string>,
    credentialSharing: Option<string>,
    credentialsDirect: Option<string>,
    hasFaqs: Option<string>,
    faqContent: Option<string>,
    email: string,
    consentCheckbox: bool)

  /** The object, given the four parsed lists: the required texts default
      to the empty text, an optional text is present only when a non-empty
      value was sent, and the consent is the text "true". */
  function BuildInput(fd: FormData, cats: seq<string>, questions: seq<string>,
                      delivery: seq<string>, pickup: seq<string>): (r: EnhancedInput)
    ensures r.productCategories == cats && r.customerQuestions == questions
    ensures r.deliveryOptions == delivery && r.pickupOptions == pickup
    ensures r.consentCheckbox == ConsentGiven(fd)
    ensures r.email == [] <==> FieldValue(fd, "email").None?
    ensures r.email != [] ==> Values(fd, "email") != [] && r.email == Values(fd, "email")[0]
    ensures r.plan.Some? ==> Values(fd, "plan") != [] && r.plan.value == Values(fd, "plan")[0] != []
    ensures r.businessTypeOther.Some? ==> r.businessTypeOther.value != []
  {
    EnhancedInput(
      FieldValue(fd, "business_name").GetOr(""),
      FieldValue(fd, "instagram_handle").GetOr(""),
      FieldValue(fd, "other_platforms"),
      FieldValue(fd, "business_type").GetOr(""),
      FieldValue(fd, "business_type_other"),
      cats,
      FieldValue(fd, "product_categories_other"),
      questions,
      FieldValue(fd, "customer_questions_other"),
      FieldValue(fd, "delivery_pickup"),
      delivery,
      FieldValue(fd, "delivery_options_other"),
      pickup,
      FieldValue(fd, "pickup_options_other"),
      FieldValue(fd, "delivery_notes"),
      FieldValue(fd, "menu_description"),
      FieldValue(fd, "plan"),
      FieldValue(fd, "credential_sharing"),
      FieldValue(fd, "credentials_direct"),
      FieldValue(fd, "has_faqs"),
      FieldValue(fd, "faq_content"),
      FieldValue(fd, "email").GetOr(""),
      ConsentGiven(fd))
  }

  /** Extraction; `None` when one of the four lists is not a JSON array of
      strings (a thrown SyntaxError). */
  function Extract(fd: FormData): (r: Option<EnhancedInput>)
    ensures r.Some? <==>
      && CO.ParseList(fd, "product_categories").Some? && CO.ParseList(fd, "customer_questions").Some?
      && CO.ParseList(fd, "delivery_options").Some? && CO.ParseList(fd, "pickup_options").Some?
    ensures r.Some? ==> r.value.consentCheckbox == ConsentGiven(fd) && r.value.productCategories == CO.ParseList(fd, "product_categories").value
  {
    match CO.ParseList(fd, "product_categories")
    case None => None
    case Some(cats) =>
      match CO.ParseList(fd, "customer_questions")
      case None => None
      case Some(questions) =>
        match CO.ParseList(fd, "delivery_options")
        case None => None
        case Some(delivery) =>
          match CO.ParseList(fd, "pickup_options")
          case None => None
          case Some(pickup) => Some(BuildInput(fd, cats, questions, delivery, pickup))
  }

  /** Everything the handler consults outside itself: the schema (not part
      of this model), the storage helpers' results, the clock, the random
      suffix (`Math.random().toString(36).substring(2)`), the provider's
      two replies, and the two mail bodies (the admin body as a function of
      the "Files uploaded" count it reports). */
  datatype EnhancedServices = EnhancedServices(
    schema: EnhancedInput -> bool,
    uploads: UploadReplies,
    now: nat,
    randomSuffix: string,
    welcomeReply: ProviderReply,
    adminReply: ProviderReply,
    welcomeBody: string,
    adminBody: nat -> string,
    env: Env)

  const SuccessMessage := "Enhanced onboarding form submitted successfully"

  /** `Date.now().toString() + random`. */
  function SubmissionId(now: nat, suffix: string): (id: string)
    ensures StartsWith(id, NatToString(now))
    ensures |id| == |NatToString(now)| + |suffix| && id[|NatToString(now)|..] == suffix
  {
    NatToString(now) + suffix
  }

  /** The present, non-empty texts, in order (`.filter(Boolean)`). */
  function Truthy(xs: seq<Option<string>>): (r: seq<string>)
    ensures |r| <= |xs|
    ensures forall u :: u in r ==> u != [] && Some(u) in xs
  {
    if xs == [] then []
    else (if xs[0].Some? && xs[0].value != [] then [xs[0].value] else []) + Truthy(xs[1..])
  }

  lemma {:induction false} TruthyAppend(a: seq<Option<string>>, b: seq<Option<string>>)
    ensures Truthy(a + b) == Truthy(a) + Truthy(b)
  {
    if a != [] {
      assert (a + b)[1..] == a[1..] + b;
      TruthyAppend(a[1..], b);
    } else {
      assert a + b == b;
    }
  }

  lemma {:induction false} TruthyAllPresent(xs: seq<Option<string>>)
    requires forall i :: 0 <= i < |xs| ==> xs[i].Some? && xs[i].value != []
    ensures |Truthy(xs)| == |xs|
  {
    if xs != [] {
      TruthyAllPresent(xs[1..]);
    }
  }

  function SomeAll(urls: seq<string>): (r: seq<Option<string>>)
    ensures |r| == |urls| && forall i :: 0 <= i < |r| ==> r[i] == Some(urls[i])
  {
    seq(|urls|, i requires 0 <= i < |urls| => Some(urls[i]))
  }

  /** `[menuFileUrl, faqFileUrl, ...additionalDocsUrls].filter(Boolean).length`. */
  function FilesUploaded(menu: Option<string>, faq: Option<string>, docs: seq<string>): nat
  {
    |Truthy([menu, faq] + SomeAll(docs))|
  }

  /** The count reported to the administrator: one per URL actually
      returned, so when every returned URL is non-empty it is the number of
      uploaded files; an empty URL is not counted. */
  lemma FilesUploadedCount(menu: Option<string>, faq: Option<string>, docs: seq<string>)
    ensures FilesUploaded(menu, faq, docs) <= 2 + |docs|
    ensures (menu.Some? ==> menu.value != []) && (faq.Some? ==> faq.value != []) && (forall i :: 0 <= i < |docs| ==> docs[i] != []) ==>
      FilesUploaded(menu, faq, docs) == (if menu.Some? then 1 else 0) + (if faq.Some? then 1 else 0) + |docs|
  {
    TruthyAppend([menu, faq], SomeAll(docs));
    assert [menu, faq][1..] == [faq];
    if forall i :: 0 <= i < |docs| ==> docs[i] != [] {
      TruthyAllPresent(SomeAll(docs));
    }
  }

  /** The URLs of the uploads that were made, when none failed. */
  function MenuUrl(fd: FormData, u: UploadReplies): Option<string>
    requires !CO.UploadFails(fd, u)
  {
    if FirstFile(fd, "menu_file").Some? then Some(u.menu.value) else None
  }

  function FaqUrl(fd: FormData, u: UploadReplies): Option<string>
    requires !CO.UploadFails(fd, u)
  {
    if FirstFile(fd, "faq_file").Some? then Some(u.faq.value) else None
  }

  function DocsUrls(fd: FormData, u: UploadReplies): seq<string>
    requires !CO.UploadFails(fd, u)
  {
    if DocsUpTo(fd, MaxDocs) != [] then u.docs.value else []
  }

  /** Everything after validation: the uploads (the first failure answers
      400 and nothing else happens), the id, the two mails without
      duplicate prevention and whatever their outcome, and 200. */
  function AfterValidation(fd: FormData, input: EnhancedInput, s: EnhancedServices, store: SentStore): (r: Outcome)
    ensures r.store == store
    ensures r.response.status in {200, 400}
    ensures r.response.status == 200 <==> !CO.UploadFails(fd, s.uploads)
    ensures r.response.status == 200 ==>
      && r.response.success && r.response.message == SuccessMessage
      && r.response.submissionId == Some(SubmissionId(s.now, s.randomSuffix))
    ensures r.response.status == 400 ==> !r.response.success && r.response.submissionId.None?
    ensures r.response.status == 400 ==> forall i :: 0 <= i < |r.effects| ==> IsUpload(r.effects[i])
    ensures forall i :: 0 <= i < |r.effects| ==> !IsInsert(r.effects[i])
  {
    if CO.UploadFails(fd, s.uploads) then CO.UploadFailure(fd, s.uploads, store)
    else Submitted(fd, input, s, store)
  }

  /** The uploads succeeded: the id, the two mails without duplicate
      prevention and whatever their outcome, and 200. */
  function Submitted(fd: FormData, input: EnhancedInput, s: EnhancedServices, store: SentStore): (r: Outcome)
    requires !CO.UploadFails(fd, s.uploads)
    ensures r.store == store
    ensures r.response == Response(200, true, SuccessMessage, Some(SubmissionId(s.now, s.randomSuffix)))
    ensures forall i :: 0 <= i < |r.effects| ==> !IsInsert(r.effects[i])
  {
    var count := FilesUploaded(MenuUrl(fd, s.uploads), FaqUrl(fd, s.uploads), DocsUrls(fd, s.uploads));
    var welcome := SendEmail(s.env, store, WelcomeEmail(input.email, s.welcomeBody), None, s.now, s.welcomeReply);
    var admin := SendEmail(s.env, welcome.store, EnhancedAdminEmail(input.businessName, s.adminBody(count)), None, s.now, s.adminReply);
    Outcome(Response(200, true, SuccessMessage, Some(SubmissionId(s.now, s.randomSuffix))),
            CO.UploadEffects(fd) + Mailed(welcome) + Mailed(admin), admin.store)
  }

  /** The handler: 405 for anything but POST, 500 when parsing throws (files
      over formidable's 5 MiB among them) or a list is not JSON, 400 when
      the schema rejects (a ZodError), then the rest. It never inserts and
      never touches the duplicate store. */
  function Handle(req: CO.Request, s: EnhancedServices, store: SentStore): (r: Outcome)
    ensures r.store == store
    ensures r.response.status in {200, 400, 405, 500}
    ensures forall i :: 0 <= i < |r.effects| ==> !IsInsert(r.effects[i])
    ensures r.response.status == 200 <==>
      && req.verb == "POST" && req.form.Some? && FileBytes(req.form.value) <= CO.MaxFileBytes
      && Extract(req.form.value).Some?
      && s.schema(Extract(req.form.value).value) && !CO.UploadFails(req.form.value, s.uploads)
    ensures r.response.status != 200 ==> !r.response.success && r.response.submissionId.None?
  {
    if req.verb != "POST" then Outcome(MethodNotAllowed, [], store)
    else if req.form.None? || FileBytes(req.form.value) > CO.MaxFileBytes then Outcome(InternalError, [], store)
    else AfterExtraction(req.form.value, Extract(req.form.value), s, store)
  }

  /** The handler once the body is parsed: a list that is not JSON answers
      500, a schema rejection 400. */
  function AfterExtraction(fd: FormData, input: Option<EnhancedInput>, s: EnhancedServices, store: SentStore): (r: Outcome)
    ensures r.store == store
    ensures r.response.status in {200, 400, 500}
    ensures forall i :: 0 <= i < |r.effects| ==> !IsInsert(r.effects[i])
    ensures r.response.status == 200 <==> input.Some? && s.schema(input.value) && !CO.UploadFails(fd, s.uploads)
    ensures r.response.status != 200 ==> !r.response.success && r.response.submissionId.None?
  {
    match input
    case None => Outcome(InternalError, [], store)
    case Some(i) =>
      if !s.schema(i) then Outcome(InvalidFormData, [], store)
      else AfterValidation(fd, i, s, store)
  }

  // ---------------------------------------------------------------- properties

  /** Files over the size limit and a list that is not JSON are internal
      errors (500); a schema rejection of a body within the limit is invalid
      form data (400); none of them does anything. */
  lemma ParseErrorVersusSchemaError(fd: FormData, s: EnhancedServices, store: SentStore)
    ensures FileBytes(fd) > CO.MaxFileBytes || Extract(fd).None? ==>
      Handle(CO.Request("POST", Some(fd)), s, store) == Outcome(InternalError, [], store)
    ensures FileBytes(fd) <= CO.MaxFileBytes && Extract(fd).Some? && !s.schema(Extract(fd).value) ==>
      Handle(CO.Request("POST", Some(fd)), s, store) == Outcome(InvalidFormData, [], store)
  {
  }

  /** The menu goes to the `menus` bucket, the FAQ file and the documents
      to `documents`, each in a folder named after its bucket. */
  lemma UploadBuckets(fd: FormData)
    ensures var fx := CO.UploadEffects(fd);
      && |fx| <= 3
      && (forall i :: 0 <= i < |fx| ==> fx[i].folder == fx[i].bucket && fx[i].bucket in {"menus", "documents"})
      && (forall i :: 0 <= i < |fx| ==> (fx[i].bucket == "menus" <==> i == 0 && FirstFile(fd, "menu_file").Some?))
      && (forall i :: 0 <= i < |fx| && fx[i].bucket == "menus" ==> fx[i] == Upload("menus", "menus", FirstFile(fd, "menu_file").value))
      && (forall i :: 0 <= i < |fx| && fx[i].UploadMany? ==> fx[i].files == DocsUpTo(fd, MaxDocs) != [])
  {
    var menu := FirstFile(fd, "menu_file");
    var faq := FirstFile(fd, "faq_file");
    var docs := DocsUpTo(fd, MaxDocs);
    var a := if menu.Some? then [Upload("menus", "menus", menu.value)] else [];
    var b := if faq.Some? then [Upload("documents", "documents", faq.value)] else [];
    var c := if docs != [] then [UploadMany("documents", "documents", docs)] else [];
    assert CO.UploadEffects(fd) == a + b + c;
  }

  /** An upload failure answers 400 and sends no mail. */
  lemma UploadFailureSendsNoMail(fd: FormData, s: EnhancedServices, store: SentStore)
    requires CO.UploadFails(fd, s.uploads)
    ensures var r := Handle(CO.Request("POST", Some(fd)), s, store);
      && r.response.status in {400, 500}
      && forall i :: 0 <= i < |r.effects| ==> !r.effects[i].Mail?
  {
    if FileBytes(fd) <= CO.MaxFileBytes {
      UploadFailureAfterExtraction(fd, Extract(fd), s, store);
    }
  }

  /** An upload failure, whatever the parsed body, answers 400 or 500 and
      sends no mail. */
  lemma UploadFailureAfterExtraction(fd: FormData, input: Option<EnhancedInput>, s: EnhancedServices, store: SentStore)
    requires CO.UploadFails(fd, s.uploads)
    ensures var r := AfterExtraction(fd, input, s, store);
      && r.response.status in {400, 500}
      && forall i :: 0 <= i < |r.effects| ==> !r.effects[i].Mail?
  {
    if input.Some? && s.schema(input.value) {
      assert AfterExtraction(fd, input, s, store) == CO.UploadFailure(fd, s.uploads, store);
    }
  }

  /** Neither mail's outcome changes the answer. */
  lemma MailRepliesDoNotMatter(req: CO.Request, s: EnhancedServices, store: SentStore,
                               welcome: ProviderReply, admin: ProviderReply)
    ensures Handle(req, s, store).response == Handle(req, s.(welcomeReply := welcome, adminReply := admin), store).response
  {
  }

  /** On success both mails are handed to the provider, without duplicate
      prevention: the welcome to the submitted address, the notification
      to the administrator with the business name and the count of uploaded
      files. */
  lemma SuccessSendsBothMails(fd: FormData, s: EnhancedServices, store: SentStore)
    requires FileBytes(fd) <= CO.MaxFileBytes
    requires Extract(fd).Some? && s.schema(Extract(fd).value) && !CO.UploadFails(fd, s.uploads)
    ensures var input := Extract(fd).value;
      var count := FilesUploaded(MenuUrl(fd, s.uploads), FaqUrl(fd, s.uploads), DocsUrls(fd, s.uploads));
      Handle(CO.Request("POST", Some(fd)), s, store).effects
      == CO.UploadEffects(fd)
         + [Mail(Outgoing(FromEmail(s.env), [input.email], WelcomeSubject, s.welcomeBody, []))]
         + [Mail(Outgoing(FromEmail(s.env), [DefaultAdminEmail], "New Enhanced Onboarding: " + input.businessName, s.adminBody(count), []))]
  {
    var input := Extract(fd).value;
    assert Handle(CO.Request("POST", Some(fd)), s, store) == Submitted(fd, input, s, store);
    WithoutDedupeAlwaysSends(s.env, store, WelcomeEmail(input.email, s.welcomeBody), None, s.now, s.welcomeReply);
    var count := FilesUploaded(MenuUrl(fd, s.uploads), FaqUrl(fd, s.uploads), DocsUrls(fd, s.uploads));
    WithoutDedupeAlwaysSends(s.env, store, EnhancedAdminEmail(input.businessName, s.adminBody(count)), None, s.now, s.adminReply);
  }

  /** Two identical requests get the same answer and send the same mails
      again: nothing is remembered between them. */
  lemma ResubmissionMailsAgain(req: CO.Request, s: EnhancedServices, store: SentStore)
    ensures var first := Handle(req, s, store);
      Handle(req, s, first.store) == first
  {
  }
}
