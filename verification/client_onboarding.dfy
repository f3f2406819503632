/** The `/api/client-onboarding` handler: extraction of the multipart
    fields, validation, the three uploads, the insert and the two mails.
    The handler reads the contact address from the `email` field, which the
    schema does not know, so as written every parsed submission fails
    validation; `HandleAsWritten` models that code and `Handle` the handler
    with the contact address read from `contact_email`. The welcome mail is
    addressed to `submission.email`, which the inserted row does not have;
    `Persist` takes the welcome mail's recipients as a parameter so that
    both that addressing and the contact address can be stated. */
module ClientOnboarding {

  import opened Wrappers
  import opened Text
  import opened JsonArray
  import opened Plans
  import opened Validations
  import opened FormFields
  import opened EmailDedupe
  import opened EmailTemplates
  import opened Effects

  /** The HTTP method and the multipart body (`None` when parsing threw). */
  datatype Request = Request(verb: string, form: Option<FormData>)

  /** Everything the handler consults outside itself: the e-mail format
      check, the storage helpers' results, the insert's new id (or its
      failure), the mail provider's two replies, the clock and the mail
      module's environment. */
  datatype Services = Services(
    isEmail: string -> bool,
    uploads: UploadReplies,
    insert: Result<string>,
    welcomeReply: ProviderReply,
    adminReply: ProviderReply,
    now: int,
    bodies: MailBodies,
    env: Env)

  const MenuUploadFailed := "Failed to upload menu file. Please try again."
  const FaqUploadFailed := "Failed to upload FAQ file. Please try again."
  const DocsUploadFailed := "Failed to upload additional documents. Please try again."

  /** formidable's `maxFileSize`, 5 MiB. It bounds every file and, as the
      default of `maxTotalFileSize`, the files' total; a body over it makes
      `form.parse` throw. */
  const MaxFileBytes: nat := 5 * 1024 * 1024

  /** `JSON.parse(getFieldValue(fields[key]) || '[]')`; `None` when the
      text is not a JSON array of strings. */
  function ParseList(fd: FormData, key: string): (r: Option<seq<string>>)
    ensures FieldValue(fd, key).None? ==> r == Some([])
    ensures r.Some? && r.value != [] ==> FieldValue(fd, key).Some?
  {
    Decode(FieldValue(fd, key).GetOr("[]"))
  }

  /** A list that was not sent at all reads as the empty list. */
  lemma ParseListAbsent(fd: FormData, key: string)
    requires Values(fd, key) == []
    ensures ParseList(fd, key) == Some([])
  {
  }

  /** A list sent once as JSON reads back as that list. */
  lemma ParseListSent(before: FormData, key: string, xs: seq<string>, after: FormData)
    requires Values(before, key) == []
    ensures ParseList(before + [TextPart(key, Encode(xs))] + after, key) == Some(xs)
  {
    FieldValueSingle(before, key, Encode(xs), after);
    DecodeEncode(xs);
  }

  /** The `formData` object, given the parsed lists and the contact address. */
  function BuildInput(fd: FormData, cats: seq<string>, questions: seq<string>, contactEmail: Option<string>): (r: ClientInput)
    ensures r.productCategories == Some(cats) && r.commonQuestions == Some(questions)
    ensures r.contactEmail == contactEmail && r.consentCheckbox == Some(ConsentGiven(fd))
    ensures r.businessName.Some? && r.instagramHandle.Some? && r.businessType.Some?
    ensures r.businessName == Some([]) <==> FieldValue(fd, "business_name").None?
    ensures r.plan.Some? ==> Values(fd, "plan") != [] && r.plan.value == Values(fd, "plan")[0] != []
    ensures r.otherPlatforms.Some? ==> r.otherPlatforms.value != []
    ensures r.menuText.Some? ==> r.menuText.value != []
  {
    ClientInput(
      Some(FieldValue(fd, "business_name").GetOr("")),
      Some(FieldValue(fd, "instagram_handle").GetOr("")),
      FieldValue(fd, "other_platforms"),
      Some(FieldValue(fd, "business_type").GetOr("")),
      Some(cats),
      FieldValue(fd, "product_categories_other"),
      Some(questions),
      FieldValue(fd, "common_questions_other"),
      FieldValue(fd, "delivery_option"),
      FieldValue(fd, "menu_text"),
      FieldValue(fd, "plan"),
      FieldValue(fd, "credential_sharing"),
      FieldValue(fd, "has_faqs"),
      contactEmail,
      Some(ConsentGiven(fd)))
  }

  /** Extraction with the contact address the code actually builds: it is
      stored under `email`, a key the schema strips, so `contact_email` is
      absent. `None` when a list is not valid JSON (a thrown SyntaxError). */
  function ExtractAsWritten(fd: FormData): (r: Option<ClientInput>)
    ensures r.Some? ==> r.value.contactEmail.None?
  {
    match ParseList(fd, "product_categories")
    case None => None
    case Some(cats) =>
      match ParseList(fd, "common_questions")
      case None => None
      case Some(questions) => Some(BuildInput(fd, cats, questions, None))
  }

  /** Extraction with the contact address read from `contact_email`, the
      field the form sends and the schema requires. */
  function Extract(fd: FormData): (r: Option<ClientInput>)
    ensures r.Some? ==> r.value.contactEmail == Some(FieldValue(fd, "contact_email").GetOr(""))
    ensures r.Some? ==> r.value.consentCheckbox == Some(ConsentGiven(fd))
  {
    match ParseList(fd, "product_categories")
    case None => None
    case Some(cats) =>
      match ParseList(fd, "common_questions")
      case None => None
      case Some(questions) => Some(BuildInput(fd, cats, questions, Some(FieldValue(fd, "contact_email").GetOr(""))))
  }

  /** Some upload the handler attempts fails. */
  predicate UploadFails(fd: FormData, u: UploadReplies)
  {
    || (FirstFile(fd, "menu_file").Some? && u.menu.Failure?)
    || (FirstFile(fd, "faq_file").Some? && u.faq.Failure?)
    || (DocsUpTo(fd, MaxDocs) != [] && u.docs.Failure?)
  }

  /** The uploads of a request, in the order they are made. */
  function UploadEffects(fd: FormData): (fx: seq<Effect>)
    ensures |fx| <= 3 && forall i :: 0 <= i < |fx| ==> IsUpload(fx[i])
  {
    var menu := FirstFile(fd, "menu_file");
    var faq := FirstFile(fd, "faq_file");
    var docs := DocsUpTo(fd, MaxDocs);
    (if menu.Some? then [Upload("menus", "menus", menu.value)] else [])
    + (if faq.Some? then [Upload("documents", "documents", faq.value)] else [])
    + (if docs != [] then [UploadMany("documents", "documents", docs)] else [])
  }

  /** The row inserted after the uploads succeeded: pending, tagged with
      the site, a file's URL present exactly when that file was sent. */
  function RecordFor(fd: FormData, form: ClientForm, u: UploadReplies): (rec: ClientRecord)
    requires !UploadFails(fd, u)
    ensures rec.form == form && rec.paymentStatus == Pending && rec.source == Source
    ensures rec.menuFileUrl.Some? <==> FirstFile(fd, "menu_file").Some?
    ensures rec.faqFileUrl.Some? <==> FirstFile(fd, "faq_file").Some?
    ensures rec.menuFileUrl.Some? ==> u.menu == Success(rec.menuFileUrl.value)
    ensures rec.faqFileUrl.Some? ==> u.faq == Success(rec.faqFileUrl.value)
    ensures DocsUpTo(fd, MaxDocs) == [] ==> rec.additionalDocsUrls == []
  {
    ClientRecord(
      form,
      if FirstFile(fd, "menu_file").Some? then Some(u.menu.value) else None,
      if FirstFile(fd, "faq_file").Some? then Some(u.faq.value) else None,
      if DocsUpTo(fd, MaxDocs) != [] then u.docs.value else [],
      Source,
      Pending)
  }

  function SendOptionsFor(id: string): Option<SendOptions>
  {
    Some(SendOptions(true, Some(FormSubmission), Some(id)))
  }

  /** Everything after validation: uploads (the first failure answers 400),
      the insert (a failure answers 500), then the two mails, whose
      failures are caught, and 200 with the new id. */
  function AfterValidation(fd: FormData, form: ClientForm, s: Services, store: SentStore): (r: Outcome)
    ensures r.response.status in {200, 400, 500}
    ensures r.response.status == 200 ==>
              && s.insert.Success? && r.response.success && r.response.submissionId == Some(s.insert.value)
    ensures r.response.status != 200 ==> !r.response.success && r.store == store
  {
    if UploadFails(fd, s.uploads) then UploadFailure(fd, s.uploads, store)
    else Persist(fd, form, s, store, [form.contactEmail])
  }

  /** The first failed upload answers 400 with its message, after the
      uploads made up to and including it. */
  function UploadFailure(fd: FormData, u: UploadReplies, store: SentStore): (r: Outcome)
    requires UploadFails(fd, u)
    ensures r.store == store
    ensures r.response.status == 400 && !r.response.success && r.response.submissionId.None?
    ensures forall i :: 0 <= i < |r.effects| ==> IsUpload(r.effects[i])
  {
    var menu := FirstFile(fd, "menu_file");
    var faq := FirstFile(fd, "faq_file");
    var menuFx := if menu.Some? then [Upload("menus", "menus", menu.value)] else [];
    var faqFx := if faq.Some? then [Upload("documents", "documents", faq.value)] else [];
    if menu.Some? && u.menu.Failure? then
      Outcome(Response(400, false, MenuUploadFailed, None), menuFx, store)
    else if faq.Some? && u.faq.Failure? then
      Outcome(Response(400, false, FaqUploadFailed, None), menuFx + faqFx, store)
    else
      Outcome(Response(400, false, DocsUploadFailed, None), UploadEffects(fd), store)
  }

  /** The uploads succeeded: the insert (a failure answers 500), then the
      two mails, whose failures are caught, and 200 with the new id. The
      welcome mail goes to `welcomeTo`. */
  function Persist(fd: FormData, form: ClientForm, s: Services, store: SentStore, welcomeTo: seq<string>): (r: Outcome)
    requires !UploadFails(fd, s.uploads)
    ensures r.response.status == 200 <==> s.insert.Success?
    ensures r.response.status == 200 ==>
              r.response == Response(200, true, "Onboarding form submitted successfully", Some(s.insert.value))
    ensures r.response.status != 200 ==> r == Outcome(InternalError, UploadEffects(fd) + [InsertClient(RecordFor(fd, form, s.uploads))], store)
    ensures r.response.status == 200 ==>
              && |r.effects| >= |UploadEffects(fd)| + 1
              && r.effects[..|UploadEffects(fd)| + 1] == UploadEffects(fd) + [InsertClient(RecordFor(fd, form, s.uploads))]
  {
    var fx := UploadEffects(fd) + [InsertClient(RecordFor(fd, form, s.uploads))];
    match s.insert
    case Failure(_) => Outcome(InternalError, fx, store)
    case Success(id) =>
      var (mails, store') := Mails(form, s, id, store, welcomeTo);
      Outcome(Response(200, true, "Onboarding form submitted successfully", Some(id)), fx + mails, store')
  }

  /** The two mails after a successful insert, with duplicate prevention as
      form submissions keyed by the new id: the welcome mail to
      `welcomeTo`, then the notification to the administrator. */
  function Mails(form: ClientForm, s: Services, id: string, store: SentStore, welcomeTo: seq<string>): (seq<Effect>, SentStore)
  {
    var welcome := SendEmail(s.env, store, EmailTemplate(welcomeTo, WelcomeSubject, s.bodies.welcome), SendOptionsFor(id), s.now, s.welcomeReply);
    var admin := SendEmail(s.env, welcome.store, AdminNotificationEmail(s.env, form.businessName, PlanName(form.plan), s.bodies.admin),
                           SendOptionsFor(id), s.now, s.adminReply);
    (Mailed(welcome) + Mailed(admin), admin.store)
  }

  /** The handler after extraction: a list that is not JSON answers 500, a
      validation failure 400, both before anything else happens. */
  function AfterExtraction(fd: FormData, input: Option<ClientInput>, s: Services, store: SentStore): (r: Outcome)
    ensures r.response.status in {200, 400, 500}
    ensures r.response.status == 200 ==>
              && s.insert.Success? && r.response.success && r.response.submissionId == Some(s.insert.value)
    ensures r.response.status != 200 ==> !r.response.success && r.store == store
  {
    match input
    case None => Outcome(InternalError, [], store)
    case Some(i) =>
      match ValidateClient(i, s.isEmail)
      case Invalid(_) => Outcome(InvalidFormData, [], store)
      case Valid(form) => AfterValidation(fd, form, s, store)
  }

  /** The handler as written: it never answers 200 and never does anything,
      because validation always fails on the missing contact address. */
  function HandleAsWritten(req: Request, s: Services, store: SentStore): (r: Outcome)
    ensures r.response.status in {400, 405, 500}
    ensures r.response.status == 405 <==> req.verb != "POST"
    ensures r.effects == [] && r.store == store && !r.response.success
  {
    if req.verb != "POST" then Outcome(MethodNotAllowed, [], store)
    else if req.form.None? || FileBytes(req.form.value) > MaxFileBytes then Outcome(InternalError, [], store)
    else AfterExtraction(req.form.value, ExtractAsWritten(req.form.value), s, store)
  }

  /** The handler with the contact address read from `contact_email`. */
  function Handle(req: Request, s: Services, store: SentStore): (r: Outcome)
    ensures r.response.status in {200, 400, 405, 500}
    ensures r.response.status == 200 ==>
              && req.verb == "POST" && req.form.Some? && FileBytes(req.form.value) <= MaxFileBytes
              && s.insert.Success? && r.response.success && r.response.submissionId == Some(s.insert.value)
    ensures r.response.status != 200 ==> !r.response.success && r.store == store
  {
    if req.verb != "POST" then Outcome(MethodNotAllowed, [], store)
    else if req.form.None? || FileBytes(req.form.value) > MaxFileBytes then Outcome(InternalError, [], store)
    else AfterExtraction(req.form.value, Extract(req.form.value), s, store)
  }

  // ---------------------------------------------------------------- properties

  /** As written, no POST ever gets past validation: every request whose body
      parses is answered 400 (or 500 for a list that is not JSON, or files
      over the size limit), and nothing is uploaded, stored or mailed. */
  lemma AsWrittenAlwaysRejects(req: Request, s: Services, store: SentStore)
    requires req.verb == "POST" && req.form.Some?
    ensures var r := HandleAsWritten(req, s, store);
      && r.response.status in {400, 500}
      && r.effects == [] && r.store == store
      && (ExtractAsWritten(req.form.value).Some? && FileBytes(req.form.value) <= MaxFileBytes ==>
            r.response == InvalidFormData)
  {
    var fd := req.form.value;
    match ExtractAsWritten(fd)
    case None =>
    case Some(i) =>
      ContactEmailRequired(i, s.isEmail);
  }

  /** Anything but POST is answered 405 and changes nothing. */
  lemma NonPostRejected(req: Request, s: Services, store: SentStore)
    requires req.verb != "POST"
    ensures Handle(req, s, store) == Outcome(MethodNotAllowed, [], store)
    ensures HandleAsWritten(req, s, store) == Outcome(MethodNotAllowed, [], store)
  {
  }

  /** A submission the schema rejects is answered 400 with nothing uploaded,
      stored or mailed, unless its files are over the size limit, which
      answers 500 first. */
  lemma InvalidHasNoEffects(req: Request, s: Services, store: SentStore)
    requires req.verb == "POST" && req.form.Some?
    requires Extract(req.form.value).Some? && ValidateClient(Extract(req.form.value).value, s.isEmail).Invalid?
    ensures FileBytes(req.form.value) <= MaxFileBytes ==> Handle(req, s, store) == Outcome(InvalidFormData, [], store)
    ensures FileBytes(req.form.value) > MaxFileBytes ==> Handle(req, s, store) == Outcome(InternalError, [], store)
  {
  }

  /** A body whose files together exceed 5 MiB is answered 500 before
      anything is read, and so is one with any single file over 5 MiB. */
  lemma OversizedBodyFails(req: Request, s: Services, store: SentStore, i: nat)
    requires req.verb == "POST" && req.form.Some?
    requires i < |req.form.value| && req.form.value[i].FilePart? && req.form.value[i].file.size > MaxFileBytes
    ensures FileBytes(req.form.value) > MaxFileBytes
    ensures Handle(req, s, store) == Outcome(InternalError, [], store)
    ensures HandleAsWritten(req, s, store) == Outcome(InternalError, [], store)
  {
  }

  /** A failed upload answers 400: nothing is inserted, no mail goes out, and
      the uploads made are a prefix of the ones a success would make. */
  lemma UploadFailureAborts(fd: FormData, form: ClientForm, s: Services, store: SentStore)
    requires UploadFails(fd, s.uploads)
    ensures var r := AfterValidation(fd, form, s, store);
      && r.response.status == 400 && NothingPersisted(r.effects)
      && r.effects <= UploadEffects(fd) && r.store == store
  {
  }

  /** A successful submission inserts exactly one row: pending, tagged with
      the site, holding the validated form and exactly the URLs the uploads
      returned, and it follows the uploads. */
  lemma SuccessRecord(fd: FormData, form: ClientForm, s: Services, store: SentStore)
    requires AfterValidation(fd, form, s, store).response.status == 200
    ensures !UploadFails(fd, s.uploads)
    ensures var r := AfterValidation(fd, form, s, store);
      var rec := RecordFor(fd, form, s.uploads);
      && r.effects[..|UploadEffects(fd)| + 1] == UploadEffects(fd) + [InsertClient(rec)]
      && rec.paymentStatus == Pending && rec.source == Source && rec.form == form
      && (FirstFile(fd, "menu_file").Some? ==> rec.menuFileUrl == Some(s.uploads.menu.value))
      && (FirstFile(fd, "menu_file").None? ==> rec.menuFileUrl.None?)
      && (DocsUpTo(fd, MaxDocs) != [] ==> rec.additionalDocsUrls == s.uploads.docs.value)
      && (DocsUpTo(fd, MaxDocs) == [] ==> rec.additionalDocsUrls == [])
  {
    var r := AfterValidation(fd, form, s, store);
    var fx := UploadEffects(fd) + [InsertClient(RecordFor(fd, form, s.uploads))];
    assert r.effects[..|fx|] == fx;
  }

  /** The mail provider's replies never change the answer, nor what was
      uploaded and inserted: failures of either mail are swallowed. */
  lemma MailRepliesDoNotMatter(fd: FormData, form: ClientForm, s: Services, store: SentStore,
                               welcome: ProviderReply, admin: ProviderReply)
    ensures var r1 := AfterValidation(fd, form, s, store);
      var r2 := AfterValidation(fd, form, s.(welcomeReply := welcome, adminReply := admin), store);
      && r1.response == r2.response
      && (r1.response.status == 200 ==> r1.effects[..|UploadEffects(fd)| + 1] == r2.effects[..|UploadEffects(fd)| + 1])
      && r1.store == r2.store
  {
    if !UploadFails(fd, s.uploads) && s.insert.Success? {
      PersistStoreIgnoresReplies(fd, form, s, store, welcome, admin);
    }
  }

  /** The duplicate store after the two mails does not depend on the
      provider's replies: keys are marked before the provider is called. */
  lemma PersistStoreIgnoresReplies(fd: FormData, form: ClientForm, s: Services, store: SentStore,
                                   welcome: ProviderReply, admin: ProviderReply)
    requires !UploadFails(fd, s.uploads) && s.insert.Success?
    ensures Persist(fd, form, s, store, [form.contactEmail]).store
         == Persist(fd, form, s.(welcomeReply := welcome, adminReply := admin), store, [form.contactEmail]).store
  {
    MailsStoreIgnoresReplies(form, s, s.insert.value, store, [form.contactEmail], welcome, admin);
  }

  /** Keys are marked before the provider is called, so the store the two
      mails leave behind is the same whatever the provider replies. */
  lemma MailsStoreIgnoresReplies(form: ClientForm, s: Services, id: string, store: SentStore, welcomeTo: seq<string>,
                                 welcome: ProviderReply, admin: ProviderReply)
    ensures Mails(form, s, id, store, welcomeTo).1 == Mails(form, s.(welcomeReply := welcome, adminReply := admin), id, store, welcomeTo).1
  {
    var w := EmailTemplate(welcomeTo, WelcomeSubject, s.bodies.welcome);
    var w1 := SendEmail(s.env, store, w, SendOptionsFor(id), s.now, s.welcomeReply);
    var w2 := SendEmail(s.env, store, w, SendOptionsFor(id), s.now, welcome);
    assert w1.store == w2.store;
  }

  /** Both mails are sent with duplicate prevention as form submissions,
      keyed by the new id; on a store without recent mail the welcome mail
      goes to the provider, addressed to the contact address. */
  lemma WelcomeMailSent(fd: FormData, form: ClientForm, s: Services)
    requires !UploadFails(fd, s.uploads) && s.insert.Success?
    ensures var r := AfterValidation(fd, form, s, map[]);
      var fx := UploadEffects(fd) + [InsertClient(RecordFor(fd, form, s.uploads))];
      && |r.effects| > |fx|
      && r.effects[|fx|].Mail?
      && r.effects[|fx|].message.to == [form.contactEmail]
      && r.effects[|fx|].message.subject == WelcomeSubject
      && EmailKey(form.contactEmail, WelcomeSubject, FormSubmission, Some(s.insert.value)) in r.store
  {
    var id := s.insert.value;
    var t := EmailTemplate([form.contactEmail], WelcomeSubject, s.bodies.welcome);
    var w := SendEmail(s.env, map[], t, SendOptionsFor(id), s.now, s.welcomeReply);
    var k := EmailKey(form.contactEmail, WelcomeSubject, FormSubmission, Some(id));
    assert KeyFor(t, SendOptionsFor(id)) == k;
    assert k in w.store && w.store[k] == s.now;
    var a := SendEmail(s.env, w.store, AdminNotificationEmail(s.env, form.businessName, PlanName(form.plan), s.bodies.admin),
                       SendOptionsFor(id), s.now, s.adminReply);
    assert k in a.store;
  }

  /** As written the welcome mail is addressed to `submission.email`. The
      row the insert returns has `contact_email` and no `email`, so the
      recipient is `undefined`, modelled as no recipient: on a store
      without recent mail the welcome mail goes out without the contact
      address, keyed under the text "undefined", and the answer is still
      200. */
  lemma WelcomeAsWrittenUnaddressed(fd: FormData, form: ClientForm, s: Services)
    requires !UploadFails(fd, s.uploads) && s.insert.Success?
    ensures var r := Persist(fd, form, s, map[], []);
      var fx := UploadEffects(fd) + [InsertClient(RecordFor(fd, form, s.uploads))];
      && r.response.status == 200
      && |r.effects| > |fx|
      && r.effects[|fx|] == Mail(Outgoing(FromEmail(s.env), [], WelcomeSubject, s.bodies.welcome, []))
      && form.contactEmail !in r.effects[|fx|].message.to
      && EmailKey("undefined", WelcomeSubject, FormSubmission, Some(s.insert.value)) in r.store
  {
    var id := s.insert.value;
    var t := EmailTemplate([], WelcomeSubject, s.bodies.welcome);
    var w := SendEmail(s.env, map[], t, SendOptionsFor(id), s.now, s.welcomeReply);
    var k := EmailKey("undefined", WelcomeSubject, FormSubmission, Some(id));
    assert KeyFor(t, SendOptionsFor(id)) == k;
    assert k in w.store;
    var a := SendEmail(s.env, w.store, AdminNotificationEmail(s.env, form.businessName, PlanName(form.plan), s.bodies.admin),
                       SendOptionsFor(id), s.now, s.adminReply);
    assert k in a.store;
  }
}
