/** The legacy `/api/submit-form` handler: the multipart body's first value
    per field, the legacy schema, the `file_url` choice (the file is not
    stored anywhere), the insert, and two mails without duplicate
    suppression whose failures are caught. */
module SubmitForm {

  import opened Wrappers
  import opened Text
  import opened Plans
  import opened Validations
  import opened FormFields
  import opened EmailDedupe
  import opened EmailTemplates
  import opened Effects
  import CO = ClientOnboarding

  /** Everything the handler consults outside itself: the e-mail format
      check, the name formidable gave the stored temporary file, the
      insert's new id (or its failure), the provider's two replies, the
      clock and the mails' HTML. */
  datatype LegacyServices = LegacyServices(
    isEmail: string -> bool,
    stagedName: string,
    insert: Result<string>,
    welcomeReply: ProviderReply,
    adminReply: ProviderReply,
    now: int,
    bodies: MailBodies,
    env: Env)

  /** formidable's `maxFileSize`: 10 MiB. */
  const MaxUploadBytes: nat := 10 * 1024 * 1024

  const SuccessMessage := "Form submitted successfully"

  /** `Array.isArray(fields.k) ? fields.k[0] : fields.k` for each schema
      field: the first value, an empty text included. */
  function Extract(fd: FormData): (i: LegacyInput)
    ensures i.name == FirstValue(fd, "name") && i.email == FirstValue(fd, "email")
    ensures i.plan == FirstValue(fd, "plan") && i.instagramLogin == FirstValue(fd, "instagram_login")
  {
    LegacyInput(
      FirstValue(fd, "name"), FirstValue(fd, "email"), FirstValue(fd, "phone"), FirstValue(fd, "company"),
      FirstValue(fd, "plan"),
      FirstValue(fd, "instagram_login"), FirstValue(fd, "facebook_login"), FirstValue(fd, "twitter_login"),
      FirstValue(fd, "linkedin_login"), FirstValue(fd, "tiktok_login"),
      FirstValue(fd, "login_sharing_preference"))
  }

  /** `uploadedFile.newFilename || uploadedFile.originalFilename || undefined`,
      only when a file was sent. */
  function FileUrl(file: Option<FileInfo>, stagedName: string): (url: Option<string>)
    ensures file.None? ==> url.None?
    ensures url.Some? ==> url.value != [] && (url.value == stagedName || url.value == file.value.name)
    ensures file.Some? && stagedName != [] ==> url == Some(stagedName)
    ensures file.Some? && stagedName == [] ==> url == (if file.value.name == [] then None else Some(file.value.name))
  {
    if file.None? then None
    else if stagedName != [] then Some(stagedName)
    else if file.value.name != [] then Some(file.value.name)
    else None
  }

  /** The row the handler asks to insert. */
  function RecordFor(fd: FormData, form: LegacyForm, s: LegacyServices): (rec: LegacyRecord)
    ensures rec.form == form && rec.source == Source && rec.paymentStatus == Pending
    ensures FirstFile(fd, "file").None? ==> rec.fileUrl.None?
    ensures rec.fileUrl.Some? ==> rec.fileUrl.value != []
  {
    LegacyRecord(form, FileUrl(FirstFile(fd, "file"), s.stagedName), Source, Pending)
  }

  /** Everything after validation: the insert (a failure answers 500),
      the two mails, then 200 with the new id. */
  function AfterValidation(fd: FormData, form: LegacyForm, s: LegacyServices, store: SentStore): (r: Outcome)
    ensures |r.effects| >= 1 && r.effects[0] == InsertLegacy(RecordFor(fd, form, s))
    ensures r.response.status == 200 <==> s.insert.Success?
    ensures s.insert.Failure? ==> r == Outcome(InternalError, [InsertLegacy(RecordFor(fd, form, s))], store)
    ensures s.insert.Success? ==> r.response == Response(200, true, SuccessMessage, Some(s.insert.value))
    ensures forall i :: 0 <= i < |r.effects| ==> !IsUpload(r.effects[i])
  {
    var fx := [InsertLegacy(RecordFor(fd, form, s))];
    match s.insert
    case Failure(_) => Outcome(InternalError, fx, store)
    case Success(id) =>
      var welcome := SendEmail(s.env, store, WelcomeEmail(form.email, s.bodies.welcome), None, s.now, s.welcomeReply);
      var admin := SendEmail(s.env, welcome.store, AdminNotificationEmail(s.env, form.name, PlanName(form.plan), s.bodies.admin),
                             None, s.now, s.adminReply);
      Outcome(Response(200, true, SuccessMessage, Some(id)), fx + Mailed(welcome) + Mailed(admin), admin.store)
  }

  /** `handler`: 405 for anything but POST; a body formidable cannot parse
      (including files over its size limit) answers 500; a schema
      violation 400 with nothing done. */
  function Handle(req: CO.Request, s: LegacyServices, store: SentStore): (r: Outcome)
    ensures r.response.status in {200, 400, 405, 500}
    ensures r.response.status == 200 ==>
              && req.verb == "POST" && req.form.Some? && s.insert.Success?
              && r.response == Response(200, true, SuccessMessage, Some(s.insert.value))
    ensures r.response.status != 200 ==> !r.response.success && r.store == store
    ensures forall i :: 0 <= i < |r.effects| ==> !IsUpload(r.effects[i])
  {
    if req.verb != "POST" then Outcome(MethodNotAllowed, [], store)
    else if req.form.None? || FileBytes(req.form.value) > MaxUploadBytes then Outcome(InternalError, [], store)
    else
      match ValidateLegacy(Extract(req.form.value), s.isEmail)
      case Invalid(_) => Outcome(InvalidFormData, [], store)
      case Valid(form) => AfterValidation(req.form.value, form, s, store)
  }

  // ---------------------------------------------------------------- properties

  /** Anything but POST is answered 405 and changes nothing. */
  lemma NonPostRejected(req: CO.Request, s: LegacyServices, store: SentStore)
    requires req.verb != "POST"
    ensures Handle(req, s, store) == Outcome(MethodNotAllowed, [], store)
  {
  }

  /** A body that fails the schema is answered 400: nothing inserted, no
      mail, the dedupe store untouched. */
  lemma InvalidHasNoEffects(fd: FormData, s: LegacyServices, store: SentStore)
    requires FileBytes(fd) <= MaxUploadBytes
    requires ValidateLegacy(Extract(fd), s.isEmail).Invalid?
    ensures Handle(CO.Request("POST", Some(fd)), s, store) == Outcome(InvalidFormData, [], store)
  {
  }

  /** A starter submission whose Instagram login is missing or blank never
      reaches the database. */
  lemma StarterWithoutInstagramRejected(fd: FormData, s: LegacyServices, store: SentStore)
    requires FileBytes(fd) <= MaxUploadBytes
    requires FirstValue(fd, "plan") == Some("starter")
    requires FirstValue(fd, "instagram_login").None? || Blank(FirstValue(fd, "instagram_login").value)
    ensures Handle(CO.Request("POST", Some(fd)), s, store) == Outcome(InvalidFormData, [], store)
  {
    StarterNeedsInstagram(Extract(fd), s.isEmail);
  }

  /** A failed insert is answered 500 after the insert attempt alone: no
      mail goes out. */
  lemma InsertFailureIsInternalError(fd: FormData, s: LegacyServices, store: SentStore)
    requires FileBytes(fd) <= MaxUploadBytes
    requires ValidateLegacy(Extract(fd), s.isEmail).Valid? && s.insert.Failure?
    ensures var r := Handle(CO.Request("POST", Some(fd)), s, store);
      && r.response == InternalError && r.store == store
      && forall e :: e in r.effects ==> !e.Mail?
  {
    HandleValid(fd, s, store);
  }

  /** A body within the size limit that passes the schema goes on to the
      insert and the mails. */
  lemma HandleValid(fd: FormData, s: LegacyServices, store: SentStore)
    requires FileBytes(fd) <= MaxUploadBytes
    requires ValidateLegacy(Extract(fd), s.isEmail).Valid?
    ensures Handle(CO.Request("POST", Some(fd)), s, store)
         == AfterValidation(fd, ValidateLegacy(Extract(fd), s.isEmail).value, s, store)
  {
    var v := ValidateLegacy(Extract(fd), s.isEmail);
    assert v == Valid(v.value);
  }

  /** A 200 comes only from a body within the size limit that passes the
      schema. */
  lemma SuccessIsValid(fd: FormData, s: LegacyServices, store: SentStore)
    requires Handle(CO.Request("POST", Some(fd)), s, store).response.status == 200
    ensures FileBytes(fd) <= MaxUploadBytes && ValidateLegacy(Extract(fd), s.isEmail).Valid?
  {
  }

  /** After a successful insert both mails are handed to the provider: the
      welcome mail to the submitter, then the notification to the
      administrator. */
  lemma MailsAfterInsert(fd: FormData, form: LegacyForm, s: LegacyServices, store: SentStore)
    requires s.insert.Success?
    ensures var r := AfterValidation(fd, form, s, store);
      && |r.effects| == 3
      && r.effects[1] == Mail(Outgoing(FromEmail(s.env), [form.email], WelcomeSubject, s.bodies.welcome, []))
      && r.effects[2].Mail? && r.effects[2].message.to == [AdminEmail(s.env)]
  {
    var welcome := SendEmail(s.env, store, WelcomeEmail(form.email, s.bodies.welcome), None, s.now, s.welcomeReply);
    WithoutDedupeAlwaysSends(s.env, store, WelcomeEmail(form.email, s.bodies.welcome), None, s.now, s.welcomeReply);
    WithoutDedupeAlwaysSends(s.env, welcome.store, AdminNotificationEmail(s.env, form.name, PlanName(form.plan), s.bodies.admin),
                             None, s.now, s.adminReply);
  }

  /** On success the inserted row is the validated form with the chosen
      `file_url`, source `ai-chatflows.com` and payment pending, and both
      mails are handed to the provider: the welcome mail to the submitter
      and the notification to the administrator. */
  lemma SuccessRecordAndMails(fd: FormData, s: LegacyServices, store: SentStore)
    requires Handle(CO.Request("POST", Some(fd)), s, store).response.status == 200
    ensures ValidateLegacy(Extract(fd), s.isEmail).Valid?
    ensures var form := ValidateLegacy(Extract(fd), s.isEmail).value;
      var r := Handle(CO.Request("POST", Some(fd)), s, store);
      && r.effects[0] == InsertLegacy(LegacyRecord(form, FileUrl(FirstFile(fd, "file"), s.stagedName), Source, Pending))
      && |r.effects| == 3
      && r.effects[1] == Mail(Outgoing(FromEmail(s.env), [form.email], WelcomeSubject, s.bodies.welcome, []))
      && r.effects[2].Mail? && r.effects[2].message.to == [AdminEmail(s.env)]
  {
    SuccessIsValid(fd, s, store);
    HandleValid(fd, s, store);
    MailsAfterInsert(fd, ValidateLegacy(Extract(fd), s.isEmail).value, s, store);
  }

  /** The provider's replies never change the answer nor what is inserted:
      a failed mail is only logged. */
  lemma MailRepliesDoNotMatter(fd: FormData, s: LegacyServices, store: SentStore, w: ProviderReply, a: ProviderReply)
    ensures var r1 := Handle(CO.Request("POST", Some(fd)), s, store);
      var r2 := Handle(CO.Request("POST", Some(fd)), s.(welcomeReply := w, adminReply := a), store);
      && r1.response == r2.response
      && (r1.effects == [] <==> r2.effects == [])
      && (r1.effects != [] ==> r1.effects[0] == r2.effects[0])
  {
    var s2 := s.(welcomeReply := w, adminReply := a);
    if FileBytes(fd) <= MaxUploadBytes && ValidateLegacy(Extract(fd), s.isEmail).Valid? {
      HandleValid(fd, s, store);
      HandleValid(fd, s2, store);
      assert RecordFor(fd, ValidateLegacy(Extract(fd), s.isEmail).value, s)
          == RecordFor(fd, ValidateLegacy(Extract(fd), s.isEmail).value, s2);
    }
  }
}
