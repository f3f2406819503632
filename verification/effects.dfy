/** What the API handlers answer and what they do to the outside world: the
    JSON response, and the ordered list of uploads, inserts and mails a
    request caused. Uploads and inserts are recorded when attempted, mails
    when handed to the provider. */
module Effects {

  import opened Wrappers
  import opened Validations
  import opened EmailDedupe

  /** The JSON body's `success`, `message` and `submissionId`. */
  datatype Response = Response(status: nat, success: bool, message: string, submissionId: Option<string>)

  const MethodNotAllowed := Response(405, false, "Method not allowed", None)
  const InvalidFormData := Response(400, false, "Invalid form data", None)
  const InternalError := Response(500, false, "Internal server error", None)

  datatype PaymentStatus = Pending | Completed

  /** The value every handler writes into `source`. */
  const Source := "ai-chatflows.com"

  /** The row `createClientOnboardingSubmission` is asked to insert. */
  datatype ClientRecord = ClientRecord(
    form: ClientForm,
    menuFileUrl: Option<string>,
    faqFileUrl: Option<string>,
    additionalDocsUrls: seq<string>,
    source: string,
    paymentStatus: PaymentStatus)

  /** The row `createFormSubmission` is asked to insert. */
  datatype LegacyRecord = LegacyRecord(
    form: LegacyForm,
    fileUrl: Option<string>,
    source: string,
    paymentStatus: PaymentStatus)

  datatype Effect =
    | Upload(bucket: string, folder: string, file: FileInfo)
    | UploadMany(bucket: string, folder: string, files: seq<FileInfo>)
    | InsertClient(client: ClientRecord)
    | InsertLegacy(legacy: LegacyRecord)
    | Mail(message: Outgoing)

  datatype Outcome = Outcome(response: Response, effects: seq<Effect>, store: SentStore)

  /** The mail a send handed to the provider, if any. */
  function Mailed(r: SendResult): (es: seq<Effect>)
    ensures |es| <= 1
    ensures r.request.Some? ==> es == [Mail(r.request.value)]
    ensures r.request.None? ==> es == []
  {
    if r.request.Some? then [Mail(r.request.value)] else []
  }

  predicate IsInsert(e: Effect)
  {
    e.InsertClient? || e.InsertLegacy?
  }

  predicate IsUpload(e: Effect)
  {
    e.Upload? || e.UploadMany?
  }

  /** Nothing was written to the database and no mail went out. */
  predicate NothingPersisted(es: seq<Effect>)
  {
    forall i :: 0 <= i < |es| ==> !IsInsert(es[i]) && !es[i].Mail?
  }

  /** The upload results of the server-side storage helpers, in the order
      the handlers call them: the menu file, the FAQ file, the documents. */
  datatype UploadReplies = UploadReplies(menu: Result<string>, faq: Result<string>, docs: Result<seq<string>>)

  /** The rendered HTML of the two mails a submission sends (the templates'
      markup is not part of this model). */
  datatype MailBodies = MailBodies(welcome: string, admin: string)
}
