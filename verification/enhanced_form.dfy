/** The enhanced onboarding page's submit, and what its endpoint makes of
    it. As written the page appends each list element under the list's key
    and every additional document under the single key `additional_docs`,
    while the endpoint JSON-parses the first value of each list key and
    collects documents only from `additional_docs_0` … `additional_docs_9`.
    `EachValue` models the page as written; `JsonText` sends each list as
    one JSON text and numbers the documents, and with it the endpoint reads
    back every field. */
module EnhancedOnboardingForm {

  import opened Wrappers
  import opened Text
  import opened JsonArray
  import opened Plans
  import opened Validations
  import opened FormFields
  import opened EmailDedupe
  import opened Effects
  import opened Checkout
  import opened EnhancedOnboarding
  import CO = ClientOnboarding

  /** The page's validated form values. */
  datatype EnhancedValues = EnhancedValues(
    businessName: string,
    email: string,
    instagramHandle: string,
    otherPlatforms: Option<string>,
    businessType: string,
    businessTypeOther: Option<string>,
    productCategories: seq<string>,
    productCategoriesOther: Option<string>,
    customerQuestions: seq<string>,
    customerQuestionsOther: Option<string>,
    deliveryPickup: DeliveryOption,
    deliveryOptions: Option<seq<string>>,
    deliveryOptionsOther: Option<string>,
    pickupOptions: Option<seq<string>>,
    pickupOptionsOther: Option<string>,
    deliveryNotes: Option<string>,
    menuDescription: Option<string>,
    plan: Plan,
    credentialSharing: CredentialSharing,
    credentialsDirect: Option<string>,
    hasFaqs: HasFaqs,
    faqContent: Option<string>,
    consentCheckbox: bool,
    menuFile: Option<FileInfo>,
    faqFile: Option<FileInfo>,
    additionalDocs: seq<FileInfo>)

  /** How lists and documents are put into the form data. */
  datatype ListEncoding =
    | EachValue   // the page as written: one part per element, documents under one key
    | JsonText    // one JSON text per list, document `i` under `additional_docs_i`

  /** `getProductCategories`: no categories until a business type other
      than "other" is chosen; then that type's entry of the catalogue, if
      it has one. */
  function ProductCategories(businessType: string, catalog: map<string, seq<string>>): (cats: seq<string>)
    ensures businessType == "" || businessType == "other" ==> cats == []
    ensures cats != [] ==> businessType in catalog && cats == catalog[businessType]
    ensures businessType != "" && businessType != "other" && businessType in catalog ==> cats == catalog[businessType]
  {
    if businessType == "" || businessType == "other" then []
    else if businessType in catalog then catalog[businessType]
    else []
  }

  // ---------------------------------------------------------------- serialisation

  /** The number of text fields the page appends. */
  const FieldCount: nat := 23

  /** The text fields' keys, in the order they are appended. */
  function KeyAt(j: nat): string
    requires j < FieldCount
  {
    match j
    case 0 => "business_name"
    case 1 => "email"
    case 2 => "instagram_handle"
    case 3 => "other_platforms"
    case 4 => "business_type"
    case 5 => "business_type_other"
    case 6 => "product_categories"
    case 7 => "product_categories_other"
    case 8 => "customer_questions"
    case 9 => "customer_questions_other"
    case 10 => "delivery_pickup"
    case 11 => "delivery_options"
    case 12 => "delivery_options_other"
    case 13 => "pickup_options"
    case 14 => "pickup_options_other"
    case 15 => "delivery_notes"
    case 16 => "menu_description"
    case 17 => "plan"
    case 18 => "credential_sharing"
    case 19 => "credentials_direct"
    case 20 => "has_faqs"
    case 21 => "faq_content"
    case _ => "consent_checkbox"
  }

  /** No two fields share a key. */
  lemma KeysDistinct(j: nat)
    requires j < FieldCount
    ensures forall i :: 0 <= i < FieldCount && i != j ==> KeyAt(i) != KeyAt(j)
  {
    if j < 8 {
      KeysDistinctLow(j);
    } else if j < 16 {
      KeysDistinctMiddle(j);
    } else {
      KeysDistinctHigh(j);
    }
  }

  // Proof helpers for `KeysDistinct`: the pairwise comparison of the keys,
  // split by the position of `j` only to keep each proof obligation small.

  lemma KeysDistinctLow(j: nat)
    requires j < 8
    ensures forall i :: 0 <= i < FieldCount && i != j ==> KeyAt(i) != KeyAt(j)
  {
  }

  lemma KeysDistinctMiddle(j: nat)
    requires 8 <= j < 16
    ensures forall i :: 0 <= i < FieldCount && i != j ==> KeyAt(i) != KeyAt(j)
  {
  }

  lemma KeysDistinctHigh(j: nat)
    requires 16 <= j < FieldCount
    ensures forall i :: 0 <= i < FieldCount && i != j ==> KeyAt(i) != KeyAt(j)
  {
  }

  function ListValues(xs: seq<string>, enc: ListEncoding): seq<string>
  {
    match enc
    case EachValue => xs
    case JsonText => [Encode(xs)]
  }

  /** A list appended only when it is defined. */
  function OptListValues(o: Option<seq<string>>, enc: ListEncoding): seq<string>
  {
    if o.Some? then ListValues(o.value, enc) else []
  }

  /** The values appended under field `j`. */
  function ValuesAt(v: EnhancedValues, j: nat, enc: ListEncoding): seq<string>
    requires j < FieldCount
  {
    match j
    case 0 => [v.businessName]
    case 1 => [v.email]
    case 2 => [v.instagramHandle]
    case 3 => IfTruthy(v.otherPlatforms)
    case 4 => [v.businessType]
    case 5 => IfTruthy(v.businessTypeOther)
    case 6 => ListValues(v.productCategories, enc)
    case 7 => IfTruthy(v.productCategoriesOther)
    case 8 => ListValues(v.customerQuestions, enc)
    case 9 => IfTruthy(v.customerQuestionsOther)
    case 10 => [DeliveryOptionName(v.deliveryPickup)]
    case 11 => OptListValues(v.deliveryOptions, enc)
    case 12 => IfTruthy(v.deliveryOptionsOther)
    case 13 => OptListValues(v.pickupOptions, enc)
    case 14 => IfTruthy(v.pickupOptionsOther)
    case 15 => IfTruthy(v.deliveryNotes)
    case 16 => IfTruthy(v.menuDescription)
    case 17 => [PlanName(v.plan)]
    case 18 => [CredentialSharingName(v.credentialSharing)]
    case 19 => IfTruthy(v.credentialsDirect)
    case 20 => [HasFaqsName(v.hasFaqs)]
    case 21 => IfTruthy(v.faqContent)
    case _ => [BoolText(v.consentCheckbox)]
  }

  function Fields(v: EnhancedValues, enc: ListEncoding): (fields: seq<(string, seq<string>)>)
    ensures |fields| == FieldCount
    ensures forall j :: 0 <= j < FieldCount ==> fields[j] == (KeyAt(j), ValuesAt(v, j, enc))
  {
    seq(FieldCount, j requires 0 <= j < FieldCount => (KeyAt(j), ValuesAt(v, j, enc)))
  }

  /** Every document under the one key `additional_docs`. */
  function SameKeyDocs(docs: seq<FileInfo>): (fd: FormData)
    ensures |fd| == |docs|
    ensures forall i :: 0 <= i < |fd| ==> fd[i] == FilePart("additional_docs", docs[i])
  {
    seq(|docs|, i requires 0 <= i < |docs| => FilePart("additional_docs", docs[i]))
  }

  function FileParts(v: EnhancedValues, enc: ListEncoding): (fd: FormData)
    ensures forall i :: 0 <= i < |fd| ==> fd[i].FilePart?
  {
    (if v.menuFile.Some? then [FilePart("menu_file", v.menuFile.value)] else [])
    + (if v.faqFile.Some? then [FilePart("faq_file", v.faqFile.value)] else [])
    + (match enc case EachValue => SameKeyDocs(v.additionalDocs) case JsonText => IndexedDocs(v.additionalDocs, 0))
  }

  /** `onSubmit`'s FormData. */
  function Serialise(v: EnhancedValues, enc: ListEncoding): FormData
  {
    PartsOf(Fields(v, enc)) + FileParts(v, enc)
  }

  /** Each text key reads back exactly the values appended under it. */
  lemma ValuesReadBack(v: EnhancedValues, enc: ListEncoding, j: nat)
    requires j < FieldCount
    ensures Values(Serialise(v, enc), KeyAt(j)) == ValuesAt(v, j, enc)
  {
    KeysDistinct(j);
    ValuesOfPairs(Fields(v, enc), j);
    ValuesAppend(PartsOf(Fields(v, enc)), FileParts(v, enc), KeyAt(j));
    NoValuesInFiles(FileParts(v, enc), KeyAt(j));
  }

  // ---------------------------------------------------------------- reading one field

  lemma RequiredRead(fd: FormData, key: string, s: string)
    requires Values(fd, key) == [s]
    ensures FieldValue(fd, key).GetOr("") == s
  {
  }

  lemma OptionalRead(fd: FormData, key: string, o: Option<string>)
    requires Values(fd, key) == IfTruthy(o)
    ensures FieldValue(fd, key) == NonEmpty(o)
  {
  }

  lemma NamedRead(fd: FormData, key: string, s: string)
    requires Values(fd, key) == [s] && s != []
    ensures FieldValue(fd, key) == Some(s)
  {
  }

  lemma ListRead(fd: FormData, key: string, xs: seq<string>)
    requires Values(fd, key) == ListValues(xs, JsonText)
    ensures CO.ParseList(fd, key) == Some(xs)
  {
    assert Encode(xs)[0] == '[';
    DecodeEncode(xs);
  }

  lemma OptionalListRead(fd: FormData, key: string, o: Option<seq<string>>)
    requires Values(fd, key) == OptListValues(o, JsonText)
    ensures CO.ParseList(fd, key) == Some(o.GetOr([]))
  {
    if o.Some? {
      ListRead(fd, key, o.value);
    }
  }

  lemma ConsentRead(fd: FormData, key: string, b: bool)
    requires key == "consent_checkbox" && Values(fd, key) == [BoolText(b)]
    ensures ConsentGiven(fd) == b
  {
  }

  // ---------------------------------------------------------------- the round trip

  /** Every text key of `fd` carries what the corrected page appends. */
  predicate AllRead(fd: FormData, v: EnhancedValues)
  {
    forall j :: 0 <= j < FieldCount ==> Values(fd, KeyAt(j)) == ValuesAt(v, j, JsonText)
  }

  /** The business name and the contact address. */
  lemma ReadIdentity(fd: FormData, v: EnhancedValues)
    requires AllRead(fd, v)
    ensures FieldValue(fd, "business_name").GetOr("") == v.businessName
    ensures FieldValue(fd, "email").GetOr("") == v.email
  {
    assert Values(fd, KeyAt(0)) == ValuesAt(v, 0, JsonText);
    RequiredRead(fd, KeyAt(0), v.businessName);
    assert Values(fd, KeyAt(1)) == ValuesAt(v, 1, JsonText);
    RequiredRead(fd, KeyAt(1), v.email);
  }

  /** The Instagram handle and the other platforms. */
  lemma ReadHandles(fd: FormData, v: EnhancedValues)
    requires AllRead(fd, v)
    ensures FieldValue(fd, "instagram_handle").GetOr("") == v.instagramHandle
    ensures FieldValue(fd, "other_platforms") == NonEmpty(v.otherPlatforms)
  {
    assert Values(fd, KeyAt(2)) == ValuesAt(v, 2, JsonText);
    RequiredRead(fd, KeyAt(2), v.instagramHandle);
    assert Values(fd, KeyAt(3)) == ValuesAt(v, 3, JsonText);
    OptionalRead(fd, KeyAt(3), v.otherPlatforms);
  }

  /** The business type and its companion text. */
  lemma ReadBusinessType(fd: FormData, v: EnhancedValues)
    requires AllRead(fd, v)
    ensures FieldValue(fd, "business_type").GetOr("") == v.businessType
    ensures FieldValue(fd, "business_type_other") == NonEmpty(v.businessTypeOther)
  {
    assert Values(fd, KeyAt(4)) == ValuesAt(v, 4, JsonText);
    RequiredRead(fd, KeyAt(4), v.businessType);
    assert Values(fd, KeyAt(5)) == ValuesAt(v, 5, JsonText);
    OptionalRead(fd, KeyAt(5), v.businessTypeOther);
  }

  /** The product categories and their companion text. */
  lemma ReadCategories(fd: FormData, v: EnhancedValues)
    requires AllRead(fd, v)
    ensures CO.ParseList(fd, "product_categories") == Some(v.productCategories)
    ensures FieldValue(fd, "product_categories_other") == NonEmpty(v.productCategoriesOther)
  {
    assert Values(fd, KeyAt(6)) == ValuesAt(v, 6, JsonText);
    ListRead(fd, KeyAt(6), v.productCategories);
    assert Values(fd, KeyAt(7)) == ValuesAt(v, 7, JsonText);
    OptionalRead(fd, KeyAt(7), v.productCategoriesOther);
  }

  /** The customer questions and their companion text. */
  lemma ReadQuestions(fd: FormData, v: EnhancedValues)
    requires AllRead(fd, v)
    ensures CO.ParseList(fd, "customer_questions") == Some(v.customerQuestions)
    ensures FieldValue(fd, "customer_questions_other") == NonEmpty(v.customerQuestionsOther)
  {
    assert Values(fd, KeyAt(8)) == ValuesAt(v, 8, JsonText);
    ListRead(fd, KeyAt(8), v.customerQuestions);
    assert Values(fd, KeyAt(9)) == ValuesAt(v, 9, JsonText);
    OptionalRead(fd, KeyAt(9), v.customerQuestionsOther);
  }

  /** The delivery choice and the delivery list. */
  lemma ReadDeliveryChoice(fd: FormData, v: EnhancedValues)
    requires AllRead(fd, v)
    ensures FieldValue(fd, "delivery_pickup") == Some(DeliveryOptionName(v.deliveryPickup))
    ensures CO.ParseList(fd, "delivery_options") == Some(v.deliveryOptions.GetOr([]))
  {
    assert Values(fd, KeyAt(10)) == ValuesAt(v, 10, JsonText);
    NamedRead(fd, KeyAt(10), DeliveryOptionName(v.deliveryPickup));
    assert Values(fd, KeyAt(11)) == ValuesAt(v, 11, JsonText);
    OptionalListRead(fd, KeyAt(11), v.deliveryOptions);
  }

  /** The delivery companion text and the pickup list. */
  lemma ReadDelivery(fd: FormData, v: EnhancedValues)
    requires AllRead(fd, v)
    ensures FieldValue(fd, "delivery_options_other") == NonEmpty(v.deliveryOptionsOther)
    ensures CO.ParseList(fd, "pickup_options") == Some(v.pickupOptions.GetOr([]))
  {
    assert Values(fd, KeyAt(12)) == ValuesAt(v, 12, JsonText);
    OptionalRead(fd, KeyAt(12), v.deliveryOptionsOther);
    assert Values(fd, KeyAt(13)) == ValuesAt(v, 13, JsonText);
    OptionalListRead(fd, KeyAt(13), v.pickupOptions);
  }

  /** The pickup companion text and the delivery notes. */
  lemma ReadPickupNotes(fd: FormData, v: EnhancedValues)
    requires AllRead(fd, v)
    ensures FieldValue(fd, "pickup_options_other") == NonEmpty(v.pickupOptionsOther)
    ensures FieldValue(fd, "delivery_notes") == NonEmpty(v.deliveryNotes)
  {
    assert Values(fd, KeyAt(14)) == ValuesAt(v, 14, JsonText);
    OptionalRead(fd, KeyAt(14), v.pickupOptionsOther);
    assert Values(fd, KeyAt(15)) == ValuesAt(v, 15, JsonText);
    OptionalRead(fd, KeyAt(15), v.deliveryNotes);
  }

  /** The menu description and the plan. */
  lemma ReadNotes(fd: FormData, v: EnhancedValues)
    requires AllRead(fd, v)
    ensures FieldValue(fd, "menu_description") == NonEmpty(v.menuDescription)
    ensures FieldValue(fd, "plan") == Some(PlanName(v.plan))
  {
    assert Values(fd, KeyAt(16)) == ValuesAt(v, 16, JsonText);
    OptionalRead(fd, KeyAt(16), v.menuDescription);
    assert Values(fd, KeyAt(17)) == ValuesAt(v, 17, JsonText);
    NamedRead(fd, KeyAt(17), PlanName(v.plan));
  }

  /** The credential choice and the direct credentials. */
  lemma ReadCredentials(fd: FormData, v: EnhancedValues)
    requires AllRead(fd, v)
    ensures FieldValue(fd, "credential_sharing") == Some(CredentialSharingName(v.credentialSharing))
    ensures FieldValue(fd, "credentials_direct") == NonEmpty(v.credentialsDirect)
  {
    assert Values(fd, KeyAt(18)) == ValuesAt(v, 18, JsonText);
    NamedRead(fd, KeyAt(18), CredentialSharingName(v.credentialSharing));
    assert Values(fd, KeyAt(19)) == ValuesAt(v, 19, JsonText);
    OptionalRead(fd, KeyAt(19), v.credentialsDirect);
  }

  /** The FAQ choice and the FAQ text. */
  lemma ReadFaqs(fd: FormData, v: EnhancedValues)
    requires AllRead(fd, v)
    ensures FieldValue(fd, "has_faqs") == Some(HasFaqsName(v.hasFaqs))
    ensures FieldValue(fd, "faq_content") == NonEmpty(v.faqContent)
  {
    assert Values(fd, KeyAt(20)) == ValuesAt(v, 20, JsonText);
    NamedRead(fd, KeyAt(20), HasFaqsName(v.hasFaqs));
    assert Values(fd, KeyAt(21)) == ValuesAt(v, 21, JsonText);
    OptionalRead(fd, KeyAt(21), v.faqContent);
  }

  /** The consent. */
  lemma ReadConsent(fd: FormData, v: EnhancedValues)
    requires AllRead(fd, v)
    ensures ConsentGiven(fd) == v.consentCheckbox
  {
    assert Values(fd, KeyAt(22)) == ValuesAt(v, 22, JsonText);
    ConsentRead(fd, KeyAt(22), v.consentCheckbox);
  }

  /** The object the endpoint should build from the page's values. */
  function InputOf(v: EnhancedValues): EnhancedInput
  {
    EnhancedInput(
      v.businessName, v.instagramHandle, NonEmpty(v.otherPlatforms),
      v.businessType, NonEmpty(v.businessTypeOther),
      v.productCategories, NonEmpty(v.productCategoriesOther),
      v.customerQuestions, NonEmpty(v.customerQuestionsOther),
      Some(DeliveryOptionName(v.deliveryPickup)),
      v.deliveryOptions.GetOr([]), NonEmpty(v.deliveryOptionsOther),
      v.pickupOptions.GetOr([]), NonEmpty(v.pickupOptionsOther),
      NonEmpty(v.deliveryNotes), NonEmpty(v.menuDescription),
      Some(PlanName(v.plan)), Some(CredentialSharingName(v.credentialSharing)), NonEmpty(v.credentialsDirect),
      Some(HasFaqsName(v.hasFaqs)), NonEmpty(v.faqContent),
      v.email, v.consentCheckbox)
  }

  lemma ExtractOf(fd: FormData, v: EnhancedValues)
    requires AllRead(fd, v)
    ensures Extract(fd) == Some(InputOf(v))
  {
    ReadIdentity(fd, v);
    ReadHandles(fd, v);
    ReadBusinessType(fd, v);
    ReadCategories(fd, v);
    ReadQuestions(fd, v);
    ReadDeliveryChoice(fd, v);
    ReadDelivery(fd, v);
    ReadPickupNotes(fd, v);
    ReadNotes(fd, v);
    ReadCredentials(fd, v);
    ReadFaqs(fd, v);
    ReadConsent(fd, v);
  }

  /** With lists as JSON texts, the endpoint extracts exactly the page's
      values: every field, every list in order, absent lists as empty ones
      and empty optional texts as absent ones. */
  lemma ExtractSerialise(v: EnhancedValues)
    ensures Extract(Serialise(v, JsonText)) == Some(InputOf(v))
  {
    forall j | 0 <= j < FieldCount
      ensures Values(Serialise(v, JsonText), KeyAt(j)) == ValuesAt(v, j, JsonText)
    {
      ValuesReadBack(v, JsonText, j);
    }
    ExtractOf(Serialise(v, JsonText), v);
  }

  /** The text parts carry no file: the body's files are those of its file
      parts. */
  lemma SerialiseFiles(v: EnhancedValues, enc: ListEncoding, key: string)
    ensures Files(Serialise(v, enc), key) == Files(FileParts(v, enc), key)
  {
    NoFilesInText(PartsOf(Fields(v, enc)), key);
    FilesAppend(PartsOf(Fields(v, enc)), FileParts(v, enc), key);
  }

  /** The menu and FAQ parts carry their own file and nothing else does. */
  lemma FilePartsFile(v: EnhancedValues, enc: ListEncoding, key: string)
    requires key == "menu_file" || key == "faq_file"
    ensures FirstFile(FileParts(v, enc), key) == (if key == "menu_file" then v.menuFile else v.faqFile)
  {
    var menu := if v.menuFile.Some? then [FilePart("menu_file", v.menuFile.value)] else [];
    var faq := if v.faqFile.Some? then [FilePart("faq_file", v.faqFile.value)] else [];
    var docs := match enc case EachValue => SameKeyDocs(v.additionalDocs) case JsonText => IndexedDocs(v.additionalDocs, 0);
    FilesAppend(menu + faq, docs, key);
    FilesAppend(menu, faq, key);
    if enc == JsonText {
      FilesOfIndexedDocsOther(v.additionalDocs, 0, key);
    } else {
      SameKeyDocsOther(v.additionalDocs, key);
    }
    if v.menuFile.Some? {
      FilesOfOne("menu_file", v.menuFile.value, key);
    }
    if v.faqFile.Some? {
      FilesOfOne("faq_file", v.faqFile.value, key);
    }
  }

  /** The menu and FAQ files read back as attached, whichever encoding. */
  lemma FilesReadBack(v: EnhancedValues, enc: ListEncoding)
    ensures FirstFile(Serialise(v, enc), "menu_file") == v.menuFile
    ensures FirstFile(Serialise(v, enc), "faq_file") == v.faqFile
  {
    SerialiseFiles(v, enc, "menu_file");
    SerialiseFiles(v, enc, "faq_file");
    FilePartsFile(v, enc, "menu_file");
    FilePartsFile(v, enc, "faq_file");
  }

  lemma {:induction false} SameKeyDocsOther(docs: seq<FileInfo>, key: string)
    requires key != "additional_docs"
    ensures Files(SameKeyDocs(docs), key) == []
  {
    if docs != [] {
      assert SameKeyDocs(docs) == [FilePart("additional_docs", docs[0])] + SameKeyDocs(docs[1..]);
      FilesAppend([FilePart("additional_docs", docs[0])], SameKeyDocs(docs[1..]), key);
      SameKeyDocsOther(docs[1..], key);
    }
  }

  /** With numbered keys the endpoint collects the documents in order, the
      first ten of them. */
  lemma DocsReadBack(v: EnhancedValues)
    ensures DocsUpTo(Serialise(v, JsonText), MaxDocs) == v.additionalDocs[..Min(MaxDocs, |v.additionalDocs|)]
  {
    var text := PartsOf(Fields(v, JsonText));
    var menu := if v.menuFile.Some? then [FilePart("menu_file", v.menuFile.value)] else [];
    var faq := if v.faqFile.Some? then [FilePart("faq_file", v.faqFile.value)] else [];
    var pre := text + menu + faq;
    assert Serialise(v, JsonText) == pre + IndexedDocs(v.additionalDocs, 0);
    assert NoDocParts(pre);
    IndexedDocsCollected(pre, v.additionalDocs, MaxDocs);
  }

  // ---------------------------------------------------------------- the page as written

  /** As written, the documents are never collected: the endpoint finds
      nothing under its numbered keys, so none is uploaded. */
  lemma AsWrittenDocsIgnored(v: EnhancedValues)
    ensures DocsUpTo(Serialise(v, EachValue), MaxDocs) == []
    ensures forall e :: e in CO.UploadEffects(Serialise(v, EachValue)) ==> !e.UploadMany?
  {
    var fd := Serialise(v, EachValue);
    assert NoDocParts(fd);
    forall i | 0 <= i < MaxDocs
      ensures FirstFile(fd, DocKey(i)).None?
    {
      NoDocFiles(fd, i);
    }
    DocsUpToCount(fd, MaxDocs);
  }

  /** An ordinary category name is not JSON. */
  lemma PlainCategoryIsNotJson()
    ensures Decode("Cakes").None?
  {
  }

  /** As written, a submission whose first product category is a plain
      name (not JSON text) makes the endpoint's `JSON.parse` throw: the
      answer is 500, nothing is uploaded or mailed, and the page shows an
      error instead of going to checkout. */
  lemma AsWrittenCategoriesBreak(v: EnhancedValues, s: EnhancedServices, store: SentStore)
    requires |v.productCategories| > 0 && v.productCategories[0] != [] && Decode(v.productCategories[0]).None?
    ensures Extract(Serialise(v, EachValue)).None?
    ensures var r := Handle(CO.Request("POST", Some(Serialise(v, EachValue))), s, store);
      r == Outcome(InternalError, [], store) && CheckoutRedirect(v.plan, r.response).None?
  {
    CategoriesUnparsed(v);
  }

  lemma CategoriesUnparsed(v: EnhancedValues)
    requires |v.productCategories| > 0 && v.productCategories[0] != [] && Decode(v.productCategories[0]).None?
    ensures CO.ParseList(Serialise(v, EachValue), "product_categories").None?
  {
    ValuesReadBack(v, EachValue, 6);
  }

  // ---------------------------------------------------------------- redirect

  /** The page's reaction to the answer: on an OK status it goes to the
      tier's checkout link with the returned id; otherwise it alerts and
      stays. */
  function CheckoutRedirect(plan: Plan, resp: Response): (url: Option<string>)
    ensures url.Some? <==> 200 <= resp.status < 300
    ensures url.Some? ==> StartsWith(url.value, PricingLink(plan))
  {
    if 200 <= resp.status < 300 then Some(CheckoutUrl(plan, resp.submissionId)) else None
  }

  /** The corrected round trip: when the schema accepts the values, the
      files are within formidable's limit and the uploads succeed, the endpoint answers 200 with a fresh id, the page
      goes to checkout, and the checkout link carries that id back. */
  lemma SubmitRoundTrip(v: EnhancedValues, s: EnhancedServices, store: SentStore)
    requires s.schema(InputOf(v)) && !CO.UploadFails(Serialise(v, JsonText), s.uploads)
    requires FileBytes(Serialise(v, JsonText)) <= CO.MaxFileBytes
    ensures var r := Handle(CO.Request("POST", Some(Serialise(v, JsonText))), s, store);
      var id := SubmissionId(s.now, s.randomSuffix);
      && r.response == Response(200, true, SuccessMessage, Some(id))
      && CheckoutRedirect(v.plan, r.response) == Some(PricingLink(v.plan) + ReferenceMarker + id)
      && ClientReference(CheckoutRedirect(v.plan, r.response).value) == Some(id)
  {
    ExtractSerialise(v);
    var id := SubmissionId(s.now, s.randomSuffix);
    CheckoutReferenceRoundTrip(v.plan, Some(id));
  }
}
