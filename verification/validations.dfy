/** The form schemas and file gates: the legacy onboarding schema with its
    per-tier login rule, the client-onboarding schema with its "Other" and
    consent rules, and the size/MIME checks for uploads.

    A schema is modelled as the set of field paths zod reports errors on;
    the input is accepted exactly when that set is empty. Zod checks every
    key and reports each failing one. A key whose value has the wrong type
    (a missing required text, an enumeration value outside its list, a list
    that is absent) aborts the object, and then the object-level `.refine`
    rules are not run; length, format and value refinements on a key do not
    abort. Zod's email format check is the parameter `isEmail`. */
module Validations {

  import opened Wrappers
  import opened Text
  import opened Plans

  /** The field paths the two schemas attach errors to. */
  datatype Path =
    | NameField | EmailField | PlanField | LoginSharingField | InstagramLoginField
    | BusinessNameField | InstagramHandleField | BusinessTypeField
    | ProductCategoriesField | ProductCategoriesOtherField
    | CommonQuestionsField | CommonQuestionsOtherField
    | DeliveryOptionField | CredentialSharingField | HasFaqsField
    | ContactEmailField | ConsentField

  /** The path as zod reports it: the field's key in the submitted object. */
  function PathName(p: Path): string
  {
    match p
    case NameField => "name"
    case EmailField => "email"
    case PlanField => "plan"
    case LoginSharingField => "login_sharing_preference"
    case InstagramLoginField => InstagramLogin
    case BusinessNameField => "business_name"
    case InstagramHandleField => "instagram_handle"
    case BusinessTypeField => "business_type"
    case ProductCategoriesField => "product_categories"
    case ProductCategoriesOtherField => "product_categories_other"
    case CommonQuestionsField => "common_questions"
    case CommonQuestionsOtherField => "common_questions_other"
    case DeliveryOptionField => "delivery_option"
    case CredentialSharingField => "credential_sharing"
    case HasFaqsField => "has_faqs"
    case ContactEmailField => "contact_email"
    case ConsentField => "consent_checkbox"
  }

  /** The outcome of a schema parse: the typed record, or the paths of the violated rules. */
  datatype Validation<+T> = Valid(value: T) | Invalid(paths: set<Path>)

  /** A string whose UTF-16 length (zod's `.min`/`.max` measure) lies in `lo..hi`. */
  predicate LengthIn(s: Option<string>, lo: nat, hi: nat)
  {
    s.Some? && lo <= Utf16Length(s.value) <= hi
  }

  // ---------------------------------------------------------------- enumerations

  datatype LoginSharing = SecureSite | InPersonSetup | EmailEncrypted | PhoneCall

  function LoginSharingName(l: LoginSharing): string
  {
    match l
    case SecureSite => "secure_site"
    case InPersonSetup => "in_person_setup"
    case EmailEncrypted => "email_encrypted"
    case PhoneCall => "phone_call"
  }

  function ParseLoginSharing(s: string): (r: Option<LoginSharing>)
    ensures r.Some? <==> s in ["secure_site", "in_person_setup", "email_encrypted", "phone_call"]
    ensures r.Some? ==> LoginSharingName(r.value) == s
    ensures forall l :: s == LoginSharingName(l) ==> r == Some(l)
  {
    if s == "secure_site" then Some(SecureSite)
    else if s == "in_person_setup" then Some(InPersonSetup)
    else if s == "email_encrypted" then Some(EmailEncrypted)
    else if s == "phone_call" then Some(PhoneCall)
    else None
  }

  datatype DeliveryOption = Delivery | Pickup | Both | Neither

  function DeliveryOptionName(d: DeliveryOption): string
  {
    match d
    case Delivery => "delivery"
    case Pickup => "pickup"
    case Both => "both"
    case Neither => "neither"
  }

  function ParseDeliveryOption(s: string): (r: Option<DeliveryOption>)
    ensures r.Some? ==> DeliveryOptionName(r.value) == s
    ensures forall d :: s == DeliveryOptionName(d) ==> r == Some(d)
  {
    if s == "delivery" then Some(Delivery)
    else if s == "pickup" then Some(Pickup)
    else if s == "both" then Some(Both)
    else if s == "neither" then Some(Neither)
    else None
  }

  datatype CredentialSharing = Direct | SendSecurely | Call

  function CredentialSharingName(c: CredentialSharing): string
  {
    match c
    case Direct => "direct"
    case SendSecurely => "sendsecurely"
    case Call => "call"
  }

  function ParseCredentialSharing(s: string): (r: Option<CredentialSharing>)
    ensures r.Some? ==> CredentialSharingName(r.value) == s
    ensures forall c :: s == CredentialSharingName(c) ==> r == Some(c)
  {
    if s == "direct" then Some(Direct)
    else if s == "sendsecurely" then Some(SendSecurely)
    else if s == "call" then Some(Call)
    else None
  }

  datatype HasFaqs = Yes | No

  function HasFaqsName(h: HasFaqs): string
  {
    match h
    case Yes => "yes"
    case No => "no"
  }

  function ParseHasFaqs(s: string): (r: Option<HasFaqs>)
    ensures r.Some? ==> HasFaqsName(r.value) == s
    ensures forall h :: s == HasFaqsName(h) ==> r == Some(h)
  {
    if s == "yes" then Some(Yes) else if s == "no" then Some(No) else None
  }

  /** Parses an optional text with an enumeration parser. */
  function ParseOpt<E>(s: Option<string>, parse: string -> Option<E>): Option<E>
  {
    if s.Some? then parse(s.value) else None
  }

  // ---------------------------------------------------------------- legacy schema

  /** The legacy form's object as handed to `onboardingFormSchema.parse`. */
  datatype LegacyInput = LegacyInput(
    name: Option<string>,
    email: Option<string>,
    phone: Option<string>,
    company: Option<string>,
    plan: Option<string>,
    instagramLogin: Option<string>,
    facebookLogin: Option<string>,
    twitterLogin: Option<string>,
    linkedinLogin: Option<string>,
    tiktokLogin: Option<string>,
    loginSharingPreference: Option<string>)

  /** The typed legacy record the schema produces. */
  datatype LegacyForm = LegacyForm(
    name: string,
    email: string,
    phone: Option<string>,
    company: Option<string>,
    plan: Plan,
    instagramLogin: Option<string>,
    facebookLogin: Option<string>,
    twitterLogin: Option<string>,
    linkedinLogin: Option<string>,
    tiktokLogin: Option<string>,
    loginSharingPreference: LoginSharing)

  function Logins(i: LegacyInput): seq<Option<string>>
  {
    [i.instagramLogin, i.facebookLogin, i.twitterLogin, i.linkedinLogin, i.tiktokLogin]
  }

  /** The schema's refinement: a starter plan needs an Instagram login that
      is not blank after trimming; any other plan needs at least one of the
      five logins filled. */
  predicate LoginRule(i: LegacyInput)
  {
    if i.plan == Some("starter") then Filled(i.instagramLogin)
    else exists k :: 0 <= k < 5 && Filled(Logins(i)[k])
  }

  /** Some key of `onboardingFormSchema` fails its type: a required text is
      missing or an enumeration value is not in its list. */
  predicate LegacyAborts(i: LegacyInput)
  {
    || i.name.None? || i.email.None?
    || ParseOpt(i.plan, ParsePlan).None?
    || ParseOpt(i.loginSharingPreference, ParseLoginSharing).None?
  }

  /** The paths `onboardingFormSchema` reports: every failing key, and the
      login rule only when no key aborted. */
  function LegacyViolations(i: LegacyInput, isEmail: string -> bool): set<Path>
  {
    (if LengthIn(i.name, 2, 100) then {} else {NameField})
    + (if i.email.Some? && isEmail(i.email.value) then {} else {EmailField})
    + (if ParseOpt(i.plan, ParsePlan).Some? then {} else {PlanField})
    + (if ParseOpt(i.loginSharingPreference, ParseLoginSharing).Some? then {} else {LoginSharingField})
    + (if LegacyAborts(i) || LoginRule(i) then {} else {InstagramLoginField})
  }

  /** `onboardingFormSchema.parse`: the typed record when every rule holds,
      and the record carries the input's values unchanged. */
  function ValidateLegacy(i: LegacyInput, isEmail: string -> bool): (r: Validation<LegacyForm>)
    ensures r.Valid? <==> LegacyViolations(i, isEmail) == {}
    ensures r.Invalid? ==> r.paths == LegacyViolations(i, isEmail)
    ensures r.Valid? ==>
      && Some(r.value.name) == i.name && Some(r.value.email) == i.email
      && r.value.phone == i.phone && r.value.company == i.company
      && Some(PlanName(r.value.plan)) == i.plan
      && Some(LoginSharingName(r.value.loginSharingPreference)) == i.loginSharingPreference
      && 2 <= Utf16Length(r.value.name) <= 100 && isEmail(r.value.email)
    ensures r.Valid? ==>
      && r.value.instagramLogin == i.instagramLogin && r.value.facebookLogin == i.facebookLogin
      && r.value.twitterLogin == i.twitterLogin && r.value.linkedinLogin == i.linkedinLogin
      && r.value.tiktokLogin == i.tiktokLogin
  {
    var v := LegacyViolations(i, isEmail);
    if v != {} then Invalid(v)
    else
      assert PlanField !in v && NameField !in v && EmailField !in v && LoginSharingField !in v;
      Valid(LegacyForm(i.name.value, i.email.value, i.phone, i.company,
        ParsePlan(i.plan.value).value,
        i.instagramLogin, i.facebookLogin, i.twitterLogin, i.linkedinLogin, i.tiktokLogin,
        ParseLoginSharing(i.loginSharingPreference.value).value))
  }

  /** Starter plan: the input is rejected when the Instagram login is
      missing or whitespace only, and the error is reported on
      `instagram_login` exactly when no key aborted the parse. */
  lemma StarterNeedsInstagram(i: LegacyInput, isEmail: string -> bool)
    requires i.plan == Some("starter")
    requires i.instagramLogin.None? || Blank(i.instagramLogin.value)
    ensures ValidateLegacy(i, isEmail).Invalid?
    ensures InstagramLoginField in ValidateLegacy(i, isEmail).paths <==> !LegacyAborts(i)
  {
  }

  /** Pro and Pro Plus: the login rule holds exactly when some login
      contains a non-whitespace character. */
  lemma ProNeedsAnyLogin(i: LegacyInput)
    requires i.plan == Some("pro") || i.plan == Some("pro_plus")
    ensures LoginRule(i) <==> exists k :: 0 <= k < 5 && Logins(i)[k].Some? && !Blank(Logins(i)[k].value)
  {
  }

  // ---------------------------------------------------------------- client-onboarding schema

  /** The object handed to `clientOnboardingFormSchema.parse`. The two lists
      are `None` when the handler's value is not an array of strings. */
  datatype ClientInput = ClientInput(
    businessName: Option<string>,
    instagramHandle: Option<string>,
    otherPlatforms: Option<string>,
    businessType: Option<string>,
    productCategories: Option<seq<string>>,
    productCategoriesOther: Option<string>,
    commonQuestions: Option<seq<string>>,
    commonQuestionsOther: Option<string>,
    deliveryOption: Option<string>,
    menuText: Option<string>,
    plan: Option<string>,
    credentialSharing: Option<string>,
    hasFaqs: Option<string>,
    contactEmail: Option<string>,
    consentCheckbox: Option<bool>)

  /** The typed client-onboarding record the schema produces. */
  datatype ClientForm = ClientForm(
    businessName: string,
    instagramHandle: string,
    otherPlatforms: Option<string>,
    businessType: string,
    productCategories: seq<string>,
    productCategoriesOther: Option<string>,
    commonQuestions: seq<string>,
    commonQuestionsOther: Option<string>,
    deliveryOption: DeliveryOption,
    menuText: Option<string>,
    plan: Plan,
    credentialSharing: CredentialSharing,
    hasFaqs: HasFaqs,
    contactEmail: string,
    consentCheckbox: bool)

  const OtherOption := "Other"

  /** A list that contains "Other" needs its free-text companion filled. */
  predicate OtherRule(list: Option<seq<string>>, other: Option<string>)
  {
    !(list.Some? && OtherOption in list.value && !Filled(other))
  }

  /** Some key of `clientOnboardingFormSchema` fails its type: a required
      text, a list, the contact address or the consent is missing, or an
      enumeration value is not in its list. A consent of `false` is a
      failed refinement of the key, not a type failure. */
  predicate ClientAborts(i: ClientInput)
  {
    || i.businessName.None? || i.instagramHandle.None? || i.businessType.None?
    || i.productCategories.None? || i.commonQuestions.None?
    || ParseOpt(i.deliveryOption, ParseDeliveryOption).None?
    || ParseOpt(i.plan, ParsePlan).None?
    || ParseOpt(i.credentialSharing, ParseCredentialSharing).None?
    || ParseOpt(i.hasFaqs, ParseHasFaqs).None?
    || i.contactEmail.None? || i.consentCheckbox.None?
  }

  /** The paths `clientOnboardingFormSchema` reports: every failing key, and
      the two "Other" rules only when no key aborted. */
  function ClientViolations(i: ClientInput, isEmail: string -> bool): set<Path>
  {
    (if LengthIn(i.businessName, 2, 100) then {} else {BusinessNameField})
    + (if LengthIn(i.instagramHandle, 1, 50) then {} else {InstagramHandleField})
    + (if LengthIn(i.businessType, 1, 100) then {} else {BusinessTypeField})
    + (if i.productCategories.Some? && |i.productCategories.value| >= 1 then {} else {ProductCategoriesField})
    + (if i.commonQuestions.Some? && |i.commonQuestions.value| >= 1 then {} else {CommonQuestionsField})
    + (if ParseOpt(i.deliveryOption, ParseDeliveryOption).Some? then {} else {DeliveryOptionField})
    + (if ParseOpt(i.plan, ParsePlan).Some? then {} else {PlanField})
    + (if ParseOpt(i.credentialSharing, ParseCredentialSharing).Some? then {} else {CredentialSharingField})
    + (if ParseOpt(i.hasFaqs, ParseHasFaqs).Some? then {} else {HasFaqsField})
    + (if i.contactEmail.Some? && isEmail(i.contactEmail.value) then {} else {ContactEmailField})
    + (if i.consentCheckbox == Some(true) then {} else {ConsentField})
    + (if ClientAborts(i) || OtherRule(i.productCategories, i.productCategoriesOther) then {} else {ProductCategoriesOtherField})
    + (if ClientAborts(i) || OtherRule(i.commonQuestions, i.commonQuestionsOther) then {} else {CommonQuestionsOtherField})
  }

  /** `clientOnboardingFormSchema.parse`: the typed record when every rule
      holds; the record keeps the input's texts and lists, has consent true,
      and satisfies the length bounds and the two "Other" rules. */
  function ValidateClient(i: ClientInput, isEmail: string -> bool): (r: Validation<ClientForm>)
    ensures r.Valid? <==> ClientViolations(i, isEmail) == {}
    ensures r.Invalid? ==> r.paths == ClientViolations(i, isEmail)
    ensures r.Valid? ==>
      && Some(r.value.businessName) == i.businessName
      && Some(r.value.productCategories) == i.productCategories
      && Some(r.value.commonQuestions) == i.commonQuestions
      && Some(r.value.contactEmail) == i.contactEmail
      && r.value.consentCheckbox
    ensures r.Valid? ==>
      && Some(r.value.instagramHandle) == i.instagramHandle && Some(r.value.businessType) == i.businessType
      && r.value.otherPlatforms == i.otherPlatforms && r.value.menuText == i.menuText
      && r.value.productCategoriesOther == i.productCategoriesOther
      && r.value.commonQuestionsOther == i.commonQuestionsOther
    ensures r.Valid? ==>
      && Some(DeliveryOptionName(r.value.deliveryOption)) == i.deliveryOption
      && Some(PlanName(r.value.plan)) == i.plan
      && Some(CredentialSharingName(r.value.credentialSharing)) == i.credentialSharing
      && Some(HasFaqsName(r.value.hasFaqs)) == i.hasFaqs
    ensures r.Valid? ==>
      && 2 <= Utf16Length(r.value.businessName) <= 100
      && 1 <= Utf16Length(r.value.instagramHandle) <= 50
      && |r.value.productCategories| >= 1 && |r.value.commonQuestions| >= 1
      && (OtherOption in r.value.productCategories ==> Filled(r.value.productCategoriesOther))
      && (OtherOption in r.value.commonQuestions ==> Filled(r.value.commonQuestionsOther))
  {
    var v := ClientViolations(i, isEmail);
    if v != {} then Invalid(v)
    else
      assert BusinessNameField !in v && InstagramHandleField !in v && BusinessTypeField !in v;
      assert ProductCategoriesField !in v && CommonQuestionsField !in v && DeliveryOptionField !in v;
      assert PlanField !in v && CredentialSharingField !in v && HasFaqsField !in v && ContactEmailField !in v;
      assert ConsentField !in v && ProductCategoriesOtherField !in v && CommonQuestionsOtherField !in v;
      Valid(ClientForm(
        i.businessName.value, i.instagramHandle.value, i.otherPlatforms, i.businessType.value,
        i.productCategories.value, i.productCategoriesOther,
        i.commonQuestions.value, i.commonQuestionsOther,
        ParseDeliveryOption(i.deliveryOption.value).value, i.menuText,
        ParsePlan(i.plan.value).value,
        ParseCredentialSharing(i.credentialSharing.value).value,
        ParseHasFaqs(i.hasFaqs.value).value,
        i.contactEmail.value, true))
  }

  /** Selecting "Other" with a missing or blank companion text is rejected,
      and the error sits on the companion's path exactly when no key
      aborted the parse. */
  lemma OtherNeedsText(i: ClientInput, isEmail: string -> bool)
    requires i.productCategories.Some? && OtherOption in i.productCategories.value
    requires i.productCategoriesOther.None? || Blank(i.productCategoriesOther.value)
    ensures ValidateClient(i, isEmail).Invalid?
    ensures ProductCategoriesOtherField in ValidateClient(i, isEmail).paths <==> !ClientAborts(i)
  {
    assert !Filled(i.productCategoriesOther);
  }

  /** Consent must be exactly `true`; any other value is rejected on
      `consent_checkbox`, whatever the other fields hold. */
  lemma ConsentRequired(i: ClientInput, isEmail: string -> bool)
    requires i.consentCheckbox != Some(true)
    ensures ConsentField in ValidateClient(i, isEmail).paths
  {
  }

  /** A missing contact address, or one the format check refuses, is
      rejected on `contact_email`, whatever the other fields hold. */
  lemma ContactEmailRequired(i: ClientInput, isEmail: string -> bool)
    requires i.contactEmail.None? || !isEmail(i.contactEmail.value)
    ensures ValidateClient(i, isEmail).Invalid?
    ensures ContactEmailField in ValidateClient(i, isEmail).paths
  {
  }

  // ---------------------------------------------------------------- file gates

  /** What the upload gates see of a `File`. */
  datatype FileInfo = FileInfo(name: string, size: nat, mime: string)

  datatype FileCheck = Accepted | Rejected(error: string)

  /** 5 MB. */
  const MaxFileSize: nat := 5 * 1024 * 1024

  const FileTypes: seq<string> := [
    "image/jpeg", "image/png", "image/gif", "application/pdf", "text/plain",
    "application/msword",
    "application/vnd.openxmlformats-officedocument.wordprocessingml.document"]

  const MenuFileTypes: seq<string> := ["image/jpeg", "image/png", "image/gif", "application/pdf"]

  const FileSizeError := "File size must be less than 5MB"
  const FileTypeError := "File type not supported. Please upload images, PDFs, or documents."
  const MenuSizeError := "Menu file size must be less than 5MB"
  const MenuTypeError := "Menu files must be JPG, PNG, or PDF format"

  /** `validateFile`: the size is checked first, then the type. */
  function ValidateFile(f: FileInfo): (r: FileCheck)
    ensures r.Accepted? <==> f.size <= MaxFileSize && f.mime in FileTypes
    ensures f.size > MaxFileSize ==> r == Rejected(FileSizeError)
    ensures f.size <= MaxFileSize && f.mime !in FileTypes ==> r == Rejected(FileTypeError)
  {
    if f.size > MaxFileSize then Rejected(FileSizeError)
    else if f.mime !in FileTypes then Rejected(FileTypeError)
    else Accepted
  }

  /** `validateMenuFile`: the same size limit with a narrower type list. */
  function ValidateMenuFile(f: FileInfo): (r: FileCheck)
    ensures r.Accepted? <==> f.size <= MaxFileSize && f.mime in MenuFileTypes
    ensures f.size > MaxFileSize ==> r == Rejected(MenuSizeError)
    ensures f.size <= MaxFileSize && f.mime !in MenuFileTypes ==> r == Rejected(MenuTypeError)
  {
    if f.size > MaxFileSize then Rejected(MenuSizeError)
    else if f.mime !in MenuFileTypes then Rejected(MenuTypeError)
    else Accepted
  }

  /** Every file the menu gate accepts, the general gate accepts too. */
  lemma MenuValidImpliesFileValid(f: FileInfo)
    ensures ValidateMenuFile(f).Accepted? ==> ValidateFile(f).Accepted?
  {
    assert forall t :: t in MenuFileTypes ==> t in FileTypes;
  }

  /** A file of exactly 5 MB passes the size check; one byte more fails it,
      whatever its type. */
  lemma SizeLimitInclusive(name: string, mime: string)
    ensures ValidateFile(FileInfo(name, MaxFileSize, mime)) != Rejected(FileSizeError)
    ensures ValidateFile(FileInfo(name, MaxFileSize + 1, mime)) == Rejected(FileSizeError)
  {
  }
}
