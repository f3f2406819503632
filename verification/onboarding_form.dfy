/** The legacy onboarding page's submit: every truthy value of the
    validated form is appended as text, the optional file under `file`, and
    on `success` the page goes to the tier's checkout link carrying the new
    submission's id. Together with `/api/submit-form` this is a round trip. */
module LegacyOnboardingForm {

  import opened Wrappers
  import opened Text
  import opened Plans
  import opened Validations
  import opened FormFields
  import opened EmailDedupe
  import opened Effects
  import opened Checkout
  import opened SubmitForm
  import CO = ClientOnboarding

  /** The number of schema fields `Object.entries` walks. */
  const FieldCount: nat := 11

  /** The schema's keys, in the order the page appends them. */
  function KeyAt(j: nat): string
    requires j < FieldCount
  {
    match j
    case 0 => "name"
    case 1 => "email"
    case 2 => "phone"
    case 3 => "company"
    case 4 => "plan"
    case 5 => "instagram_login"
    case 6 => "facebook_login"
    case 7 => "twitter_login"
    case 8 => "linkedin_login"
    case 9 => "tiktok_login"
    case _ => "login_sharing_preference"
  }

  /** No two fields share a key. */
  lemma KeysDistinct(j: nat)
    requires j < FieldCount
    ensures forall i :: 0 <= i < FieldCount && i != j ==> KeyAt(i) != KeyAt(j)
  {
  }

  /** Each field's value as `toString` gives it; absent optional values
      are `None`. */
  function ValueAt(f: LegacyForm, j: nat): Option<string>
    requires j < FieldCount
  {
    match j
    case 0 => Some(f.name)
    case 1 => Some(f.email)
    case 2 => f.phone
    case 3 => f.company
    case 4 => Some(PlanName(f.plan))
    case 5 => f.instagramLogin
    case 6 => f.facebookLogin
    case 7 => f.twitterLogin
    case 8 => f.linkedinLogin
    case 9 => f.tiktokLogin
    case _ => Some(LoginSharingName(f.loginSharingPreference))
  }

  /** The (key, values) pairs appended: a value only when it is truthy. */
  function Fields(f: LegacyForm): (pairs: seq<(string, seq<string>)>)
    ensures |pairs| == FieldCount
    ensures forall i :: 0 <= i < |pairs| ==> pairs[i] == (KeyAt(i), IfTruthy(ValueAt(f, i)))
  {
    seq(FieldCount, i requires 0 <= i < FieldCount => (KeyAt(i), IfTruthy(ValueAt(f, i))))
  }

  /** The selected file under `file`, if one was selected. */
  function FilePartOf(file: Option<FileInfo>): (fd: FormData)
    ensures forall i :: 0 <= i < |fd| ==> fd[i].FilePart?
  {
    if file.Some? then [FilePart("file", file.value)] else []
  }

  /** `onSubmit`'s FormData. */
  function Serialise(f: LegacyForm, file: Option<FileInfo>): FormData
  {
    PartsOf(Fields(f)) + FilePartOf(file)
  }

  /** The object the handler should build: every value the page sent, and
      an empty text as an absent one. */
  function InputOf(f: LegacyForm): LegacyInput
  {
    LegacyInput(
      NonEmpty(Some(f.name)), NonEmpty(Some(f.email)), NonEmpty(f.phone), NonEmpty(f.company),
      NonEmpty(Some(PlanName(f.plan))),
      NonEmpty(f.instagramLogin), NonEmpty(f.facebookLogin), NonEmpty(f.twitterLogin),
      NonEmpty(f.linkedinLogin), NonEmpty(f.tiktokLogin),
      NonEmpty(Some(LoginSharingName(f.loginSharingPreference))))
  }

  /** The form the server validates: the page's form with empty optional
      texts turned into absent ones. */
  function Normalised(f: LegacyForm): LegacyForm
  {
    f.(phone := NonEmpty(f.phone), company := NonEmpty(f.company),
       instagramLogin := NonEmpty(f.instagramLogin), facebookLogin := NonEmpty(f.facebookLogin),
       twitterLogin := NonEmpty(f.twitterLogin), linkedinLogin := NonEmpty(f.linkedinLogin),
       tiktokLogin := NonEmpty(f.tiktokLogin))
  }

  function FormLogins(f: LegacyForm): seq<Option<string>>
  {
    [f.instagramLogin, f.facebookLogin, f.twitterLogin, f.linkedinLogin, f.tiktokLogin]
  }

  /** The schema's login rule on the page's form. */
  predicate LoginRuleHolds(f: LegacyForm)
  {
    if f.plan == Starter then Filled(f.instagramLogin) else exists k :: 0 <= k < 5 && Filled(FormLogins(f)[k])
  }

  /** The page's form meets the legacy schema: the name's length, the
      address (never empty: zod's format check rejects the empty string),
      and the tier's login rule. */
  predicate PageValid(f: LegacyForm, isEmail: string -> bool)
  {
    2 <= Utf16Length(f.name) <= 100 && f.email != [] && isEmail(f.email) && LoginRuleHolds(f)
  }

  /** The login field a key names on the page. */
  function LoginNamed(f: LegacyForm, key: string): Option<string>
  {
    if key == InstagramLogin then f.instagramLogin
    else if key == FacebookLogin then f.facebookLogin
    else if key == TwitterLogin then f.twitterLogin
    else if key == LinkedinLogin then f.linkedinLogin
    else if key == TiktokLogin then f.tiktokLogin
    else None
  }

  // ---------------------------------------------------------------- reading the form data back

  /** Each key reads back exactly the values appended under it. */
  lemma ValuesReadBack(f: LegacyForm, file: Option<FileInfo>, j: nat)
    requires j < FieldCount
    ensures Values(Serialise(f, file), KeyAt(j)) == IfTruthy(ValueAt(f, j))
  {
    var fileParts := FilePartOf(file);
    KeysDistinct(j);
    ValuesOfPairs(Fields(f), j);
    ValuesAppend(PartsOf(Fields(f)), fileParts, KeyAt(j));
    NoValuesInFiles(fileParts, KeyAt(j));
  }

  /** Every key of `fd` carries what the page appends for `f`. */
  predicate AllRead(fd: FormData, f: LegacyForm)
  {
    forall j :: 0 <= j < FieldCount ==> Values(fd, KeyAt(j)) == IfTruthy(ValueAt(f, j))
  }

  /** The contact fields and the plan. */
  lemma ReadContact(fd: FormData, f: LegacyForm)
    requires AllRead(fd, f)
    ensures FirstValue(fd, "name") == NonEmpty(Some(f.name))
    ensures FirstValue(fd, "email") == NonEmpty(Some(f.email))
    ensures FirstValue(fd, "phone") == NonEmpty(f.phone)
    ensures FirstValue(fd, "company") == NonEmpty(f.company)
  {
    assert Values(fd, KeyAt(0)) == IfTruthy(ValueAt(f, 0));
    FirstValueOfTruthy(fd, KeyAt(0), Some(f.name));
    assert Values(fd, KeyAt(1)) == IfTruthy(ValueAt(f, 1));
    FirstValueOfTruthy(fd, KeyAt(1), Some(f.email));
    assert Values(fd, KeyAt(2)) == IfTruthy(ValueAt(f, 2));
    FirstValueOfTruthy(fd, KeyAt(2), f.phone);
    assert Values(fd, KeyAt(3)) == IfTruthy(ValueAt(f, 3));
    FirstValueOfTruthy(fd, KeyAt(3), f.company);
  }

  /** The plan and the first two logins. */
  lemma ReadPlan(fd: FormData, f: LegacyForm)
    requires AllRead(fd, f)
    ensures FirstValue(fd, "plan") == NonEmpty(Some(PlanName(f.plan)))
    ensures FirstValue(fd, "instagram_login") == NonEmpty(f.instagramLogin)
    ensures FirstValue(fd, "facebook_login") == NonEmpty(f.facebookLogin)
  {
    assert Values(fd, KeyAt(4)) == IfTruthy(ValueAt(f, 4));
    FirstValueOfTruthy(fd, KeyAt(4), Some(PlanName(f.plan)));
    assert Values(fd, KeyAt(5)) == IfTruthy(ValueAt(f, 5));
    FirstValueOfTruthy(fd, KeyAt(5), f.instagramLogin);
    assert Values(fd, KeyAt(6)) == IfTruthy(ValueAt(f, 6));
    FirstValueOfTruthy(fd, KeyAt(6), f.facebookLogin);
  }

  /** The remaining logins and the sharing preference. */
  lemma ReadLogins(fd: FormData, f: LegacyForm)
    requires AllRead(fd, f)
    ensures FirstValue(fd, "twitter_login") == NonEmpty(f.twitterLogin)
    ensures FirstValue(fd, "linkedin_login") == NonEmpty(f.linkedinLogin)
    ensures FirstValue(fd, "tiktok_login") == NonEmpty(f.tiktokLogin)
    ensures FirstValue(fd, "login_sharing_preference") == NonEmpty(Some(LoginSharingName(f.loginSharingPreference)))
  {
    assert Values(fd, KeyAt(7)) == IfTruthy(ValueAt(f, 7));
    FirstValueOfTruthy(fd, KeyAt(7), f.twitterLogin);
    assert Values(fd, KeyAt(8)) == IfTruthy(ValueAt(f, 8));
    FirstValueOfTruthy(fd, KeyAt(8), f.linkedinLogin);
    assert Values(fd, KeyAt(9)) == IfTruthy(ValueAt(f, 9));
    FirstValueOfTruthy(fd, KeyAt(9), f.tiktokLogin);
    assert Values(fd, KeyAt(10)) == IfTruthy(ValueAt(f, 10));
    FirstValueOfTruthy(fd, KeyAt(10), Some(LoginSharingName(f.loginSharingPreference)));
  }

  /** The handler's extraction of the page's form data gives back every
      value the page sent, empty texts as absent ones. */
  lemma ExtractSerialise(f: LegacyForm, file: Option<FileInfo>)
    ensures Extract(Serialise(f, file)) == InputOf(f)
  {
    var fd := Serialise(f, file);
    forall j | 0 <= j < FieldCount
      ensures Values(fd, KeyAt(j)) == IfTruthy(ValueAt(f, j))
    {
      ValuesReadBack(f, file, j);
    }
    ReadContact(fd, f);
    ReadPlan(fd, f);
    ReadLogins(fd, f);
  }

  /** The file reads back as the one attached. */
  lemma FileReadBack(f: LegacyForm, file: Option<FileInfo>)
    ensures FirstFile(Serialise(f, file), "file") == file
  {
    var fileParts := FilePartOf(file);
    NoFilesInText(PartsOf(Fields(f)), "file");
    FilesAppend(PartsOf(Fields(f)), fileParts, "file");
  }

  /** A form the page accepts passes the server's schema, normalised. */
  lemma ValidatesAsNormalised(f: LegacyForm, isEmail: string -> bool)
    requires PageValid(f, isEmail)
    ensures ValidateLegacy(InputOf(f), isEmail) == Valid(Normalised(f))
  {
    var i := InputOf(f);
    NamesNonEmpty(f);
    EnumsParse(f);
    LoginRuleOfInput(f);
    assert LengthIn(i.name, 2, 100);
    assert i.email == Some(f.email);
    assert LegacyViolations(i, isEmail) == {};
  }

  /** The plan and the sharing preference the page sends parse back. */
  lemma EnumsParse(f: LegacyForm)
    ensures ParseOpt(InputOf(f).plan, ParsePlan) == Some(f.plan)
    ensures ParseOpt(InputOf(f).loginSharingPreference, ParseLoginSharing) == Some(f.loginSharingPreference)
  {
    NamesNonEmpty(f);
    ParsePlanName(f.plan);
  }

  /** The schema's login rule holds for what the server reads exactly when
      it holds for the page's form: dropping empty logins changes nothing. */
  lemma LoginRuleOfInput(f: LegacyForm)
    ensures LoginRule(InputOf(f)) <==> LoginRuleHolds(f)
  {
    if f.plan == Starter {
      NonEmptyKeepsText(f.instagramLogin);
    } else {
      ExistsFilled(Logins(InputOf(f)));
      ExistsFilled(FormLogins(f));
      LoginsFilled(f);
    }
  }

  /** Each login the server reads is filled exactly when the page's is. */
  lemma LoginsFilled(f: LegacyForm)
    ensures (Filled(Logins(InputOf(f))[0]) || Filled(Logins(InputOf(f))[1]) || Filled(Logins(InputOf(f))[2])
             || Filled(Logins(InputOf(f))[3]) || Filled(Logins(InputOf(f))[4]))
        <==> (Filled(FormLogins(f)[0]) || Filled(FormLogins(f)[1]) || Filled(FormLogins(f)[2])
             || Filled(FormLogins(f)[3]) || Filled(FormLogins(f)[4]))
  {
    NonEmptyKeepsText(f.instagramLogin);
    NonEmptyKeepsText(f.facebookLogin);
    NonEmptyKeepsText(f.twitterLogin);
    NonEmptyKeepsText(f.linkedinLogin);
    NonEmptyKeepsText(f.tiktokLogin);
  }

  /** Some one of five logins is filled exactly when the first, the
      second, … or the fifth is. */
  lemma ExistsFilled(xs: seq<Option<string>>)
    requires |xs| == 5
    ensures (exists k :: 0 <= k < 5 && Filled(xs[k])) <==>
              Filled(xs[0]) || Filled(xs[1]) || Filled(xs[2]) || Filled(xs[3]) || Filled(xs[4])
  {
    if exists k :: 0 <= k < 5 && Filled(xs[k]) {
      var k :| 0 <= k < 5 && Filled(xs[k]);
      assert k == 0 || k == 1 || k == 2 || k == 3 || k == 4;
    }
    if Filled(xs[0]) || Filled(xs[1]) || Filled(xs[2]) || Filled(xs[3]) || Filled(xs[4]) {
      var k := if Filled(xs[0]) then 0 else if Filled(xs[1]) then 1 else if Filled(xs[2]) then 2
               else if Filled(xs[3]) then 3 else 4;
      assert Filled(xs[k]);
    }
  }

  lemma NamesNonEmpty(f: LegacyForm)
    ensures NonEmpty(Some(PlanName(f.plan))) == Some(PlanName(f.plan))
    ensures NonEmpty(Some(LoginSharingName(f.loginSharingPreference))) == Some(LoginSharingName(f.loginSharingPreference))
    ensures 2 <= Utf16Length(f.name) ==> NonEmpty(Some(f.name)) == Some(f.name)
    ensures f.email != [] ==> NonEmpty(Some(f.email)) == Some(f.email)
  {
  }

  // ---------------------------------------------------------------- redirect

  /** The page's reaction to the answer: on `success` it goes to the
      tier's checkout link with the returned id; otherwise it alerts. */
  function CheckoutRedirect(plan: Plan, resp: Response): (url: Option<string>)
    ensures url.Some? <==> resp.success
    ensures url.Some? ==> StartsWith(url.value, PricingLink(plan))
  {
    if resp.success then Some(CheckoutUrl(plan, resp.submissionId)) else None
  }

  /** Filling every login the page marks as required for the tier
      (`getRequiredLoginFields`) satisfies the schema's login rule, for
      every tier. */
  lemma RequiredFieldsSuffice(f: LegacyForm)
    requires forall k :: 0 <= k < |RequiredLoginFields(f.plan)| ==> Filled(LoginNamed(f, RequiredLoginFields(f.plan)[k]))
    ensures LoginRuleHolds(f)
  {
    assert Filled(LoginNamed(f, RequiredLoginFields(f.plan)[0]));
    assert Filled(FormLogins(f)[0]);
  }

  /** The round trip: a form the page accepts, sent with its file, is
      stored as the normalised form with the file's name, the answer is 200
      with the new row's id, and the checkout link the page goes to
      carries that id back to the payment webhook. */
  lemma SubmitRoundTrip(f: LegacyForm, file: Option<FileInfo>, s: LegacyServices, store: SentStore)
    requires PageValid(f, s.isEmail) && s.insert.Success? && s.insert.value != []
    requires FileBytes(Serialise(f, file)) <= MaxUploadBytes
    ensures var r := Handle(CO.Request("POST", Some(Serialise(f, file))), s, store);
      && r.response == Response(200, true, SuccessMessage, Some(s.insert.value))
      && r.effects[0] == InsertLegacy(LegacyRecord(Normalised(f), FileUrl(file, s.stagedName), Source, Pending))
      && CheckoutRedirect(f.plan, r.response) == Some(PricingLink(f.plan) + ReferenceMarker + s.insert.value)
      && ClientReference(CheckoutRedirect(f.plan, r.response).value) == Some(s.insert.value)
  {
    var fd := Serialise(f, file);
    ExtractSerialise(f, file);
    ValidatesAsNormalised(f, s.isEmail);
    FileReadBack(f, file);
    CheckoutReferenceRoundTrip(f.plan, Some(s.insert.value));
  }
}
