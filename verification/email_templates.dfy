/** Recipients and subjects of the notification mails; the HTML bodies are
    inputs. */
module EmailTemplates {

  import opened EmailDedupe

  /** The administrator's address when `ADMIN_EMAIL` is not configured;
      the enhanced handler also writes it out literally. */
  const DefaultAdminEmail := "eliascolon23@gmail.com"

  /** `ADMIN_EMAIL`: the recipient of the notifications built here. */
  function AdminEmail(env: Env): (a: string)
    ensures env.adminEmail.Some? && env.adminEmail.value != [] ==> a == env.adminEmail.value
    ensures env.adminEmail.None? || env.adminEmail.value == [] ==> a == DefaultAdminEmail
  {
    OrDefault(env.adminEmail, DefaultAdminEmail)
  }

  const WelcomeSubject := "\U{1F389} Welcome to AIChatFlows \U{2013} Setup Started"
  const ReceiptSubject := "\U{1F9FE} Your AIChatFlows Payment Receipt"

  /** `createWelcomeEmail`. */
  function WelcomeEmail(to: string, html: string): (t: EmailTemplate)
    ensures t.to == [to] && FirstRecipient(t.to) == to && t.subject == WelcomeSubject && t.html == html
  {
    EmailTemplate([to], WelcomeSubject, html)
  }

  /** `createAdminNotificationEmail`. */
  function AdminNotificationEmail(env: Env, name: string, plan: string, html: string): (t: EmailTemplate)
    ensures t.to == [AdminEmail(env)] && t.html == html
    ensures var p := "New AIChatFlows Onboarding: ";
      && |t.subject| == |p| + |name| + |plan| + 3
      && t.subject[..|p|] == p && t.subject[|p|..|p| + |name|] == name
      && t.subject[|p| + |name| + 2..|t.subject| - 1] == plan
  {
    EmailTemplate([AdminEmail(env)], "New AIChatFlows Onboarding: " + name + " (" + plan + ")", html)
  }

  /** The administrator mail the enhanced handler builds inline, addressed
      to the literal default address whatever `ADMIN_EMAIL` says. */
  function EnhancedAdminEmail(businessName: string, html: string): (t: EmailTemplate)
    ensures t.to == [DefaultAdminEmail] && t.html == html
    ensures var p := "New Enhanced Onboarding: ";
      |t.subject| == |p| + |businessName| && t.subject[..|p|] == p && t.subject[|p|..] == businessName
  {
    EmailTemplate([DefaultAdminEmail], "New Enhanced Onboarding: " + businessName, html)
  }

  /** `createPaymentConfirmationClientEmail`. */
  function PaymentClientEmail(to: string, html: string): (t: EmailTemplate)
    ensures t.to == [to] && FirstRecipient(t.to) == to && t.subject == ReceiptSubject && t.html == html
  {
    EmailTemplate([to], ReceiptSubject, html)
  }

  /** `createPaymentConfirmationAdminEmail`. */
  function PaymentAdminEmail(env: Env, businessName: string, html: string): (t: EmailTemplate)
    ensures t.to == [AdminEmail(env)] && t.html == html
    ensures var p := "\U{2705} Payment Received \U{2013} ";
      |t.subject| == |p| + |businessName| && t.subject[..|p|] == p && t.subject[|p|..] == businessName
  {
    EmailTemplate([AdminEmail(env)], "\U{2705} Payment Received \U{2013} " + businessName, html)
  }
}
