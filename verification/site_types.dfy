/**
  The front end's own types: the contact form validator and the record
  shapes of the static portfolio data. The validator checks the three
  required fields in declaration order and reports every failing check,
  not only the first. Whether a string is a well-formed email address is
  decided by a predicate supplied by the caller.
 */
module SiteTypes {
  import opened Common

  /** The contact form's values; the two optional keys may be missing. */
  datatype ContactDraft = ContactDraft(
    name: string,
    email: string,
    company: Field<string>,
    service: Field<string>,
    message: string)

  /** One failed check: the key it concerns and its message. */
  datatype Issue = Issue(path: string, message: string)

  const NameRequired: Issue := Issue("name", "Name is required")
  const InvalidEmail: Issue := Issue("email", "Please enter a valid email address")
  const MessageRequired: Issue := Issue("message", "Message is required")

  /** `.min(1)`: at least one character; nothing is trimmed. */
  predicate NonEmpty(s: string)
  {
    |s| >= 1
  }

  /** The issue `check` raises when it fails, in a list of zero or one. */
  function IssueIf(fails: bool, issue: Issue): seq<Issue>
  {
    if fails then [issue] else []
  }

  function ContactIssues(d: ContactDraft, isEmail: string -> bool): seq<Issue>
  {
    IssueIf(!NonEmpty(d.name), NameRequired)
      + IssueIf(!isEmail(d.email), InvalidEmail)
      + IssueIf(!NonEmpty(d.message), MessageRequired)
  }

  /** `insertContactSubmissionSchema.safeParse`: the draft itself, or every issue found. */
  function ValidateContact(d: ContactDraft, isEmail: string -> bool): (r: Result<ContactDraft, seq<Issue>>)
    ensures r.Success? <==> NonEmpty(d.name) && isEmail(d.email) && NonEmpty(d.message)
    ensures r.Success? ==> r.value == d
    ensures r.Failure? ==>
      && 1 <= |r.error| <= 3
      && (NameRequired in r.error <==> d.name == [])
      && (InvalidEmail in r.error <==> !isEmail(d.email))
      && (MessageRequired in r.error <==> d.message == [])
      && (forall i :: 0 <= i < |r.error| ==> r.error[i] in {NameRequired, InvalidEmail, MessageRequired})
  {
    var issues := ContactIssues(d, isEmail);
    if issues == [] then Success(d) else Failure(issues)
  }

  /** The optional keys never decide acceptance. */
  lemma OptionalKeysIrrelevant(d: ContactDraft, company: Field<string>, service: Field<string>, isEmail: string -> bool)
    ensures ValidateContact(d.(company := company, service := service), isEmail).Success?
      == ValidateContact(d, isEmail).Success?
  {
  }

  /** An empty name is refused whatever the other fields hold. */
  lemma EmptyNameRejected(d: ContactDraft, isEmail: string -> bool)
    requires d.name == ""
    ensures ValidateContact(d, isEmail).Failure?
    ensures NameRequired in ValidateContact(d, isEmail).error
  {
  }

  lemma EmptyMessageRejected(d: ContactDraft, isEmail: string -> bool)
    requires d.message == ""
    ensures ValidateContact(d, isEmail).Failure?
    ensures MessageRequired in ValidateContact(d, isEmail).error
  {
  }

  /**
    The two addresses the email predicate is pinned by: `"a@b.com"` with a
    one-space name and one-letter message is accepted, and `"not-an-email"`
    is refused with the email message only.
   */
  lemma EmailExamples(isEmail: string -> bool)
    requires isEmail("a@b.com") && !isEmail("not-an-email")
    ensures ValidateContact(ContactDraft(" ", "a@b.com", Absent, Absent, "m"), isEmail).Success?
    ensures ValidateContact(ContactDraft(" ", "not-an-email", Absent, Absent, "m"), isEmail) == Failure([InvalidEmail])
  {
    var d := ContactDraft(" ", "not-an-email", Absent, Absent, "m");
    assert ContactIssues(d, isEmail) == [InvalidEmail] by {
      assert ContactIssues(d, isEmail) == [] + [InvalidEmail] + [];
    }
  }

  // ---------------------------------------------------------------- record shapes of the static data

  /** A portfolio project as the static data declares it; optional keys may be missing. */
  datatype Project = Project(
    id: string,
    title: string,
    description: string,
    longDescription: Field<string>,
    imageUrl: string,
    technologies: seq<string>,
    category: string,
    status: string,
    projectUrl: Field<string>,
    githubUrl: Field<string>,
    gallery: Field<seq<string>>)

  datatype Article = Article(
    id: string,
    title: string,
    description: string,
    content: string,
    imageUrl: string,
    category: string,
    tags: seq<string>,
    readTime: string,
    publishedAt: Field<Timestamp>)
}
