/**
 * The contact page's form (src/routes/_pages/contact.tsx): five text fields
 * updated one at a time, and a submission that opens the visitor's mail
 * program with a `mailto:` link (section 2 of RFC 6068) whose subject and body
 * are built from the fields and percent-encoded.
 *
 * Opening the link (`window.location.href = ...`) is recorded as the page's new
 * location.
 */
module Contact {
  import opened Wrappers
  import opened Text
  import opened UriComponent

  const FoodiesEmail := "karigamombe@foodieszim.co.zw"

  /** Everything in the link before the encoded subject. */
  const MailtoPrefix := "mailto:" + FoodiesEmail + "?subject="

  /** The form's inputs, by their `name` attribute. */
  datatype Field = FirstName | LastName | Email | Phone | Message

  datatype FormData = FormData(firstName: string, lastName: string, email: string, phone: string, message: string)

  const InitialForm := FormData("", "", "", "", "")

  function Get(form: FormData, field: Field): string
  {
    match field
    case FirstName => form.firstName
    case LastName => form.lastName
    case Email => form.email
    case Phone => form.phone
    case Message => form.message
  }

  /** `{ ...prev, [name]: value }` */
  function Update(form: FormData, field: Field, value: string): (r: FormData)
  {
    match field
    case FirstName => form.(firstName := value)
    case LastName => form.(lastName := value)
    case Email => form.(email := value)
    case Phone => form.(phone := value)
    case Message => form.(message := value)
  }

  /** An input change sets the named field and leaves every other field as it was. */
  lemma UpdateSetsOnlyThatField(form: FormData, field: Field, value: string, other: Field)
    ensures Get(Update(form, field, value), other) == if other == field then value else Get(form, other)
  {
  }

  /** The form starts empty. */
  lemma InitialFormIsEmpty(field: Field)
    ensures Get(InitialForm, field) == ""
  {
  }

  // ---------------------------------------------------------------------------
  // The message
  // ---------------------------------------------------------------------------

  function Subject(form: FormData): (r: string)
    ensures |r| >= 14 && r[..13] == "Contact from "
  {
    "Contact from " + form.firstName + " " + form.lastName
  }

  function Body(form: FormData): string
  {
    "Name: " + form.firstName + " " + form.lastName + "\n"
    + "Email: " + form.email + "\n"
    + "Phone: " + form.phone + "\n"
    + "\n"
    + "Message:" + "\n"
    + form.message
  }

  /** The body's lines, in order: name, e-mail, phone, a blank line, the heading, then the message as typed. */
  function BodyLines(form: FormData): seq<string>
  {
    ["Name: " + form.firstName + " " + form.lastName, "Email: " + form.email, "Phone: " + form.phone, "", "Message:", form.message]
  }

  /** The body is the six lines joined by line breaks. */
  lemma BodyIsLines(form: FormData)
    ensures Body(form) == Join(BodyLines(form), "\n")
  {
    var l := BodyLines(form);
    JoinSix(l);
    var nl := "\n";
    assert Body(form) == l[0] + nl + (l[1] + nl + (l[2] + nl + (l[3] + nl + (l[4] + nl + l[5]))));
  }

  lemma JoinSix(l: seq<string>)
    requires |l| == 6
    ensures Join(l, "\n") == l[0] + "\n" + (l[1] + "\n" + (l[2] + "\n" + (l[3] + "\n" + (l[4] + "\n" + l[5]))))
  {
    JoinFrom(l, 4);
    JoinFrom(l, 3);
    JoinFrom(l, 2);
    JoinFrom(l, 1);
    JoinFrom(l, 0);
    assert l[0..] == l;
    assert l[5..] == [l[5]];
  }

  lemma JoinFrom(l: seq<string>, k: nat)
    requires k + 1 < |l|
    ensures Join(l[k..], "\n") == l[k] + "\n" + Join(l[k + 1..], "\n")
  {
    assert l[k..][1..] == l[k + 1..];
  }

  /** The message closes the body exactly as typed. */
  lemma BodyEndsWithMessage(form: FormData)
    ensures |Body(form)| >= |form.message|
    ensures Body(form)[|Body(form)| - |form.message|..] == form.message
  {
    var head := "Name: " + form.firstName + " " + form.lastName + "\n" + "Email: " + form.email + "\n" + "Phone: " + form.phone + "\n" + "\n" + "Message:" + "\n";
    assert Body(form) == head + form.message;
  }

  /** `mailto:<address>?subject=<encoded subject>&body=<encoded body>` */
  function MailtoLink(form: FormData): string
  {
    MailtoPrefix + EncodeUriComponent(Subject(form)) + "&body=" + EncodeUriComponent(Body(form))
  }

  // ---------------------------------------------------------------------------
  // Reading the link back
  // ---------------------------------------------------------------------------

  /** The position of the first `c` in `s`, if any. */
  function IndexOf(s: string, c: char): (r: Option<nat>)
    ensures r.Some? ==> r.value < |s| && s[r.value] == c && c !in s[..r.value]
    ensures r.None? ==> c !in s
  {
    if s == [] then None
    else if s[0] == c then Some(0)
    else match IndexOf(s[1..], c)
      case None => None
      case Some(i) => assert s[..i + 1] == [s[0]] + s[1..][..i]; Some(i + 1)
  }

  /** What a mail program reads from a link to the shop's address: the decoded subject and body. */
  function ParseMailto(link: string): Option<(string, string)>
  {
    if |link| < |MailtoPrefix| || link[..|MailtoPrefix|] != MailtoPrefix then None
    else ParseQuery(link[|MailtoPrefix|..])
  }

  /** The encoded subject runs to the first `&`, then `body=` and the encoded body. */
  function ParseQuery(query: string): Option<(string, string)>
  {
    match IndexOf(query, '&')
    case None => None
    case Some(i) =>
      var after := query[i + 1..];
      if |after| < 5 || after[..5] != "body=" then None
      else match (DecodeUriComponent(query[..i]), DecodeUriComponent(after[5..]))
        case (Some(subject), Some(body)) => Some((subject, body))
        case _ => None
  }

  lemma IndexOfAfterSafe(a: string, b: string)
    requires '&' !in a
    ensures IndexOf(a + "&" + b, '&') == Some(|a|)
  {
    var s := a + "&" + b;
    assert s[|a|] == '&';
    assert s[..|a|] == a;
  }

  /**
   * The link carries the form faithfully: a mail program that splits the query
   * at the first `&` and decodes both parts gets exactly the subject and the
   * body, whatever the visitor typed.
   */
  lemma MailtoRoundTrip(form: FormData)
    ensures ParseMailto(MailtoLink(form)) == Some((Subject(form), Body(form)))
  {
    var es := EncodeUriComponent(Subject(form));
    EncodedHasNoDelimiters(Subject(form));
    assert '&' !in es by {
      forall i | 0 <= i < |es| ensures es[i] != '&' {
      }
    }
    UriComponentRoundTrip(Subject(form));
    UriComponentRoundTrip(Body(form));
    ParseWellFormed(es, EncodeUriComponent(Body(form)), Subject(form), Body(form));
  }

  /** A link to the shop whose encoded subject holds no `&` reads back as its two decoded parts. */
  lemma ParseWellFormed(es: string, eb: string, subject: string, body: string)
    requires '&' !in es
    requires DecodeUriComponent(es) == Some(subject) && DecodeUriComponent(eb) == Some(body)
    ensures ParseMailto(MailtoPrefix + es + "&body=" + eb) == Some((subject, body))
  {
    var link := MailtoPrefix + es + "&body=" + eb;
    var query := es + "&" + ("body=" + eb);
    assert link == MailtoPrefix + query;
    assert link[..|MailtoPrefix|] == MailtoPrefix;
    assert link[|MailtoPrefix|..] == query;
    ParseQueryWellFormed(es, eb, subject, body);
  }

  lemma ParseQueryWellFormed(es: string, eb: string, subject: string, body: string)
    requires '&' !in es
    requires DecodeUriComponent(es) == Some(subject) && DecodeUriComponent(eb) == Some(body)
    ensures ParseQuery(es + "&" + ("body=" + eb)) == Some((subject, body))
  {
    var query := es + "&" + ("body=" + eb);
    IndexOfAfterSafe(es, "body=" + eb);
    assert query[..|es|] == es;
    assert query[|es| + 1..] == "body=" + eb;
    assert ("body=" + eb)[5..] == eb;
  }

  // ---------------------------------------------------------------------------
  // The browser's check of the `required` fields
  // ---------------------------------------------------------------------------

  /** The inputs marked `required`: every one but the phone number. */
  predicate IsRequired(field: Field)
  {
    field != Phone
  }

  /** The browser lets the form submit only when no required input is empty. */
  predicate RequiredFilled(form: FormData)
  {
    forall f :: IsRequired(f) ==> Get(form, f) != ""
  }

  /**
   * What pressing "Send" does: the browser blocks a form with an empty
   * required input, and otherwise `handleSubmit` yields the mail link.
   */
  function SubmitOutcome(form: FormData): (r: Option<string>)
    ensures r.Some? <==> form.firstName != "" && form.lastName != "" && form.email != "" && form.message != ""
    ensures r.Some? ==> ParseMailto(r.value) == Some((Subject(form), Body(form)))
  {
    assert RequiredFilled(form) <==> form.firstName != "" && form.lastName != "" && form.email != "" && form.message != "" by {
      assert Get(form, FirstName) == form.firstName && Get(form, LastName) == form.lastName;
      assert Get(form, Email) == form.email && Get(form, Message) == form.message;
    }
    MailtoRoundTrip(form);
    if RequiredFilled(form) then Some(MailtoLink(form)) else None
  }

  /** The empty form the page starts with cannot be sent. */
  lemma InitialFormIsBlocked()
    ensures SubmitOutcome(InitialForm).None?
  {
  }

  /** The phone number, which is optional, never decides whether the form is sent. */
  lemma PhoneIsOptional(form: FormData, phone: string)
    ensures SubmitOutcome(Update(form, Phone, phone)).Some? <==> SubmitOutcome(form).Some?
  {
  }

  // ---------------------------------------------------------------------------
  // The page
  // ---------------------------------------------------------------------------

  class ContactPage {
    var formData: FormData
    /** The address the browser was sent to, once the form is submitted. */
    var location: Option<string>

    constructor ()
      ensures formData == InitialForm && location == None
    {
      formData := InitialForm;
      location := None;
    }

    /** `handleInputChange` */
    method HandleInputChange(name: Field, value: string)
      modifies this
      ensures formData == Update(old(formData), name, value)
      ensures location == old(location)
      ensures forall f :: Get(formData, f) == if f == name then value else Get(old(formData), f)
    {
      formData := Update(formData, name, value);
    }

    /** `handleSubmit`: the browser is sent to the mail link built from the current fields. */
    method HandleSubmit()
      modifies this
      ensures formData == old(formData)
      ensures location == Some(MailtoLink(formData))
      ensures ParseMailto(location.value) == Some((Subject(formData), Body(formData)))
    {
      var subject := Subject(formData);
      var body := Body(formData);
      var mailtoLink := MailtoPrefix + EncodeUriComponent(subject) + "&body=" + EncodeUriComponent(body);
      MailtoRoundTrip(formData);
      location := Some(mailtoLink);
    }

    /** The form's submit event: the browser runs `handleSubmit` only when every required input is filled. */
    method Submit()
      modifies this
      ensures formData == old(formData)
      ensures location == if SubmitOutcome(formData).Some? then SubmitOutcome(formData) else old(location)
    {
      if RequiredFilled(formData) {
        HandleSubmit();
      }
    }
  }
}
