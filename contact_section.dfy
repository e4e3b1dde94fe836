/** The public contact section: values looked up by field name, the
    contact methods and their links, social links, fallback texts, and the
    message form (which is never sent anywhere: its submission is a two
    second wait). */
module ContactSection {
  import opened Records
  import ContactEditing

  /** `contactInfo.findIndex(item => item.field_name === name)`, as an option. */
  function FindByName(info: seq<ContactInfo>, name: string): (r: Option<nat>)
    ensures r.None? <==> forall k :: 0 <= k < |info| ==> info[k].fieldName != name
    ensures r.Some? ==> r.value < |info| && info[r.value].fieldName == name
    ensures r.Some? ==> forall j :: 0 <= j < r.value ==> info[j].fieldName != name
  {
    if info == [] then None
    else if info[0].fieldName == name then Some(0)
    else
      match FindByName(info[1..], name)
      case None => None
      case Some(k) => Some(k + 1)
  }

  /** `find(...)?.field_value || ''`: the value of the first record with
      that name, "" when there is none. */
  function GetContactValue(info: seq<ContactInfo>, name: string): (r: string)
    ensures (forall k :: 0 <= k < |info| ==> info[k].fieldName != name) ==> r == ""
    ensures forall k ::
      (0 <= k < |info| && info[k].fieldName == name && (forall j :: 0 <= j < k ==> info[j].fieldName != name))
      ==> r == info[k].fieldValue
  {
    match FindByName(info, name)
    case None => ""
    case Some(k) => info[k].fieldValue
  }

  predicate IsDigit(c: char)
  {
    '0' <= c <= '9'
  }

  /** `value.replace(/[^0-9]/g, '')`. */
  function Digits(s: string): (r: string)
    ensures |r| <= |s|
    ensures forall k :: 0 <= k < |r| ==> IsDigit(r[k])
  {
    if s == [] then []
    else
      var init := Digits(s[..|s| - 1]);
      if IsDigit(s[|s| - 1]) then init + [s[|s| - 1]] else init
  }

  /** Filtering distributes over concatenation: the digits come out in
      their input order. */
  lemma {:induction false} DigitsOfAppend(a: string, b: string)
    ensures Digits(a + b) == Digits(a) + Digits(b)
  {
    if b != [] {
      var n := |b| - 1;
      assert (a + b)[..|a + b| - 1] == a + b[..n];
      DigitsOfAppend(a, b[..n]);
    } else {
      assert a + b == a;
    }
  }

  /** A string of digits passes unchanged, so the filter is idempotent. */
  lemma {:induction false} DigitsKeepsDigits(s: string)
    requires forall k :: 0 <= k < |s| ==> IsDigit(s[k])
    ensures Digits(s) == s
  {
    if s != [] {
      DigitsKeepsDigits(s[..|s| - 1]);
    }
  }

  /** A non-digit adds nothing, wherever it stands. */
  lemma DigitsDropsNonDigit(a: string, c: char)
    requires !IsDigit(c)
    ensures Digits([c]) == []
    ensures Digits(a + [c]) == Digits(a) && Digits([c] + a) == Digits(a)
  {
    assert [c][..0] == [];
    DigitsOfAppend([c], a);
  }

  lemma DigitsIdempotent(s: string)
    ensures Digits(Digits(s)) == Digits(s)
  {
    DigitsKeepsDigits(Digits(s));
  }

  const WhatsAppPrefix := "https://wa.me/"

  function WhatsAppHref(value: string): (r: string)
    ensures |WhatsAppPrefix| <= |r| && r[..|WhatsAppPrefix|] == WhatsAppPrefix
    ensures r[|WhatsAppPrefix|..] == Digits(value)
  {
    WhatsAppPrefix + Digits(value)
  }

  predicate StartsWith(s: string, prefix: string)
  {
    |prefix| <= |s| && s[..|prefix|] == prefix
  }

  /** One entry of the contact list. */
  datatype ContactMethod = ContactMethod(caption: string, value: string, href: string)

  function ContactMethods(info: seq<ContactInfo>): (r: seq<ContactMethod>)
    ensures |r| == 4
    ensures r[0].value == GetContactValue(info, "email") && r[1].value == GetContactValue(info, "phone")
    ensures r[2].value == GetContactValue(info, "whatsapp") && r[3].value == GetContactValue(info, "location")
  {
    [ContactMethod("Email", GetContactValue(info, "email"), "mailto:" + GetContactValue(info, "email")),
     ContactMethod("Teléfono", GetContactValue(info, "phone"), "tel:" + GetContactValue(info, "phone")),
     ContactMethod("WhatsApp", GetContactValue(info, "whatsapp"), WhatsAppHref(GetContactValue(info, "whatsapp"))),
     ContactMethod("Ubicación", GetContactValue(info, "location"), "#")]
  }

  /** A method is shown as a link when its href names a scheme the page
      recognises; the rest are plain text. */
  predicate RendersAsLink(href: string)
  {
    StartsWith(href, "http") || StartsWith(href, "mailto") || StartsWith(href, "tel")
  }

  /** Only web links open in a new tab. */
  predicate OpensNewTab(href: string)
  {
    StartsWith(href, "http")
  }

  /** Whatever the stored values, email, phone and WhatsApp are links (an
      empty value still yields a bare scheme), location never is, and only
      the WhatsApp link opens a new tab. */
  lemma ContactMethodKinds(info: seq<ContactInfo>)
    ensures var m := ContactMethods(info);
      && RendersAsLink(m[0].href) && RendersAsLink(m[1].href) && RendersAsLink(m[2].href)
      && !RendersAsLink(m[3].href)
      && OpensNewTab(m[2].href)
      && !OpensNewTab(m[0].href) && !OpensNewTab(m[1].href) && !OpensNewTab(m[3].href)
  {
    var m := ContactMethods(info);
    assert m[0].href[..6] == "mailto";
    assert m[1].href[..3] == "tel";
    assert m[2].href[..4] == "http";
    assert m[0].href[..4] == "mail";
    assert m[1].href[..4] == "tel:";
  }

  /** The public section links email and phone exactly as the admin
      editor displays fields of type email and phone. */
  lemma SectionLinksMatchEditorDisplay(info: seq<ContactInfo>)
    ensures ContactMethods(info)[0].href == ContactEditing.Display("email", GetContactValue(info, "email")).href
    ensures ContactMethods(info)[1].href == ContactEditing.Display("phone", GetContactValue(info, "phone")).href
  {
  }

  /** A social icon, rendered only when its href is non-empty. */
  datatype SocialLink = SocialLink(caption: string, href: string)

  function SocialLinks(info: seq<ContactInfo>): (r: seq<SocialLink>)
    ensures forall k :: 0 <= k < |r| ==> r[k].href != ""
    ensures SocialLink("LinkedIn", GetContactValue(info, "linkedin")) in r <==> GetContactValue(info, "linkedin") != ""
    ensures SocialLink("Twitter", GetContactValue(info, "twitter")) in r <==> GetContactValue(info, "twitter") != ""
    ensures |r| <= 2
  {
    var linkedin := GetContactValue(info, "linkedin");
    var twitter := GetContactValue(info, "twitter");
    (if linkedin != "" then [SocialLink("LinkedIn", linkedin)] else [])
    + (if twitter != "" then [SocialLink("Twitter", twitter)] else [])
  }

  const DefaultAvailability := "Lunes a Viernes: 9:00 AM - 6:00 PM"
  const DefaultIntro := "Estoy disponible para consultas y presupuestos. No dudes en contactarme para discutir cómo puedo ayudarte con tus necesidades tecnológicas."

  /** The opening hours: the stored value, or the default schedule when
      it is empty or missing. */
  function Availability(info: seq<ContactInfo>): (r: string)
    ensures GetContactValue(info, "availability") != "" ==> r == GetContactValue(info, "availability")
    ensures GetContactValue(info, "availability") == "" ==> r == DefaultAvailability
    ensures r != ""
  {
    var v := GetContactValue(info, "availability");
    if v != "" then v else DefaultAvailability
  }

  /** The intro paragraph: the first contact block's text, else the default. */
  function IntroText(siteContent: seq<SiteContent>): (r: string)
    ensures |siteContent| > 0 && siteContent[0].content != "" ==> r == siteContent[0].content
    ensures !(|siteContent| > 0 && siteContent[0].content != "") ==> r == DefaultIntro
    ensures r != ""
  {
    if |siteContent| > 0 && siteContent[0].content != "" then siteContent[0].content else DefaultIntro
  }

  datatype FormField = Name | Email | Phone | ServiceOfInterest | MessageText

  datatype ContactForm = ContactForm(name: string, email: string, phone: string, service: string, message: string)

  const EmptyContactForm := ContactForm("", "", "", "", "")

  function FormGet(f: ContactForm, field: FormField): string
  {
    match field
    case Name => f.name
    case Email => f.email
    case Phone => f.phone
    case ServiceOfInterest => f.service
    case MessageText => f.message
  }

  /** The visitor's message form. */
  class ContactFormState {
    var formData: ContactForm
    var isSubmitting: bool
    var isSubmitted: bool

    constructor ()
      ensures formData == EmptyContactForm && !isSubmitting && !isSubmitted
    {
      formData, isSubmitting, isSubmitted := EmptyContactForm, false, false;
    }

    /** `{...prev, [name]: value}` for the input named `field`. */
    method InputChange(field: FormField, value: string)
      modifies this`formData
      ensures FormGet(formData, field) == value
      ensures forall f :: f != field ==> FormGet(formData, f) == FormGet(old(formData), f)
    {
      match field
      case Name => formData := formData.(name := value);
      case Email => formData := formData.(email := value);
      case Phone => formData := formData.(phone := value);
      case ServiceOfInterest => formData := formData.(service := value);
      case MessageText => formData := formData.(message := value);
    }

    /** Submission up to its wait. */
    method StartSubmit()
      modifies this`isSubmitting
      ensures isSubmitting && SubmitDisabled()
    {
      isSubmitting := true;
    }

    /** The end of the wait: the thank-you note replaces the form, and the
        entered values stay until the reset. */
    method CompleteSubmit()
      modifies this`isSubmitting, this`isSubmitted
      ensures !isSubmitting && isSubmitted
      ensures !SubmitDisabled() && !FormShown()
    {
      isSubmitting := false;
      isSubmitted := true;
    }

    /** The delayed reset after a submission. */
    method ResetAfterSubmit()
      modifies this`isSubmitted, this`formData
      ensures !isSubmitted && FormShown()
      ensures forall f :: FormGet(formData, f) == ""
    {
      isSubmitted := false;
      formData := EmptyContactForm;
    }

    /** The submit button is disabled while a submission waits. */
    function SubmitDisabled(): (r: bool)
      reads this
      ensures r <==> isSubmitting
    {
      isSubmitting
    }

    /** The form is shown unless the thank-you note is. */
    function FormShown(): (r: bool)
      reads this
      ensures r <==> !isSubmitted
    {
      !isSubmitted
    }
  }
}
