/**
 * The contact form: its four fields, the submit handler with its three
 * delivery channels tried in turn (EmailJS, the `/api/contact` route, a
 * `mailto:` link), and the `encodeURIComponent` the mailto link is built with
 * (section 18.2.6.5 of ECMA-262: unreserved characters kept, every other
 * character written as the `%XX` escapes of its UTF-8 bytes).
 */
module ContactSection {
  import opened Wrappers
  import Text

  // ---------------------------------------------------------------- encodeURIComponent

  /** The characters `encodeURIComponent` leaves as they are. */
  predicate Unreserved(c: char) {
    ('A' <= c <= 'Z') || ('a' <= c <= 'z') || ('0' <= c <= '9')
    || c == '-' || c == '_' || c == '.' || c == '!' || c == '~' || c == '*' || c == '\'' || c == '(' || c == ')'
  }

  /** The UTF-8 encoding of one Unicode scalar value (RFC 3629, section 3). */
  function Utf8(c: char): (bs: seq<nat>)
    ensures 1 <= |bs| <= 4
    ensures IsBytes(bs)
    ensures (c as int) < 0x80 <==> bs == [c as int]
  {
    var n := c as int;
    if n < 0x80 then [n]
    else if n < 0x800 then [0xC0 + n / 0x40, 0x80 + n % 0x40]
    else if n < 0x10000 then [0xE0 + n / 0x1000, 0x80 + (n / 0x40) % 0x40, 0x80 + n % 0x40]
    else [0xF0 + n / 0x40000, 0x80 + (n / 0x1000) % 0x40, 0x80 + (n / 0x40) % 0x40, 0x80 + n % 0x40]
  }

  predicate IsBytes(bs: seq<nat>) {
    forall i :: 0 <= i < |bs| ==> bs[i] < 256
  }

  function Utf8String(s: string): seq<nat> {
    if s == [] then [] else Utf8(s[0]) + Utf8String(s[1..])
  }

  /** The number of bytes a UTF-8 sequence has, read off its first byte. */
  function LeadLength(b: nat): nat {
    if b < 0x80 then 1 else if b < 0xE0 then 2 else if b < 0xF0 then 3 else 4
  }

  /** The scalar value a one- to four-byte UTF-8 sequence stands for. */
  function Utf8Value(bs: seq<nat>): int
    requires 1 <= |bs| <= 4
  {
    if |bs| == 1 then bs[0]
    else if |bs| == 2 then (bs[0] as int - 0xC0) * 0x40 + (bs[1] as int - 0x80)
    else if |bs| == 3 then (bs[0] as int - 0xE0) * 0x1000 + (bs[1] as int - 0x80) * 0x40 + (bs[2] as int - 0x80)
    else (bs[0] as int - 0xF0) * 0x40000 + (bs[1] as int - 0x80) * 0x1000 + (bs[2] as int - 0x80) * 0x40 + (bs[3] as int - 0x80)
  }

  /** Decoding an encoded character gives the character back. */
  lemma Utf8Decodes(c: char)
    ensures Utf8Value(Utf8(c)) == c as int
  {
    var n := c as int;
    if 0x10000 <= n {
      FourByteValue(n);
    } else if 0x800 <= n {
      ThreeByteValue(n);
    }
  }

  lemma ThreeByteValue(n: nat)
    ensures n == (n / 0x1000) * 0x1000 + ((n / 0x40) % 0x40) * 0x40 + n % 0x40
  {
    var q := n / 0x40;
    assert n == q * 0x40 + n % 0x40;
    assert q == (q / 0x40) * 0x40 + q % 0x40;
    assert q / 0x40 == n / 0x1000;
  }

  lemma FourByteValue(n: nat)
    ensures n == (n / 0x40000) * 0x40000 + ((n / 0x1000) % 0x40) * 0x1000 + ((n / 0x40) % 0x40) * 0x40 + n % 0x40
  {
    ThreeByteValue(n);
    assert n / 0x1000 == (n / 0x40000) * 0x40 + (n / 0x1000) % 0x40;
  }

  /** The first byte of an encoded character tells how many bytes it has. */
  lemma Utf8LeadLength(c: char)
    ensures LeadLength(Utf8(c)[0]) == |Utf8(c)|
  {
    var n := c as int;
    if 0x10000 <= n {
      assert n / 0x40000 <= 4;
    } else if 0x800 <= n {
      assert n / 0x1000 < 16;
    } else if 0x80 <= n {
      assert 2 <= n / 0x40 < 32;
    }
  }

  /** Only the empty text encodes to no bytes. */
  lemma Utf8StringEmpty(s: string)
    ensures Utf8String(s) == [] <==> s == []
  {
    if s != [] {
      assert |Utf8String(s)| >= |Utf8(s[0])|;
    }
  }

  /** Different texts have different UTF-8 encodings. */
  lemma {:induction false} Utf8StringInjective(s: string, t: string)
    requires Utf8String(s) == Utf8String(t)
    ensures s == t
    decreases |s|
  {
    Utf8StringEmpty(s);
    Utf8StringEmpty(t);
    if s != [] && t != [] {
      var e, f := Utf8(s[0]), Utf8(t[0]);
      var bs := Utf8String(s);
      assert bs == e + Utf8String(s[1..]) == f + Utf8String(t[1..]);
      assert bs[0] == e[0] && bs[0] == f[0];
      Utf8LeadLength(s[0]);
      Utf8LeadLength(t[0]);
      assert e == bs[..|e|] == f;
      Utf8Decodes(s[0]);
      Utf8Decodes(t[0]);
      assert Utf8String(s[1..]) == bs[|e|..] == Utf8String(t[1..]);
      Utf8StringInjective(s[1..], t[1..]);
      assert s == [s[0]] + s[1..] && t == [t[0]] + t[1..];
    }
  }

  /** An upper-case hexadecimal digit, as `encodeURIComponent` writes them. */
  function UpperHex(d: nat): (c: char)
    requires d < 16
    ensures ('0' <= c <= '9') || ('A' <= c <= 'F')
  {
    if d < 10 then ('0' as int + d) as char else ('A' as int + d - 10) as char
  }

  function HexDigitValue(c: char): (r: Option<nat>)
    ensures r.Some? ==> r.value < 16
  {
    if '0' <= c <= '9' then Some(c as int - '0' as int)
    else if 'A' <= c <= 'F' then Some(c as int - 'A' as int + 10)
    else if 'a' <= c <= 'f' then Some(c as int - 'a' as int + 10)
    else None
  }

  function PercentBytes(bs: seq<nat>): string
    requires IsBytes(bs)
  {
    if bs == [] then [] else ['%', UpperHex(bs[0] / 16), UpperHex(bs[0] % 16)] + PercentBytes(bs[1..])
  }

  function EncodeChar(c: char): string {
    if Unreserved(c) then [c] else PercentBytes(Utf8(c))
  }

  /** `encodeURIComponent(s)`. */
  function EncodeURIComponent(s: string): string {
    if s == [] then [] else EncodeChar(s[0]) + EncodeURIComponent(s[1..])
  }

  function PrependBytes(bs: seq<nat>, r: Option<seq<nat>>): Option<seq<nat>> {
    match r
    case None => None
    case Some(rest) => Some(bs + rest)
  }

  /**
   * The byte layer of `decodeURIComponent`: each `%XX` is one byte, any other
   * ASCII character stands for itself, anything else is malformed.
   */
  function PercentDecode(t: string): (r: Option<seq<nat>>)
  {
    if t == [] then Some([])
    else if t[0] == '%' then
      if |t| >= 3 && HexDigitValue(t[1]).Some? && HexDigitValue(t[2]).Some? then
        PrependBytes([HexDigitValue(t[1]).value * 16 + HexDigitValue(t[2]).value], PercentDecode(t[3..]))
      else None
    else if (t[0] as int) < 0x80 then PrependBytes([t[0] as int], PercentDecode(t[1..]))
    else None
  }

  lemma UpperHexValue(d: nat)
    requires d < 16
    ensures HexDigitValue(UpperHex(d)) == Some(d)
  {
  }

  /** One `%XX` escape decodes to its byte. */
  lemma PercentEscapeStep(b: nat, rest: string)
    requires b < 256
    ensures PercentDecode(['%', UpperHex(b / 16), UpperHex(b % 16)] + rest) == PrependBytes([b], PercentDecode(rest))
  {
    UpperHexValue(b / 16);
    UpperHexValue(b % 16);
    assert (['%', UpperHex(b / 16), UpperHex(b % 16)] + rest)[3..] == rest;
  }

  lemma PrependBytesTwice(a: seq<nat>, b: seq<nat>, r: Option<seq<nat>>)
    ensures PrependBytes(a, PrependBytes(b, r)) == PrependBytes(a + b, r)
  {
    if r.Some? {
      assert a + (b + r.value) == (a + b) + r.value;
    }
  }

  lemma {:induction false} PercentBytesRoundTrip(bs: seq<nat>, t: string)
    requires IsBytes(bs)
    ensures PercentDecode(PercentBytes(bs) + t) == PrependBytes(bs, PercentDecode(t))
  {
    if bs == [] {
      assert PercentBytes(bs) + t == t;
      assert PrependBytes(bs, PercentDecode(t)) == PercentDecode(t) by {
        if PercentDecode(t).Some? {
          assert bs + PercentDecode(t).value == PercentDecode(t).value;
        }
      }
    } else {
      var b, tail := bs[0], bs[1..];
      var rest := PercentBytes(tail) + t;
      assert PercentBytes(bs) + t == ['%', UpperHex(b / 16), UpperHex(b % 16)] + rest;
      PercentEscapeStep(b, rest);
      PercentBytesRoundTrip(tail, t);
      PrependBytesTwice([b], tail, PercentDecode(t));
      assert [b] + tail == bs;
    }
  }

  /** Decoding the encoded text gives back the UTF-8 bytes of the text. */
  lemma {:induction false} EncodeURIComponentRoundTrip(s: string)
    ensures PercentDecode(EncodeURIComponent(s)) == Some(Utf8String(s))
  {
    if s != [] {
      var c := s[0];
      var rest := EncodeURIComponent(s[1..]);
      EncodeURIComponentRoundTrip(s[1..]);
      if Unreserved(c) {
        assert ([c] + rest)[1..] == rest;
        assert PercentDecode([c] + rest) == PrependBytes([c as int], Some(Utf8String(s[1..])));
      } else {
        PercentBytesRoundTrip(Utf8(c), rest);
      }
    }
  }

  /** The encoded text holds no character that ends a query value or starts another. */
  lemma {:induction false} EncodedIsQuerySafe(s: string)
    ensures forall c :: c in EncodeURIComponent(s) ==> c != '&' && c != '=' && c != '#' && c != '?' && c != ' '
  {
    if s != [] {
      EncodedIsQuerySafe(s[1..]);
      if !Unreserved(s[0]) {
        PercentBytesSafe(Utf8(s[0]));
      }
    }
  }

  lemma {:induction false} PercentBytesSafe(bs: seq<nat>)
    requires IsBytes(bs)
    ensures forall c :: c in PercentBytes(bs) ==> c == '%' || ('0' <= c <= '9') || ('A' <= c <= 'F')
  {
    if bs != [] {
      PercentBytesSafe(bs[1..]);
    }
  }

  // ---------------------------------------------------------------- the form

  datatype FormData = FormData(name: string, email: string, subject: string, message: string)

  const EmptyForm: FormData := FormData("", "", "", "")

  /** The `name` attribute of the input that fired the change event. */
  datatype Field = NameField | EmailField | SubjectField | MessageField

  function FieldOf(f: FormData, k: Field): string {
    match k
    case NameField => f.name
    case EmailField => f.email
    case SubjectField => f.subject
    case MessageField => f.message
  }

  /** `{ ...prev, [name]: value }`: the named field takes the value, the other three stay. */
  function WithField(f: FormData, k: Field, v: string): (r: FormData)
    ensures FieldOf(r, k) == v
    ensures forall j :: j != k ==> FieldOf(r, j) == FieldOf(f, j)
  {
    match k
    case NameField => f.(name := v)
    case EmailField => f.(email := v)
    case SubjectField => f.(subject := v)
    case MessageField => f.(message := v)
  }

  /** Typing into a field and then back its old text restores the form. */
  lemma WithFieldRestores(f: FormData, k: Field, v: string)
    ensures WithField(WithField(f, k, v), k, FieldOf(f, k)) == f
  {
  }

  /** Name, e-mail and message are required; the subject is optional. */
  predicate RequiredFilled(f: FormData) {
    f.name != "" && f.email != "" && f.message != ""
  }

  const ServiceId: string := "your_service_id"
  const TemplateId: string := "your_template_id"
  const PublicKey: string := "your_public_key"

  /** EmailJS is tried when its three identifiers are set and the form element is mounted. */
  predicate EmailJsConfigured(formMounted: bool) {
    ServiceId != "" && TemplateId != "" && PublicKey != "" && formMounted
  }

  /** The identifiers are the non-empty placeholders, so EmailJS is tried whenever the form is mounted. */
  lemma EmailJsTriedWhenMounted(formMounted: bool)
    ensures EmailJsConfigured(formMounted) <==> formMounted
  {
    assert ServiceId[0] == 'y' && TemplateId[0] == 'y' && PublicKey[0] == 'y';
  }

  datatype Channel = EmailJs | ApiRoute | Mailto

  /**
   * The channels tried, in order: EmailJS when configured, the API route unless
   * EmailJS delivered, the mailto link unless one of them did.
   */
  function Attempts(formMounted: bool, emailJsOk: bool, apiOk: bool): (r: seq<Channel>)
    ensures 1 <= |r| <= 3
    ensures EmailJs in r <==> EmailJsConfigured(formMounted)
    ensures ApiRoute in r <==> !(EmailJsConfigured(formMounted) && emailJsOk)
    ensures Mailto in r <==> !(EmailJsConfigured(formMounted) && emailJsOk) && !apiOk
    ensures r[0] == EmailJs || !EmailJsConfigured(formMounted)
    ensures Mailto in r ==> r[|r| - 1] == Mailto
  {
    var viaEmailJs := EmailJsConfigured(formMounted);
    var first := if viaEmailJs then [EmailJs] else [];
    if viaEmailJs && emailJsOk then first
    else if apiOk then first + [ApiRoute]
    else first + [ApiRoute, Mailto]
  }

  /** Each channel is tried at most once. */
  lemma AttemptsDistinct(formMounted: bool, emailJsOk: bool, apiOk: bool)
    ensures forall i, j :: 0 <= i < j < |Attempts(formMounted, emailJsOk, apiOk)| ==>
      Attempts(formMounted, emailJsOk, apiOk)[i] != Attempts(formMounted, emailJsOk, apiOk)[j]
  {
  }

  const OwnerAddress: string := "vihinsabandara@gmail.com"
  const DefaultSubject: string := "Contact" + " " + "Form" + " " + "Submission"

  /** The subject of the mailto fallback: the form's, or the default when left empty. */
  function MailSubject(f: FormData): (s: string)
    ensures s != ""
    ensures f.subject != "" ==> s == f.subject
  {
    if f.subject != "" then f.subject else DefaultSubject
  }

  function MailBody(f: FormData): string {
    "Name: " + f.name + "\nEmail: " + f.email + "\n\nMessage:\n" + f.message
  }

  /** `encodeURIComponent('Contact Form Submission')`, written out once: each space becomes `%20`. */
  const EncodedDefaultSubject: string := "Contact" + "%20" + "Form" + "%20" + "Submission"

  /** The encoded default subject is the encoding of the default subject. */
  lemma EncodedDefaultSubjectIsEncoding()
    ensures EncodeURIComponent(DefaultSubject) == EncodedDefaultSubject
  {
    EncodeSpace();
    EncodeJoined("Contact", "Form", "Submission", " ", "%20");
  }

  /**
   * Three words of unreserved characters joined by a separator encode as the
   * same words joined by the separator's encoding.
   */
  lemma EncodeJoined(a: string, b: string, c: string, sp: string, pct: string)
    requires forall i :: 0 <= i < |a| ==> Unreserved(a[i])
    requires forall i :: 0 <= i < |b| ==> Unreserved(b[i])
    requires forall i :: 0 <= i < |c| ==> Unreserved(c[i])
    requires EncodeURIComponent(sp) == pct
    ensures EncodeURIComponent(a + sp + b + sp + c) == a + pct + b + pct + c
  {
    EncodeUnreserved(a);
    EncodeUnreserved(b);
    EncodeUnreserved(c);
    calc {
      EncodeURIComponent(a + sp + b + sp + c);
    == { Assoc(a + sp + b, sp, c); Assoc(a + sp, b, sp + c); Assoc(a, sp, b + (sp + c)); }
      EncodeURIComponent(a + (sp + (b + (sp + c))));
    == { EncodeConcat(a, sp + (b + (sp + c))); }
      a + EncodeURIComponent(sp + (b + (sp + c)));
    == { EncodeConcat(sp, b + (sp + c)); }
      a + (pct + EncodeURIComponent(b + (sp + c)));
    == { EncodeConcat(b, sp + c); }
      a + (pct + (b + EncodeURIComponent(sp + c)));
    == { EncodeConcat(sp, c); }
      a + (pct + (b + (pct + c)));
    == { Assoc(b, pct, c); }
      a + (pct + ((b + pct) + c));
    == { Assoc(pct, b + pct, c); }
      a + ((pct + (b + pct)) + c);
    == { Assoc(a, pct + (b + pct), c); }
      (a + (pct + (b + pct))) + c;
    == { Assoc(pct, b, pct); Assoc(a, pct + b, pct); Assoc(a, pct, b); }
      a + pct + b + pct + c;
    }
  }

  lemma Assoc(x: string, y: string, z: string)
    ensures x + (y + z) == x + y + z
  {
  }

  /** Encoding works character by character, so it distributes over concatenation. */
  lemma {:induction false} EncodeConcat(a: string, b: string)
    ensures EncodeURIComponent(a + b) == EncodeURIComponent(a) + EncodeURIComponent(b)
    decreases |a|
  {
    if a == [] {
      assert a + b == b;
    } else {
      assert (a + b)[0] == a[0] && (a + b)[1..] == a[1..] + b;
      EncodeConcat(a[1..], b);
    }
  }

  /** A text of unreserved characters encodes to itself. */
  lemma {:induction false} EncodeUnreserved(s: string)
    requires forall i :: 0 <= i < |s| ==> Unreserved(s[i])
    ensures EncodeURIComponent(s) == s
    decreases |s|
  {
    if s != [] {
      EncodeUnreserved(s[1..]);
      assert s == [s[0]] + s[1..];
    }
  }

  /** A space is written `%20`. */
  lemma EncodeSpace()
    ensures EncodeURIComponent(" ") == "%20"
  {
    assert Utf8(' ') == [0x20];
    assert PercentBytes([0x20]) == ['%', UpperHex(2), UpperHex(0)] + PercentBytes([]);
    assert " "[1..] == [];
  }

  /** `encodeURIComponent(formData.subject || 'Contact Form Submission')`. */
  function EncodedSubject(f: FormData): string {
    if f.subject != "" then EncodeURIComponent(f.subject) else EncodedDefaultSubject
  }

  /** The subject query value is the encoding of the mail subject. */
  lemma EncodedSubjectIsEncoding(f: FormData)
    ensures EncodedSubject(f) == EncodeURIComponent(MailSubject(f))
  {
    EncodedDefaultSubjectIsEncoding();
  }

  /** The mailto link carries the encoded subject and the encoded body as its two query values. */
  function MailtoLink(f: FormData): string {
    "mailto:" + OwnerAddress + "?subject=" + EncodedSubject(f) + "&body=" + EncodeURIComponent(MailBody(f))
  }

  /** The mail body quotes all three required fields. */
  lemma MailBodyQuotesFields(f: FormData)
    ensures Text.Contains(MailBody(f), f.name)
    ensures Text.Contains(MailBody(f), f.email)
    ensures Text.Contains(MailBody(f), f.message)
  {
    Text.ContainsPart("Name: ", f.name, "\nEmail: " + f.email + "\n\nMessage:\n" + f.message);
    assert MailBody(f) == "Name: " + f.name + ("\nEmail: " + f.email + "\n\nMessage:\n" + f.message);
    Text.ContainsPart("Name: " + f.name + "\nEmail: ", f.email, "\n\nMessage:\n" + f.message);
    assert MailBody(f) == ("Name: " + f.name + "\nEmail: ") + f.email + ("\n\nMessage:\n" + f.message);
    Text.ContainsPart("Name: " + f.name + "\nEmail: " + f.email + "\n\nMessage:\n", f.message, "");
    assert MailBody(f) == ("Name: " + f.name + "\nEmail: " + f.email + "\n\nMessage:\n") + f.message + "";
  }

  datatype Toast = Toast(title: string, description: string, destructive: bool)

  const SentToast: Toast :=
    Toast("Message sent successfully!", "Thank you for reaching out. I'll get back to you soon.", false)
  const ErrorToast: Toast :=
    Toast("Error sending message", "Please try again or contact me directly via email.", true)

  /**
   * The contact page's state. The outcome of each delivery attempt is a
   * parameter of the submit handler; `location` is the address the window was
   * sent to, if any.
   */
  class ContactPage {
    var form: FormData
    var isSubmitting: bool
    var isSubmitted: bool
    var toasts: seq<Toast>
    var location: Option<string>

    constructor ()
      ensures form == EmptyForm && !isSubmitting && !isSubmitted && toasts == [] && location == None
    {
      form := EmptyForm;
      isSubmitting, isSubmitted := false, false;
      toasts := [];
      location := None;
    }

    method HandleInputChange(k: Field, v: string)
      modifies this
      ensures form == WithField(old(form), k, v)
      ensures isSubmitting == old(isSubmitting) && isSubmitted == old(isSubmitted)
      ensures toasts == old(toasts) && location == old(location)
    {
      form := WithField(form, k, v);
    }

    /**
     * A missing required field raises the error toast and sends nothing. A
     * complete form is always reported sent: the channels are tried in turn,
     * the mailto fallback navigates away, and the form is cleared. Either way
     * the submitting flag ends cleared.
     */
    method HandleSubmit(formMounted: bool, emailJsOk: bool, apiOk: bool) returns (tried: seq<Channel>)
      modifies this
      ensures !isSubmitting
      ensures !RequiredFilled(old(form)) ==>
        tried == [] && form == old(form) && isSubmitted == old(isSubmitted)
        && toasts == old(toasts) + [ErrorToast] && location == old(location)
      ensures RequiredFilled(old(form)) ==>
        tried == Attempts(formMounted, emailJsOk, apiOk)
        && form == EmptyForm && isSubmitted && toasts == old(toasts) + [SentToast]
        && location == if Mailto in tried then Some(MailtoLink(old(form))) else old(location)
    {
      isSubmitting := true;
      if !RequiredFilled(form) {
        tried := [];
        toasts := toasts + [ErrorToast];
      } else {
        tried := Deliver(formMounted, emailJsOk, apiOk);
      }
      isSubmitting := false;
    }

    /**
     * The body of the submit handler once the required fields are present:
     * EmailJS when configured, the API route unless EmailJS succeeded, and the
     * mailto link when both failed; then the form is cleared and the success
     * toast raised.
     */
    method Deliver(formMounted: bool, emailJsOk: bool, apiOk: bool) returns (tried: seq<Channel>)
      modifies this
      ensures tried == Attempts(formMounted, emailJsOk, apiOk)
      ensures form == EmptyForm && isSubmitted && toasts == old(toasts) + [SentToast]
      ensures location == if Mailto in tried then Some(MailtoLink(old(form))) else old(location)
      ensures isSubmitting == old(isSubmitting)
    {
      tried := [];
      var emailSent := false;
      if EmailJsConfigured(formMounted) {
        tried := tried + [EmailJs];
        if emailJsOk {
          emailSent := true;
        }
      }
      if !emailSent {
        tried := tried + [ApiRoute];
        if apiOk {
          emailSent := true;
        }
      }
      if !emailSent {
        tried := tried + [Mailto];
        location := Some(MailtoLink(form));
      }
      assert tried == Attempts(formMounted, emailJsOk, apiOk);
      assert Mailto in tried <==> !emailSent;
      isSubmitted := true;
      form := EmptyForm;
      toasts := toasts + [SentToast];
    }
  }
}
