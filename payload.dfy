/**
 * The payload builder of the QR generator screen: the string that is handed to
 * the QR encoder for the selected content category and the text fields the user
 * typed. Every field is inserted verbatim; no character is escaped.
 */
module QrPayload {

  datatype Option<T> = None | Some(value: T)

  /** The category tags offered on the selection screen. `Other` stands for the
      unselected state (a null tag) and for any tag the builder does not know. */
  datatype Category =
    | Wifi | Text | Phone | YouTube | Email | Sms | Website
    | Snapchat | Facebook | Instagram
    | Other

  /** The text fields of the screen. Each category reads only some of them. */
  datatype Form = Form(
    inputValue: string,
    smsMessage: string,
    emailMessage: string,
    wifiName: string,
    wifiPassword: string)

  /** The tag string the selection screen stores for a category. */
  function TagOf(c: Category): string
    requires c != Other
  {
    match c
    case Wifi => "wifi"
    case Text => "text"
    case Phone => "phone"
    case YouTube => "youtube"
    case Email => "email"
    case Sms => "sms"
    case Website => "website"
    case Snapchat => "snapchat"
    case Facebook => "facebook"
    case Instagram => "instagram"
  }

  const KnownTags: set<string> :=
    {"wifi", "text", "phone", "youtube", "email", "sms", "website",
     "snapchat", "facebook", "instagram"}

  /** The `switch` on the stored tag: a known tag selects its category, a null
      or unknown tag falls to the default branch. */
  function Classify(inputType: Option<string>): Category
  {
    match inputType
    case None => Other
    case Some(t) =>
      if t == "wifi" then Wifi
      else if t == "text" then Text
      else if t == "phone" then Phone
      else if t == "youtube" then YouTube
      else if t == "email" then Email
      else if t == "sms" then Sms
      else if t == "website" then Website
      else if t == "snapchat" then Snapchat
      else if t == "facebook" then Facebook
      else if t == "instagram" then Instagram
      else Other
  }

  /** JavaScript's `s.startsWith(p)`. */
  predicate StartsWith(s: string, p: string)
  {
    |p| <= |s| && s[..|p|] == p
  }

  predicate EndsWith(s: string, p: string)
  {
    |p| <= |s| && s[|s| - |p|..] == p
  }

  /** The website rule: a value that already starts with "http" is kept,
      any other value gets "https://" in front. */
  function WebsiteUrl(v: string): string
  {
    if StartsWith(v, "http") then v else "https://" + v
  }

  /** getQRData: the payload for a category and the current form. */
  function Payload(c: Category, f: Form): string
  {
    match c
    case Wifi => "WIFI:S:" + f.wifiName + ";T:WPA;P:" + f.wifiPassword + ";;"
    case Email => "mailto:" + f.inputValue + "?body=" + f.emailMessage
    case Sms => "sms:" + f.inputValue + "?body=" + f.smsMessage
    case Website => WebsiteUrl(f.inputValue)
    case Phone => "tel:" + f.inputValue
    case Snapchat => "https://www.snapchat.com/add/" + f.inputValue
    case Facebook => "https://www.facebook.com/" + f.inputValue
    case Instagram => "https://www.instagram.com/" + f.inputValue
    case _ => f.inputValue
  }

  /** getQRData as the screen calls it, on the stored tag. */
  function GetQRData(inputType: Option<string>, f: Form): string
  {
    Payload(Classify(inputType), f)
  }

  /** The categories whose payload is a fixed prefix followed by the value. */
  predicate IsLinkCategory(c: Category)
  {
    c == Phone || c == Snapchat || c == Facebook || c == Instagram
  }

  /** The categories that fall to the default branch. */
  predicate IsPassThrough(c: Category)
  {
    c == Text || c == YouTube || c == Other
  }

  // ---------------------------------------------------------------------------
  // The tag switch

  /** Every tag the selection screen can store maps to its own category; the
      `Text` and `YouTube` categories then take the default branch of the
      builder, as the switch has no case for them. */
  lemma ClassifyTagOf(c: Category)
    requires c != Other
    ensures Classify(Some(TagOf(c))) == c
    ensures TagOf(c) in KnownTags
  {
  }

  /** `Classify` returns `Other` exactly when the tag is null or not one of the
      ten known tags; every other tag is the tag of the category it selects. */
  lemma ClassifyOther(inputType: Option<string>)
    ensures Classify(inputType) == Other <==> (inputType.None? || inputType.value !in KnownTags)
    ensures Classify(inputType) != Other ==> inputType == Some(TagOf(Classify(inputType)))
  {
  }

  // ---------------------------------------------------------------------------
  // Where the fields sit in a template payload

  /** In `a + x + b + y + c` each part sits, unchanged, right after the one
      before it. */
  lemma TemplateSlots(a: string, x: string, b: string, y: string, c: string)
    ensures var s := a + x + b + y + c;
      && |s| == |a| + |x| + |b| + |y| + |c|
      && s[..|a|] == a
      && s[|a|..|a| + |x|] == x
      && s[|a| + |x|..|a| + |x| + |b|] == b
      && s[|a| + |x| + |b|..|a| + |x| + |b| + |y|] == y
      && s[|s| - |c|..] == c
  {
  }

  /** When the separator's first character does not occur in the field `x`,
      its first occurrence at or after `|a|` is exactly where `x` ends. */
  lemma FirstSeparator(a: string, x: string, b: string, y: string, c: string)
    requires |b| > 0 && b[0] !in x
    ensures var s := a + x + b + y + c;
      && s[|a| + |x|] == b[0]
      && forall k :: |a| <= k < |a| + |x| ==> s[k] != b[0]
  {
  }

  /** A template payload determines both of its fields, provided the first
      character of the separator does not occur in the first field. */
  lemma TemplateInjective(a: string, x1: string, y1: string, x2: string, y2: string, b: string, c: string)
    requires |b| > 0 && b[0] !in x1 && b[0] !in x2
    requires a + x1 + b + y1 + c == a + x2 + b + y2 + c
    ensures x1 == x2 && y1 == y2
  {
    FirstSeparator(a, x1, b, y1, c);
    FirstSeparator(a, x2, b, y2, c);
    assert |x1| == |x2|;
    TemplateSlots(a, x1, b, y1, c);
    TemplateSlots(a, x2, b, y2, c);
    assert |y1| == |y2|;
  }

  // ---------------------------------------------------------------------------
  // wifi

  /** The network name and the password are copied into the ZXing Wi-Fi
      template without escaping: each can be read back at its position. */
  lemma WifiPayloadVerbatim(f: Form)
    ensures var r := Payload(Wifi, f);
      var n, p := f.wifiName, f.wifiPassword;
      && |r| == |n| + |p| + 18
      && StartsWith(r, "WIFI:S:")
      && r[7..7 + |n|] == n
      && r[7 + |n|..16 + |n|] == ";T:WPA;P:"
      && r[16 + |n|..16 + |n| + |p|] == p
      && EndsWith(r, ";;")
  {
  }

  /** A Wi-Fi payload determines the name and the password, as long as the
      name holds no ';'. */
  lemma WifiInjective(f: Form, g: Form)
    requires ';' !in f.wifiName && ';' !in g.wifiName
    requires Payload(Wifi, f) == Payload(Wifi, g)
    ensures f.wifiName == g.wifiName && f.wifiPassword == g.wifiPassword
  {
    TemplateInjective("WIFI:S:", f.wifiName, f.wifiPassword, g.wifiName, g.wifiPassword, ";T:WPA;P:", ";;");
  }

  /** Without escaping, a name holding the separator cannot be told apart from
      a shorter name with a longer password. */
  lemma WifiAmbiguous()
    ensures var f := Form("", "", "", "home;T:WPA;P:x", "y");
      var g := Form("", "", "", "home", "x;T:WPA;P:y");
      f.wifiName != g.wifiName && Payload(Wifi, f) == Payload(Wifi, g)
  {
  }

  // ---------------------------------------------------------------------------
  // email and sms

  /** The email payload is a mailto URI built from the address and the email
      message, verbatim; it never reads the SMS message. */
  lemma EmailPayloadVerbatim(f: Form)
    ensures var r := Payload(Email, f);
      var v, m := f.inputValue, f.emailMessage;
      && StartsWith(r, "mailto:")
      && r[7..7 + |v|] == v
      && r[7 + |v|..13 + |v|] == "?body="
      && r[13 + |v|..] == m
  {
  }

  /** The sms payload is an sms URI built from the number and the SMS message,
      verbatim; it never reads the email message. */
  lemma SmsPayloadVerbatim(f: Form)
    ensures var r := Payload(Sms, f);
      var v, m := f.inputValue, f.smsMessage;
      && StartsWith(r, "sms:")
      && r[4..4 + |v|] == v
      && r[4 + |v|..10 + |v|] == "?body="
      && r[10 + |v|..] == m
  {
  }

  /** An email payload determines the address and the message, as long as the
      address holds no '?'. */
  lemma EmailInjective(f: Form, g: Form)
    requires '?' !in f.inputValue && '?' !in g.inputValue
    requires Payload(Email, f) == Payload(Email, g)
    ensures f.inputValue == g.inputValue && f.emailMessage == g.emailMessage
  {
    assert Payload(Email, f) == "mailto:" + f.inputValue + "?body=" + f.emailMessage + "";
    assert Payload(Email, g) == "mailto:" + g.inputValue + "?body=" + g.emailMessage + "";
    TemplateInjective("mailto:", f.inputValue, f.emailMessage, g.inputValue, g.emailMessage, "?body=", "");
  }

  /** An sms payload determines the number and the message, as long as the
      number holds no '?'. */
  lemma SmsInjective(f: Form, g: Form)
    requires '?' !in f.inputValue && '?' !in g.inputValue
    requires Payload(Sms, f) == Payload(Sms, g)
    ensures f.inputValue == g.inputValue && f.smsMessage == g.smsMessage
  {
    assert Payload(Sms, f) == "sms:" + f.inputValue + "?body=" + f.smsMessage + "";
    assert Payload(Sms, g) == "sms:" + g.inputValue + "?body=" + g.smsMessage + "";
    TemplateInjective("sms:", f.inputValue, f.smsMessage, g.inputValue, g.smsMessage, "?body=", "");
  }

  /** Without percent-encoding, an address holding "?body=" cannot be told
      apart from a shorter address with a longer message. */
  lemma EmailAmbiguous()
    ensures var f := Form("a@b.com?body=x", "", "y", "", "");
      var g := Form("a@b.com", "", "x?body=y", "", "");
      f.inputValue != g.inputValue && Payload(Email, f) == Payload(Email, g)
  {
  }

  // ---------------------------------------------------------------------------
  // website

  /** The website rule: the result starts with "http", ends with the value,
      and equals the value exactly when the value already starts with "http"
      (any such value, "httpx" included); otherwise it is "https://" + value. */
  lemma WebsiteUrlShape(v: string)
    ensures var r := WebsiteUrl(v);
      && StartsWith(r, "http")
      && EndsWith(r, v)
      && (r == v <==> StartsWith(v, "http"))
      && (!StartsWith(v, "http") ==> r == "https://" + v)
  {
  }

  /** Applying the website rule to its own result changes nothing. */
  lemma WebsiteUrlIdempotent(v: string)
    ensures WebsiteUrl(WebsiteUrl(v)) == WebsiteUrl(v)
  {
  }

  // ---------------------------------------------------------------------------
  // phone and social-media links

  /** The link prefix of each of the phone and social-media categories. */
  function LinkPrefix(c: Category): string
    requires IsLinkCategory(c)
  {
    match c
    case Phone => "tel:"
    case Snapchat => "https://www.snapchat.com/add/"
    case Facebook => "https://www.facebook.com/"
    case Instagram => "https://www.instagram.com/"
  }

  /** Phone and the three social-media categories put their own fixed prefix
      in front of the value: the payload is that prefix followed by the value,
      the value is an exact suffix, and the payload determines the value. */
  lemma LinkPayload(c: Category, f: Form, g: Form)
    requires IsLinkCategory(c)
    ensures var r := Payload(c, f);
      && r == LinkPrefix(c) + f.inputValue
      && EndsWith(r, f.inputValue)
      && r[..|r| - |f.inputValue|] == Payload(c, g)[..|Payload(c, g)| - |g.inputValue|]
      && (r == Payload(c, g) <==> f.inputValue == g.inputValue)
  {
  }

  /** None of the four link prefixes begins with another. */
  lemma LinkPrefixesDistinct(c: Category, d: Category)
    requires IsLinkCategory(c) && IsLinkCategory(d) && c != d
    ensures !StartsWith(LinkPrefix(c), LinkPrefix(d))
  {
    var p, q := LinkPrefix(c), LinkPrefix(d);
    if c == Phone || d == Phone {
      assert p[0] != q[0];
    } else {
      assert p[12] != q[12];
    }
  }

  /** Two different link categories never give the same payload, whatever
      values are typed: the payloads already differ inside the prefixes. */
  lemma LinkCategoriesNeverCollide(c: Category, d: Category, f: Form, g: Form)
    requires IsLinkCategory(c) && IsLinkCategory(d) && c != d
    ensures Payload(c, f) != Payload(d, g)
  {
    var r, s := Payload(c, f), Payload(d, g);
    if c == Phone || d == Phone {
      assert r[0] != s[0];
    } else {
      assert r[12] != s[12];
    }
  }

  // ---------------------------------------------------------------------------
  // text, youtube, null and unknown tags

  /** The default branch returns the value unchanged. */
  lemma PassThroughPayload(c: Category, f: Form)
    requires IsPassThrough(c)
    ensures Payload(c, f) == f.inputValue
  {
  }

  /** A null tag or an unknown tag yields the value unchanged. */
  lemma UnknownTagPayload(inputType: Option<string>, f: Form)
    requires inputType.None? || inputType.value !in KnownTags
    ensures GetQRData(inputType, f) == f.inputValue
  {
  }

  /** The eight tags the builder's switch has a case for. */
  const CasedTags: set<string> :=
    {"wifi", "phone", "email", "sms", "website", "snapchat", "facebook", "instagram"}

  /** The switch's default branch at the level of the stored tag: a tag takes
      it exactly when it is null or none of the eight cased tags, and every
      such tag yields the value unchanged ("text" and "youtube" included). */
  lemma DefaultBranch(inputType: Option<string>, f: Form)
    ensures IsPassThrough(Classify(inputType)) <==> (inputType.None? || inputType.value !in CasedTags)
    ensures (inputType.None? || inputType.value !in CasedTags) ==> GetQRData(inputType, f) == f.inputValue
  {
  }

  // ---------------------------------------------------------------------------
  // what the payload depends on

  datatype Field = InputValue | SmsMessage | EmailMessage | WifiName | WifiPassword

  function Get(f: Form, x: Field): string
  {
    match x
    case InputValue => f.inputValue
    case SmsMessage => f.smsMessage
    case EmailMessage => f.emailMessage
    case WifiName => f.wifiName
    case WifiPassword => f.wifiPassword
  }

  /** The form with one field replaced. */
  function Put(f: Form, x: Field, v: string): (g: Form)
    ensures Get(g, x) == v
    ensures forall y :: y != x ==> Get(g, y) == Get(f, y)
  {
    match x
    case InputValue => f.(inputValue := v)
    case SmsMessage => f.(smsMessage := v)
    case EmailMessage => f.(emailMessage := v)
    case WifiName => f.(wifiName := v)
    case WifiPassword => f.(wifiPassword := v)
  }

  /** The fields each branch of the builder reads. */
  function FieldsRead(c: Category): set<Field>
  {
    match c
    case Wifi => {WifiName, WifiPassword}
    case Email => {InputValue, EmailMessage}
    case Sms => {InputValue, SmsMessage}
    case _ => {InputValue}
  }

  /** The payload is a function of the category and the fields that category
      reads, and of nothing else: forms that agree on those fields give the
      same payload (so the email payload ignores the SMS message and the sms
      payload ignores the email message). */
  lemma PayloadReadsOnly(c: Category, f: Form, g: Form)
    requires forall x :: x in FieldsRead(c) ==> Get(f, x) == Get(g, x)
    ensures Payload(c, f) == Payload(c, g)
  {
    match c
    case Wifi =>
      assert Get(f, WifiName) == Get(g, WifiName);
      assert Get(f, WifiPassword) == Get(g, WifiPassword);
    case Email =>
      assert Get(f, InputValue) == Get(g, InputValue);
      assert Get(f, EmailMessage) == Get(g, EmailMessage);
    case Sms =>
      assert Get(f, InputValue) == Get(g, InputValue);
      assert Get(f, SmsMessage) == Get(g, SmsMessage);
    case _ =>
      assert Get(f, InputValue) == Get(g, InputValue);
  }

  /** Appending a character after a value keeps whether it starts with "http". */
  lemma StartsWithHttpExtend(v: string, ch: char)
    requires ch != 'h' && ch != 't' && ch != 'p'
    ensures StartsWith(v + [ch], "http") <==> StartsWith(v, "http")
  {
    if |v| >= 4 {
      assert (v + [ch])[..4] == v[..4];
    } else if |v| < 4 {
      assert (v + [ch])[|v|] == ch;
    }
  }

  /** Every field a branch reads shows in its payload: appending a character
      to that field adds exactly one character to the payload (its length grows
      by one) and so changes the payload. For the website rule
      the character must not be one of 'h', 't', 'p', which could complete an
      "http" prefix and drop the "https://" in front. */
  lemma EveryReadFieldMatters(c: Category, f: Form, x: Field, ch: char)
    requires x in FieldsRead(c)
    requires c == Website ==> ch != 'h' && ch != 't' && ch != 'p'
    ensures |Payload(c, Put(f, x, Get(f, x) + [ch]))| == |Payload(c, f)| + 1
    ensures Payload(c, Put(f, x, Get(f, x) + [ch])) != Payload(c, f)
  {
    if c == Website {
      StartsWithHttpExtend(f.inputValue, ch);
    }
  }

  /** Why the website exception is needed: "htt" gets "https://" in front,
      while "http" passes through, so one more character shortens the payload. */
  lemma WebsiteExtensionShortens()
    ensures |Payload(Website, Form("htt", "", "", "", ""))| == 11
    ensures |Payload(Website, Form("http", "", "", "", ""))| == 4
  {
  }

  /** Examples of payloads for concrete fields. */
  lemma PayloadExamples()
    ensures Payload(Wifi, Form("", "", "", "HomeNet", "secret")) == "WIFI:S:HomeNet;T:WPA;P:secret;;"
    ensures Payload(Website, Form("example.com", "", "", "", "")) == "https://example.com"
    ensures Payload(Website, Form("http://example.com", "", "", "", "")) == "http://example.com"
    ensures Payload(Website, Form("httpx", "", "", "", "")) == "httpx"
    ensures Payload(Email, Form("a@b.com", "", "hi", "", "")) == "mailto:a@b.com?body=hi"
    ensures Payload(Sms, Form("555", "hi", "", "", "")) == "sms:555?body=hi"
    ensures Payload(Instagram, Form("myid", "", "", "", "")) == "https://www.instagram.com/myid"
    ensures Payload(Phone, Form("555", "", "", "", "")) == "tel:555"
    ensures Payload(Snapchat, Form("myid", "", "", "", "")) == "https://www.snapchat.com/add/myid"
    ensures Payload(Facebook, Form("myid", "", "", "", "")) == "https://www.facebook.com/myid"
  {
    assert "example.com"[0] == 'e';
    assert !StartsWith("example.com", "http");
  }
}
