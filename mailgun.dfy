/** The crate root: API credentials with their construction-time checks, and
    email addresses with their wire rendering. */
module Mailgun {
  import opened Wrappers
  import opened Strings

  /** The API root `Credentials::new` uses. */
  const DefaultApiBase: string := "https://api.mailgun.net/v3"

  /** The shortest API key, in bytes, that the credentials accept. */
  const MinKeyLength: nat := 35

  /** API root, private API key and sending domain, as stored. */
  datatype Credentials = Credentials(apiBase: string, apiKey: string, domain: string)

  /** The four assertions of `Credentials::with_base`, one per panic. */
  datatype CredentialsError =
    | BaseWithoutHttp
    | BaseWithoutDot
    | KeyTooShort
    | DomainWithoutDot

  /** What the checks of `with_base` demand of its three inputs. */
  predicate AcceptedCredentials(apiBase: string, apiKey: string, domain: string) {
    && StartsWith(apiBase, "http")
    && '.' in apiBase
    && Utf8Length(apiKey) >= MinKeyLength
    && '.' in domain
  }

  /** Credentials that passed the checks. The crate's fields are private, so
      every `Credentials` value it hands out is one of these. */
  type ValidCredentials = c: Credentials | AcceptedCredentials(c.apiBase, c.apiKey, c.domain)
    witness Credentials("https://api.example.org", "0123456789abcdef0123456789abcdef-0123", "example.org")

  /** `Credentials::with_base`: the checks run in source order and the first
      that fails decides the panic; on success the inputs are kept as given. */
  function WithBase(apiBase: string, apiKey: string, domain: string): (r: Result<ValidCredentials, CredentialsError>)
    ensures r.Success? <==> AcceptedCredentials(apiBase, apiKey, domain)
    ensures r.Success? ==> r.value.apiBase == apiBase && r.value.apiKey == apiKey && r.value.domain == domain
    ensures !StartsWith(apiBase, "http") ==> r == Failure(BaseWithoutHttp)
    ensures StartsWith(apiBase, "http") && '.' !in apiBase ==> r == Failure(BaseWithoutDot)
    ensures StartsWith(apiBase, "http") && '.' in apiBase && Utf8Length(apiKey) < MinKeyLength
            ==> r == Failure(KeyTooShort)
    ensures (StartsWith(apiBase, "http") && '.' in apiBase && Utf8Length(apiKey) >= MinKeyLength
             && '.' !in domain) ==> r == Failure(DomainWithoutDot)
  {
    if !StartsWith(apiBase, "http") then Failure(BaseWithoutHttp)
    else if CountChar(apiBase, '.') < 1 then Failure(BaseWithoutDot)
    else if Utf8Length(apiKey) < MinKeyLength then Failure(KeyTooShort)
    else if CountChar(domain, '.') < 1 then Failure(DomainWithoutDot)
    else Success(Credentials(apiBase, apiKey, domain))
  }

  /** The default API root passes both checks on the base. */
  lemma DefaultApiBaseAccepted()
    ensures StartsWith(DefaultApiBase, "http")
    ensures '.' in DefaultApiBase
  {
  }

  /** `Credentials::new`: `with_base` on the default API root, so only the
      key and the domain can make it fail. */
  function New(apiKey: string, domain: string): (r: Result<ValidCredentials, CredentialsError>)
    ensures r.Success? <==> Utf8Length(apiKey) >= MinKeyLength && '.' in domain
    ensures r.Success? ==> r.value == Credentials(DefaultApiBase, apiKey, domain)
    ensures Utf8Length(apiKey) < MinKeyLength ==> r == Failure(KeyTooShort)
    ensures Utf8Length(apiKey) >= MinKeyLength && '.' !in domain ==> r == Failure(DomainWithoutDot)
  {
    DefaultApiBaseAccepted();
    WithBase(DefaultApiBase, apiKey, domain)
  }

  /** `Credentials::domain`: the stored sending domain, which for checked
      credentials always contains a `.`. */
  function Domain(creds: ValidCredentials): (d: string)
    ensures d == creds.domain
    ensures '.' in d
  {
    creds.domain
  }

  /** Credentials that were built successfully report the domain they were
      given and satisfy every check: a corollary of `WithBase`'s contract and
      of the `ValidCredentials` type it returns, stated from the caller's side. */
  lemma {:induction false} BuiltCredentialsKeepDomain(apiBase: string, apiKey: string, domain: string)
    requires WithBase(apiBase, apiKey, domain).Success?
    ensures Domain(WithBase(apiBase, apiKey, domain).value) == domain
    ensures AcceptedCredentials(WithBase(apiBase, apiKey, domain).value.apiBase,
                                WithBase(apiBase, apiKey, domain).value.apiKey,
                                WithBase(apiBase, apiKey, domain).value.domain)
  {
  }

  /** The key of the crate's own unauthorized-request test is 17 bytes long,
      so `Credentials::new` panics on it before any request is made. */
  lemma UnauthorizedTestKeyRejected()
    ensures New("key-your_key_here", "aksdfa32undkjns.com") == Failure(KeyTooShort)
  {
    var key := "key-your_key_here";
    assert Utf8Length(key) == 17 by { AsciiUtf8Length(key); }
  }

  /** The key shared by the crate's template tests is 27 bytes long, so every
      one of them panics in `Credentials::new` before reaching the server. */
  lemma TemplatesTestKeyRejected()
    ensures New("xxxxxxxx-yyyyyyyyy-zzzzzzzz", "xxxxxxxxx.mailgun.org") == Failure(KeyTooShort)
  {
    var key := "xxxxxxxx-yyyyyyyyy-zzzzzzzz";
    assert Utf8Length(key) == 27 by { AsciiUtf8Length(key); }
  }

  /** The placeholder key of the crate's live-sending test is 31 bytes long,
      so that test panics in `Credentials::new` unless real credentials are
      filled in. */
  lemma LiveSendTestKeyRejected()
    ensures New("something-secret-something-safe",
                "sandbox-some_numbers_here_probably.mailgun.org") == Failure(KeyTooShort)
  {
    var key := "something-secret-something-safe";
    assert Utf8Length(key) == 31 by { AsciiUtf8Length(key); }
  }

  /** The credentials of the crate's request-builder test are accepted. */
  lemma RequestBuilderTestCredentialsAccepted()
    ensures New("0123456789abcdef0123456789abcdef-01234567-89abcdef",
                "sandbox0123456789abcdef0123456789abcdef.mailgun.org").Success?
  {
  }

  /** An address with an optional display name. */
  datatype EmailAddress = EmailAddress(name: Option<string>, address: string)

  /** `EmailAddress::address`. */
  function Address(address: string): (e: EmailAddress)
    ensures e.name.None? && EmailOf(e) == address
  {
    EmailAddress(None, address)
  }

  /** `EmailAddress::name_address`. */
  function NameAddress(name: string, address: string): (e: EmailAddress)
    ensures e.name == Some(name) && EmailOf(e) == address
  {
    EmailAddress(Some(name), address)
  }

  /** `EmailAddress::email`: the bare address, with or without a name; it
      is what `to_string` renders once the name is dropped, and the part
      between the angle brackets when there is one. */
  function EmailOf(e: EmailAddress): (a: string)
    ensures a == ToString(e.(name := None))
    ensures e.name.Some? ==> ToString(e) == e.name.value + " <" + a + ">"
  {
    e.address
  }

  /** `EmailAddress::to_string`: the bare address when there is no name;
      otherwise the name, a space, and the address in angle brackets.
      `ParseToString` shows nothing is lost. */
  function ToString(e: EmailAddress): (r: string)
    ensures e.name.None? ==> r == e.address
    ensures e.name.Some? ==>
      && StartsWith(r, e.name.value + " <")
      && r[|e.name.value| + 2..] == e.address + ">"
  {
    match e.name
    case Some(name) => name + " <" + e.address + ">"
    case None => e.address
  }

  /** Reference decoder for renderings: reads `Name <address>` back by the
      last `<`, and anything else as a bare address. */
  function ParseRendered(r: string): EmailAddress {
    if |r| > 0 && r[|r| - 1] == '>' then
      match LastIndexOf(r, '<')
      case Some(i) =>
        if i >= 1 && r[i - 1] == ' ' then EmailAddress(Some(r[..i - 1]), r[i + 1..|r| - 1])
        else EmailAddress(None, r)
      case None => EmailAddress(None, r)
    else EmailAddress(None, r)
  }

  /** A named rendering decodes to its name and address: the address holds
      no `<`, so the last `<` is the one the rendering put there. */
  lemma ParseNamed(name: string, address: string)
    requires '<' !in address && '>' !in address
    ensures ParseRendered(name + " <" + address + ">") == EmailAddress(Some(name), address)
  {
    var r := name + " <" + address + ">";
    var i := |name| + 1;
    assert r[i] == '<' && r[i - 1] == ' ' && r[|r| - 1] == '>';
    assert r[i + 1..] == address + ">";
    assert LastIndexOf(r, '<') == Some(i);
    assert r[..i - 1] == name;
    assert r[i + 1..|r| - 1] == address;
  }

  /** A bare address without `>` decodes to itself, with no name. */
  lemma ParseBare(address: string)
    requires '>' !in address
    ensures ParseRendered(address) == EmailAddress(None, address)
  {
  }

  /** Rendering is lossless for addresses without angle brackets: decoding
      gives back the display name (whatever it holds) and the address. */
  lemma ParseToString(e: EmailAddress)
    requires '<' !in e.address && '>' !in e.address
    ensures ParseRendered(ToString(e)) == e
  {
    match e.name
    case Some(name) => ParseNamed(name, e.address);
    case None => ParseBare(e.address);
  }

  /** The renderings the crate's recipient test expects. */
  lemma RenderingExamples()
    ensures ToString(NameAddress("Tim", "woo@woah.com")) == "Tim <woo@woah.com>"
    ensures ToString(Address("z@c.c")) == "z@c.c"
  {
  }
}
