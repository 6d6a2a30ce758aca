# mailgun_v3: the request-building core, in Dafny

`mailgun_v3` is a thin Rust client for Mailgun's v3 HTTP API. Around its HTTP
calls sits a small deterministic core, and this project models that core and
proves properties of it:

- **Credentials** (`src/lib.rs`). `Credentials::with_base` checks its inputs in
  order: the API root must start with `http` and contain a `.`, the key must be
  at least 35 bytes long, and the domain must contain a `.`. Each failing check
  is a panic in the crate. Here it is a `Failure` naming the first check that
  failed. `Credentials::new` applies the same checks to the default root
  `https://api.mailgun.net/v3`. The crate's fields are private, so only
  checked credentials exist; the model expresses this with the subset type
  `ValidCredentials`, which `WithBase` returns and the template URLs take.
- **Addresses** (`src/lib.rs`). An address renders as `Name <address>`, or as
  the bare address when it has no display name.
- **Message parameters** (`src/email.rs`). `Message::to_params` fills a mutable
  map in steps. The `to`, `cc` and `bcc` lists are stored joined by commas, and
  only when they are non-empty. Then come `subject`, the body's `html` and/or
  `text`, and each send option in list order, so a later option overwrites an
  earlier one with the same key. `send_with_request_builder` then adds `from`.
- **Templates** (`src/templates.rs`). `Template::into_params` builds a form
  from the required fields and the optional fields that are set. The listing
  URL is chosen three ways: a named template, its versions, or the whole
  collection. A single-template reply is wrapped into a one-item list.

Files:

- `wrappers.dfy`: `Option` and `Result`.
- `strings.dfy`: the Rust `str` operations used: `starts_with`, counting a
  character, the UTF-8 byte length `len()`, and `join`. It also holds `Split`,
  the inverse of `join` on non-empty lists of separator-free parts.
- `params.dfy`: `ParamMap`, the mutable `HashMap<String, String>` that the
  builders insert into.
- `mailgun.dfy`: `src/lib.rs`.
- `email.dfy`: `src/email.rs`.
- `templates.dfy`: `src/templates.rs`.

The building code is written as imperative methods, as in the source. The
helpers take the `ParamMap` they fill (`modifies`), and `ToParams`, `SendParams`
and `IntoParams` return the finished map. Each method is proved against a
specification function (`MessageParams`, `WithRecipients`, `WithBody`,
`WithOptions`), or states the resulting map's contents outright. The lemmas
prove what the crate promises about those functions.

The model follows the code on three points a reader might expect otherwise:

- An empty recipient list leaves its key out. It is never stored as an empty
  string (`src/email.rs:65`).
- The base-URL check tests only the prefix `http`, not a full scheme
  (`src/lib.rs:43`).
- The key check counts bytes, not characters (`str::len`).

Some of the crate's own tests are stale:

- `request_unauthorized` (`src/email.rs:211`) builds credentials with a
  17-byte key. The templates tests do the same with a 27-byte key
  (`src/templates.rs:186`). Both keys are shorter than 35 bytes, so the
  credentials check panics before any request is made.
  `UnauthorizedTestKeyRejected` and `TemplatesTestKeyRejected` state this.
  The live-sending test `actually_send_email` (`src/email.rs:231`) is ignored by
  default; its 31-byte placeholder key is rejected the same way
  (`LiveSendTestKeyRejected`).

## Model

| member | source | states |
|---|---|---|
| `Strings.CountChar` | src/lib.rs:46-54 | the count of a character is at most the length, and positive exactly when the character occurs: the `count() >= 1` test means "contains a `.`" |
| `Strings.Utf8Length` | src/lib.rs:50 | the byte length `len()` is at least the number of characters and at most four times it |
| `Strings.AsciiUtf8Length` | src/lib.rs:50 | on ASCII text the byte length equals the character count |
| `Strings.SplitJoin` | src/email.rs:66-69 | joining with `,` loses nothing: splitting the joined string at `,` gives back the parts, if the list is non-empty and no part contains `,` (the crate never joins an empty list) |
| `Mailgun.WithBase` | src/lib.rs:34-60 | succeeds exactly when all four checks hold, and then stores the three inputs unchanged; otherwise fails with the first failing check, in source order (no `http` prefix, no dot in the base, key under 35 bytes, no dot in the domain) |
| `Mailgun.DefaultApiBaseAccepted` | src/lib.rs:17 | the default API root starts with `http` and contains a `.` |
| `Mailgun.New` | src/lib.rs:31-33 | succeeds exactly when the key is at least 35 bytes and the domain contains a `.`, with the default API root stored; otherwise fails on the key first, then on the domain |
| `Mailgun.BuiltCredentialsKeepDomain` | src/lib.rs:55-63 | built credentials report, through `domain()`, the domain they were given, and satisfy every check |
| `Mailgun.UnauthorizedTestKeyRejected` | src/email.rs:209-211 | the unauthorized-request test's credentials fail with `KeyTooShort` |
| `Mailgun.TemplatesTestKeyRejected` | src/templates.rs:185-190 | the template tests' 27-byte key fails with `KeyTooShort`, so those tests stop in `Credentials::new` |
| `Mailgun.LiveSendTestKeyRejected` | src/email.rs:230-234 | the live-sending test's 31-byte placeholder key fails with `KeyTooShort` |
| `Mailgun.RequestBuilderTestCredentialsAccepted` | src/email.rs:250-254 | the request-builder test's key and domain are accepted |
| `Mailgun.Address` | src/lib.rs:74-79 | an address without a name, whose `email()` is the given address |
| `Mailgun.NameAddress` | src/lib.rs:81-86 | an address with the given name, whose `email()` is the given address |
| `Mailgun.EmailOf` | src/lib.rs:88-90 | `email()` returns the bare address whether or not a name is present: it is the rendering of the address with its name dropped, and the part between the angle brackets of a named rendering |
| `Mailgun.ToString` | src/lib.rs:92-97 | without a name the rendering is the address unchanged; with one it is the name, ` <`, the address and `>`; `ParseToString` is its round-trip partner and `RenderingExamples` pins the crate's test strings |
| `Mailgun.Domain` | src/lib.rs:61-63 | `domain()` returns the stored sending domain, which for checked credentials always contains a `.` |
| `Mailgun.ParseToString` | src/lib.rs:92-97 | decoding `to_string`'s output gives back the name and the address, for addresses without `<` or `>` |
| `Mailgun.RenderingExamples` | src/lib.rs:94-95 | `Tim` / `woo@woah.com` renders as `Tim <woo@woah.com>`, and a nameless address as itself |
| `Email.MessageFieldsAreNotOptionKeys` | src/email.rs:49-59 | none of `to`, `cc`, `bcc`, `subject`, `html`, `text`, `from` starts with `o:` or `h:` |
| `Email.OptionEntry` | src/email.rs:84-96 | every option writes one key, and it starts with `o:` or `h:` |
| `Email.OptionKeys` | src/email.rs:57-59 | the key set of an option list is exactly the options' keys; it lies in the `o:`/`h:` namespaces and shares no key with the message fields |
| `Email.AddRecipients` | src/email.rs:64-72 | the map afterwards is the old map, plus the joined renderings under the field when the list is non-empty |
| `Email.AddBodyTo` | src/email.rs:22-31 | the map afterwards has `html`, `text` or both set from the body variant, and nothing else changed |
| `Email.AddOptionTo` | src/email.rs:84-96 | the map afterwards is the old map with the option's one key set to its value |
| `Email.ToParams` | src/email.rs:46-62 | the returned map is `MessageParams(msg)`: recipients, subject, body, then the options applied in list order |
| `Email.SendParams` | src/email.rs:131-132 | the sent form has `from` set to the sender's rendering, `to_params` never writes `from`, and without `from` the form is exactly the message's parameters |
| `Email.WithOptionsFrame` | src/email.rs:57-59 | applying options adds exactly the option keys and leaves every other key's value alone |
| `Email.WithOptionsLastWriteWins` | src/email.rs:57-59 | an option with no later option on the same key decides that key's value |
| `Email.BaseParamsContents` | src/email.rs:49-55 | before the options run, the map has the non-empty recipient fields, `subject` and the body keys, with their values |
| `Email.MessageParamsKeys` | src/email.rs:46-62 | the key set is exactly the non-empty recipient fields, `subject`, the body's keys and the option keys |
| `Email.MessageParamsSubject` | src/email.rs:53 | `subject` is always present and holds the message's subject, even an empty one |
| `Email.MessageParamsRecipients` | src/email.rs:64-72 | each of `to`/`cc`/`bcc` is present exactly when its list is non-empty, and then holds the comma-joined renderings |
| `Email.MessageParamsBody` | src/email.rs:22-31 | `Html(c)` gives `html = c` and no `text`, `Text(c)` gives `text = c` and no `html`, `HtmlAndText(h, t)` gives both |
| `Email.MessageParamsOption` | src/email.rs:57-59 | in the message's parameters, the last option writing a key decides its value |
| `Email.RecipientsRoundTrip` | src/email.rs:64-72 | a recipient field can be split at `,` and decoded back into its address list, when addresses hold no `,`, `<`, `>` and names no `,` |
| `Email.BodyExamples` | src/email.rs:151-173 | the body test's three messages produce the expected `html`/`text` values |
| `Email.RecipientsExample` | src/email.rs:176-187 | the recipient test: `to = foo@bar.com`, `cc = Tim <woo@woah.com>,z@c.c`, no `bcc` |
| `Email.OptionsExample` | src/email.rs:190-206 | the options test: `o:testmode = yes`, `o:deliverytime`, `h:X-For = Fizz`, `o:tag = Important` |
| `Templates.IntoParams` | src/templates.rs:64-87 | `name` and `description` are always present; each optional field is a key exactly when it is set, with its value; no other key; size is 2 plus the number of set fields |
| `Templates.CreateTemplateUrl` | src/templates.rs:104 | creation posts to `api_base/domain/templates` |
| `Templates.GetTemplatesUrl` | src/templates.rs:143-151 | a name with the version flag gives `.../templates/name/versions`, a name without it gives `.../templates/name`, and no name gives the collection URL |
| `Templates.GetTemplatesUrlInjective` | src/templates.rs:143-151 | for names without `/`, equal URLs mean the same name and, for a name, the same version flag |
| `Templates.UnnamedListingIsCollection` | src/templates.rs:149-151 | without a name the version flag is ignored and the URL is the creation URL |
| `Templates.WrapTemplatesResponse` | src/templates.rs:167-175 | with a name, success means the single-template decoder accepted the body, and the result is a one-item list of that template; without a name, the decoded list is returned unchanged; a body the decoder rejects is an error |

## Left out

- HTTP dispatch is not modelled: client creation, basic auth, form encoding, `send`, `error_for_status` and reading the JSON body. These are calls into `reqwest`. Only the URL strings and the parameter maps handed to them are modelled.
- `email::async_impl` (`src/email.rs:285-403`) is not modelled. Its parameter logic is the blocking path's. The template functions exist only as async functions: their parameter, URL and reply-shaping logic is modelled, the awaiting is not.
- `src/validation.rs` is not part of this model. It is one HTTP call with a one-entry form, and it refers to a `MAILGUN_API` constant that the crate root does not define.
- The send URL is not modelled. It is built from the same undefined `MAILGUN_API` constant (`src/email.rs:123`).
- RFC 2822 formatting of the delivery time comes from the date library. `DeliveryTime` carries the already formatted string.
- JSON decoding is serde's job. `WrapTemplatesResponse` takes the two decoders as function parameters, and the response types are plain datatypes.
- A panic in `with_base` is not modelled as a panic. Each failed `assert!` becomes a `Failure` value that names the check.
- The crate's mock-server and live-network tests (`test_send_with_request_builder`'s HTTP part, `actually_send_email`, the template tests) are not modelled. Only the credentials they build are, one lemma per test family.
