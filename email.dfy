/** Sending a message: the typed message and its conversion into the flat
    form parameters of the `messages` endpoint. */
module Email {
  import opened Strings
  import opened Mailgun
  import opened ParamMaps

  /** Which content fields the message carries. */
  datatype MessageBody =
    | Html(html: string)
    | Text(text: string)
    | HtmlAndText(html: string, text: string)

  /** `MessageBody::default()`: an empty plain-text body. */
  const DefaultBody: MessageBody := Text("")

  /** The send options the client exposes. A delivery time is carried as its
      RFC 2822 rendering, which the date library produces. */
  datatype SendOption =
    | TestMode
    | DeliveryTime(rfc2822: string)
    | Header(header: string, value: string)
    | Tag(tag: string)

  datatype Message = Message(
    to: seq<EmailAddress>,
    cc: seq<EmailAddress>,
    bcc: seq<EmailAddress>,
    subject: string,
    body: MessageBody,
    options: seq<SendOption>)

  /** `Message::default()`. */
  const DefaultMessage: Message := Message([], [], [], "", DefaultBody, [])

  /** The keys the message fields and the sender are stored under. */
  const MessageFields: set<string> := {"to", "cc", "bcc", "subject", "html", "text", "from"}

  /** Keys in the option namespaces `o:` and `h:`. */
  predicate IsOptionKey(k: string) {
    |k| >= 2 && (k[..2] == "o:" || k[..2] == "h:")
  }

  /** No message field lies in an option namespace. */
  lemma MessageFieldsAreNotOptionKeys()
    ensures forall k :: k in MessageFields ==> !IsOptionKey(k)
  {
    assert "to"[..2] == "to" && "cc"[..2] == "cc" && "bcc"[..2] == "bc";
    assert "subject"[..2] == "su" && "html"[..2] == "ht" && "text"[..2] == "te";
    assert "from"[..2] == "fr";
  }

  // ---------------------------------------------------------------------
  // Specification of the parameter map

  /** The renderings of `addresses`, in order, joined by commas. */
  function JoinRecipients(addresses: seq<EmailAddress>): string {
    Join(seq(|addresses|, i requires 0 <= i < |addresses| => ToString(addresses[i])), ',')
  }

  function WithRecipients(params: Params, field: string, addresses: seq<EmailAddress>): Params {
    if |addresses| == 0 then params else params[field := JoinRecipients(addresses)]
  }

  function WithBody(params: Params, body: MessageBody): Params {
    match body
    case Html(c) => params["html" := c]
    case Text(c) => params["text" := c]
    case HtmlAndText(h, t) => params["html" := h]["text" := t]
  }

  /** The one key and value an option writes. */
  function OptionEntry(opt: SendOption): (entry: (string, string))
    ensures IsOptionKey(entry.0)
  {
    match opt
    case TestMode => ("o:testmode", "yes")
    case DeliveryTime(instant) => ("o:deliverytime", instant)
    case Header(header, value) => ("h:" + header, value)
    case Tag(tag) => ("o:tag", tag)
  }

  function OptionKey(opt: SendOption): string {
    OptionEntry(opt).0
  }

  function OptionValue(opt: SendOption): string {
    OptionEntry(opt).1
  }

  /** `params` after the options are inserted in list order. */
  function WithOptions(params: Params, options: seq<SendOption>): Params
    decreases |options|
  {
    if |options| == 0 then params
    else
      var last := options[|options| - 1];
      WithOptions(params, options[..|options| - 1])[OptionKey(last) := OptionValue(last)]
  }

  /** The keys the options write: all in the option namespaces, so never a
      message field. */
  function OptionKeys(options: seq<SendOption>): (keys: set<string>)
    ensures forall i :: 0 <= i < |options| ==> OptionKey(options[i]) in keys
    ensures forall k :: k in keys ==> exists i :: 0 <= i < |options| && OptionKey(options[i]) == k
    ensures forall k :: k in keys ==> IsOptionKey(k)
    ensures keys !! MessageFields
    decreases |options|
  {
    MessageFieldsAreNotOptionKeys();
    if |options| == 0 then {}
    else OptionKeys(options[..|options| - 1]) + {OptionKey(options[|options| - 1])}
  }

  function RecipientKeys(msg: Message): set<string> {
    (if |msg.to| > 0 then {"to"} else {})
    + (if |msg.cc| > 0 then {"cc"} else {})
    + (if |msg.bcc| > 0 then {"bcc"} else {})
  }

  function BodyKeys(body: MessageBody): set<string> {
    match body
    case Html(_) => {"html"}
    case Text(_) => {"text"}
    case HtmlAndText(_, _) => {"html", "text"}
  }

  function RecipientParams(msg: Message): Params {
    WithRecipients(WithRecipients(WithRecipients(map[], "to", msg.to), "cc", msg.cc), "bcc", msg.bcc)
  }

  /** Recipients, subject and body: the map the options are applied to. */
  function BaseParams(msg: Message): Params {
    WithBody(RecipientParams(msg)["subject" := msg.subject], msg.body)
  }

  /** The parameter map of a message. */
  function MessageParams(msg: Message): Params {
    WithOptions(BaseParams(msg), msg.options)
  }

  // ---------------------------------------------------------------------
  // The building code, inserting into a mutable map

  /** `Message::add_recipients`. */
  method AddRecipients(field: string, addresses: seq<EmailAddress>, params: ParamMap)
    modifies params
    ensures params.entries == WithRecipients(old(params.entries), field, addresses)
  {
    if |addresses| != 0 {
      var joined := JoinRecipients(addresses);
      params.Insert(field, joined);
    }
  }

  /** `MessageBody::add_to`. */
  method AddBodyTo(body: MessageBody, params: ParamMap)
    modifies params
    ensures params.entries == WithBody(old(params.entries), body)
  {
    match body
    case Html(c) =>
      params.Insert("html", c);
    case Text(c) =>
      params.Insert("text", c);
    case HtmlAndText(html, text) =>
      params.Insert("html", html);
      params.Insert("text", text);
  }

  /** `SendOptions::add_to`: one insert, replacing any earlier value. */
  method AddOptionTo(opt: SendOption, params: ParamMap)
    modifies params
    ensures params.entries == old(params.entries)[OptionKey(opt) := OptionValue(opt)]
  {
    var (key, value) := OptionEntry(opt);
    params.Insert(key, value);
  }

  /** `Message::to_params`. */
  method ToParams(msg: Message) returns (params: Params)
    ensures params == MessageParams(msg)
  {
    var p := new ParamMap();
    AddRecipients("to", msg.to, p);
    AddRecipients("cc", msg.cc, p);
    AddRecipients("bcc", msg.bcc, p);
    p.Insert("subject", msg.subject);
    AddBodyTo(msg.body, p);
    for i := 0 to |msg.options|
      invariant p.entries == WithOptions(BaseParams(msg), msg.options[..i])
    {
      assert msg.options[..i + 1][..i] == msg.options[..i];
      AddOptionTo(msg.options[i], p);
    }
    assert msg.options[..|msg.options|] == msg.options;
    params := p.entries;
  }

  /** The form sent by `send_with_request_builder`: the message's parameters
      with `from` added on top, which overwrites nothing. */
  method SendParams(sender: EmailAddress, msg: Message) returns (params: Params)
    ensures "from" in params && params["from"] == ToString(sender)
    ensures "from" !in MessageParams(msg)
    ensures params - {"from"} == MessageParams(msg)
  {
    params := ToParams(msg);
    params := params["from" := ToString(sender)];
    MessageParamsKeys(msg);
    assert "from" in MessageFields;
  }

  // ---------------------------------------------------------------------
  // What the parameter map holds

  /** Applying the options adds exactly their keys and leaves the value of
      every other key alone. */
  lemma {:induction false} WithOptionsFrame(params: Params, options: seq<SendOption>)
    ensures WithOptions(params, options).Keys == params.Keys + OptionKeys(options)
    ensures forall k :: k in params && k !in OptionKeys(options) ==> WithOptions(params, options)[k] == params[k]
    decreases |options|
  {
    if |options| > 0 {
      WithOptionsFrame(params, options[..|options| - 1]);
    }
  }

  /** Later options win: an option that no later option shares a key with
      decides that key's value. */
  lemma {:induction false} WithOptionsLastWriteWins(params: Params, options: seq<SendOption>, i: nat)
    requires i < |options|
    requires forall j :: i < j < |options| ==> OptionKey(options[j]) != OptionKey(options[i])
    ensures OptionKey(options[i]) in WithOptions(params, options)
    ensures WithOptions(params, options)[OptionKey(options[i])] == OptionValue(options[i])
    decreases |options|
  {
    if i < |options| - 1 {
      WithOptionsLastWriteWins(params, options[..|options| - 1], i);
    }
  }

  /** Recipients, subject and body before any option is applied. */
  lemma BaseParamsContents(msg: Message)
    ensures BaseParams(msg).Keys == RecipientKeys(msg) + {"subject"} + BodyKeys(msg.body)
    ensures BaseParams(msg)["subject"] == msg.subject
    ensures |msg.to| > 0 ==> BaseParams(msg)["to"] == JoinRecipients(msg.to)
    ensures |msg.cc| > 0 ==> BaseParams(msg)["cc"] == JoinRecipients(msg.cc)
    ensures |msg.bcc| > 0 ==> BaseParams(msg)["bcc"] == JoinRecipients(msg.bcc)
    ensures msg.body.Html? ==> BaseParams(msg)["html"] == msg.body.html
    ensures msg.body.Text? ==> BaseParams(msg)["text"] == msg.body.text
    ensures msg.body.HtmlAndText? ==>
      BaseParams(msg)["html"] == msg.body.html && BaseParams(msg)["text"] == msg.body.text
  {
  }

  /** The key set is the non-empty recipient fields, `subject`, the body's
      keys and the option keys. */
  lemma MessageParamsKeys(msg: Message)
    ensures MessageParams(msg).Keys == RecipientKeys(msg) + {"subject"} + BodyKeys(msg.body) + OptionKeys(msg.options)
  {
    BaseParamsContents(msg);
    WithOptionsFrame(BaseParams(msg), msg.options);
  }

  /** The subject is always sent, even when empty. */
  lemma MessageParamsSubject(msg: Message)
    ensures "subject" in MessageParams(msg)
    ensures MessageParams(msg)["subject"] == msg.subject
  {
    BaseParamsContents(msg);
    WithOptionsFrame(BaseParams(msg), msg.options);
    assert "subject" in MessageFields;
  }

  /** A recipient field is present exactly when its list is non-empty, and
      then holds the comma-joined renderings. */
  lemma MessageParamsRecipients(msg: Message)
    ensures "to" in MessageParams(msg) <==> |msg.to| > 0
    ensures "cc" in MessageParams(msg) <==> |msg.cc| > 0
    ensures "bcc" in MessageParams(msg) <==> |msg.bcc| > 0
    ensures |msg.to| > 0 ==> MessageParams(msg)["to"] == JoinRecipients(msg.to)
    ensures |msg.cc| > 0 ==> MessageParams(msg)["cc"] == JoinRecipients(msg.cc)
    ensures |msg.bcc| > 0 ==> MessageParams(msg)["bcc"] == JoinRecipients(msg.bcc)
  {
    BaseParamsContents(msg);
    WithOptionsFrame(BaseParams(msg), msg.options);
    assert "to" in MessageFields && "cc" in MessageFields && "bcc" in MessageFields;
  }

  /** The body variant decides which of `html` and `text` are sent, and
      with what. */
  lemma MessageParamsBody(msg: Message)
    ensures msg.body.Html? ==>
      "html" in MessageParams(msg) && MessageParams(msg)["html"] == msg.body.html && "text" !in MessageParams(msg)
    ensures msg.body.Text? ==>
      "text" in MessageParams(msg) && MessageParams(msg)["text"] == msg.body.text && "html" !in MessageParams(msg)
    ensures msg.body.HtmlAndText? ==>
      && "html" in MessageParams(msg) && MessageParams(msg)["html"] == msg.body.html
      && "text" in MessageParams(msg) && MessageParams(msg)["text"] == msg.body.text
  {
    BaseParamsContents(msg);
    WithOptionsFrame(BaseParams(msg), msg.options);
    assert "html" in MessageFields && "text" in MessageFields;
  }

  /** Options are applied in list order: the last option writing a key
      decides its value. */
  lemma MessageParamsOption(msg: Message, i: nat)
    requires i < |msg.options|
    requires forall j :: i < j < |msg.options| ==> OptionKey(msg.options[j]) != OptionKey(msg.options[i])
    ensures OptionKey(msg.options[i]) in MessageParams(msg)
    ensures MessageParams(msg)[OptionKey(msg.options[i])] == OptionValue(msg.options[i])
  {
    WithOptionsLastWriteWins(BaseParams(msg), msg.options, i);
  }

  /** A recipient list whose addresses hold no `,`, `<` or `>` and whose
      display names hold no `,` can be read back from its joined field. */
  lemma {:induction false} RecipientsRoundTrip(addresses: seq<EmailAddress>)
    requires |addresses| > 0
    requires forall i :: 0 <= i < |addresses| ==>
      && ',' !in addresses[i].address && '<' !in addresses[i].address && '>' !in addresses[i].address
      && (addresses[i].name.Some? ==> ',' !in addresses[i].name.value)
    ensures var fields := Split(JoinRecipients(addresses), ',');
      |fields| == |addresses| && forall i :: 0 <= i < |addresses| ==> ParseRendered(fields[i]) == addresses[i]
  {
    var rendered := seq(|addresses|, i requires 0 <= i < |addresses| => ToString(addresses[i]));
    forall i | 0 <= i < |rendered|
      ensures ',' !in rendered[i]
      ensures ParseRendered(rendered[i]) == addresses[i]
    {
      ParseToString(addresses[i]);
    }
    SplitJoin(rendered, ',');
  }

  // ---------------------------------------------------------------------
  // The crate's own unit tests, as statements about the specification

  /** Each body variant of an otherwise default message. */
  lemma BodyExamples()
    ensures var msg := DefaultMessage.(body := Text("hello, world"));
      "text" in MessageParams(msg) && MessageParams(msg)["text"] == "hello, world"
    ensures var msg := DefaultMessage.(body := Html("<body>hello, world</body>"));
      "html" in MessageParams(msg) && MessageParams(msg)["html"] == "<body>hello, world</body>"
    ensures var msg := DefaultMessage.(body := HtmlAndText("<body/>", "hello"));
      && "html" in MessageParams(msg) && MessageParams(msg)["html"] == "<body/>"
      && "text" in MessageParams(msg) && MessageParams(msg)["text"] == "hello"
  {
  }

  /** One `to` address, two `cc` addresses, no `bcc`. */
  lemma RecipientsExample()
    ensures var msg := DefaultMessage.(to := [Address("foo@bar.com")],
                                       cc := [NameAddress("Tim", "woo@woah.com"), Address("z@c.c")]);
      && "to" in MessageParams(msg) && MessageParams(msg)["to"] == "foo@bar.com"
      && "cc" in MessageParams(msg) && MessageParams(msg)["cc"] == "Tim <woo@woah.com>,z@c.c"
      && "bcc" !in MessageParams(msg)
  {
    var msg := DefaultMessage.(to := [Address("foo@bar.com")],
                               cc := [NameAddress("Tim", "woo@woah.com"), Address("z@c.c")]);
    MessageParamsRecipients(msg);
    RenderingExamples();
    var cc := seq(2, i requires 0 <= i < 2 => ToString(msg.cc[i]));
    assert cc[0] == "Tim <woo@woah.com>" && cc[1] == "z@c.c";
    assert Join(cc, ',') == cc[0] + [','] + cc[1];
  }

  /** One option of each kind, each stored under its own key. */
  lemma OptionsExample(deliveryTime: string)
    ensures var msg := DefaultMessage.(options := [TestMode, DeliveryTime(deliveryTime),
                                                   Header("X-For", "Fizz"), Tag("Important")]);
      && "o:testmode" in MessageParams(msg) && MessageParams(msg)["o:testmode"] == "yes"
      && "o:deliverytime" in MessageParams(msg) && MessageParams(msg)["o:deliverytime"] == deliveryTime
      && "h:X-For" in MessageParams(msg) && MessageParams(msg)["h:X-For"] == "Fizz"
      && "o:tag" in MessageParams(msg) && MessageParams(msg)["o:tag"] == "Important"
  {
    var msg := DefaultMessage.(options := [TestMode, DeliveryTime(deliveryTime),
                                           Header("X-For", "Fizz"), Tag("Important")]);
    assert OptionKey(msg.options[0]) == "o:testmode";
    assert OptionKey(msg.options[1]) == "o:deliverytime";
    assert OptionKey(msg.options[2]) == "h:X-For";
    assert OptionKey(msg.options[3]) == "o:tag";
    MessageParamsOption(msg, 0);
    MessageParamsOption(msg, 1);
    MessageParamsOption(msg, 2);
    MessageParamsOption(msg, 3);
  }
}
