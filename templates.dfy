/** Stored templates: the form parameters of a new template, the URL each
    listing request goes to, and the shaping of the listing reply. */
module Templates {
  import opened Wrappers
  import opened Strings
  import opened Mailgun
  import opened ParamMaps

  const TemplatesEndpoint: string := "templates"
  const VersionsEndpoint: string := "versions"

  /** A template to create: name and description are required. */
  datatype Template = Template(
    name: string,
    description: string,
    template: Option<string>,
    tag: Option<string>,
    engine: Option<string>,
    comment: Option<string>)

  /** Every key a template's form can hold. */
  const TemplateFields: set<string> := {"name", "description", "template", "tag", "engine", "comment"}

  /** How many of the optional fields are set. */
  function OptionalFieldsSet(t: Template): nat {
    (if t.template.Some? then 1 else 0) + (if t.tag.Some? then 1 else 0)
    + (if t.engine.Some? then 1 else 0) + (if t.comment.Some? then 1 else 0)
  }

  /** `key` is a parameter exactly when the field is set, with its value. */
  predicate OptionalEntry(params: Params, key: string, field: Option<string>) {
    && (key in params <==> field.Some?)
    && (field.Some? ==> params[key] == field.value)
  }

  /** `Template::into_params`. */
  method IntoParams(t: Template) returns (params: Params)
    ensures "name" in params && params["name"] == t.name
    ensures "description" in params && params["description"] == t.description
    ensures OptionalEntry(params, "template", t.template)
    ensures OptionalEntry(params, "tag", t.tag)
    ensures OptionalEntry(params, "engine", t.engine)
    ensures OptionalEntry(params, "comment", t.comment)
    ensures params.Keys <= TemplateFields
    ensures |params| == 2 + OptionalFieldsSet(t)
  {
    var p := new ParamMap();
    p.Insert("name", t.name);
    p.Insert("description", t.description);
    if t.template.Some? {
      p.Insert("template", t.template.value);
    }
    if t.tag.Some? {
      p.Insert("tag", t.tag.value);
    }
    if t.engine.Some? {
      p.Insert("engine", t.engine.value);
    }
    if t.comment.Some? {
      p.Insert("comment", t.comment.value);
    }
    params := p.entries;
  }

  /** A URL path: the segments joined by `/`, as `format!("{}/{}/...")`. */
  function Path(segments: seq<string>): string {
    Join(segments, '/')
  }

  /** A path whose first segment is `first` extends it by `/` and the rest. */
  lemma PathCons(first: string, rest: seq<string>)
    requires |rest| > 0
    ensures Path([first] + rest) == first + "/" + Path(rest)
  {
  }

  /** The path of the templates collection followed by more segments. */
  lemma {:induction false} PathUnderRoot(base: string, domain: string, tail: seq<string>)
    ensures Path([base, domain, TemplatesEndpoint] + tail)
         == base + "/" + domain + "/templates" + (if |tail| == 0 then "" else "/" + Path(tail))
  {
    if |tail| == 0 {
      assert [base, domain, TemplatesEndpoint] + tail == [base] + ([domain] + [TemplatesEndpoint]);
      PathCons(domain, [TemplatesEndpoint]);
      PathCons(base, [domain] + [TemplatesEndpoint]);
    } else {
      assert [base, domain, TemplatesEndpoint] + tail == [base] + ([domain] + ([TemplatesEndpoint] + tail));
      PathCons(TemplatesEndpoint, tail);
      PathCons(domain, [TemplatesEndpoint] + tail);
      PathCons(base, [domain] + ([TemplatesEndpoint] + tail));
    }
  }

  /** The templates collection, which `create_template_with_client` posts to. */
  function CreateTemplateUrl(creds: ValidCredentials): (url: string)
    ensures url == creds.apiBase + "/" + creds.domain + "/templates"
  {
    PathUnderRoot(creds.apiBase, creds.domain, []);
    assert [creds.apiBase, creds.domain, TemplatesEndpoint] + [] == [creds.apiBase, creds.domain, TemplatesEndpoint];
    Path([creds.apiBase, creds.domain, TemplatesEndpoint])
  }

  /** The URL `get_templates_with_client` requests: one named template, its
      versions, or the whole collection. */
  function GetTemplatesUrl(creds: ValidCredentials, templateName: Option<string>, fetchVersions: bool): (url: string)
    ensures templateName.Some? && fetchVersions ==>
      url == creds.apiBase + "/" + creds.domain + "/templates/" + templateName.value + "/versions"
    ensures templateName.Some? && !fetchVersions ==>
      url == creds.apiBase + "/" + creds.domain + "/templates/" + templateName.value
    ensures templateName.None? ==> url == CreateTemplateUrl(creds)
  {
    match templateName
    case Some(name) =>
      if fetchVersions then
        PathUnderRoot(creds.apiBase, creds.domain, [name, VersionsEndpoint]);
        PathCons(name, [VersionsEndpoint]);
        Path([creds.apiBase, creds.domain, TemplatesEndpoint] + [name, VersionsEndpoint])
      else
        PathUnderRoot(creds.apiBase, creds.domain, [name]);
        Path([creds.apiBase, creds.domain, TemplatesEndpoint] + [name])
    case None => CreateTemplateUrl(creds)
  }

  /** Distinct requests go to distinct URLs when template names hold no
      `/`: the URL identifies the name, and for a name the version flag. */
  lemma GetTemplatesUrlInjective(creds: ValidCredentials, name1: Option<string>, versions1: bool,
                                 name2: Option<string>, versions2: bool)
    requires name1.Some? ==> '/' !in name1.value
    requires name2.Some? ==> '/' !in name2.value
    requires GetTemplatesUrl(creds, name1, versions1) == GetTemplatesUrl(creds, name2, versions2)
    ensures name1 == name2
    ensures name1.Some? ==> versions1 == versions2
  {
    var root := CreateTemplateUrl(creds);
    var url := GetTemplatesUrl(creds, name1, versions1);
    if name1.Some? && name2.Some? {
      var n1, n2 := name1.value, name2.value;
      var tail1 := if versions1 then n1 + "/versions" else n1;
      var tail2 := if versions2 then n2 + "/versions" else n2;
      assert url == root + "/" + tail1;
      assert url == root + "/" + tail2;
      assert tail1 == url[|root| + 1..] == tail2;
      if versions1 && versions2 {
        assert n1 == tail1[..|n1|] && n2 == tail2[..|n2|];
      }
    }
  }

  /** The listing URL without a name is the creation URL, whatever the
      version flag says: a corollary of `GetTemplatesUrl`'s contract, stated
      from the caller's side. */
  lemma UnnamedListingIsCollection(creds: ValidCredentials, fetchVersions: bool)
    ensures GetTemplatesUrl(creds, None, fetchVersions) == CreateTemplateUrl(creds)
    ensures GetTemplatesUrl(creds, None, fetchVersions) == GetTemplatesUrl(creds, None, !fetchVersions)
  {
  }

  datatype VersionResponse = VersionResponse(
    createdAt: string,
    engine: string,
    tag: string,
    comment: string,
    mjml: string,
    template: Option<string>,
    id: Option<string>,
    active: bool)

  datatype TemplateResponse = TemplateResponse(
    createdAt: string,
    createdBy: string,
    description: string,
    name: string,
    id: string,
    version: Option<VersionResponse>,
    versions: Option<seq<VersionResponse>>)

  datatype GetTemplatesResponse = GetTemplatesResponse(items: seq<TemplateResponse>)

  datatype GetSingleTemplateResponse = GetSingleTemplateResponse(template: TemplateResponse)

  /** The reply body could not be read as the expected shape. */
  datatype DecodeError = DecodeError

  /** The reply handling of `get_templates_with_request_builder`: with a name
      the body is read as one template and wrapped in a one-item list;
      without, it is read as the list. The JSON decoders of the two shapes
      are parameters. */
  function WrapTemplatesResponse<Json>(
    templateName: Option<string>,
    body: Json,
    decodeSingle: Json -> Option<GetSingleTemplateResponse>,
    decodeList: Json -> Option<GetTemplatesResponse>): (r: Result<GetTemplatesResponse, DecodeError>)
    ensures templateName.Some? ==> (r.Success? <==> decodeSingle(body).Some?)
    ensures templateName.Some? && r.Success? ==>
      |r.value.items| == 1 && decodeSingle(body) == Some(GetSingleTemplateResponse(r.value.items[0]))
    ensures templateName.None? ==> (r.Success? <==> decodeList(body).Some?)
    ensures templateName.None? && r.Success? ==> decodeList(body) == Some(r.value)
  {
    if templateName.Some? then
      match decodeSingle(body)
      case Some(parsed) => Success(GetTemplatesResponse([parsed.template]))
      case None => Failure(DecodeError)
    else
      match decodeList(body)
      case Some(parsed) => Success(parsed)
      case None => Failure(DecodeError)
  }
}
