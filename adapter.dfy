/**
 The translation layer of the broker: the one backend request each lifecycle
 operation sends, the `Authorization` header every request carries, and the
 translation of the backend's answer (or failure) into the broker's response.
 */
module Adapter {
  import opened Results
  import opened Text
  import Base64
  import opened Plans

  /** The injected `caffeine.service` properties: base uri, username and password. */
  datatype Config = Config(uri: string, username: string, password: string)

  datatype HttpMethod = Post | Delete

  /**
   A backend URI as `UriComponentsBuilder` assembles it: the configured base,
   the path segments appended to it, and the query parameters in the order
   they were added.
   */
  datatype Uri = Uri(base: string, segments: seq<string>, query: seq<(string, string)>)

  /** One outbound `RequestEntity`: method, URI and its `Authorization` header. */
  datatype Request = Request(verb: HttpMethod, uri: Uri, authorization: string)

  /** A JSON value as the backend's credential body carries it. */
  datatype Value =
    | Str(s: string)
    | Num(n: int)
    | Flag(b: bool)
    | Null
    | List(items: seq<Value>)
    | Object(fields: map<string, Value>)

  type Credentials = map<string, Value>

  /** A `RestClientException`: a non-2xx status or a transport failure; opaque to the broker. */
  datatype RestError = RestError(status: int, message: string)

  /**
   What `RestTemplate.exchange` gives back: the response body (absent when
   the backend sent none) or the exception it threw. The body is read only
   by create-binding; the other operations discard it.
   */
  datatype Reply = Answered(body: Option<Credentials>) | Threw(error: RestError)

  /** The failures the broker raises to the protocol layer. */
  datatype BrokerError =
    | InstanceExists(serviceInstanceId: string, serviceDefinitionId: string)  // ServiceInstanceExistsException
    | Transport(error: RestError)                                              // RestClientException rethrown
    | UnknownPlan(cause: PlanError)                                            // IllegalArgumentException from valueOf
    | NullBody                                                                 // NullPointerException from new HashMap<>(null)

  datatype CreateInstanceRequest = CreateInstanceRequest(serviceInstanceId: string, serviceDefinitionId: string, planId: string)

  datatype DeleteInstanceRequest = DeleteInstanceRequest(serviceInstanceId: string)

  datatype CreateBindingRequest = CreateBindingRequest(serviceInstanceId: string, bindingId: string)

  datatype DeleteBindingRequest = DeleteBindingRequest(serviceInstanceId: string, bindingId: string)

  datatype OperationState = InProgress | Succeeded | Failed

  // ---------------------------------------------------------------------------
  // The Authorization header (section 2 of RFC 7617)

  const BasicPrefix: string := "Basic "

  /** `"Basic " + base64((username + ":" + password).getBytes())`. */
  function Authorization(cfg: Config): (h: string)
    ensures |h| >= |BasicPrefix| && h[..|BasicPrefix|] == BasicPrefix
  {
    BasicPrefix + Base64.Encode(AsciiBytes(cfg.username + ":" + cfg.password))
  }

  /** The position of the first colon in `s`, if any. */
  function FirstColon(s: string): (r: Option<nat>)
    ensures r.Some? ==> r.value < |s| && s[r.value] == ':' && ':' !in s[..r.value]
    ensures r.None? ==> ':' !in s
  {
    if s == [] then None
    else if s[0] == ':' then Some(0)
    else match FirstColon(s[1..])
      case None => None
      case Some(k) => Some(k + 1)
  }

  /** The first colon is the one with no colon before it. */
  lemma FirstColonAt(s: string, k: nat)
    requires k < |s| && s[k] == ':' && ':' !in s[..k]
    ensures FirstColon(s) == Some(k)
  {
  }

  /**
   What a server reads from a Basic header under section 2 of RFC 7617:
   strip the scheme, decode the Base64, and split the user-pass at its first
   colon. None when any step fails.
   */
  function ReadBasic(h: string): Option<(string, string)> {
    if |h| < |BasicPrefix| || h[..|BasicPrefix|] != BasicPrefix then None
    else match Base64.Decode(h[|BasicPrefix|..])
      case None => None
      case Some(bytes) =>
        if exists i :: 0 <= i < |bytes| && bytes[i] >= 128 then None
        else
          var text := AsciiText(bytes);
          match FirstColon(text)
          case None => None
          case Some(k) => Some((text[..k], text[k + 1..]))
  }

  /** The header decodes to exactly the bytes of `username:password`. */
  lemma AuthorizationDecodes(cfg: Config)
    ensures Base64.Decode(Authorization(cfg)[|BasicPrefix|..]) == Some(AsciiBytes(cfg.username + ":" + cfg.password))
    ensures IsAscii(cfg.username) && IsAscii(cfg.password) ==>
              AsciiText(AsciiBytes(cfg.username + ":" + cfg.password)) == cfg.username + ":" + cfg.password
  {
    var bytes := AsciiBytes(cfg.username + ":" + cfg.password);
    assert Authorization(cfg)[|BasicPrefix|..] == Base64.Encode(bytes);
    Base64.DecodeEncode(bytes);
    if IsAscii(cfg.username) && IsAscii(cfg.password) {
      AsciiRoundTrip(cfg.username + ":" + cfg.password);
    }
  }

  /**
   A server reading the header recovers the configured username and password,
   provided both are ASCII and the username has no colon (section 2 of
   RFC 7617 forbids one; the broker does not check).
   */
  lemma AuthorizationReadsBack(cfg: Config)
    requires IsAscii(cfg.username) && IsAscii(cfg.password)
    requires ':' !in cfg.username
    ensures ReadBasic(Authorization(cfg)) == Some((cfg.username, cfg.password))
  {
    AuthorizationDecodes(cfg);
    var text := cfg.username + ":" + cfg.password;
    var k := |cfg.username|;
    assert text[..k] == cfg.username && text[k] == ':' && text[k + 1..] == cfg.password;
    FirstColonAt(text, k);
  }

  /** User `foo` with password `bar` gives the header `Basic Zm9vOmJhcg==`. */
  lemma FooBarHeader(uri: string)
    ensures Authorization(Config(uri, "foo", "bar")) == "Basic " + ("Zm9v" + ("OmJh" + "cg=="))
  {
    var text := "foo" + ":" + "bar";
    var expected: seq<uint8> := [102, 111, 111, 58, 98, 97, 114];
    var b := AsciiBytes(text);
    forall i | 0 <= i < |text| ensures b[i] == expected[i] {
      assert text[i] as int == expected[i] as int;
    }
    assert b == expected;
    Base64.FooBarEncoding();
  }

  // ---------------------------------------------------------------------------
  // The outbound requests

  /** base/caffeine?service_id=..&expire_second=..&maximum_size=.. */
  function CreateInstanceUri(cfg: Config, serviceInstanceId: string, t: Tier): (u: Uri)
    ensures Render(u) == cfg.uri + "/" + "caffeine" + "?" + "service_id" + "=" + serviceInstanceId
                         + "&" + "expire_second" + "=" + Decimal(t.ExpireSeconds())
                         + "&" + "maximum_size" + "=" + Decimal(t.MaximumSize())
  {
    var e, m := Decimal(t.ExpireSeconds()), Decimal(t.MaximumSize());
    RenderThreeParams(cfg.uri, "caffeine", ("service_id", serviceInstanceId), ("expire_second", e), ("maximum_size", m));
    Uri(cfg.uri, ["caffeine"], [("service_id", serviceInstanceId), ("expire_second", e), ("maximum_size", m)])
  }

  /** base/caffeine/{instance} */
  function DeleteInstanceUri(cfg: Config, serviceInstanceId: string): (u: Uri)
    ensures Render(u) == cfg.uri + "/caffeine/" + serviceInstanceId
  {
    var u := Uri(cfg.uri, ["caffeine", serviceInstanceId], []);
    RenderPathOne(serviceInstanceId);
    assert u.segments[1..] == [serviceInstanceId];
    u
  }

  /** base/credentials?service_id=..&username=.. */
  function CreateBindingUri(cfg: Config, serviceInstanceId: string, bindingId: string): (u: Uri)
    ensures Render(u) == cfg.uri + "/" + "credentials" + "?" + "service_id" + "=" + serviceInstanceId
                         + "&" + "username" + "=" + bindingId
  {
    RenderTwoParams(cfg.uri, "credentials", ("service_id", serviceInstanceId), ("username", bindingId));
    Uri(cfg.uri, ["credentials"], [("service_id", serviceInstanceId), ("username", bindingId)])
  }

  /** base/credentials/{instance}/{binding} */
  function DeleteBindingUri(cfg: Config, serviceInstanceId: string, bindingId: string): (u: Uri)
    ensures Render(u) == cfg.uri + "/credentials/" + serviceInstanceId + "/" + bindingId
  {
    var u := Uri(cfg.uri, ["credentials", serviceInstanceId, bindingId], []);
    RenderPathOne(bindingId);
    assert u.segments[1..][1..] == [bindingId];
    assert RenderPath(u.segments[1..]) == "/" + serviceInstanceId + "/" + bindingId;
    assert RenderPath(u.segments) == "/credentials/" + serviceInstanceId + "/" + bindingId;
    u
  }

  /** Create-instance: a POST of its URI, with a header that decodes to the configured `username:password`. */
  function CreateInstanceCall(cfg: Config, serviceInstanceId: string, t: Tier): (r: Request)
    ensures r.verb == Post && r.uri == CreateInstanceUri(cfg, serviceInstanceId, t)
    ensures |r.authorization| >= |BasicPrefix| && r.authorization[..|BasicPrefix|] == BasicPrefix
    ensures Base64.Decode(r.authorization[|BasicPrefix|..]) == Some(AsciiBytes(cfg.username + ":" + cfg.password))
  {
    AuthorizationDecodes(cfg);
    Request(Post, CreateInstanceUri(cfg, serviceInstanceId, t), Authorization(cfg))
  }

  /** Delete-instance: a DELETE of its URI, with a header that decodes to the configured `username:password`. */
  function DeleteInstanceCall(cfg: Config, serviceInstanceId: string): (r: Request)
    ensures r.verb == Delete && r.uri == DeleteInstanceUri(cfg, serviceInstanceId)
    ensures |r.authorization| >= |BasicPrefix| && r.authorization[..|BasicPrefix|] == BasicPrefix
    ensures Base64.Decode(r.authorization[|BasicPrefix|..]) == Some(AsciiBytes(cfg.username + ":" + cfg.password))
  {
    AuthorizationDecodes(cfg);
    Request(Delete, DeleteInstanceUri(cfg, serviceInstanceId), Authorization(cfg))
  }

  /** Create-binding: a POST of its URI, with a header that decodes to the configured `username:password`. */
  function CreateBindingCall(cfg: Config, serviceInstanceId: string, bindingId: string): (r: Request)
    ensures r.verb == Post && r.uri == CreateBindingUri(cfg, serviceInstanceId, bindingId)
    ensures |r.authorization| >= |BasicPrefix| && r.authorization[..|BasicPrefix|] == BasicPrefix
    ensures Base64.Decode(r.authorization[|BasicPrefix|..]) == Some(AsciiBytes(cfg.username + ":" + cfg.password))
  {
    AuthorizationDecodes(cfg);
    Request(Post, CreateBindingUri(cfg, serviceInstanceId, bindingId), Authorization(cfg))
  }

  /** Delete-binding: a DELETE of its URI, with a header that decodes to the configured `username:password`. */
  function DeleteBindingCall(cfg: Config, serviceInstanceId: string, bindingId: string): (r: Request)
    ensures r.verb == Delete && r.uri == DeleteBindingUri(cfg, serviceInstanceId, bindingId)
    ensures |r.authorization| >= |BasicPrefix| && r.authorization[..|BasicPrefix|] == BasicPrefix
    ensures Base64.Decode(r.authorization[|BasicPrefix|..]) == Some(AsciiBytes(cfg.username + ":" + cfg.password))
  {
    AuthorizationDecodes(cfg);
    Request(Delete, DeleteBindingUri(cfg, serviceInstanceId, bindingId), Authorization(cfg))
  }

  /** The value of the first query parameter named `key`. */
  function QueryValue(query: seq<(string, string)>, key: string): (r: Option<string>)
    ensures r.Some? <==> exists i :: 0 <= i < |query| && query[i].0 == key
  {
    if query == [] then None
    else if query[0].0 == key then Some(query[0].1)
    else QueryValue(query[1..], key)
  }

  /**
   The create-instance request posts to the `caffeine` collection and its
   query pairs carry, in this order, the instance id and the chosen tier's
   expiry and size; looked up by key, the pairs give back the id and those
   numbers.
   */
  lemma CreateInstanceCallCarriesTier(cfg: Config, serviceInstanceId: string, t: Tier)
    ensures var r := CreateInstanceCall(cfg, serviceInstanceId, t);
      && r.verb == Post && r.uri.base == cfg.uri && r.uri.segments == ["caffeine"]
      && |r.uri.query| == 3
      && r.uri.query[0].0 == "service_id" && r.uri.query[1].0 == "expire_second" && r.uri.query[2].0 == "maximum_size"
      && QueryValue(r.uri.query, "service_id") == Some(serviceInstanceId)
      && QueryValue(r.uri.query, "expire_second").Some?
      && IsDigits(QueryValue(r.uri.query, "expire_second").value)
      && ParseDecimal(QueryValue(r.uri.query, "expire_second").value) == t.ExpireSeconds()
      && QueryValue(r.uri.query, "maximum_size").Some?
      && IsDigits(QueryValue(r.uri.query, "maximum_size").value)
      && ParseDecimal(QueryValue(r.uri.query, "maximum_size").value) == t.MaximumSize()
  {
    var q := CreateInstanceCall(cfg, serviceInstanceId, t).uri.query;
    assert QueryValue(q, "expire_second") == Some(Decimal(t.ExpireSeconds())) by {
      assert q[1..][0].0 == "expire_second";
    }
    assert QueryValue(q, "maximum_size") == Some(Decimal(t.MaximumSize())) by {
      assert q[1..][1..][0].0 == "maximum_size";
      assert QueryValue(q[1..][1..], "maximum_size") == Some(Decimal(t.MaximumSize()));
      assert QueryValue(q[1..], "maximum_size") == Some(Decimal(t.MaximumSize()));
    }
    ParseDecimalOfDecimal(t.ExpireSeconds());
    ParseDecimalOfDecimal(t.MaximumSize());
  }

  /**
   The create-binding request posts to the `credentials` collection and its
   query pairs carry, in this order, the instance id and the binding id;
   looked up by key, the pairs give back the two ids.
   */
  lemma CreateBindingCallCarriesIds(cfg: Config, serviceInstanceId: string, bindingId: string)
    ensures var r := CreateBindingCall(cfg, serviceInstanceId, bindingId);
      && r.verb == Post && r.uri.base == cfg.uri && r.uri.segments == ["credentials"]
      && |r.uri.query| == 2 && r.uri.query[0].0 == "service_id" && r.uri.query[1].0 == "username"
      && QueryValue(r.uri.query, "service_id") == Some(serviceInstanceId)
      && QueryValue(r.uri.query, "username") == Some(bindingId)
  {
    var q := CreateBindingCall(cfg, serviceInstanceId, bindingId).uri.query;
    assert QueryValue(q[1..], "username") == Some(bindingId);
  }

  /** Every backend request the broker can send carries the same header, built from the configuration alone. */
  lemma EveryCallAuthenticated(cfg: Config, instanceId: string, bindingId: string, t: Tier)
    ensures CreateInstanceCall(cfg, instanceId, t).authorization == Authorization(cfg)
    ensures DeleteInstanceCall(cfg, instanceId).authorization == Authorization(cfg)
    ensures CreateBindingCall(cfg, instanceId, bindingId).authorization == Authorization(cfg)
    ensures DeleteBindingCall(cfg, instanceId, bindingId).authorization == Authorization(cfg)
  {
  }

  /**
   The two deletes carry no query, and distinct ids give distinct abstract
   requests (segment lists); the rendered URIs are compared in
   `DeleteInstanceUriInjective` and `DeleteBindingUriInjective`.
   */
  lemma DeleteCallsAddressResource(cfg: Config, i: string, b: string, i': string, b': string)
    ensures DeleteInstanceCall(cfg, i).uri.query == [] && DeleteBindingCall(cfg, i, b).uri.query == []
    ensures DeleteInstanceCall(cfg, i) == DeleteInstanceCall(cfg, i') <==> i == i'
    ensures DeleteBindingCall(cfg, i, b) == DeleteBindingCall(cfg, i', b') <==> i == i' && b == b'
    ensures DeleteInstanceCall(cfg, i) != DeleteBindingCall(cfg, i', b')
  {
  }

  /** The characters of `x + [c] + y` up to the separator. */
  lemma JoinAt(x: string, y: string, c: char, k: nat)
    ensures k < |x| ==> (x + [c] + y)[k] == x[k] && x[k] in x
    ensures (x + [c] + y)[|x|] == c
  {
  }

  /** Text joined at a separator the first part does not contain splits back into its parts. */
  lemma SplitAtSeparator(x: string, y: string, x': string, y': string, c: char)
    requires c !in x && c !in x'
    requires x + [c] + y == x' + [c] + y'
    ensures x == x' && y == y'
  {
    var s, s' := x + [c] + y, x' + [c] + y';
    if |x| < |x'| {
      JoinAt(x', y', c, |x|);
      assert false;
    } else if |x'| < |x| {
      JoinAt(x, y, c, |x'|);
      assert false;
    }
    assert x == s[..|x|] && x' == s'[..|x'|];
    assert y == s[|x| + 1..] && y' == s'[|x'| + 1..];
  }

  /** Under the model's rendering, distinct instance ids give distinct delete-instance URIs. */
  lemma DeleteInstanceUriInjective(cfg: Config, i: string, i': string)
    ensures Render(DeleteInstanceUri(cfg, i)) == Render(DeleteInstanceUri(cfg, i')) <==> i == i'
  {
    var prefix := cfg.uri + "/caffeine/";
    if Render(DeleteInstanceUri(cfg, i)) == Render(DeleteInstanceUri(cfg, i')) {
      assert i == (prefix + i)[|prefix|..];
      assert i' == (prefix + i')[|prefix|..];
    }
  }

  /**
   Under the model's rendering, distinct id pairs give distinct delete-binding
   URIs as long as no instance id contains `/`; with `/` allowed,
   ("a/b", "c") and ("a", "b/c") render alike.
   */
  lemma DeleteBindingUriInjective(cfg: Config, i: string, b: string, i': string, b': string)
    requires '/' !in i && '/' !in i'
    ensures Render(DeleteBindingUri(cfg, i, b)) == Render(DeleteBindingUri(cfg, i', b')) <==> i == i' && b == b'
  {
    var prefix := cfg.uri + "/credentials/";
    if Render(DeleteBindingUri(cfg, i, b)) == Render(DeleteBindingUri(cfg, i', b')) {
      assert prefix + i + "/" + b == prefix + (i + "/" + b);
      assert prefix + i' + "/" + b' == prefix + (i' + "/" + b');
      assert i + "/" + b == (prefix + (i + "/" + b))[|prefix|..];
      assert i' + "/" + b' == (prefix + (i' + "/" + b'))[|prefix|..];
      SplitAtSeparator(i, b, i', b', '/');
    }
  }

  /**
   The text of a URI without percent-encoding: `/`-joined segments and
   `&`-joined `key=value` pairs after the configured base, which every
   request therefore starts with.
   */
  function Render(u: Uri): (s: string)
    ensures |s| >= |u.base| && s[..|u.base|] == u.base
  {
    u.base + RenderPath(u.segments) + if u.query == [] then "" else "?" + RenderQuery(u.query)
  }

  function RenderPath(segments: seq<string>): string {
    if segments == [] then "" else "/" + segments[0] + RenderPath(segments[1..])
  }

  lemma RenderPathOne(segment: string)
    ensures RenderPath([segment]) == "/" + segment
  {
    assert [segment][1..] == [];
  }

  function RenderQuery(query: seq<(string, string)>): string
    requires query != []
  {
    query[0].0 + "=" + query[0].1 + if |query| == 1 then "" else "&" + RenderQuery(query[1..])
  }

  lemma RenderQueryThree(p: (string, string), q: (string, string), r: (string, string))
    ensures RenderQuery([p, q, r]) == p.0 + "=" + p.1 + "&" + q.0 + "=" + q.1 + "&" + r.0 + "=" + r.1
  {
    assert [p, q, r][1..] == [q, r];
    assert [q, r][1..] == [r];
    assert RenderQuery([r]) == r.0 + "=" + r.1;
    assert RenderQuery([q, r]) == q.0 + "=" + q.1 + "&" + (r.0 + "=" + r.1);
  }

  /** A one-segment URI with two query parameters. */
  lemma RenderTwoParams(base: string, segment: string, p: (string, string), q: (string, string))
    ensures Render(Uri(base, [segment], [p, q])) == base + "/" + segment + "?" + p.0 + "=" + p.1 + "&" + q.0 + "=" + q.1
  {
    RenderPathOne(segment);
    assert [p, q][1..] == [q];
    assert RenderQuery([q]) == q.0 + "=" + q.1;
  }

  /** A one-segment URI with three query parameters. */
  lemma RenderThreeParams(base: string, segment: string, p: (string, string), q: (string, string), r: (string, string))
    ensures Render(Uri(base, [segment], [p, q, r]))
            == base + "/" + segment + "?" + p.0 + "=" + p.1 + "&" + q.0 + "=" + q.1 + "&" + r.0 + "=" + r.1
  {
    RenderPathOne(segment);
    RenderQueryThree(p, q, r);
  }

  lemma DecimalExamples()
    ensures Decimal(60) == "60" && Decimal(100) == "100"
  {
  }

  /** The create-instance request line of the backend API, for the weak tier. */
  lemma RenderedCreateInstance(cfg: Config)
    ensures Render(CreateInstanceUri(cfg, "inst-1", Weak))
            == cfg.uri + "/" + "caffeine" + "?" + "service_id" + "=" + "inst-1"
               + "&" + "expire_second" + "=" + "60" + "&" + "maximum_size" + "=" + "100"
  {
    DecimalExamples();
  }

  // ---------------------------------------------------------------------------
  // Outcome translation

  /**
   The `uri` credential: the base uri, `/caffeine/` and the instance id,
   concatenated as text. Under the model's rendering of URIs this is the URI
   that delete-instance targets.
   */
  function InstanceUri(cfg: Config, serviceInstanceId: string): (c: string)
    ensures c == Render(DeleteInstanceUri(cfg, serviceInstanceId))
  {
    cfg.uri + "/caffeine/" + serviceInstanceId
  }

  /** The body copied into a new map with `uri` put into it. */
  function WithUri(body: Credentials, uri: string): (c: Credentials)
    ensures c.Keys == body.Keys + {"uri"}
    ensures c["uri"] == Str(uri)
    ensures forall k :: k in body && k != "uri" ==> c[k] == body[k]
  {
    body["uri" := Str(uri)]
  }

  /** The create-instance response for the backend's reply: empty on success, a conflict otherwise. */
  function CreateInstanceOutcome(request: CreateInstanceRequest, reply: Reply): (r: Result<(), BrokerError>)
    ensures r.Ok? <==> reply.Answered?
    ensures reply.Threw? ==> r.error == InstanceExists(request.serviceInstanceId, request.serviceDefinitionId)
  {
    match reply
    case Answered(_) => Ok(())
    case Threw(_) => Err(InstanceExists(request.serviceInstanceId, request.serviceDefinitionId))
  }

  /** Delete-instance and delete-binding: empty on success, the backend's failure unchanged otherwise. */
  function Propagate(reply: Reply): (r: Result<(), BrokerError>)
    ensures r.Ok? <==> reply.Answered?
    ensures reply.Threw? ==> r.error == Transport(reply.error)
  {
    match reply
    case Answered(_) => Ok(())
    case Threw(e) => Err(Transport(e))
  }

  /**
   Create-binding: the backend's credentials plus `uri`; the backend's failure
   unchanged; a success without a body fails on the copy.
   */
  function BindingOutcome(cfg: Config, serviceInstanceId: string, reply: Reply): (r: Result<Credentials, BrokerError>)
    ensures reply.Threw? ==> r == Err(Transport(reply.error))
    ensures reply == Answered(None) ==> r == Err(NullBody)
  {
    match reply
    case Threw(e) => Err(Transport(e))
    case Answered(None) => Err(NullBody)
    case Answered(Some(body)) => Ok(WithUri(body, InstanceUri(cfg, serviceInstanceId)))
  }

  /**
   The credentials handed to the application are the backend's, key for key,
   except that `uri` is always present and always the instance's URI, even
   when the backend sent a `uri` of its own.
   */
  lemma BindingCredentials(cfg: Config, serviceInstanceId: string, body: Credentials)
    ensures var r := BindingOutcome(cfg, serviceInstanceId, Answered(Some(body)));
      && r.Ok?
      && r.value.Keys == body.Keys + {"uri"}
      && r.value["uri"] == Str(InstanceUri(cfg, serviceInstanceId))
      && (forall k :: k in body && k != "uri" ==> r.value[k] == body[k])
      && |r.value| == if "uri" in body then |body| else |body| + 1
  {
  }

  /** A backend body `{"password": "p1"}` for instance `inst-1`. */
  lemma BindingExample(cfg: Config)
    ensures BindingOutcome(cfg, "inst-1", Answered(Some(map["password" := Str("p1")])))
            == Ok(map["password" := Str("p1"), "uri" := Str(cfg.uri + "/caffeine/inst-1")])
  {
    var body := map["password" := Str("p1")];
    var expected := map["password" := Str("p1"), "uri" := Str(cfg.uri + "/caffeine/inst-1")];
    BindingCredentials(cfg, "inst-1", body);
    var c := BindingOutcome(cfg, "inst-1", Answered(Some(body))).value;
    assert InstanceUri(cfg, "inst-1") == cfg.uri + "/caffeine/inst-1";
    assert c.Keys == expected.Keys;
  }
}
