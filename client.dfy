/** The request-building half of the SoundCloud API client: how a client
    is configured, how a resource name becomes a URL, how the parameters
    of an outgoing request are merged, which HTTP verbs the client answers
    to, and where the OAuth redirect URI is looked up. The request itself
    is not sent: the model stops at the (method, url, params) triple the
    transport function would receive. */
module SoundCloudClient {
  import opened Wrappers
  import opened Slashes

  /** A keyword-argument value. `Null` is Python's `None`; `Other` stands
      for any other object, known only by its `str()` text and its truth value. */
  datatype Value = Bool(b: bool) | Str(s: string) | Null | Other(text: string, truthy: bool)

  /** Python truthiness of a value. */
  function Truthy(v: Value): bool
  {
    match v
    case Bool(b) => b
    case Str(s) => s != ""
    case Null => false
    case Other(_, t) => t
  }

  /** The false values are exactly False, the empty string, None and the
      other objects that are false. */
  lemma FalseValues(v: Value)
    ensures !Truthy(v) <==> v == Bool(false) || v == Str("") || v == Null || (v.Other? && !v.truthy)
  {
  }

  /** The text `'%s' % v` produces: a string is its own text, and the
      booleans and None spell their Python names. */
  function Render(v: Value): (r: string)
    ensures v.Str? ==> r == v.s
    ensures v.Bool? ==> r == if v.b then "True" else "False"
    ensures v == Null ==> r == "None"
  {
    match v
    case Bool(b) => if b then "True" else "False"
    case Str(s) => s
    case Null => "None"
    case Other(text, _) => text
  }

  /** `m.get(key, default)`. */
  function Get(m: map<string, Value>, key: string, default: Value): (r: Value)
    ensures key in m ==> r == m[key]
    ensures key !in m ==> r == default
  {
    if key in m then m[key] else default
  }

  /** The class-level defaults of `Client`. */
  const DefaultUseSsl: bool := true
  const DefaultHost: string := "api.soundcloud.com"

  /** The only attribute names `__getattr__` turns into request builders. */
  const Verbs: set<string> := {"get", "post", "put", "head", "delete"}

  /** The scheme chosen by `use_ssl and 'https://' or 'http://'`. */
  function SchemeFor(useSsl: bool): (r: string)
    ensures Head(r, 4) == "http"
    ensures r == "https://" <==> useSsl
    ensures r == "http://" <==> !useSsl
  {
    if useSsl then "https://" else "http://"
  }

  /** `name[:4] == 'http'`, the test for "already a URL": a name shorter
      than four characters never passes it, a longer one passes exactly
      when its first four characters are `http`. */
  function IsUrl(name: string): (r: bool)
    ensures r <==> |name| >= 4 && name[..4] == "http"
  {
    Head(name, 4) == "http"
  }

  /** The slice test is a prefix test. */
  lemma IsUrlIsPrefix(name: string)
    ensures IsUrl(name) <==> "http" <= name
  {
  }

  /** What `partial(self._request, name)` binds: the verb to send. */
  datatype RequestBuilder = RequestBuilder(verb: string)

  /** The exceptions of this core: `__getattr__` raises AttributeError for
      a name that is not a verb; a call raises TypeError when a keyword
      collides with a named parameter of the function it reaches, carrying
      the colliding names. */
  datatype Error = AttributeError(name: string) | TypeError(clashes: set<string>)

  /** The named parameters of `__init__(self, **kwargs)`. */
  const InitParameters: set<string> := {"self"}

  /** The named parameters of `_request(self, method, resource, **kwargs)`,
      reached through the bound method `partial(self._request, name)`. */
  const RequestParameters: set<string> := {"self", "method", "resource"}

  /** The call that would be handed to `make_request`. */
  datatype RequestSpec = RequestSpec(verb: string, url: string, params: map<string, Value>)

  /** `__getattr__`: only the five verbs give a request builder, bound to
      that very verb; every other name raises AttributeError. */
  function GetAttr(name: string): (r: Result<RequestBuilder, Error>)
    ensures r.Success? <==> name in Verbs
    ensures r.Success? ==> r.value.verb == name
    ensures r.Failure? ==> r.error == AttributeError(name)
  {
    if name in Verbs then Success(RequestBuilder(name)) else Failure(AttributeError(name))
  }

  /** The whitelist is exactly these five lower-case names: the check is
      case-sensitive and `patch` or `options` are refused. */
  lemma VerbsExactly(name: string)
    ensures GetAttr(name).Success? <==>
      name == "get" || name == "post" || name == "put" || name == "head" || name == "delete"
    ensures GetAttr("patch").Failure? && GetAttr("GET").Failure?
  {
  }

  class Client {
    /** The `use_ssl` option as given (default True). */
    const useSsl: Value
    /** The `host` option as given (default `api.soundcloud.com`). */
    const host: Value
    const scheme: string
    /** Every keyword argument of the constructor, recognised or not. */
    const options: map<string, Value>
    const clientId: Value
    /** `Some(v)` when the instance has an `access_token` attribute; it is
        set only when the keyword was passed, even as `None`. */
    const accessToken: Option<Value>

    /** The scheme agrees with the truth value of `use_ssl`. */
    ghost predicate Valid()
    {
      scheme == SchemeFor(Truthy(useSsl))
    }

    /** The fields `__init__` sets from its keyword arguments: `use_ssl`
        and `host` fall back to the class defaults, the scheme follows the
        truth value of `use_ssl`, the options are all keywords verbatim,
        and the access token exists exactly when its keyword was passed. */
    ghost predicate ConfiguredFrom(kwargs: map<string, Value>)
    {
      && Valid()
      && useSsl == Get(kwargs, "use_ssl", Bool(DefaultUseSsl))
      && host == Get(kwargs, "host", Str(DefaultHost))
      && options == kwargs
      && clientId == Get(kwargs, "client_id", Null)
      && (accessToken.Some? <==> "access_token" in kwargs)
      && (accessToken.Some? ==> accessToken.value == kwargs["access_token"])
    }

    /** The body of `__init__`, once the keywords are bound; the binding
        itself, which can fail, is `NewClient`. */
    constructor (kwargs: map<string, Value>)
      ensures ConfiguredFrom(kwargs)
    {
      var ssl := Get(kwargs, "use_ssl", Bool(DefaultUseSsl));
      useSsl := ssl;
      host := Get(kwargs, "host", Str(DefaultHost));
      scheme := SchemeFor(Truthy(ssl));
      options := kwargs;
      clientId := Get(kwargs, "client_id", Null);
      if "access_token" in kwargs {
        accessToken := Some(kwargs["access_token"]);
      } else {
        accessToken := None;
      }
    }

    /** The URL prefix every bare resource name is placed under. */
    function Base(): string
    {
      scheme + Render(host) + "/"
    }

    /** `_resolve_resource_name`: a name that already starts with `http`
        is returned unchanged; any other name becomes the base followed by
        the name with every leading and trailing slash removed and its
        interior kept. */
    function ResolveResourceName(name: string): (r: string)
      ensures IsUrl(name) ==> r == name
      ensures !IsUrl(name) ==> Base() <= r
      ensures !IsUrl(name) ==> NoEdgeSlash(r[|Base()|..]) && Framed(name, r[|Base()|..])
    {
      if IsUrl(name) then name else Base() + Strip(name)
    }

    /** With the default options resolution lands on the SoundCloud API
        over HTTPS, with every edge slash of the name gone. */
    lemma ResolveDefault()
      requires Valid() && host == Str(DefaultHost) && useSsl == Bool(DefaultUseSsl)
      ensures ResolveResourceName("/tracks/") == "https://" + "api.soundcloud.com" + "/" + "tracks"
    {
      assert "/tracks/"[..4] == "/tra";
      ResolveBareName("/tracks/", "/", "tracks", "/");
      assert Base() == "https://" + "api.soundcloud.com" + "/";
    }

    /** `use_ssl=False, host='example.com'` gives plain HTTP on that host. */
    lemma ResolvePlainHttp()
      requires Valid() && host == Str("example.com") && useSsl == Bool(false)
      ensures ResolveResourceName("tracks") == "http://" + "example.com" + "/" + "tracks"
    {
      assert "tracks"[..4] == "trac";
      ResolveBareName("tracks", "", "tracks", "");
      assert scheme == "http://" && Render(host) == "example.com";
    }

    /** The part after the base is exactly the stripped name: nothing
        else between two runs of slashes could take its place. */
    lemma ResolveBareName(name: string, a: string, t: string, b: string)
      requires name == a + t + b && AllSlashes(a) && AllSlashes(b) && NoEdgeSlash(t)
      requires !IsUrl(name)
      ensures ResolveResourceName(name) == Base() + t
    {
      StripUnique(a, t, b);
    }

    /** Every resolved name is a URL: a bare name is placed after the
        scheme, which starts with `http`. */
    lemma ResolvedIsUrl(name: string)
      requires Valid()
      ensures IsUrl(ResolveResourceName(name))
    {
      if !IsUrl(name) {
        var r := ResolveResourceName(name);
        assert r[..4] == scheme[..4];
      }
    }

    /** Resolution is idempotent: resolving a resolved name returns it unchanged. */
    lemma ResolveIdempotent(name: string)
      requires Valid()
      ensures ResolveResourceName(ResolveResourceName(name)) == ResolveResourceName(name)
    {
      ResolvedIsUrl(name);
    }

    /** The outgoing parameters of `_request` for caller keywords
        `kwargs`: the caller's keys plus `verify_ssl` and `proxies`, plus
        `oauth_token` when the client has an access token; the stored
        token and transport options win over caller values; every other
        caller key passes through unchanged. */
    ghost predicate Merged(kwargs: map<string, Value>, params: map<string, Value>)
    {
      && params.Keys == kwargs.Keys + {"verify_ssl", "proxies"}
                        + (if accessToken.Some? then {"oauth_token"} else {})
      && params["verify_ssl"] == Get(options, "verify_ssl", Bool(true))
      && params["proxies"] == Get(options, "proxies", Null)
      && (accessToken.Some? ==> params["oauth_token"] == accessToken.value)
      && (forall k :: k in kwargs && k != "verify_ssl" && k != "proxies" && (accessToken.None? || k != "oauth_token")
            ==> k in params && params[k] == kwargs[k])
    }

    /** `_request`, up to the call of `make_request`: resolves the URL
        and merges the parameters in place, then returns the call. */
    method Request(verb: string, resource: string, kwargs: map<string, Value>) returns (req: RequestSpec)
      ensures req.verb == verb
      ensures req.url == ResolveResourceName(resource)
      ensures Merged(kwargs, req.params)
    {
      var url := ResolveResourceName(resource);
      var params := kwargs;
      if accessToken.Some? {
        params := params["oauth_token" := accessToken.value];
      }
      params := params["verify_ssl" := Get(options, "verify_ssl", Bool(true))]
                      ["proxies" := Get(options, "proxies", Null)];
      UpdatesMerge(kwargs, params);
      req := RequestSpec(verb, url, params);
    }

    /** The two in-place updates of `_request` yield the merged parameters. */
    lemma UpdatesMerge(kwargs: map<string, Value>, params: map<string, Value>)
      requires params == (if accessToken.Some? then kwargs["oauth_token" := accessToken.value] else kwargs)
                           ["verify_ssl" := Get(options, "verify_ssl", Bool(true))]
                           ["proxies" := Get(options, "proxies", Null)]
      ensures Merged(kwargs, params)
    {
    }

    /** `__getattr__(name)` followed by a call `(resource, **kwargs)` with
        the resource passed positionally: an unknown name fails with
        AttributeError before any request is built; a verb called with a
        keyword that collides with `self`, `method` or `resource` fails
        with TypeError; otherwise the result is the request `_request`
        builds for that verb. */
    method Invoke(name: string, resource: string, kwargs: map<string, Value>)
      returns (r: Result<RequestSpec, Error>)
      ensures r.Failure? <==> name !in Verbs || RequestParameters * kwargs.Keys != {}
      ensures name !in Verbs ==> r == Failure(AttributeError(name))
      ensures name in Verbs && RequestParameters * kwargs.Keys != {} ==>
        r == Failure(TypeError(RequestParameters * kwargs.Keys))
      ensures r.Success? ==> r.value.verb == name && r.value.url == ResolveResourceName(resource)
      ensures r.Success? ==> Merged(kwargs, r.value.params)
    {
      var attr := GetAttr(name);
      match attr
      case Failure(e) =>
        r := Failure(e);
      case Success(builder) =>
        var clashes := RequestParameters * kwargs.Keys;
        if clashes != {} {
          r := Failure(TypeError(clashes));
        } else {
          var req := Request(builder.verb, resource, kwargs);
          r := Success(req);
        }
    }

    /** The merged parameters are determined by the caller's keywords. */
    lemma MergedUnique(kwargs: map<string, Value>, p: map<string, Value>, q: map<string, Value>)
      requires Merged(kwargs, p) && Merged(kwargs, q)
      ensures p == q
    {
    }

    /** `oauth_token` goes out when, and only when, the client holds a
        token or the caller passed one; the client's token overrides the
        caller's, and without a token the caller's is kept. */
    lemma OAuthToken(kwargs: map<string, Value>, params: map<string, Value>)
      requires Merged(kwargs, params)
      ensures "oauth_token" in params <==> accessToken.Some? || "oauth_token" in kwargs
      ensures accessToken.Some? ==> params["oauth_token"] == accessToken.value
      ensures accessToken.None? && "oauth_token" in kwargs ==>
        params["oauth_token"] == kwargs["oauth_token"]
    {
    }

    /** `client_id` is stored but never injected: it is in the outgoing
        parameters only when the caller passed it, with the caller's value. */
    lemma ClientIdNotInjected(kwargs: map<string, Value>, params: map<string, Value>)
      requires Merged(kwargs, params)
      ensures "client_id" in params <==> "client_id" in kwargs
      ensures "client_id" in kwargs ==> params["client_id"] == kwargs["client_id"]
    {
    }

    /** `_redirect_uri`: `redirect_uri` when that key is present, even if
        its value is None; otherwise `redirect_url` when present; otherwise None. */
    function RedirectUri(): (r: Value)
      ensures "redirect_uri" in options ==> r == options["redirect_uri"]
      ensures "redirect_uri" !in options && "redirect_url" in options ==> r == options["redirect_url"]
      ensures "redirect_uri" !in options && "redirect_url" !in options ==> r == Null
    {
      Get(options, "redirect_uri", Get(options, "redirect_url", Null))
    }

    /** The lookup gives None exactly when every key it reaches is absent
        or holds None. */
    lemma RedirectUriNull()
      ensures RedirectUri() == Null <==>
        if "redirect_uri" in options then options["redirect_uri"] == Null
        else "redirect_url" !in options || options["redirect_url"] == Null
    {
    }
  }

  /** `Client(**kwargs)`: a `self` keyword collides with the bound
      instance and raises TypeError; any other keywords give a new client
      configured from them. */
  method NewClient(kwargs: map<string, Value>) returns (r: Result<Client, Error>)
    ensures r.Failure? <==> "self" in kwargs
    ensures r.Failure? ==> r.error == TypeError(InitParameters * kwargs.Keys)
    ensures r.Success? ==> fresh(r.value) && r.value.ConfiguredFrom(kwargs)
  {
    if "self" in kwargs {
      r := Failure(TypeError(InitParameters * kwargs.Keys));
    } else {
      var c := new Client(kwargs);
      r := Success(c);
    }
  }
}
