# SoundCloud API client: request construction

A Dafny model of the request-building half of the `Client` class of the
SoundCloud Python binding (`soundcloud/client.py`). A client is configured
once from keyword options; it turns a resource name such as `tracks` into a
full URL under `scheme + host`, merges the access token and the transport
options into the caller's parameters, answers only to the five HTTP verbs
`get`, `post`, `put`, `head` and `delete`, and looks up the OAuth redirect
URI under `redirect_uri` or its misspelling `redirect_url`.

Files:

- `wrappers.dfy` — `Option` and `Result`.
- `slashes.dfy` — module `Slashes`: Python's `s[:n]`, `str.lstrip('/')`
  and `str.rstrip('/')`, with the facts that characterise them.
- `client.dfy` — module `SoundCloudClient`: keyword values, the verb
  whitelist, and class `Client`, whose fields are `const` because only the
  constructor assigns them.

Keyword values are a datatype `Value`: booleans, strings, `None` (`Null`),
and `Other` for any other object, known by its `str()` text and its truth
value. This is what `use_ssl` truthiness and `'%s' % host` need.
`hasattr(self, 'access_token')` is `accessToken.Some?`. `_request` returns
the `(verb, url, params)` triple it would pass to `make_request`; it does
not send it.

Two facts about the code are worth stating directly:

- `name.rstrip('/').lstrip('/')` removes every slash at both ends, not
  only one (`Slashes.StripExample`, `Slashes.StripUnique`).
- `client_id` is stored (soundcloud/client.py:26) but never added to the
  outgoing parameters (`SoundCloudClient.Client.ClientIdNotInjected`).

Calls can also fail when Python binds their keyword arguments:
`Client(self=...)` and `client.get('tracks', method=...)` raise TypeError,
because the keyword collides with a named parameter of `__init__` or
`_request`. `NewClient` and `Invoke` return that error.

## Model

| member | source | states |
|---|---|---|
| `Slashes.Head` | soundcloud/client.py:56 | `name[:4]` is the prefix of length min(4, len), never an error |
| `Slashes.TrimLeading` | soundcloud/client.py:58 | `lstrip('/')` gives a suffix that does not start with `/`, and everything cut off is slashes |
| `Slashes.TrimTrailing` | soundcloud/client.py:58 | `rstrip('/')` gives a prefix that does not end with `/`, and everything cut off is slashes |
| `Slashes.Strip` | soundcloud/client.py:58 | `rstrip('/').lstrip('/')` has no slash at either edge and is a contiguous piece of the name with only slashes around it, so interior slashes are kept |
| `Slashes.TrimLeadingOf` | soundcloud/client.py:58 | slashes followed by a piece not starting with `/` lstrip to exactly that piece |
| `Slashes.TrimTrailingOf` | soundcloud/client.py:58 | a piece not ending with `/` followed by slashes rstrips to exactly that piece |
| `Slashes.StripUnique` | soundcloud/client.py:58 | any piece with no edge slash between two runs of slashes is what stripping returns, so stripping is fully determined by its contract |
| `Slashes.StripIdempotent` | soundcloud/client.py:58 | stripping an already stripped name changes nothing |
| `Slashes.StripOrderIrrelevant` | soundcloud/client.py:58 | `lstrip` then `rstrip` gives the same string as the code's `rstrip` then `lstrip` |
| `Slashes.StripExample` | soundcloud/client.py:58 | `//tracks/123//` strips to `tracks/123`: every edge slash goes, the interior one stays |
| `SoundCloudClient.FalseValues` | soundcloud/client.py:23 | the truth value `use_ssl and ...` tests: false exactly for False, the empty string, None and false objects |
| `SoundCloudClient.Render` | soundcloud/client.py:59 | the text `'%s'` gives for the host: a string is itself, booleans give `True`/`False`, None gives `None` |
| `SoundCloudClient.IsUrl` | soundcloud/client.py:56 | `name[:4] == 'http'`: never for a name shorter than four characters, otherwise exactly when the first four are `http` |
| `SoundCloudClient.Get` | soundcloud/client.py:21-22 | `dict.get`: the stored value when the key is present (even `None`), the default otherwise |
| `SoundCloudClient.SchemeFor` | soundcloud/client.py:23 | the scheme is `https://` exactly when `use_ssl` is truthy and `http://` exactly when it is not; both start with `http` |
| `SoundCloudClient.IsUrlIsPrefix` | soundcloud/client.py:56 | `name[:4] == 'http'` holds exactly when `http` is a prefix of the name |
| `SoundCloudClient.GetAttr` | soundcloud/client.py:48-52 | a builder comes back exactly for the five verbs, bound to that verb; every other name fails with AttributeError for that name |
| `SoundCloudClient.VerbsExactly` | soundcloud/client.py:50-51 | the accepted names are exactly `get`, `post`, `put`, `head`, `delete`; the test is case-sensitive (`GET`, `patch` fail) |
| `SoundCloudClient.NewClient` | soundcloud/client.py:17-30 | `Client(**kwargs)` fails with TypeError exactly when a `self` keyword is passed; otherwise it gives a fresh client configured as the constructor states |
| `SoundCloudClient.Client.constructor` | soundcloud/client.py:14-30 | once the keywords are bound, `use_ssl` defaults to True, `host` to `api.soundcloud.com`, the scheme follows `use_ssl`, all options are kept verbatim, `client_id` defaults to None, and an access token exists exactly when the keyword was passed, even as None |
| `SoundCloudClient.Client.ResolveResourceName` | soundcloud/client.py:54-59 | a name starting with `http` comes back unchanged; any other comes back as `scheme + host + "/"` followed by a piece of the name with no edge slash and only slashes cut from around it |
| `SoundCloudClient.Client.ResolveBareName` | soundcloud/client.py:58-59 | for a bare name, the part after `scheme + host + "/"` is exactly the name minus its edge slashes |
| `SoundCloudClient.Client.ResolvedIsUrl` | soundcloud/client.py:23-59 | every resolved name passes the `name[:4] == 'http'` test, because the scheme starts with `http` |
| `SoundCloudClient.Client.ResolveIdempotent` | soundcloud/client.py:54-59 | resolving a resolved name returns it unchanged, because every result starts with a scheme that starts with `http` |
| `SoundCloudClient.Client.ResolveDefault` | soundcloud/client.py:14-23 | with default options, `/tracks/` resolves to `https://api.soundcloud.com/tracks` |
| `SoundCloudClient.Client.ResolvePlainHttp` | soundcloud/client.py:21-23 | with `use_ssl=False` and `host='example.com'`, `tracks` resolves to `http://example.com/tracks` |
| `SoundCloudClient.Client.Request` | soundcloud/client.py:33-46 | the request carries the given verb and the resolved URL; its params are the caller's keys plus `verify_ssl`, `proxies` and (with a token) `oauth_token`, the stored options override caller values with defaults True and None, and every other caller key passes through unchanged |
| `SoundCloudClient.Client.UpdatesMerge` | soundcloud/client.py:39-45 | the token update followed by the `verify_ssl`/`proxies` update yields exactly the merged parameters |
| `SoundCloudClient.Client.Invoke` | soundcloud/client.py:33-52 | a name that is not a verb fails with AttributeError and builds no request; a verb called with a `self`, `method` or `resource` keyword fails with TypeError naming the colliding keywords; otherwise the result is the request `_request` builds for that verb |
| `SoundCloudClient.Client.MergedUnique` | soundcloud/client.py:37-45 | the merge rules determine the outgoing params completely |
| `SoundCloudClient.Client.OAuthToken` | soundcloud/client.py:28-40 | `oauth_token` goes out exactly when the client holds a token or the caller passed one; the client's token wins, and without one the caller's value is kept |
| `SoundCloudClient.Client.ClientIdNotInjected` | soundcloud/client.py:26-46 | `client_id` is in the outgoing params exactly when the caller passed it, with the caller's value |
| `SoundCloudClient.Client.RedirectUri` | soundcloud/client.py:61-68 | `redirect_uri` if present (even when None), else `redirect_url` if present, else None |
| `SoundCloudClient.Client.RedirectUriNull` | soundcloud/client.py:61-68 | the lookup gives None exactly when the key it reaches first holds None or neither key is present |

## Left out

- `make_request` (soundcloud/client.py:8, 46): HTTP transport and network I/O. `soundcloud/request.py` is not part of this model. The model stops at the request triple.
- `wrapped_resource` (soundcloud/client.py:7, 46): unwrapping the response by status code and content type. `soundcloud/resource.py` is not part of this model, so none of its rules are modelled.
- The `urlencode` import (soundcloud/client.py:2-5) is unused.
- Python's attribute machinery: `__getattr__` with `partial` is the explicit function `GetAttr` plus the method `Invoke`, and the `**kwargs` of `__getattr__` are always empty on attribute access, so they are not modelled.
- SoundCloudClient.Client.Invoke models only names that reach `__getattr__`, that is names normal attribute lookup does not find; `getattr(client, 'scheme')` returns the field and is not modelled. The resource is passed positionally; `client.get(resource='tracks')` is not modelled.
- Setting `access_token` on an instance after construction is not modelled, because the client's fields are constants.
- Values other than booleans, strings and None are abstracted to their `str()` text and truth value (`SoundCloudClient.Truthy`, `SoundCloudClient.Render`).
