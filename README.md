# Caffeine service broker: a Dafny model of its translation layer

The caffeine broker implements the service-broker protocol for a cache
service. Each protocol call becomes one authenticated HTTP request to a
backend cache-management API, and the backend's answer becomes the broker's
response. This project models that translation:

- the plan tiers (`Caffeine.STRONG` with 600 s / 1000 elements, `Caffeine.WEAK` with
  60 s / 100 elements) and how a plan id resolves to a tier (`valueOf(planId.toUpperCase())`);
- the one backend request each lifecycle operation builds: method, path segments under
  the configured base URI, query parameters in order, and the
  `Authorization: Basic base64(username:password)` header of section 2 of RFC 7617,
  Base64 being the alphabet and padding of section 4 of RFC 4648;
- the translation of the backend's reply. A create-instance failure becomes a
  conflict carrying the request's ids. Delete-instance, create-binding and
  delete-binding failures are rethrown unchanged. Create-binding success
  returns the backend's credentials plus `uri`. Last-operation always reports
  success, and update always returns an empty success;
- the catalog: one plan per tier, in declaration order.

Layout, one module per file:

- `results.dfy` (`Results`): `Option` and `Result`.
- `text.dfy` (`Text`): ASCII upper/lower-casing, decimal rendering of numbers,
  and `String.getBytes()`, each with its inverse.
- `base64.dfy` (`Base64`): the encoder Java's `Base64.getEncoder()` implements and a
  decoder. Decoding an encoding gives the bytes back. The RFC 4648 test vectors are proved.
- `plans.dfy` (`Plans`): the tier enum, `valueOf`, and plan resolution.
- `adapter.dfy` (`Adapter`): configuration, request descriptions, the
  Authorization header, and outcome translation, all as pure functions.
- `catalog.dfy` (`Catalog`): the catalog's service definition and plans.
- `services.dfy` (`Services`): the two service objects as classes, and the objects they change.
  `RestTemplate` records every request sent. The backend's reply is a fixed but
  unknown function of the requests sent before and the request itself.
  `CredentialMap` is the `HashMap` that create-binding copies the body into
  and then `put`s `uri` into. The four methods that talk to the backend state
  in their postconditions the exact list of requests sent afterwards: one
  more request, or none when create-instance meets an unknown plan. They also
  equate the result with the pure translation of the backend's reply.
  `GetLastOperation` and `UpdateServiceInstance` have no `modifies` clause,
  so they send nothing.

Two behaviours of the code are easy to miss.
A create-binding reply with a 2xx status and no body makes `new HashMap<>(null)`
throw a `NullPointerException`, which the `catch` does not intercept. This is
modelled as the `NullBody` error. An unknown plan id fails in `valueOf`, before
the `try`, so no request is sent; this is `UnknownPlan`.

## Model

| member | source | states |
|---|---|---|
| `Plans.Tier.Name` | src/main/java/com/example/caffeine/CaffeineBrokerApplication.java:175 | a tier's name is a non-empty upper-case word |
| `Plans.Tiers` | src/main/java/com/example/caffeine/CaffeineBrokerApplication.java:174-175 | `values()` lists the tiers without repetition |
| `Plans.TierListed` | src/main/java/com/example/caffeine/CaffeineBrokerApplication.java:174-175 | every tier occurs in `values()` |
| `Plans.ValueOf` | src/main/java/com/example/caffeine/CaffeineBrokerApplication.java:50 | `valueOf` succeeds only with the tier of exactly that name; otherwise it fails naming the string, and no tier has that name |
| `Plans.ResolvePlan` | src/main/java/com/example/caffeine/CaffeineBrokerApplication.java:50 | resolution succeeds only with the tier whose name is the upper-cased id; otherwise it fails naming the upper-cased id, and no tier has that name (both directions in `Plans.ResolvePlanSpec`) |
| `Plans.ResolvePlanSpec` | src/main/java/com/example/caffeine/CaffeineBrokerApplication.java:50 | a plan id resolves to tier t iff its upper-casing is t's name; it fails iff it upper-cases to no tier's name, and the error carries the upper-cased id |
| `Plans.ResolveLowerName` | src/main/java/com/example/caffeine/CaffeineBrokerApplication.java:50 | the lower-case tier name resolves back to that tier |
| `Plans.ResolveIgnoresCase` | src/main/java/com/example/caffeine/CaffeineBrokerApplication.java:50 | ids equal up to letter case resolve to the same result |
| `Plans.KnownPlanIds` | src/main/java/com/example/caffeine/CaffeineBrokerApplication.java:175-177 | "weak"/"WEAK" give WEAK and "strong"/"Strong" give STRONG; `Tier.ExpireSeconds` and `Tier.MaximumSize` are the enum fields: WEAK 60 s and 100 elements, STRONG 600 s and 1000 elements |
| `Plans.UnknownPlanIds` | src/main/java/com/example/caffeine/CaffeineBrokerApplication.java:50 | "medium" and "" fail with no default tier |
| `Text.ToUpper` | src/main/java/com/example/caffeine/CaffeineBrokerApplication.java:50 | upper-casing keeps the length and maps each character on its own |
| `Text.ToLower` | src/main/java/com/example/caffeine/CaffeineBrokerApplication.java:147-148 | lower-casing keeps the length and maps each character on its own |
| `Text.UpperOfLower` | src/main/java/com/example/caffeine/CaffeineBrokerApplication.java:147-148 | an upper-case word, lower-cased, is all lower-case letters, and upper-casing that gives the word back |
| `Text.Decimal` | src/main/java/com/example/caffeine/CaffeineBrokerApplication.java:55-56 | a rendered number is a non-empty string of digits without a leading zero |
| `Text.ParseDecimalOfDecimal` | src/main/java/com/example/caffeine/CaffeineBrokerApplication.java:55-56 | reading a rendered number gives the number back |
| `Text.DecimalInjective` | src/main/java/com/example/caffeine/CaffeineBrokerApplication.java:55-56 | distinct numbers render differently |
| `Text.AsciiBytes` | src/main/java/com/example/caffeine/CaffeineBrokerApplication.java:59 | `getBytes()` gives one byte per character, below 128, equal to the character when it is ASCII |
| `Text.AsciiRoundTrip` | src/main/java/com/example/caffeine/CaffeineBrokerApplication.java:59 | ASCII text encoded to bytes and decoded again is unchanged |
| `Text.AsciiBytesAppend` | src/main/java/com/example/caffeine/CaffeineBrokerApplication.java:59 | encoding a concatenation concatenates the encodings |
| `Base64.Encode` | src/main/java/com/example/caffeine/CaffeineBrokerApplication.java:58-59 | the encoding has 4 characters per started group of 3 bytes, and at least 4 for any non-empty input |
| `Base64.EncodeAlphabet` | src/main/java/com/example/caffeine/CaffeineBrokerApplication.java:58-59 | the encoding uses only the RFC 4648 alphabet, with `=` at most in the last two places |
| `Base64.DecodeEncode` | src/main/java/com/example/caffeine/CaffeineBrokerApplication.java:58-59 | decoding the encoding of any byte string gives exactly that byte string |
| `Base64.Rfc4648ShortVectors` | src/main/java/com/example/caffeine/CaffeineBrokerApplication.java:58-59 | "", "f", "fo", "foo" encode to "", "Zg==", "Zm8=", "Zm9v" |
| `Base64.Rfc4648LongVectors` | src/main/java/com/example/caffeine/CaffeineBrokerApplication.java:58-59 | "foob", "fooba", "foobar" encode to "Zm9vYg==", "Zm9vYmE=", "Zm9vYmFy" |
| `Adapter.Authorization` | src/main/java/com/example/caffeine/CaffeineBrokerApplication.java:58-59 | the header value starts with "Basic " |
| `Adapter.AuthorizationDecodes` | src/main/java/com/example/caffeine/CaffeineBrokerApplication.java:58-59 | the Base64 after "Basic " decodes to the bytes of `username:password`, and for ASCII credentials those bytes read as exactly `username:password` |
| `Adapter.AuthorizationReadsBack` | src/main/java/com/example/caffeine/CaffeineBrokerApplication.java:58-59 | a server reading the header under RFC 7617 recovers the configured username and password |
| `Adapter.FooBarHeader` | src/main/java/com/example/caffeine/CaffeineBrokerApplication.java:58-59 | user `foo` with password `bar` gives `Basic Zm9vOmJhcg==` |
| `Adapter.EveryCallAuthenticated` | src/main/java/com/example/caffeine/CaffeineBrokerApplication.java:52-60 | all four requests (also built at lines 76-81, 103-110, 125-130) carry the same header, a function of the configuration alone |
| `Adapter.Render` | src/main/java/com/example/caffeine/CaffeineBrokerApplication.java:57 | every rendered request URI starts with the configured base uri |
| `Adapter.CreateInstanceUri` | src/main/java/com/example/caffeine/CaffeineBrokerApplication.java:52-57 | for every instance id and tier the URI reads base + `/caffeine?service_id=`id`&expire_second=`expiry`&maximum_size=`size, with the numbers in decimal |
| `Adapter.CreateInstanceCall` | src/main/java/com/example/caffeine/CaffeineBrokerApplication.java:52-60 | create-instance is a POST of that URI whose Basic header decodes to the configured `username:password` (query read-back in `Adapter.CreateInstanceCallCarriesTier`) |
| `Adapter.DeleteInstanceUri` | src/main/java/com/example/caffeine/CaffeineBrokerApplication.java:76-78 | for every instance id the URI reads base + `/caffeine/`id |
| `Adapter.DeleteInstanceCall` | src/main/java/com/example/caffeine/CaffeineBrokerApplication.java:76-81 | delete-instance is a DELETE of that URI whose Basic header decodes to the configured `username:password` |
| `Adapter.CreateBindingUri` | src/main/java/com/example/caffeine/CaffeineBrokerApplication.java:103-107 | for every instance and binding id the URI reads base + `/credentials?service_id=`instance`&username=`binding |
| `Adapter.CreateBindingCall` | src/main/java/com/example/caffeine/CaffeineBrokerApplication.java:102-110 | create-binding is a POST of that URI whose Basic header decodes to the configured `username:password` |
| `Adapter.CreateBindingCallCarriesIds` | src/main/java/com/example/caffeine/CaffeineBrokerApplication.java:103-107 | the create-binding query holds exactly `service_id` then `username`, which, looked up by key, give back the instance id and the binding id |
| `Adapter.DeleteBindingUri` | src/main/java/com/example/caffeine/CaffeineBrokerApplication.java:125-127 | for every instance and binding id the URI reads base + `/credentials/`instance`/`binding |
| `Adapter.DeleteBindingCall` | src/main/java/com/example/caffeine/CaffeineBrokerApplication.java:125-130 | delete-binding is a DELETE of that URI whose Basic header decodes to the configured `username:password` |
| `Adapter.CreateInstanceCallCarriesTier` | src/main/java/com/example/caffeine/CaffeineBrokerApplication.java:52-57 | create-instance POSTs to base/`caffeine` with exactly `service_id`, `expire_second`, `maximum_size` in that order, whose pairs, looked up by key, give back the instance id and text that parses to the tier's expiry and size |
| `Adapter.RenderedCreateInstance` | src/main/java/com/example/caffeine/CaffeineBrokerApplication.java:52-57 | for instance `inst-1` on WEAK the URI is base + `/caffeine?service_id=inst-1&expire_second=60&maximum_size=100`, the numbers being WEAK's in decimal |
| `Adapter.DeleteCallsAddressResource` | src/main/java/com/example/caffeine/CaffeineBrokerApplication.java:76-78 | the delete requests (also lines 125-127) carry no query; distinct ids give distinct abstract requests (segment lists), and an instance delete never equals a binding delete |
| `Adapter.DeleteInstanceUriInjective` | src/main/java/com/example/caffeine/CaffeineBrokerApplication.java:76-78 | under the model's rendering, two delete-instance URIs are equal iff the instance ids are |
| `Adapter.DeleteBindingUriInjective` | src/main/java/com/example/caffeine/CaffeineBrokerApplication.java:125-127 | under the model's rendering, two delete-binding URIs are equal iff both ids are, provided no instance id contains `/` |
| `Adapter.InstanceUri` | src/main/java/com/example/caffeine/CaffeineBrokerApplication.java:114 | the `uri` credential, concatenated as text, equals the model's rendering of the delete-instance URI for every base and id |
| `Adapter.WithUri` | src/main/java/com/example/caffeine/CaffeineBrokerApplication.java:113-114 | the copied map has the body's keys plus `uri`, `uri` is the instance URI, and every other entry is the body's |
| `Adapter.CreateInstanceOutcome` | src/main/java/com/example/caffeine/CaffeineBrokerApplication.java:61-65 | success iff the backend answered; any backend failure becomes InstanceExists with exactly the request's instance and service-definition ids |
| `Adapter.Propagate` | src/main/java/com/example/caffeine/CaffeineBrokerApplication.java:82-86 | success iff the backend answered; a failure is the backend's error, unchanged |
| `Adapter.BindingOutcome` | src/main/java/com/example/caffeine/CaffeineBrokerApplication.java:113-119 | a backend failure is rethrown unchanged; a success without a body fails with NullBody |
| `Adapter.BindingCredentials` | src/main/java/com/example/caffeine/CaffeineBrokerApplication.java:113-115 | on success the credentials are the body key for key, plus `uri`, which overrides a backend `uri`; the size grows by one exactly when the body had no `uri` |
| `Adapter.BindingExample` | src/main/java/com/example/caffeine/CaffeineBrokerApplication.java:113-115 | body `{"password": "p1"}` for `inst-1` gives `{"password": "p1", "uri": base + "/caffeine/inst-1"}` |
| `Catalog.Bullets` | src/main/java/com/example/caffeine/CaffeineBrokerApplication.java:158 | three bullets; the size and expiry bullets contain the tier's numbers in decimal, which read back exactly |
| `Catalog.Description` | src/main/java/com/example/caffeine/CaffeineBrokerApplication.java:149 | the description says what the bullets say: `<bullet 1> plan (<bullet 2>, <bullet 3>)` |
| `Catalog.PlanOf` | src/main/java/com/example/caffeine/CaffeineBrokerApplication.java:147-160 | a tier's plan is free, has its id as its name, its first bullet names it, and its description says what its bullets say |
| `Catalog.PlanProvisionsTier` | src/main/java/com/example/caffeine/CaffeineBrokerApplication.java:147-148 | the id of a tier's plan resolves to that very tier |
| `Catalog.PlansOf` | src/main/java/com/example/caffeine/CaffeineBrokerApplication.java:147-160 | one plan per tier, the i-th plan generated from the i-th tier |
| `Catalog.TheCatalog` | src/main/java/com/example/caffeine/CaffeineBrokerApplication.java:141-170 | one service definition with as many plans as there are tiers |
| `Catalog.CatalogPlans` | src/main/java/com/example/caffeine/CaffeineBrokerApplication.java:147-160 | plan i has the lower-case tier name as id and name, the templated description and exactly the three bullets, and is free |
| `Catalog.PlanIdsResolve` | src/main/java/com/example/caffeine/CaffeineBrokerApplication.java:147-148 | plan ids are pairwise distinct, and each resolves to its own tier when provisioned |
| `Catalog.StrongPlan` | src/main/java/com/example/caffeine/CaffeineBrokerApplication.java:149 | STRONG's plan is `strong`, described as "strong caffeine plan (1000 elements, expires 600 seconds after last access)" |
| `Services.RestTemplate.constructor` | src/main/java/com/example/caffeine/CaffeineBrokerApplication.java:40-43 | a fresh client has sent nothing |
| `Services.RestTemplate.Exchange` | src/main/java/com/example/caffeine/CaffeineBrokerApplication.java:52-60 | exactly the given request is appended to the requests sent, and the reply is the backend's answer to it |
| `Services.CredentialMap.Copy` | src/main/java/com/example/caffeine/CaffeineBrokerApplication.java:113 | the new map holds exactly the body |
| `Services.CredentialMap.Put` | src/main/java/com/example/caffeine/CaffeineBrokerApplication.java:114 | the map is the old one with the key set to the value |
| `Services.InstanceService.CreateServiceInstance` | src/main/java/com/example/caffeine/CaffeineBrokerApplication.java:49-66 | unknown plan: fails with UnknownPlan and sends nothing; otherwise sends exactly the tier's create request and returns the translated reply |
| `Services.InstanceService.GetLastOperation` | src/main/java/com/example/caffeine/CaffeineBrokerApplication.java:69-71 | returns SUCCEEDED without touching the backend |
| `Services.InstanceService.DeleteServiceInstance` | src/main/java/com/example/caffeine/CaffeineBrokerApplication.java:74-87 | sends exactly the delete-instance request and returns the reply with failures propagated |
| `Services.InstanceService.UpdateServiceInstance` | src/main/java/com/example/caffeine/CaffeineBrokerApplication.java:90-92 | returns an empty success without touching the backend |
| `Services.BindingService.CreateServiceInstanceBinding` | src/main/java/com/example/caffeine/CaffeineBrokerApplication.java:100-120 | sends exactly the create-binding request; the result is the body copied with `uri` put in, or the failure |
| `Services.BindingService.DeleteServiceInstanceBinding` | src/main/java/com/example/caffeine/CaffeineBrokerApplication.java:123-135 | sends exactly the delete-binding request and returns the reply with failures propagated |

## Left out

- Spring bootstrap, bean wiring and `@ConfigurationProperties` binding (lines 33-43, 180-187): the configuration is the record `Adapter.Config`.
- The network exchange itself: `RestTemplate` is a recorder of requests plus an unknown backend function.
- Logging of failures: a side observation with no effect on results.
- Adapter.Render: does not model the percent-encoding and slash normalisation of `UriComponentsBuilder`. URIs are a base, path segments and query pairs, joined with `/`, `?`, `=` and `&` as they are. A trailing `/` of the base is not merged. Empty segments are kept, where `pathSegment` drops them. The rendered forms stated by the URI builders therefore hold as written only under three conditions: the base has no trailing `/`, the ids are non-blank, and the ids and values need no encoding.
- Adapter.DeleteCallsAddressResource: its injectivity is about the abstract segment lists, not the URIs the program sends. With blank ids, delete-instance `""` goes to `base/caffeine`. Delete-binding `("", "x")` and `("x", "")` both go to `base/credentials/x`. An instance id containing `/` makes `("a/b", "c")` and `("a", "b/c")` send the same URI. `Adapter.DeleteBindingUriInjective` states the rendered injectivity that does hold.
- Adapter.CreateInstanceCallCarriesTier: the read-back is from the query pairs, not from the query text sent. An instance id such as `x&expire_second=5` is sent with its `&` unencoded, so a backend parsing the text meets `expire_second=5` first.
- Adapter.CreateBindingCallCarriesIds: the read-back is from the query pairs. An id containing `&` or `=` changes the parameters a backend parsing the query text sees.
- Adapter.InstanceUri: equals the delete-instance URI only under that rendering. The credential is plain concatenation (line 114), but the delete request goes through `UriComponentsBuilder` (lines 76-78). With base `http://h/` the credential is `http://h//caffeine/x` while the delete targets `http://h/caffeine/x`. An id containing a space is raw in the credential and percent-encoded in the delete URI.
- Catalog display metadata, the `0.0` USD monthly cost, and the null `requires` and dashboard-client arguments (lines 150-157, 162-169): constant data and a floating-point literal.
- Character sets and locales: `getBytes()` is modelled as ASCII, where a non-ASCII character becomes `?`. `toUpperCase`/`toLowerCase` change only ASCII letters; Java also maps some non-ASCII letters, e.g. U+017F, onto ASCII ones. `%d` is modelled as ASCII digits.
- Java `null` (a null plan id, ids or configuration values), and failures other than `RestClientException` and the null body, e.g. an exception raised while building a request.
- JSON numbers in a credential body are integers; floating-point values are not modelled.
- Adapter.AuthorizationDecodes: the text form of the decoded header is stated for ASCII credentials only, because `getBytes()` replaces other characters.
- Adapter.AuthorizationReadsBack: holds only for ASCII credentials whose username has no colon. Section 2 of RFC 7617 forbids a colon in the user-id, but the broker does not check for one.
- `Base64.Decode` ignores the bits that padding leaves over rather than rejecting them; section 3.5 of RFC 4648 allows either.
