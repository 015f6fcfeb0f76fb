# MyDNSHost API client, modelled in Dafny

This project models `MyDNSHostAPI`, the PHP client of the MyDNSHost DNS
hosting API, and proves properties of the model.

The client object holds several settings:
- a base URL and an API version;
- an auth descriptor: FALSE, a typed array stored by one of the setters, or
  any custom value;
- an optional impersonation target and its type;
- the domain-admin override;
- debug mode;
- an optional 2FA device ID and device name;
- the last response.

Every wrapper method does three things in turn:
- It checks a guard. Most need auth set and return NULL or `[]` without it.
  getSystemDataValue needs a non-empty key instead.
- It calls `api` with a verb, a path template and data.
- It unwraps the envelope `api` returns.

`api` does the following:
- It falls back to the client's auth when the override is loosely NULL.
- It selects the auth headers by the descriptor's `type` entry, using PHP 8
  loose comparison.
- It adds the device and impersonation headers.
- It joins the base URL, version and path with exactly one slash at each
  join.
- For a GET with data, it merges the data into the URL's query and rebuilds
  the URL with `unparse_url`.
- It sends one GET, POST or DELETE, and decodes the JSON reply.
- It replaces anything loosely NULL by `['error' => 'There was an unknown
  error.']`, adds a `__DEBUG` block in debug mode, and stores the result as
  the last response.

Modules, one file each:
- `php.dfy` (`Php`): the PHP values and comparisons the client relies on.
- `url.dfy` (`Url`): the URL join, `unparse_url`, and a reader that parses
  the layout back.
- `auth.dfy` (`Auth`): the auth descriptors and header selection.
- `transport.dfy` (`Transport`): the library calls as parameters, the request
  plan, and the transport as a `Network` object with a log of sent requests.
- `envelope.dfy` (`Envelope`): the response envelope and the unwrap rules.
- `operations.dfy` (`Operations`): the wrappers' guards, endpoints and unwrap
  rules, in the client's five groups: account, users, sessions, domains,
  articles.
- `client.dfy` (`Client`): the client object (the class `MyDnsHostApi`) with
  its setters, `api`, `validAuth`, `doAuth2FAPush`, and one `Invoke` method
  that runs any wrapper.

Behaviour of the code as written, kept in the model:
- **Debug block.** For a POST, the `request` entry of the debug block is the
  JSON of the *response* envelope. `$data` is overwritten before the block is
  built.
- **getDomainLogs.** It passes the undefined `$options` (NULL) as GET data,
  so `count()` raises a TypeError after the auth guard.
- **Empty JSON values.** A reply that decodes to `[]`, `0`, `""`, `false` or
  `null` becomes the unknown-error envelope.
- **Unguarded key.** getSystemDataValue checks its key but not auth.
- **Guards against isset defaults.** Three wrappers' guard results disagree
  with their isset defaults: getUserStats, getDomainData and getCustomData.
- **Falsy user.** A URL user `"0"` without a password loses its `@` in
  `unparse_url`.
- **Unchecked reads.** deleteDomainRecords, deleteDomainRecord and
  deleteDomainRecordsByName return `$result['response']` without isset. They
  raise an Error when the envelope is a string, since a non-numeric offset
  on a string raises in PHP 8.

## Model

| member | source | states |
|---|---|---|
| Php.Decimal | src/MyDNSHostAPI.php:1216 | the port is written as a non-empty string of digits, more than one digit exactly from 10 on |
| Php.DecimalRoundTrip | src/MyDNSHostAPI.php:1216 | reading the written port back gives the same number |
| Php.ToPhpString | src/MyDNSHostAPI.php:1132 | concatenating a string keeps it; NULL and FALSE become "" |
| Url.TrimTrailingSlashes | src/MyDNSHostAPI.php:1163 | `rtrim($baseurl, '/')` is a prefix not ending in '/', and only slashes were removed |
| Url.TrimLeadingSlashes | src/MyDNSHostAPI.php:1163 | `ltrim($apimethod, '/')` is a suffix not starting with '/', and only slashes were removed |
| Url.JoinUrl | src/MyDNSHostAPI.php:1163 | the base keeps everything up to its trailing slashes, the method path everything after its leading slashes, and exactly one slash joins each of them to the version |
| Url.JoinUrlIgnoresSlashes | src/MyDNSHostAPI.php:1163 | extra slashes at the end of the base URL or at the start of the method path do not change the request URL |
| Url.JoinUrlExact | src/MyDNSHostAPI.php:1163 | without slashes at the joins, the URL is base, '/', version, '/', method |
| Url.PassPart | src/MyDNSHostAPI.php:1217-1219 | the `@` is lost exactly when there is no password and the user is absent, "" or "0"; when written, it follows the `:pass` part |
| Url.UnparseUrlAt | src/MyDNSHostAPI.php:1217-1219 | with a truthy user, `@` is written exactly when a user or a password is present |
| Url.UnparseUrlFalsyUser | src/MyDNSHostAPI.php:1219 | any URL with user "0" and no password is written exactly as the URL whose host begins with "0" and has no user: the user runs into the host |
| Url.UnparseUrlRoundTrip | src/MyDNSHostAPI.php:1213-1224 | for well-formed parse_url components, reading the rebuilt URL back gives every component back |
| Url.ReplaceQueryKeepsComponents | src/MyDNSHostAPI.php:1172-1176 | replacing the query and rebuilding keeps scheme, credentials, host, port, path and fragment |
| Auth.Descriptor | src/MyDNSHostAPI.php:65-128 | each typed setter stores an array with exactly its variant's keys, whose type entry names its scheme, and which is neither FALSE nor loosely NULL |
| Auth.SchemeOfType | src/MyDNSHostAPI.php:1131-1141 | a string type selects the scheme of that name; TRUE loosely equals 'jwt'; anything else selects none |
| Auth.SchemeOf | src/MyDNSHostAPI.php:1130-1131 | a branch is taken only for a descriptor other than FALSE whose type entry is set; a type entry TRUE takes the jwt branch |
| Auth.AuthHeaders | src/MyDNSHostAPI.php:1130-1150 | the auth part of the headers uses only the eight auth header names |
| Auth.BasicAuth | src/MyDNSHostAPI.php:1146-1150 | with a basic-auth pair the only auth headers are X-2FA-KEY and X-2FA-PUSH; without one, neither 2FA header is sent |
| Auth.HeadersOfCredentials | src/MyDNSHostAPI.php:1130-1150 | each typed descriptor yields exactly its variant's headers and basic-auth pair; X-2FA-KEY only for a 2FA key that is not NULL, X-2FA-PUSH only for push |
| Auth.NoSchemeNoHeaders | src/MyDNSHostAPI.php:1130-1150 | FALSE, or a type entry naming no scheme, gives no auth headers and no basic auth |
| Auth.SchemeDependsOnlyOnType | src/MyDNSHostAPI.php:1131-1141 | two descriptors with the same type entry select the same branch |
| Auth.DeviceHeaders | src/MyDNSHostAPI.php:1152-1153 | X-2FA-DEVICE-ID and X-2FA-SAVE-DEVICE are present exactly when their setting is not NULL, with its value |
| Auth.ImpersonationHeaders | src/MyDNSHostAPI.php:1155-1161 | one header when impersonating: X-IMPERSONATE-ID for type 'id', X-IMPERSONATE for any other type |
| Auth.RequestHeadersCompose | src/MyDNSHostAPI.php:1126-1161 | the request headers are the union of the auth, device and impersonation parts, and each part's values survive |
| Auth.CredentialRequestHeaders | src/MyDNSHostAPI.php:1126-1161 | with a typed descriptor, the auth header names carry exactly that variant's headers, whatever the device and impersonation settings |
| Transport.Merge | src/MyDNSHostAPI.php:1172 | array_merge keeps every key of both arrays, and the data wins |
| Transport.GetUrl | src/MyDNSHostAPI.php:1166-1177 | a GET with empty data is sent to the joined URL unchanged |
| Transport.GetUrlChangesOnlyQuery | src/MyDNSHostAPI.php:1166-1177 | with data, the GET URL differs from the joined URL only in its merged query |
| Transport.PlanOf | src/MyDNSHostAPI.php:1165-1184 | nothing is sent exactly for an unknown verb; a GET with non-array data raises; otherwise one request with the verb, headers and basic auth, a body exactly for POST (the JSON of `['data' => $data]`) |
| Transport.Network.Send | src/MyDNSHostAPI.php:1179-1183 | sending appends the request to the log and returns the reply the transport gives it |
| Envelope.Normalize | src/MyDNSHostAPI.php:1190-1192 | the envelope is never loosely NULL: a loosely NULL decoding becomes the error envelope, anything else is kept |
| Envelope.DebugBlock | src/MyDNSHostAPI.php:1194-1201 | the debug block has exactly a `request` and a `response` entry; the request is "" outside POST and, for a POST, the JSON of `['data' => envelope]`, i.e. the response rather than the body sent; the response is the raw body when a reply arrived and NULL exactly when none did |
| Envelope.Respond | src/MyDNSHostAPI.php:1185-1204 | without debug, the normalised envelope; with debug, an array envelope gains `__DEBUG` and keeps its other entries, and any other envelope raises |
| Envelope.NoReplyIsUnknownError | src/MyDNSHostAPI.php:1186-1195 | a transport failure or a request not sent gives exactly the error envelope, with a NULL debug response |
| Envelope.EmptyDecodeIsUnknownError | src/MyDNSHostAPI.php:1185-1192 | a body decoding to something loosely NULL is indistinguishable from a failure |
| Envelope.DecodedPassesThrough | src/MyDNSHostAPI.php:1185-1192 | without debug, any other decoded body is returned as it is |
| Envelope.Dig | src/MyDNSHostAPI.php:615 | nested isset: a found value is never NULL; an empty path finds any value but NULL; an unset first step finds nothing |
| Envelope.DigIsLookup | src/MyDNSHostAPI.php:615 | for every envelope and path, the nested isset finds a value exactly when the nested read `$v[a][b]…` is not NULL, and that value is what it finds; an unset step at any depth finds nothing |
| Envelope.FieldRule | src/MyDNSHostAPI.php:185 | an isset unwrap yields the value when set, otherwise its default, and NULL only for the NULL default (the first two clauses are the rule's definition; the third is the derived fact) |
| Envelope.ResponseOrNull | src/MyDNSHostAPI.php:288 | `isset($result['response']) ? … : NULL` is not NULL exactly when the response is set |
| Envelope.KeyListRule | src/MyDNSHostAPI.php:416 | a key list is NULL exactly when the envelope reports an error and no response; `[]` exactly for an empty response or neither entry; anything else is the response |
| Envelope.UnwrapOfFailure | src/MyDNSHostAPI.php:1191 | on the error envelope, isset unwraps give their default, key lists and unchecked reads give NULL |
| Operations.PathOf | src/MyDNSHostAPI.php:662 | only paths under `/domains` depend on the admin override, which adds `/admin` in front |
| Operations.Under | src/MyDNSHostAPI.php:184 | a literal prefix and an argument give a rooted path not under `/domains` |
| Operations.UserPath | src/MyDNSHostAPI.php:230 | `/users/$userid…` is a fixed path, not under `/domains` |
| Operations.ListingQueryString | src/MyDNSHostAPI.php:659-664 | getDomains lists at `/domains` (behind `/admin` with the override) and appends `?` and the query string exactly when that string is not empty |
| Operations.RecordsByNamePath | src/MyDNSHostAPI.php:853-926 | the record-by-name GET and DELETE address the same path, which ends in `/<type>` exactly when the type is neither NULL nor "" |
| Operations.ConfirmCodePath | src/MyDNSHostAPI.php:400-403 | deleteUserConfirm appends `/<code>` exactly when the 2FA code is not empty |
| Operations.CreateDomainData | src/MyDNSHostAPI.php:680-683 | the data holds the domain, and the owner exactly when it is not NULL |
| Operations.AccountEndpoint | src/MyDNSHostAPI.php:183-263 | account wrappers call GET, POST or DELETE on fixed paths |
| Operations.UserEndpoint | src/MyDNSHostAPI.php:284-604 | user and system wrappers call GET, POST or DELETE on fixed paths |
| Operations.SessionEndpoint | src/MyDNSHostAPI.php:611-640 | session wrappers call GET or DELETE on fixed paths |
| Operations.DomainEndpoint | src/MyDNSHostAPI.php:659-1033 | every domain wrapper calls a path under `/domains` |
| Operations.ArticleEndpoint | src/MyDNSHostAPI.php:1040-1105 | article wrappers call fixed paths, never affected by the override |
| Operations.EndpointOf | src/MyDNSHostAPI.php:183-1105 | a wrapper's path is under `/domains` exactly when it is a domain wrapper |
| Operations.Route | src/MyDNSHostAPI.php:183-1105 | every wrapper passes `api` a rooted path and GET, POST or DELETE |
| Operations.GuardOf | src/MyDNSHostAPI.php:285-1102 | a failed auth guard returns NULL or `[]` |
| Operations.Refusal | src/MyDNSHostAPI.php:285-309 | an auth guard refuses exactly when auth is FALSE (strictly); the key guard refuses exactly for "" and "0" |
| Operations.UnwrapOf | src/MyDNSHostAPI.php:185-1079 | every isset unwrap reads below `response` |
| Operations.AdminOverrideOnlyPrefixesDomains | src/MyDNSHostAPI.php:647-1033 | the admin override keeps verb and data, and puts `/admin` in front of exactly the paths under `/domains` |
| Client.EffectiveAuth | src/MyDNSHostAPI.php:1128 | the override is used unless it is loosely NULL |
| Client.DescriptorOverrides | src/MyDNSHostAPI.php:79-81 | a typed descriptor passed as override is always the one used |
| Client.ApiResult | src/MyDNSHostAPI.php:1165-1204 | count() on non-array GET data raises; with debug off, an unknown verb gives the error envelope |
| Client.Unwrapped | src/MyDNSHostAPI.php:895-926 | a wrapper raises exactly when `api` raised, or when an unchecked `$result['response']` reads a string envelope |
| Client.FailureGivesFallback | src/MyDNSHostAPI.php:185-1079 | with no reply and debug off, each wrapper returns its fallback |
| Client.RefusalMatchesFailure | src/MyDNSHostAPI.php:336-590 | for isset-style wrappers, refusing without auth equals a failed request, except in getUserStats, getDomainData and getCustomData |
| Client.KeyListGetters | src/MyDNSHostAPI.php:412-992 | the key-list rule belongs to exactly getAPIKeys, get2FADevices, get2FAKeys, getCustomDataList, getDomainKeys and getDomainHooks; each returns NULL without auth, raises only when `api` raised, and otherwise returns NULL exactly when the envelope reports an error and no response |
| Client.DomainLogsAlwaysRaise | src/MyDNSHostAPI.php:772-777 | getDomainLogs' GET always ends in the count() TypeError |
| Client.SelectAuthHeaders | src/MyDNSHostAPI.php:1130-1150 | the branch chain yields exactly the auth headers and basic-auth pair of the descriptor |
| Client.PlanRequest | src/MyDNSHostAPI.php:1165-1184 | the verb dispatch builds the request plan |
| Client.MergeIntoQuery | src/MyDNSHostAPI.php:1167-1177 | the query merge computes the GET URL |
| Client.AddDeviceHeaders | src/MyDNSHostAPI.php:1152-1153 | adds exactly the device headers |
| Client.AddImpersonationHeaders | src/MyDNSHostAPI.php:1155-1161 | adds exactly the impersonation header |
| Client.MyDnsHostApi.constructor | src/MyDNSHostAPI.php:8-35 | a new client has the given base URL, version 1.0, auth FALSE, no impersonation, no override, debug off, NULL last response, no device |
| Client.MyDnsHostApi.SetDebug | src/MyDNSHostAPI.php:43-46 | sets debug mode and nothing else |
| Client.MyDnsHostApi.IsDebug | src/MyDNSHostAPI.php:53-55 | returns debug mode |
| Client.MyDnsHostApi.SetAuthUserPass | src/MyDNSHostAPI.php:65-68 | stores the userpass descriptor, with a NULL 2FA entry when no key is given |
| Client.MyDnsHostApi.SetAuthUserKey | src/MyDNSHostAPI.php:91-94 | stores the userkey descriptor |
| Client.MyDnsHostApi.SetAuthDomainKey | src/MyDNSHostAPI.php:103-106 | stores the domainkey descriptor |
| Client.MyDnsHostApi.SetAuthSession | src/MyDNSHostAPI.php:114-117 | stores the session descriptor |
| Client.MyDnsHostApi.SetAuthJwt | src/MyDNSHostAPI.php:125-128 | stores the jwt descriptor |
| Client.MyDnsHostApi.SetAuth | src/MyDNSHostAPI.php:136-139 | stores any value as the descriptor |
| Client.MyDnsHostApi.SetDeviceId | src/MyDNSHostAPI.php:147-150 | sets the device ID |
| Client.MyDnsHostApi.SetDeviceName | src/MyDNSHostAPI.php:158-161 | sets the device name |
| Client.MyDnsHostApi.Impersonate | src/MyDNSHostAPI.php:170-175 | sets the impersonation target and its type |
| Client.MyDnsHostApi.DomainAdmin | src/MyDNSHostAPI.php:647-651 | sets the admin override |
| Client.MyDnsHostApi.GetLastResponse | src/MyDNSHostAPI.php:1112-1114 | returns the last response |
| Client.MyDnsHostApi.BuildHeaders | src/MyDNSHostAPI.php:1126-1161 | builds the request headers and basic-auth pair of the given descriptor in the current settings |
| Client.MyDnsHostApi.Api | src/MyDNSHostAPI.php:1125-1205 | sends exactly the planned request, if any; returns the result of its reply; the last response becomes what is returned and stays unchanged when an Error escapes |
| Client.MyDnsHostApi.Perform | src/MyDNSHostAPI.php:1165-1204 | sends the planned request and makes its envelope the last response |
| Client.MyDnsHostApi.Invoke | src/MyDNSHostAPI.php:183-1105 | a failed guard returns its value without a request; otherwise the wrapper's one `api` call, unwrapped by its rule |
| Client.MyDnsHostApi.ValidAuth | src/MyDNSHostAPI.php:270-276 | FALSE without a request when auth is FALSE; otherwise TRUE exactly when getUserData's envelope has a response, and that envelope becomes the last response |
| Client.MyDnsHostApi.DoAuth2FAPush | src/MyDNSHostAPI.php:78-82 | one GET of `/session` with the push descriptor, leaving the stored auth untouched; returns the result of its reply, which becomes the last response |

## Left out

- The HTTP transport (the Requests library) is the `Network` object, whose replies are a function parameter. Real networking, timeouts and TLS are not modelled.
- parse_url, parse_str, http_build_query, json_encode and json_decode are function parameters. Their own behaviour is not modelled, except that a URL reader is proved to invert `unparse_url`.
- The basic-auth pair is handed to the transport as it is; its encoding under RFC 7617 is the transport's job.
- PHP arrays have string keys only, and their order is not modelled. Floats and integer keys are left out, and so are JSON scalars other than null, booleans, integers and strings.
- settings methods return `$this` for chaining. The model's methods return nothing instead; the state change is the same.
- `debug` and `domainAdmin` are booleans. The PHP accepts any value and tests its truthiness.
- The setters' arguments (users, keys, IDs, wrapper arguments) are strings. The PHP accepts any value and converts it when concatenating.
- Comparisons follow PHP 8, where `0 == 'jwt'` is false. Under PHP 7 an integer type entry 0 would select the jwt branch.
- A custom descriptor that is a string is read by offset in PHP (`'abc'['type']` raises). The model reads it as NULL, which selects no auth branch.
- json_encode failing (returning FALSE) is not modelled; the encoded body is always a string.
- PHP warnings and deprecation notices, such as reading `$response->body` when no response exists, are not modelled; only the value they produce is.
- Impersonate: a target of FALSE (`None`) stops impersonating. A NULL target is not modelled; the PHP then sets an impersonation header whose value is NULL, and what the transport does with it is not part of this model.
- UnparseUrlAt: states the `@` rule only for a truthy user; PassPart states it for every user, and UnparseUrlFalsyUser shows what the falsy user "0" does to the URL.
- UnparseUrlRoundTrip: holds only for components that carry no delimiters inside them, a subset of what parse_url returns: a host may not contain ':' (so `[::1]` is excluded), and a user or password may not contain '@', although parse_url splits user information at the last '@'.
- Envelope.Dig: a string met at any step of the nested isset is read as having no entries. PHP's isset accepts an integer-like key on a string and yields one character, so getSystemDataValue with a numeric key on a string response would return that character; the model returns NULL.
- The baseurl default at line 8 is always overwritten by the constructor, so only the constructor's value is modelled.
