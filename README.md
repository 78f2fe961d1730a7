# Request dispatch core, modelled in Dafny

This project models the request-dispatch core of a TypeScript HTTP framework for the Bun runtime. It proves properties of that model. The repository has three generations of the same core, and each is modelled next to the others:

* `src/lib/*`: the `__Coreum_` classes, including the server, router, request, response, headers, cookies, CORS, parser and context;
* `src/modules/*`: the routers with their route, middleware and model registries, route ids, the modules server and context, `HttpRequest`, `HttpResponse`, `HttpHeaders`, `HttpError` and the cookie jars;
* the top-level `src/*`: the `Router`, the controllers, `Server`, `Context`, `Parser`, the `Cookies` jars and `Cors`.

The CSS and HTML builders (`src/CSS/CSS.ts`, `src/HTML/HTML.ts`) are modelled as well.

The modelled parts are:

* route ids and path patterns (`:param` segments matched by regular expression);
* the route, middleware and model registries, with their collision and ordering rules;
* body, search and params parsing by content type, and the schema-validation error paths;
* the request wrappers and the `Cookie` request header;
* response assembly, the header maps (case-insensitive, with `Set-Cookie` lines kept apart) and CORS header computation;
* the cookie jars and `Set-Cookie` serialisation;
* the servers' fetch dispatch: 404/405 lookup errors, middleware order, handler results, and error and not-found hooks;
* the CSS rule builder and the HTML head/meta builder.

Pure helpers are `function`s with lemmas. Objects whose fields change in place are `class`es with `modifies` and `reads` frames. Loops are `method`s with invariants, proved against the specification functions beside them.

Route and middleware handlers are abstract tokens. Whatever they return, and whether they throw, is a parameter of the dispatch methods. Platform services also come in as parameters: URL parsing, body reading, `JSON.parse`, clocks and the network.

## Model

| member | source | states |
|---|---|---|
| Contexts.AppendedParsesEachPart | src/Context/Context.ts:61-76 | appendParsedData succeeds exactly when each part's parser succeeds with that part's own schema, and then holds the three results |
| Contexts.AppendedStopsAtFirstError | src/Context/Context.ts:73-75 | a throwing part stops the sequence and keeps the parts not yet reached; the error is the failing part's |
| Contexts.PartsUseOwnSchema | src/Context/Context.ts:73-75 | a part's result does not depend on the other parts' schemas |
| Contexts.AppendedWithoutModel | src/Context/Context.ts:61-76 | without a model the search is the coerced pairs with the last repeat kept, and only a 422 or a URI error is thrown |
| Contexts.DefaultResponse | src/Context/Context.ts:44 | the default response has status 200, status text "OK", no body and an empty cookie jar |
| Contexts.Context.constructor | src/Context/Context.ts:30-55 | url, headers and cookies come from the request, the parts are the given ones, `res` defaults to a new response |
| Contexts.Context.MakeFromRequest | src/Context/Context.ts:57-59 | every part is `{}` and the response is a fresh default one |
| Contexts.Context.AppendParsedData | src/Context/Context.ts:61-76 | the parts and the thrown error are those of body, then search, then params parsed in turn; `data` is untouched |
| Contexts.DefaultModulesResponse | src/modules/Context/Context.ts:50 | the default response has status 200, status text "OK" and no body |
| Contexts.ModulesContext.constructor | src/modules/Context/Context.ts:37-60 | the request's getters are read once; the parts are the given ones; `res` defaults to a new response |
| Contexts.ModulesContext.MakeFromRequest | src/modules/Context/Context.ts:62-64 | every part is `{}` |
| Contexts.ModulesContext.AppendParsedData | src/modules/Context/Context.ts:66-81 | the parts and the thrown error are those of the modules parsers run in turn |
| Contexts.CoreumEagerErrors | src/lib/Context/__Coreum_Context.ts:44-46 | the constructor throws only when the params or search schema rejects, params first, with the Error naming the part |
| Contexts.ParamsRejection | src/lib/Context/__Coreum_Context.ts:64-84 | parseRequestParams throws only the params Error, and never without a schema |
| Contexts.CoreumContext.constructor | src/lib/Context/__Coreum_Context.ts:28-51 | status 200 and "OK", the request's headers, an empty cookie jar, and the parsed params and search |
| Contexts.CoreumContext.Body | src/lib/Context/__Coreum_Context.ts:42 | each call of the lazy body reads and validates the body again |
| Contexts.NewCoreumContext | src/lib/Context/__Coreum_Context.ts:28-51 | the context, or exactly the error its eager parsing throws |
| Controllers.ControllerEndpoint | src/Controller/ControllerAbstract.ts:63-74 | a controller route ends up at global prefix, controller prefix and path joined in one go, with the method of its definition |
| Controllers.NewRoute | src/Controller/ControllerAbstract.ts:32-39 | the new route's endpoint is that joined path, its method the definition's, and it is registered with the router |
| Controllers.Controller.constructor | src/Controller/ControllerAbstract.ts:12-19 | the options' prefix and `beforeEach` are kept and the id set is empty |
| Controllers.Controller.Route | src/Controller/ControllerAbstract.ts:21-42 | a registered route whose handler awaits `beforeEach` (when set) and then the given handler; its id joins the controller's id set |
| Controllers.Controller.StaticRoute | src/Controller/ControllerAbstract.ts:44-61 | the path goes under the prefix, the route is registered and its id joins the set |
| ModulesControllers.Definition | src/modules/Controller/ControllerAbstract.ts:40-46 | the definition handed to `new Route` is always an object with method and path |
| ModulesControllers.NewRoute | src/modules/Controller/ControllerAbstract.ts:39-52 | the new route's endpoint is global prefix, controller prefix and path joined, its method the definition's, and it is registered |
| ModulesControllers.Controller.constructor | src/modules/Controller/ControllerAbstract.ts:19-26 | the options' prefix and `beforeEach` are kept and the id set is empty |
| ModulesControllers.Controller.Route | src/modules/Controller/ControllerAbstract.ts:28-55 | GET for a plain path, the path under the prefixes, the guarded handler, and the id joins the set |
| ModulesControllers.Controller.StaticRoute | src/modules/Controller/ControllerAbstract.ts:57-69 | the path goes under the prefix, the route is registered and its id joins the set |
| CoreumRouteHandlers.Handle | src/lib/Route/__Coreum_Route.ts:32-42 | the given context or a new one for the route's path and schemas, whose eager parsing may throw; then the callback's value or throw; then a response with the value and the status, status text, headers and cookies as the callback's edits left them on the context |
| CoreumRouteHandlers.WrapWith | src/lib/Middleware/__Coreum_Middleware.ts:24-29 | the wrapper `use` installs: the given context or a new one, the middleware callback's throw or data stored on the context, then the wrapped handler on that context with its edits reaching the response |
| CoreumRouteHandlers.HandleWrapped | src/lib/Middleware/__Coreum_Middleware.ts:26 | as written, the wrapper's own context carries no schemas: whatever schemas the route declares, building it never throws and the callback sees a context without them |
| CoreumRouteHandlers.HandleWrappedValidated | src/lib/Middleware/__Coreum_Middleware.ts:26 | built with the route's schemas, a wrapped route throws exactly the params or search rejection the unwrapped route throws, before the callback runs |
| CookieExtract.KeyRoundTrip | src/Cookies/CookiesUsingMap.ts:83-92 | each attribute name `createHeader` writes is a key of `extractOptions`' key map and maps back to its own option |
| CookieExtract.PartReadText | src/Cookies/CookiesUsingMap.ts:102-117 | an emitted attribute part reads back as its own option: `key=value` through `processString`, a bare key as `true` |
| CookieExtract.ReadsConcat | src/Cookies/CookiesUsingMap.ts:102-117 | reading the parts in order: the reading of a concatenation is the first reading overridden by the second, so a later part wins |
| CookieExtract.ReadsEmitted | src/Cookies/CookiesUsingMap.ts:102-117 | reading the emitted attribute parts gives each emitted option and nothing for an option left out |
| CookieExtract.PartsOfHeader | src/Cookies/CookiesUsingMap.ts:97-102 | the parts after the first ";" of a created header, split on ";" and trimmed, are the emitted attributes' texts |
| CookieExtract.IntTextReads | src/Cookies/CookiesUsingMap.ts:114 | a whole number of seconds printed by `createHeader` is processed back into that number |
| CookieExtract.ResetKeepsAttributes | src/Cookies/CookiesUsingMap.ts:54-59 | re-setting the options read from a created header emits the same Domain, Path, Max-Age, flags and SameSite, under the encoded name with an empty value |
| CookieExtract.ResetKeepsMaxAge | src/Cookies/CookiesUsingMap.ts:54-59 | a cookie re-set by `delete` as written emits its Max-Age as well as the epoch Expires |
| CookieExtract.ClearedAttributes | src/Cookies/CookiesUsingMap.ts:54-59 | the corrected reset emits the cookie's attributes with the epoch Expires and without Max-Age |
| CookieExtract.DefaultsReadBack | src/Cookies/CookiesUsingMap.ts:123-167 | a cookie set with no Domain, Path or SameSite, whatever its Max-Age and flags, reads back from its header |
| CookieExtract.SameAttributesRender | src/Cookies/CookiesUsingMap.ts:123-167 | options whose attributes agree field by field emit the same attribute list |
| CookieHeader.EmittedFrom | src/Cookies/CookiesUsingMap.ts:123-167 | an attribute is appended exactly when a switched-on slot of the guarded appends holds it |
| CookieHeader.EmittedOrdered | src/Cookies/CookiesUsingMap.ts:123-167 | appends made in increasing slot order give attributes in increasing order |
| CookieHeader.AttributesPresent | src/Cookies/CookiesUsingMap.ts:126-164 | Domain only when defined, Path and SameSite always, Expires only when truthy, Max-Age only for a non-zero integer, each flag only when exactly `true` |
| CookieHeader.AttributesOrdered | src/modules/Cookies/CookiesAbstract.ts:41-85 | each attribute at most once, in the fixed order Domain, Path, Expires, Max-Age, Secure, HttpOnly, Partitioned, SameSite |
| CookieHeader.AttributeValues | src/lib/Cookies/__Coreum_Cookies.ts:18-62 | the domain as given, the path or "/", the expiry's UTC text, Max-Age in decimal, flags valueless, SameSite capitalised or "Lax" |
| CookieHeader.HeaderOpens | src/Cookies/CookiesUsingMap.ts:124 | the header opens with the percent-encoded `name=value` and a ";" |
| CookieHeader.NoSeparators | src/Cookies/CookiesUsingMap.ts:124 | percent-encoding leaves no "=" or ";" in the name or value |
| CookieHeader.ExtractPair | src/Cookies/CookiesUsingMap.ts:75-80 | an encoded pair followed by any ";"-led tail reads back as the value it encodes |
| CookieHeader.ExtractCreated | src/Cookies/CookiesUsingMap.ts:75-80 | `extractValue` inverts `createHeader`: the stored header gives back its value |
| CookieHeader.ParsedCreatedName | src/Cookies/CookiesUsingMap.ts:96-101 | the name `extractOptions` reads back from a stored header is the encoded name |
| CookieHeader.DecodeEncodedPair | src/modules/Cookies/CookiesAbstract.ts:35-39 | `decodeValue` of an encoded `name=value` gives `null` for an empty value and the value otherwise |
| CookieHeader.DecodeValueNull | src/lib/Cookies/__Coreum_Cookies.ts:12-16 | `decodeValue` gives `null` exactly when nothing follows the first "=" |
| CookieHeader.StoreAll | src/Cookies/CookiesUsingMap.ts:30-34 | storing one cookie per element keeps the map well formed |
| CookieHeader.StoreOneMore | src/Cookies/CookiesUsingMap.ts:26-34 | one more element is one more `Map.set` after the others |
| CookieHeader.LastNamed | src/Cookies/CookiesUsingMap.ts:30-34 | the last element with a name, or none when no element has it |
| CookieHeader.StoreAllEntries | src/Cookies/CookiesUsingMap.ts:26-34 | after `setMany` each name holds the entry of its last cookie; other names keep their entries; no key is lost |
| CookieJar.ValueOf | src/Cookies/CookiesUsingMap.ts:36-41 | `get` answers only for a stored name, and only with a defined value |
| CookieJar.HasIn | src/Cookies/CookiesUsingMap.ts:43-48 | `has` exactly when `get` answers |
| CookieJar.ValuesIn | src/Cookies/CookiesUsingMap.ts:65-69 | `values()` is each stored header's value read back, in key order |
| CookieJar.ValueOfDefined | src/Cookies/CookiesUsingMap.ts:36-41 | `get` answers exactly when the value read back is defined; "" never counts |
| CookieJar.PutSound | src/Cookies/CookiesUsingMap.ts:26-28 | storing a header made by `set` keeps every entry sound |
| CookieJar.GetAfterSet | src/Cookies/CookiesUsingMap.ts:26-41 | after `set`, `get` of that name gives the value when defined and null otherwise; other names answer as before |
| CookieJar.HeaderReads | src/Cookies/CookiesUsingMap.ts:75-80 | a header made by `set` is never empty and reads back as its value |
| CookieJar.CountAfterReplace | src/Cookies/CookiesUsingMap.ts:50-52 | replacing one header changes `count` by the difference its value makes |
| CookieJar.CountAnswers | src/Cookies/CookiesUsingMap.ts:50-52 | `count` is the number of stored names whose `get` is not null |
| CookieJar.DeleteClears | src/Cookies/CookiesUsingMap.ts:54-59 | corrected `delete`, which re-sets the cookie under its stored name with Max-Age dropped: `get` null, `has` false, the same keys, `count` one lower exactly when the cookie had a value, other names unchanged |
| CookieJar.DeleteAsWrittenPlainName | src/Cookies/CookiesUsingMap.ts:54-59 | for a name percent-encoding leaves alone, `delete` as written stores under the same key and `get` then answers null |
| CookieJar.DeleteAsWrittenMisses | src/Cookies/CookiesUsingMap.ts:54-59 | for a name percent-encoding changes, `delete` as written stores the re-set cookie under the encoded name and leaves `get` answering with the old value |
| CookieJar.DeleteAsWrittenKeepsMaxAge | src/Cookies/CookiesUsingMap.ts:54-59 | for a cookie set with a Max-Age, `delete` as written stores the options read back from its header, whose Set-Cookie line carries that Max-Age beside the epoch Expires |
| CookieJar.DeletedHeader | src/Cookies/CookiesUsingMap.ts:54-59 | corrected `delete` stores the cookie's own Domain, Path, flags and SameSite with an empty value, the epoch Expires and no Max-Age |
| CookieJar.Copies | src/Cookies/CookiesAbstract.ts:17-21 | from another jar, each of its names in key order |
| CookieJar.CopiedEntry | src/Cookies/CookiesAbstract.ts:17-21 | a copied name gets the header of `{ name, value: get(name) ?? "" }` |
| CookieJar.CopiedAbsent | src/Cookies/CookiesAbstract.ts:17-21 | names the other jar lacks are not stored |
| CookieJar.CopyAnswersAlike | src/Cookies/CookiesAbstract.ts:17-21 | a jar built from a jar answers `get` like it for every name |
| CookieJar.StoreAllSound | src/Cookies/CookiesUsingMap.ts:30-34 | storing any list of cookies keeps every entry sound |
| CookieJar.CookiesUsingMap.constructor | src/Cookies/CookiesUsingMap.ts:13-18 | empty without an init; otherwise the store `applyInit` gives |
| CookieJar.CookiesUsingMap.ApplyInit | src/Cookies/CookiesAbstract.ts:16-29 | a jar's names copied, a list set in order, a single record set |
| CookieJar.CookiesUsingMap.Set | src/Cookies/CookiesUsingMap.ts:26-28 | the header stored under the name; `get` then gives the value when defined |
| CookieJar.CookiesUsingMap.SetMany | src/Cookies/CookiesUsingMap.ts:30-34 | each cookie stored in order |
| CookieJar.CookiesUsingMap.Delete | src/Cookies/CookiesUsingMap.ts:54-59 | corrected `delete`: `get` null, `has` false, as many headers, `count` one lower exactly when the cookie had a value |
| CookieOptionsJar.ValueOf | src/modules/Cookies/variants/CookiesUsingMap.ts:20-22 | the stored value, "" included, exactly for a stored name |
| CookieOptionsJar.DeleteLeavesEmpty | src/modules/Cookies/variants/CookiesUsingMap.ts:28-36 | after `delete`, `get` gives "" and the header carries the path or "/", the epoch expiry and the domain |
| CookieOptionsJar.HeadersReadBack | src/modules/Cookies/variants/CookiesUsingMap.ts:8-14 | each Set-Cookie string reads back as its cookie's value |
| CookieOptionsJar.EntriesOf | src/modules/Cookies/variants/CookiesUsingMap.ts:38-48 | each name with its stored value, in key order |
| CookieOptionsJar.KeptTuples | src/modules/Cookies/CookiesAbstract.ts:23-27 | only tuples with a non-empty name and value are set |
| CookieOptionsJar.CookiesUsingMap.constructor | src/modules/Cookies/variants/CookiesUsingMap.ts:5-6 | an empty map |
| CookieOptionsJar.CookiesUsingMap.Set | src/modules/Cookies/variants/CookiesUsingMap.ts:16-18 | the options stored under the name |
| CookieOptionsJar.CookiesUsingMap.Delete | src/modules/Cookies/variants/CookiesUsingMap.ts:28-36 | the expired options stored; `get` gives "" and `has` stays true |
| CookieOptionsJar.CookiesUsingMap.ToSetCookieHeaders | src/modules/Cookies/variants/CookiesUsingMap.ts:8-14 | one `createHeader` string per stored cookie, in key order |
| CookieOptionsJar.CookiesUsingMap.ApplyInit | src/modules/Cookies/CookiesAbstract.ts:18-33 | a jar's entries set, tuples with an empty side skipped, a record's entries all set |
| CookieOptionsJar.CookiesUsingMap.SetPairs | src/modules/Cookies/CookiesAbstract.ts:20-31 | each pair set as `{ name, value }`, skipping an empty side when asked |
| CoreumServers.PutRoutes | src/lib/Server/__Coreum_Server.ts:50-60 | setting routes keeps the table well formed |
| CoreumServers.LastWithId | src/lib/Server/__Coreum_Server.ts:50-60 | the last route with an id, or none when no route has it |
| CoreumServers.PutRoutesAppend | src/lib/Server/__Coreum_Server.ts:50-60 | setting the routes of `a + b` is setting `a`'s, then `b`'s |
| CoreumServers.PutRoutesLookup | src/lib/Server/__Coreum_Server.ts:50-60 | a route is found under its id, the last of several with one id wins, other ids keep what the table held |
| CoreumServers.Callbacks | src/lib/Server/__Coreum_Server.ts:44-48 | the middleware callbacks in the order the constructor applies them |
| CoreumServers.WrapAllCalls | src/lib/Middleware/__Coreum_Middleware.ts:21-34 | after all middlewares a call runs the last middleware's callback first and the first one's last, once per listing of the route, then the route's own code |
| CoreumServers.TwoMiddlewares | src/lib/Middleware/__Coreum_Middleware.ts:21-34 | a route listed once under `[m1, m2]` runs `m2`, then `m1`, then its own code |
| CoreumServers.ApplyMiddlewares | src/lib/Server/__Coreum_Server.ts:44-48 | every route of the controllers ends with its old handler wrapped by every middleware |
| CoreumServers.PutEach | src/lib/Server/__Coreum_Server.ts:51-53 | each route of one list set under its id |
| CoreumServers.CollectRoutes | src/lib/Server/__Coreum_Server.ts:50-60 | the table holds each controller's routes in turn, then the floating routes |
| CoreumServers.MatchIndex | src/lib/Server/__Coreum_Server.ts:127-135 | the position of the first matching route in table order, or none when no route matches |
| CoreumServers.WrongMethodNotFound | src/lib/Server/__Coreum_Server.ts:65-84 | a known path asked with a method none of its routes has is a 404, not a 405 |
| CoreumServers.Decide | src/lib/Server/__Coreum_Server.ts:67-80 | a preflight departs; else an unknown method is refused; else a found route runs; else not found |
| CoreumServers.StatusResponse | src/lib/Server/__Coreum_Server.ts:101-124 | a response with the body and the status given, status text "OK" |
| CoreumServers.Recover | src/lib/Server/__Coreum_Server.ts:81-83 | a response passes; a throw goes to the installed error handler, else to a 500 response |
| CoreumServers.CoreumServer.constructor | src/lib/Server/__Coreum_Server.ts:33-63 | options kept; middlewares wrap the routes; routes set by id, the controllers' then the floating ones |
| CoreumServers.CoreumServer.FindMatchingRoute | src/lib/Server/__Coreum_Server.ts:127-135 | the first route of the table, in order, whose pattern matches the path and whose method equals the request's ignoring case |
| CoreumServers.CoreumServer.Attempt | src/lib/Server/__Coreum_Server.ts:66-80 | "Departed" for a preflight; the method-not-allowed, route or not-found handler by the decision |
| CoreumServers.CoreumServer.GetResponse | src/lib/Server/__Coreum_Server.ts:65-84 | the `try` block's outcome, with a throw handed to the error handler or turned into a 500 |
| CoreumServers.CoreumServer.HandleFetchAsWritten | src/lib/Server/__Coreum_Server.ts:86-95 | the CORS headers are computed on a copy, and the whole copy is combined back into the response |
| CoreumServers.CoreumServer.HandleFetch | src/lib/Server/__Coreum_Server.ts:86-95 | as intended: only the CORS headers are added |
| CoreumServers.FetchDoublesCookies | src/lib/Server/__Coreum_Server.ts:89-92 | as written every Set-Cookie line of the response is sent twice |
| CoreumServers.FetchKeepsOtherHeaders | src/lib/Server/__Coreum_Server.ts:89-92 | every other header reads as in the intended version |
| CoreumServers.OneCookieSentTwice | src/lib/Server/__Coreum_Server.ts:89-92 | one cookie with CORS configured is sent twice as written, once as intended |
| CorsHeaders.BoolToStringTrue | src/Cors/Cors.ts:35 | "true" exactly for an enabled flag |
| CorsHeaders.CorsNormalised | src/Cors/Cors.ts:17-38 | the four `set`s keep every stored name lower-case |
| CorsHeaders.CorsValues | src/Cors/Cors.ts:17-38 | what each header name holds after `getCorsHeaders`; names it does not write keep their values |
| CorsHeaders.DefaultKeysDistinct | src/Cors/Cors.ts:12-15 | the four header names differ from one another and from Set-Cookie, ignoring case |
| CorsHeaders.OriginReflected | src/Cors/Cors.ts:18-25 | Allow-Origin echoes the request's origin exactly when a non-empty allowed list contains it |
| CorsHeaders.ListsJoined | src/Cors/Cors.ts:27-33 | Allow-Methods and Allow-Headers carry the ", "-joined list only when it is non-empty |
| CorsHeaders.CredentialsAlwaysSet | src/Cors/Cors.ts:35 | Allow-Credentials is always written, "true" only when credentials are enabled |
| CorsHeaders.OtherHeadersKept | src/Cors/Cors.ts:17-38 | headers other than the four, Set-Cookie among them, are left as they were |
| CorsHeaders.ApplyAsWrittenNeverEnds | src/Cors/Cors.ts:40-43 | with a Set-Cookie header on the response, combining the headers into themselves under the live walk never ends, however many steps are allowed |
| CorsHeaders.ApplyAsWrittenEnds | src/Cors/Cors.ts:40-43 | without a Set-Cookie header the same walk ends, one step per pair |
| CorsHeaders.SelfCombineKeepsHeaders | src/Cors/Cors.ts:40-43 | without Set-Cookie, every header reads after the self-combine as it did before |
| CorsHeaders.CorrectedApplyKeepsCookies | src/Cors/Cors.ts:40-43 | the corrected `apply` never changes the response's cookies |
| CorsHeaders.Cors.constructor | src/Cors/Cors.ts:10-15 | the options kept, the four default header names |
| CorsHeaders.Cors.GetCorsHeaders | src/Cors/Cors.ts:17-38 | the response's own headers receive the CORS headers and are returned |
| CorsHeaders.Cors.ApplyAsWritten | src/modules/Cors/Cors.ts:41-44 | on a response without Set-Cookie, the CORS headers are set and the self-combine then leaves them as they are |
| CorsHeaders.Cors.Apply | src/Cors/Cors.ts:40-43 | the CORS headers written once, every other header untouched |
| CorsHeaders.CoreumCors.constructor | src/lib/Cors/__Coreum_Cors.ts:9-14 | the configuration kept, the four default header names |
| CorsHeaders.CoreumCors.GetCorsHeaders | src/lib/Cors/__Coreum_Cors.ts:16-38 | a fresh copy of the response headers receives the CORS headers; the response is left alone |
| Css.NonEmptyKeeps | src/CSS/CSS.ts:33 | filtering keeps every non-empty part and drops every empty one |
| Css.NestedUnfolds | src/CSS/CSS.ts:30-35 | a nested value formats as its non-empty formatted entries joined by spaces |
| Css.AbsentEntryIgnored | src/CSS/CSS.ts:25-35 | an undefined entry of a nested value changes nothing |
| Css.NestedEntryAppended | src/CSS/CSS.ts:30-35 | the next non-empty entry of a nested value comes after a space, or alone when first |
| Css.NumberUnits | src/CSS/CSS.ts:38-62 | a number gets "px" on every property but the thirteen unitless ones |
| Css.Kebab | src/CSS/CSS.ts:73 | the CSS name has no capital letters |
| Css.KebabPlain | src/CSS/CSS.ts:73 | a key without capital letters is its own CSS name |
| Css.KebabCapital | src/CSS/CSS.ts:73 | each capital letter becomes a dash and its lower-case letter |
| Css.KebabOther | src/CSS/CSS.ts:73 | every other character is kept |
| Css.DeclaredIffFormatted | src/CSS/CSS.ts:65-77 | a property is declared exactly when its value formats to something, as two spaces, the CSS name, ": ", the value and ";" |
| Css.PropertiesSnoc | src/CSS/CSS.ts:65-80 | one more property adds its line at the end, or nothing when its value formats empty |
| Css.IndentLines | src/CSS/CSS.ts:125 | two spaces go before every line of the text |
| Css.IndentJoin | src/CSS/CSS.ts:125 | indenting lines joined by line feeds indents each of them |
| Css.EmptyPseudoSkipped | src/CSS/CSS.ts:101-119 | an undefined or empty pseudo-class or pseudo-element adds no block |
| Css.PlainRule | src/CSS/CSS.ts:82-132 | a rule with a selector and properties only is one block |
| Css.MainBlockAfterKeyframes | src/CSS/CSS.ts:85-99 | the main block comes right after the keyframes, whatever else the rule has |
| Css.PushSteps | src/CSS/CSS.ts:88-92 | the steps of one keyframes block, pushed in order |
| Css.PushKeyframes | src/CSS/CSS.ts:85-95 | every keyframes block, pushed in order |
| Css.PushKeyframe | src/CSS/CSS.ts:87-93 | one `@keyframes` block appended |
| Css.PushPseudos | src/CSS/CSS.ts:101-119 | the non-empty pseudo blocks, pushed in order |
| Css.PushMedia | src/CSS/CSS.ts:121-129 | one indented block per media query, pushed in order |
| Css.RuleToString | src/CSS/CSS.ts:82-132 | the parts pushed in order and joined by line feeds |
| Css.BuildSnoc | src/CSS/CSS.ts:17-19 | one more rule comes after a blank line |
| ResponseEdits.AfterConcat | src/Router/Router.ts:30-42 | edits made by the middleware and then by the route code compose: their effect is the second run applied to the first |
| ResponseEdits.StatusKept | src/Router/Router.ts:36-41 | edits that set no status leave the status as it was |
| ResponseEdits.StatusLastWins | test/context.test.ts:148-156 | the last status set is the one kept |
| ResponseEdits.HeaderKept | src/Router/Router.ts:36-41 | edits that touch no header of a name leave its values as they were |
| ResponseEdits.HeaderSetWins | test/context.test.ts:158-166 | a header set and not touched afterwards reads back with the value set |
| ResponseEdits.CookieKept | src/Router/Router.ts:36-41 | edits that set no cookie of a name leave that cookie as it was, present or absent |
| ResponseEdits.CookieSetWins | test/context.test.ts:168-177 | a cookie set and not set again afterwards is stored as `set` stores it |
| ResponseEdits.AfterNormalised | src/Headers/HttpHeaders.ts:12-18 | edits keep every stored header name lower-case |
| ResponseEdits.HeaderReachesResponse | src/Response/HttpResponse.ts:20-65 | a header set by the route code, other than Content-Type and Set-Cookie, reads back from the assembled response with its value |
| ResponseEdits.StatusReachesResponse | src/Response/HttpResponse.ts:59-65 | a non-zero status set by the route code is the assembled response's status |
| ResponseEdits.EditResponse | src/Response/HttpResponse.ts:28-31 | one edit of `ctx.res` changes its fields as the edit rule says |
| ResponseEdits.EditAll | src/Response/HttpResponse.ts:28-31 | the edits of `ctx.res`, in order, change its fields as the edit rules say |
| ResponseEdits.EditModulesResponse | src/modules/HttpResponse/HttpResponse.ts:35-38 | one edit of the modules `ctx.res` changes its fields as the edit rule says |
| ResponseEdits.EditAllModules | src/modules/HttpResponse/HttpResponse.ts:35-38 | the edits of the modules `ctx.res`, in order, change its fields as the edit rules say |
| Responses.AssembledKeeps | src/Response/HttpResponse.ts:20-65 | the response's assembled headers keep every header given other than Content-Type and Set-Cookie |
| Contexts.CoreumContext.Edit | src/lib/Context/__Coreum_Context.ts:19-22 | one edit by route code changes the context's status, status text, headers or cookies as the edit rule says, and not its data |
| Contexts.CoreumContext.EditAll | src/lib/Context/__Coreum_Context.ts:19-22 | the route code's edits in order, the data left alone |
| HeaderList.AppendValues | src/Headers/HttpHeaders.ts:12-14 | after `append` the name has one more value at the end; every other name is untouched |
| HeaderList.SetValues | src/Headers/HttpHeaders.ts:16-18 | after `set` the name has exactly the new value; every other name is untouched |
| HeaderList.UpdatesNormalised | src/Headers/HttpHeaders.ts:12-18 | `append` and `set` keep every stored name lower-case |
| HeaderList.MatchingPairs | src/Headers/HttpHeaders.ts:33 | walking the pairs sees each Set-Cookie value once and any other name once, its values joined by ", " |
| HeaderList.CombineFoldValues | src/Headers/HttpHeaders.ts:32-42 | folding pairs appends the Set-Cookie values and leaves any other name with the last value seen, or its old values |
| HeaderList.CombineGet | src/lib/Headers/__Coreum_Headers.ts:22-35 | combining appends the source's Set-Cookie values after the target's; for other names the source wins when it has the name |
| HeaderList.CombineNormalised | src/Headers/HttpHeaders.ts:32-42 | combining keeps the target's names lower-case |
| HeaderList.StepKeepsPairs | src/Headers/HttpHeaders.ts:32-42 | without Set-Cookie, merging a pair of the list into the list itself leaves the pairs as they were |
| HeaderList.LiveNeverEnds | src/Headers/HttpHeaders.ts:32-42 | a live walk that has not yet passed the last Set-Cookie pair never ends: each one visited appends another |
| HeaderList.SelfCombineNeverEnds | src/Headers/HttpHeaders.ts:32-42 | combining a list holding a Set-Cookie into itself, walking its pairs live, never ends |
| HeaderList.SelfCombineEnds | src/Headers/HttpHeaders.ts:32-42 | without Set-Cookie the live self-combine ends, one step per pair |
| HeaderList.SetManyValues | src/Headers/HttpHeaders.ts:48-58 | after `setMany` a name holds its last kept value, or what it held before |
| HeaderList.SkippedEntryChangesNothing | src/lib/Headers/__Coreum_Headers.ts:43 | a value the rule rejects (not defined, or falsy in the oldest generation) never reaches the map |
| HeaderList.Normalise | src/Headers/HttpHeaders.ts:8-10 | the init's pairs with names lower-cased, as the platform stores them |
| HeaderList.FirstNamed | src/Headers/HttpHeaders.ts:68 | the index of the first tuple with exactly that name, or the length |
| HeaderList.FindHeaderInInit | src/Headers/HttpHeaders.ts:61-72 | a headers object answers with `get`, a tuple list with its first tuple of that exact name, a record with its own property, else null |
| HeaderList.HttpHeaders.constructor | src/Headers/HttpHeaders.ts:8-10 | the list is the normalised init |
| HeaderList.HttpHeaders.Append | src/Headers/HttpHeaders.ts:12-14 | the list becomes the append rule applied to the old one |
| HeaderList.HttpHeaders.Set | src/Headers/HttpHeaders.ts:16-18 | the list becomes the set rule applied to the old one |
| HeaderList.HttpHeaders.Get | src/modules/HttpHeaders/HttpHeaders.ts:21-23 | the retry with the lower-cased name answers as the case-insensitive lookup |
| HeaderList.HttpHeaders.Has | src/Headers/HttpHeaders.ts:24-26 | the retry with the lower-cased name answers as the case-insensitive test |
| HeaderList.HttpHeaders.Combine | src/Headers/HttpHeaders.ts:32-42 | the target becomes the combination of the old source into the old target, and is returned |
| HeaderList.HttpHeaders.Merge | src/Headers/HttpHeaders.ts:34-38 | one visited pair: Set-Cookie appended, any other name set |
| HeaderList.HttpHeaders.InnerCombine | src/modules/HttpHeaders/HttpHeaders.ts:44-46 | this map becomes the combination of the source into it |
| HeaderList.HttpHeaders.SetMany | src/Headers/HttpHeaders.ts:48-58 | the entries set in order, skipping undefined values |
| Html.AttrTexts | src/HTML/HTML.ts:8-11 | one `key="value"` text per attribute, in insertion order |
| Html.AddMetas | src/HTML/HTML.ts:20-30 | the custom meta lines appended in order |
| Html.AddFavicons | src/HTML/HTML.ts:66-74 | one link line per favicon, appended in order |
| Html.AddLinks | src/HTML/HTML.ts:75-89 | one link line per link, appended in order |
| Html.AddJsonLd | src/HTML/HTML.ts:90-94 | one structured-data script per item, appended in order |
| Html.ScriptAttributes | src/HTML/HTML.ts:97-105 | a script's attributes pushed in the fixed order |
| Html.PushLoadingAttrs | src/HTML/HTML.ts:98-101 | src, type, async and defer pushed when set |
| Html.PushSecurityAttrs | src/HTML/HTML.ts:102-105 | integrity, crossorigin, referrerpolicy and nomodule pushed when set |
| Html.AddScripts | src/HTML/HTML.ts:95-112 | one script line per script, appended in order |
| Html.AddFixed | src/HTML/HTML.ts:13-19 | the charset and viewport tags, then the basic tags whose field is truthy |
| Html.AddTagged | src/HTML/HTML.ts:20-65 | the custom metas, then the Open Graph, Twitter card and base tags |
| Html.AddLists | src/HTML/HTML.ts:66-112 | favicons, links, structured data and scripts, in that order |
| Html.Build | src/HTML/HTML.ts:5-126 | `build` gives the document's lines joined by line feeds |
| Html.LeadingFirst | src/HTML/HTML.ts:13-14 | the charset and viewport tags open the head after the title, defaults standing in for undefined fields |
| Html.CharsetTagText | src/HTML/HTML.ts:8-13 | the charset tag reads `<meta charset="...">` |
| Html.DefaultCharsetTag | src/HTML/HTML.ts:13 | with no charset the first head tag declares UTF-8 |
| Html.DocumentFrame | src/HTML/HTML.ts:113-124 | the fixed opening, the head lines, the fixed closing |
| Html.RenderReadsBack | src/HTML/HTML.ts:125 | when no line holds a line feed, splitting the text at line feeds gives back the lines |
| Html.FalsyIsAbsent | src/HTML/HTML.ts:15-19 | an empty description, keyword list, author, robots or canonical emits what an undefined one does |
| Html.BasicsInHead | src/HTML/HTML.ts:13-19 | every basic tag is a head line |
| Html.TruthyEmitted | src/HTML/HTML.ts:15-19 | a truthy optional field emits its tag |
| Html.MetaPrecedence | src/HTML/HTML.ts:22-28 | a name wins over a property and an http-equiv, a property over an http-equiv; no key, no line |
| Html.MetaCount | src/HTML/HTML.ts:20-30 | one line per custom meta that has a key |
| Html.JsonLdNumbered | src/HTML/HTML.ts:91-92 | the structured-data script at position `i` is numbered `i + 1` |
| Html.ScriptContentBetweenTags | src/HTML/HTML.ts:106-110 | inline content sits between the tags; without content they are adjacent |
| Html.ScriptAttrOrder | src/HTML/HTML.ts:97-105 | a source first, nomodule last, no attributes when nothing is set |
| HttpErrors.Make | src/Error/HttpError.ts:5-11 | message, status and data kept as given |
| HttpErrors.Factory | src/Error/HttpError.ts:26-29 | the status given, no data, and the message or else the status in decimal |
| HttpErrors.InternalServerError | src/Error/HttpError.ts:26-29 | status 500 |
| HttpErrors.BadRequest | src/Error/HttpError.ts:31-34 | status 400 |
| HttpErrors.NotFound | src/Error/HttpError.ts:36-39 | status 404 |
| HttpErrors.MethodNotAllowed | src/Error/HttpError.ts:41-44 | status 405 |
| HttpErrors.UnprocessableEntity | src/Error/HttpError.ts:46-49 | status 422 |
| HttpErrors.DefaultMessageDenotesStatus | src/modules/HttpError/HttpError.ts:21-24 | without a message, the message is all digits and reads back as the status |
| HttpErrors.StatusOf | src/modules/HttpError/HttpError.ts:13-19 | an HttpError stands for its status; any other thrown value for 500 |
| HttpErrors.ModulesIsStatusOfExactlyOne | src/modules/HttpError/HttpError.ts:13-19 | every thrown value passes the static test for exactly one status, agreeing with the instance test |
| HttpErrors.ErrorBody | src/Error/HttpError.ts:15-17 | an object of two fields |
| HttpErrors.ToResponse | src/Error/HttpError.ts:13-20 | the response carries the error's status |
| HttpErrors.ToResponseCarries | src/Error/HttpError.ts:13-20 | the body always has a truthy "error", the message under "message", and the data whenever it is truthy |
| Json.Field | src/Model/Parser.ts:157 | a field is found only in an object |
| Json.LastFieldWins | src/Model/Parser.ts:157 | a field name given twice reads as its last value, as on the object `JSON.parse` builds |
| Json.EscapedPrintable | src/modules/HttpResponse/HttpResponse.ts:114 | the escaped text of a string holds no control character |
| Json.StringifiedStringPrintable | src/modules/HttpResponse/HttpResponse.ts:114 | the JSON text of a string holds no character below U+0020, so it is a valid JSON string |
| Json.UnescapeEscape | src/modules/HttpResponse/HttpResponse.ts:114 | `JSON.parse` reads back every string `JSON.stringify` wrote |
| Json.NumberStringified | src/modules/HttpResponse/HttpResponse.ts:114 | `JSON.stringify` writes a number as the canonical text of the same value, which the numeric pattern reads back as that canonical decimal |
| MiddlewareScopes.RepeatAdd | src/modules/Registry/MiddlewareRegistry.ts:33-38 | m copies followed by n copies are m + n copies |
| MiddlewareOrder.InsertByOrder | src/modules/Registry/MiddlewareRegistry.ts:43-48 | the stable insertion step adds exactly one entry and keeps the others |
| MiddlewareOrder.InsertKeepsAscending | src/modules/Registry/MiddlewareRegistry.ts:43-48 | inserting into an ascending list keeps it ascending |
| MiddlewareOrder.SortByOrder | src/modules/Registry/MiddlewareRegistry.ts:43-48 | the sort by `order` yields an ascending permutation of its input |
| MiddlewareOrder.SortedIsFixed | src/modules/Registry/MiddlewareRegistry.ts:43-48 | sorting an ascending list leaves it as it is |
| MiddlewareOrder.SortSnoc | src/modules/Registry/MiddlewareRegistry.ts:43-48 | sorting a list with one more entry inserts that entry into the sorted rest |
| MiddlewareOrder.InsertAtEnd | src/modules/Registry/MiddlewareRegistry.ts:43-48 | an entry with an order no smaller than the last goes to the end |
| MiddlewareOrder.WithOrderAppend | src/modules/Registry/MiddlewareRegistry.ts:43-48 | the entries of one order in a concatenation are those of each part in turn |
| MiddlewareOrder.InsertStable | src/modules/Registry/MiddlewareRegistry.ts:43-48 | an insertion puts the new entry after the entries of equal order |
| MiddlewareOrder.SortStable | src/modules/Registry/MiddlewareRegistry.ts:43-48 | the sort is stable: entries of equal order keep their relative order |
| MiddlewareOrder.FindChangesNothing | src/modules/Registry/MiddlewareRegistry.ts:42-50 | the in-place sorts of `find` leave every stored list as it was |
| MiddlewareOrder.FindIsRegistrationOrder | src/modules/Registry/MiddlewareRegistry.ts:42-50 | `find` returns the global entries and then the route's own, each in registration order |
| MiddlewareOrder.UnknownIdGetsGlobals | src/modules/Registry/MiddlewareRegistry.ts:46-49 | an id with no list gets the global entries alone |
| MiddlewareOrder.InitialValid | src/modules/Registry/MiddlewareRegistry.ts:8-10 | the initial record, with an empty "*" list, is valid |
| MiddlewareOrder.PushChanges | src/modules/Registry/MiddlewareRegistry.ts:34-37 | a push appends to its own list and to no other |
| MiddlewareOrder.PushIdsChanges | src/modules/Registry/MiddlewareRegistry.ts:33-38 | pushing for a list of ids appends one entry per occurrence of an id and touches no other list |
| MiddlewareOrder.PushTargetsChanges | src/modules/Registry/MiddlewareRegistry.ts:25-39 | pushing for targets appends one entry per time an id comes up among the targets |
| MiddlewareOrder.AddOnTargets | src/modules/Registry/MiddlewareRegistry.ts:12-40 | a registration on targets appends one entry, of order key count + 1, per mention of an id, and changes no other list |
| MiddlewareOrder.AddEverywhere | src/modules/Registry/MiddlewareRegistry.ts:18-21 | "*" appends to the global list only and creates no key |
| MiddlewareOrder.PushBounded | src/modules/Registry/MiddlewareRegistry.ts:34-37 | a push of an entry no smaller than every stored order keeps that bound |
| MiddlewareOrder.PushIdsBounded | src/modules/Registry/MiddlewareRegistry.ts:33-38 | pushing for ids keeps the bound and never removes a key |
| MiddlewareOrder.PushTargetsBounded | src/modules/Registry/MiddlewareRegistry.ts:25-39 | pushing for targets keeps the bound and never removes a key |
| MiddlewareOrder.BoundedValid | src/modules/Registry/MiddlewareRegistry.ts:12-40 | bounded lists are ascending |
| MiddlewareOrder.AddKeepsValid | src/modules/Registry/MiddlewareRegistry.ts:12-40 | orders never decrease, so `add` keeps every list ascending |
| MiddlewareOrder.AddOnRoute | src/modules/Registry/MiddlewareRegistry.ts:23-39 | a middleware on one route appends to that route's list and leaves the global list alone |
| MiddlewareOrder.OneRoute | src/modules/Registry/MiddlewareRegistry.ts:26-28 | a route target expands to its own id once |
| MiddlewareOrder.RouteMiddlewaresInRegistrationOrder | src/modules/Router/registries/RouterMiddlewareRegistry.ts:12-50 | two middlewares on one route run in registration order, after the globals |
| MiddlewareOrder.TwoRouteAdds | src/modules/Registry/MiddlewareRegistry.ts:12-40 | two route registrations append two entries to that route's list and none to the global one |
| MiddlewareOrder.GlobalsRunFirst | src/modules/Router/RouterMiddlewareRegistry.ts:12-50 | a global registered after a route middleware still runs before it |
| MiddlewareOrder.RouteThenGlobalAdds | src/modules/Registry/MiddlewareRegistry.ts:12-40 | a route then a global registration append one entry to each list |
| MiddlewareOrder.TwoAddsAscending | src/modules/Registry/MiddlewareRegistry.ts:12-40 | after two registrations every list is still ascending |
| MiddlewareOrder.ComposedOfAscending | src/modules/Registry/MiddlewareRegistry.ts:42-50 | on ascending lists `find` is the plain concatenation |
| MiddlewareOrder.PushAllTargets | src/modules/Registry/MiddlewareRegistry.ts:25-39 | the nested loops give the specified pushes for every target |
| MiddlewareOrder.Registry.constructor | src/modules/Registry/MiddlewareRegistry.ts:8-10 | a new registry holds only the empty "*" list |
| MiddlewareOrder.Registry.Add | src/modules/Registry/MiddlewareRegistry.ts:12-40 | the stored lists become the specified registration and stay valid |
| MiddlewareOrder.Registry.Find | src/modules/Registry/MiddlewareRegistry.ts:42-50 | the stored lists are unchanged and the result is globals then route entries |
| MiddlewareChain.RunFlat | src/Middleware/MiddlewareRegistry.ts:61-67 | a run enters at most every handler |
| MiddlewareChain.RunFlatOk | src/Middleware/MiddlewareRegistry.ts:61-67 | a run finishes exactly when none of its handlers throws |
| MiddlewareChain.RunFlatPrefix | src/Middleware/MiddlewareRegistry.ts:61-67 | a run enters a prefix of its handlers, all of them when it finishes |
| MiddlewareChain.RunFlatStopsAtThrow | src/Middleware/MiddlewareRegistry.ts:61-67 | a failed run stops at a throwing handler after handlers that did not throw |
| MiddlewareChain.RunFlatStopsAtFirstThrow | src/Middleware/MiddlewareRegistry.ts:61-67 | a run performs everything up to and including the first throw and nothing after |
| MiddlewareChain.RunFlatAppend | src/Middleware/MiddlewareRegistry.ts:61-67 | running a concatenation runs the second part only when the first finished |
| MiddlewareChain.RunIsSequential | src/Middleware/MiddlewareRegistry.ts:61-67 | however deep the composition, a composed handler runs its user handlers in sequence and stops at the first throw |
| MiddlewareChain.RunAllIsSequential | src/Middleware/MiddlewareRegistry.ts:63-65 | running a list of composed handlers is running their flattening |
| MiddlewareChain.RunCompiled | src/Middleware/MiddlewareRegistry.ts:61-67 | the loop of the compiled closure gives the run of the composition |
| MiddlewareChain.StopsAfterThrow | src/Middleware/MiddlewareRegistry.ts:63-65 | once a prefix of the list has failed, the rest of the list is not run |
| MiddlewareChain.FlattenTwo | src/Middleware/MiddlewareRegistry.ts:14-20 | the two-element array of `add` flattens to the old chain followed by the new handler |
| MiddlewareChain.ExtendAppends | src/Middleware/MiddlewareRegistry.ts:35-41 | extending one id's chain appends the handler to that chain only |
| MiddlewareChain.ExtendIdsAppends | src/Middleware/MiddlewareRegistry.ts:34-42 | extending for a list of ids appends once per occurrence |
| MiddlewareChain.ExtendTargetsAppends | src/Middleware/MiddlewareRegistry.ts:26-43 | extending for targets appends once per mention of an id |
| MiddlewareChain.AddAppends | src/Middleware/MiddlewareRegistry.ts:10-44 | "*" extends only the global chain; targets extend every id they expand to, once per mention |
| MiddlewareChain.FindRunsGlobalsThenRoute | src/Middleware/MiddlewareRegistry.ts:46-59 | the handler `find` returns runs the global chain then the route's, in registration order, the first throw aborting the rest |
| MiddlewareChain.FindWithNothingIsNoOp | src/Middleware/MiddlewareRegistry.ts:46-59 | with neither chain registered `find` gives a handler that does nothing |
| MiddlewareChain.GlobalThenRouteAdds | src/Middleware/MiddlewareRegistry.ts:10-44 | a global then a route registration leave one handler under each key |
| MiddlewareChain.ThrowingGlobalGuardsRoute | src/Middleware/MiddlewareRegistry.ts:46-67 | a throwing global handler stops the request before any route handler |
| MiddlewareChain.Registry.constructor | src/Middleware/MiddlewareRegistry.ts:8 | a new registry holds no chain |
| MiddlewareChain.Registry.Add | src/Middleware/MiddlewareRegistry.ts:10-44 | the chains become the specified registration |
| MiddlewareChain.Registry.AddToEach | src/Middleware/MiddlewareRegistry.ts:34-42 | the inner loop extends the chain of each id in turn |
| MiddlewareChain.Registry.Find | src/Middleware/MiddlewareRegistry.ts:46-59 | the result is the composition of the global and route chains that exist |
| CoreumMiddleware.CallbackOf | src/lib/Middleware/__Coreum_Middleware.ts:13-18 | a provider contributes its `middleware`, a callback itself |
| CoreumMiddleware.Coalesce | src/lib/Middleware/__Coreum_Middleware.ts:28 | `data ?? undefined` is never null and keeps any other value |
| CoreumMiddleware.OneContextPerCall | src/lib/Middleware/__Coreum_Middleware.ts:25-30 | a context is built only when the caller passed none, and every layer shares it |
| CoreumMiddleware.DataFromInnermost | src/lib/Middleware/__Coreum_Middleware.ts:25-30 | the data the route sees comes from the innermost (first applied) middleware and is never null |
| CoreumMiddleware.WrapNCalls | src/lib/Middleware/__Coreum_Middleware.ts:24-30 | wrapping n times puts n calls of the callback in front and keeps the route's own handler at the bottom |
| CoreumMiddleware.LaterUseRunsFirst | src/lib/Middleware/__Coreum_Middleware.ts:24-30 | of two middlewares used on a route, the later one's callback runs first |
| CoreumMiddleware.CoreumRoute.constructor | src/lib/Route/__Coreum_Route.ts:27-68 | id, pattern and parameter names derive from the method and path, and the handler calls the route's own callback |
| CoreumMiddleware.CoreumRoutePathIsOneJoin | src/lib/Controller/__Coreum_Controller.ts:32-34 | both branches equal one join of global prefix, prefix and path |
| CoreumMiddleware.CoreumController.constructor | src/lib/Controller/__Coreum_Controller.ts:11-13 | a new controller has its prefix and no routes |
| CoreumMiddleware.CoreumController.Route | src/lib/Controller/__Coreum_Controller.ts:22-46 | GET for a plain path; the path under the prefixes; the new route is appended to `routes` and returned |
| CoreumMiddleware.RouteLists | src/lib/Middleware/__Coreum_Middleware.ts:22-23 | each controller's route list, in order, and their concatenation is every route |
| CoreumMiddleware.ConcatIncludes | src/lib/Middleware/__Coreum_Middleware.ts:22-23 | a route of any controller is among all the routes |
| CoreumMiddleware.WrapNAdd | src/lib/Middleware/__Coreum_Middleware.ts:24-30 | wrapping n times and then m times is wrapping n + m times |
| CoreumMiddleware.Middleware.constructor | src/lib/Middleware/__Coreum_Middleware.ts:10-19 | the stored callback is the provider's middleware or the callback given |
| CoreumMiddleware.Middleware.Use | src/lib/Middleware/__Coreum_Middleware.ts:21-34 | every route of every controller is wrapped once per time it is listed, and the same list comes back |
| CoreumMiddleware.Middleware.WrapEach | src/lib/Middleware/__Coreum_Middleware.ts:22-32 | the outer loop wraps each controller's routes in turn |
| CoreumMiddleware.Middleware.WrapRoutes | src/lib/Middleware/__Coreum_Middleware.ts:23-31 | the inner loop wraps each listed route once more per occurrence |
| UriComponent.EncodeChars | src/Cookies/CookiesUsingMap.ts:124 | `encodeURIComponent` never emits "=", ";", "," or a space |
| UriComponent.EncodeUnreserved | src/Cookies/CookiesUsingMap.ts:124 | a string of unreserved characters is its own encoding |
| UriComponent.EncodeChangesReserved | src/Cookies/CookiesUsingMap.ts:124 | any other string changes under encoding |
| UriComponent.DecodePlain | src/Cookies/CookiesUsingMap.ts:79 | a string without "%" decodes to itself |
| UriComponent.DecodeEncodeChar | src/Cookies/CookiesUsingMap.ts:79 | decoding an encoded character gives it back and resumes after its escapes |
| UriComponent.DecodeEncode | src/Cookies/CookiesUsingMap.ts:75-80 | `decodeURIComponent(encodeURIComponent(s)) == s` for every string |
| OrderedMaps.Put | src/Cookies/CookiesUsingMap.ts:26-28 | `Map.set`: the key holds the value, other keys unchanged, a new key last, an old key in place |
| OrderedMaps.Values | src/Cookies/CookiesUsingMap.ts:22-24 | the entries in key order |
| OrderedMaps.ValuesAfterPut | src/Cookies/CookiesUsingMap.ts:22-28 | setting an existing key keeps the number and order of entries; a new key adds one entry at the end |
| ModelKeys.EntryKeys | src/modules/Registry/ModelRegistry.ts:11-21 | the entry holds exactly the accepted keys (body, search, params, response) the model mentions; other keys are ignored |
| ModelKeys.EntryValueIsLast | src/modules/Registry/ModelRegistry.ts:17-20 | an accepted key stores the validate function and vendor of its last occurrence |
| ModelKeys.BuildEntry | src/modules/Registry/ModelRegistry.ts:9-21 | the loop builds exactly that entry |
| ModelKeys.FindSpec | src/modules/Registry/ModelRegistry.ts:26-28 | an entry is found exactly for a stored id |
| ModelKeys.FindAfterAdd | src/modules/Registry/ModelRegistry.ts:8-24 | `add` replaces the whole entry of its id and no other |
| ModelKeys.SecondAddForgetsFirst | src/modules/Registry/ModelRegistry.ts:23 | a second `add` for the same id forgets every key of the first |
| ModelKeys.ModelRegistry.constructor | src/modules/Registry/ModelRegistry.ts:6 | a new registry is empty |
| ModelKeys.ModelRegistry.Add | src/modules/Registry/ModelRegistry.ts:8-24 | the stored entry of the id becomes the model's entry |
| ModelKeys.ModelRegistry.Find | src/modules/Registry/ModelRegistry.ts:26-28 | the stored entry, or nothing |
| ModelIntern.RemoveWhitespace | src/Model/ModelRegistry.ts:15 | the key has no white space, is no longer than the text, and equals a text that had none |
| ModelIntern.RemoveWhitespaceIdempotent | src/Model/ModelRegistry.ts:15 | removing white space twice is removing it once |
| ModelIntern.Intern | src/Model/ModelRegistry.ts:13-20 | the result is the validator stored under the key, the schema's own when none was; no stored validator changes and only the key is added |
| ModelIntern.SameTextSharesValidator | src/Model/ModelRegistry.ts:13-20 | two schemas whose JSON differs only in white space share the validator interned first |
| ModelIntern.FreshKeyStoresOwn | src/Model/ModelRegistry.ts:18-19 | a fresh key gets the schema's own validator |
| ModelIntern.InternOpt | src/Model/ModelRegistry.ts:25-35 | a validator comes back exactly when the schema is present; an absent one leaves the table as it was |
| ModelIntern.EntryMirrorsModel | src/Model/ModelRegistry.ts:22-38 | only body, params and search are kept, each exactly when the model has it; the response schema is dropped |
| ModelIntern.AddKeepsInterned | src/Model/ModelRegistry.ts:13-20 | interning never forgets or changes a stored validator |
| ModelIntern.BodyReusesInterned | src/Model/ModelRegistry.ts:25-27 | a body schema whose text is already interned reuses the stored validator |
| ModelIntern.ParamsAndSearchShare | src/Model/ModelRegistry.ts:29-35 | params and search with equal text share the validator interned for params |
| ModelIntern.InternOptStored | src/Model/ModelRegistry.ts:16-17 | interning a schema whose key is stored gives the stored validator and stores nothing |
| ModelIntern.AddEntryTwice | src/Model/ModelRegistry.ts:22-38 | adding the same model twice is the same as adding it once |
| ModelIntern.ModelRegistry.constructor | src/Model/ModelRegistry.ts:9-11 | a new registry has no entries and nothing interned |
| ModelIntern.ModelRegistry.InternValidator | src/Model/ModelRegistry.ts:13-20 | the method's result and new table are the interning function's |
| ModelIntern.ModelRegistry.Add | src/Model/ModelRegistry.ts:22-38 | the id's entry and the intern table become the specified ones |
| ModelIntern.ModelRegistry.Find | src/Model/ModelRegistry.ts:40-42 | the stored entry exactly when the id is stored |
| RouterModels.FindModelSpec | src/modules/Router/RouterModelRegistry.ts:13-15 | a model is found exactly for a stored id |
| RouterModels.FindModelAfterAdd | src/modules/Router/RouterModelRegistry.ts:7-11 | `findModel` gives what was last stored for the id, an absent model storing nothing; other ids are unaffected |
| RouterModels.RouterModelRegistry.constructor | src/modules/Router/RouterModelRegistry.ts:5 | a new table is empty |
| RouterModels.RouterModelRegistry.AddModel | src/modules/Router/RouterModelRegistry.ts:7-11 | the table becomes the specified addition |
| RouterModels.RouterModelRegistry.FindModel | src/modules/Router/RouterModelRegistry.ts:13-15 | the stored model, or nothing |
| ModulesRouters.LookupError | src/modules/Registry/RouteRegistry.ts:131-139 | a failed lookup throws 404 when nothing matched and 405 when the method did not |
| ModulesRouters.NeverCreatedIsEmpty | src/modules/Router/Router.ts:52-77 | the defaults of `findMiddleware` and `findModel` equal what a fresh registry answers |
| ModulesRouters.AddedRouteFoundExactly | src/modules/Router/Router.ts:32-37 | after `addRoute`, the route's endpoint with the route's own method finds that route by its id, whatever was registered before |
| ModulesRouters.Router.constructor | src/modules/Router/Router.ts:14-22 | a new router has an empty global prefix and no registry created |
| ModulesRouters.Router.SetGlobalPrefix | src/modules/Router/Router.ts:17-19 | the prefix is stored as given |
| ModulesRouters.Router.RouteRegistry | src/modules/Router/Router.ts:23-28 | the route registry is created on first use and the same afterwards |
| ModulesRouters.Router.MiddlewareRegistry | src/modules/Router/Router.ts:40-45 | the middleware registry is created on first use and the same afterwards |
| ModulesRouters.Router.ModelRegistry | src/modules/Router/Router.ts:60-65 | the model registry is created on first use and the same afterwards |
| ModulesRouters.Router.Routes | src/modules/Router/Router.ts:29-31 | the route records by id; reading them creates the registry and changes nothing else |
| ModulesRouters.Router.AddRoute | src/modules/Router/Router.ts:32-34 | the route tables become the registry's `add` of the route |
| ModulesRouters.Router.FindRoute | src/modules/Router/Router.ts:35-37 | the record for the pathname and upper-cased method, or the 404 or 405 thrown |
| ModulesRouters.Router.AddMiddleware | src/modules/Router/Router.ts:49-51 | the middleware lists become the registry's `add` of the options |
| ModulesRouters.Router.FindMiddleware | src/modules/Router/Router.ts:52-57 | [] while the registry was never created, else the global entries then the route's, in registration order |
| ModulesRouters.Router.AddModel | src/modules/Router/Router.ts:69-71 | the model table becomes the registry's `add` of the model |
| ModulesRouters.Router.FindModel | src/modules/Router/Router.ts:72-77 | nothing while the registry was never created, else what was last stored for the id |
| ModulesRouters.Route.constructor | src/modules/Route/Route.ts:28-44 | the endpoint is joined under the router's global prefix, method, pattern and id are resolved, the route registers itself and then its model when one is given |
| ModulesRouters.ExtensionOf | src/modules/Route/StaticRoute.ts:39 | the given extension, else the text after the file path's last ".", else "txt"; never empty |
| ModulesRouters.ExtensionWithoutDot | src/modules/Route/StaticRoute.ts:39 | without an extension, a file path with no "." is its own extension |
| ModulesRouters.StaticRoute.constructor | src/modules/Route/StaticRoute.ts:27-41 | the path is kept as given, the method is GET, the extension is resolved and the route registers itself |
| SchemaIssues.IssuesToErrorMessage | src/Model/Parser.ts:30-52 | no issues give "" |
| SchemaIssues.MessageHasOneLinePerIssue | src/Model/Parser.ts:35-51 | the message splits back on newlines into exactly one line per issue, in order, when no line holds a newline |
| SchemaIssues.KeyedLineReadsBack | src/Model/Parser.ts:41-49 | a line with a path reads back: before the first ':' the dotted path, after it a space and the message |
| SchemaIssues.UnkeyedLineIsMessage | src/Model/Parser.ts:37-39 | an issue without a path, or with an empty one, contributes its bare message |
| Parsing.Rejection | src/Model/Parser.ts:23-26 | a rejection is an HttpError with status 422 and the formatted message |
| Parsing.Parse | src/Model/Parser.ts:17-28 | without a validator the data passes unchanged; with one, the validated value, or a 422 exactly when the result carries issues |
| Parsing.EmptyIssuesStillReject | src/Model/Parser.ts:23-26 | an empty issue list still rejects, with the empty message |
| Parsing.ParseOnlyThrows422 | src/modules/Parser/Parser.ts:18-29 | whatever the parser throws is an HttpError with status 422 |
| Parsing.GetParserVendor | src/modules/Parser/Parser.ts:31-33 | the schema's vendor |
| Parsing.ParseWithSchema | src/lib/Context/__Coreum_Context.ts:160-169 | without a schema the data passes; with one, the validated value, or a plain Error named "unprocessable." + kind exactly when the schema rejects |
| Parsing.ValidationPathsAgree | src/lib/Context/__Coreum_Context.ts:160-169 | both validation paths accept the same data with the same value; only what a rejection throws differs |
| Extraction.LastWins | src/Model/Parser.ts:58-62 | the record of `data[key] = coerce(value)` for each pair is a valid record |
| Extraction.LastWinsLookup | src/Model/Parser.ts:60-62 | a key holds the coerced value of its last pair, and a key without pairs is absent |
| Extraction.RepeatedKeyKeepsLast | src/Model/Parser.ts:60-62 | of ("n", a), ("n", b) only b is kept |
| Extraction.AssignEach | src/Model/Parser.ts:58-62 | the loop fills exactly that record |
| Extraction.Coerced | src/Model/Parser.ts:171-173 | each value coerced, key by key, in order |
| Extraction.AppendEach | src/Model/Parser.ts:169-175 | the loop appends each coerced pair with objAppendEntry |
| Extraction.FormStep | src/Model/Parser.ts:188-194 | one form-data entry keeps the record valid |
| Extraction.FormDataFields | src/Model/Parser.ts:186-196 | the record a form-data body fills is valid |
| Extraction.FormDataWithoutFiles | src/Model/Parser.ts:178-197 | without files a form-data body accumulates exactly as a url-encoded one |
| Extraction.FileThenField | src/Model/Parser.ts:189-193 | a file replaces whatever its key held, and a later field under that key makes it [file, value] |
| Extraction.ApplyEntry | src/Model/Parser.ts:189-193 | one step of the form-data loop |
| Extraction.FillFormData | src/Model/Parser.ts:186-196 | the form-data loop fills exactly the specified record |
| Extraction.Captures | src/Model/Parser.ts:126-137 | the parameter record after the first n template parts is valid when no segment failed to decode |
| Extraction.LastParamAt | src/Model/Parser.ts:129-136 | the last position before n holding `:key` with a request segment there |
| Extraction.ParamKey | src/Model/Parser.ts:132-133 | a part names parameter key exactly when it is ":" + key |
| Extraction.CapturesLookup | src/Model/Parser.ts:126-137 | each parameter holds the coerced segment of its last occurrence that has a request segment; names without one, or outside the template, are absent |
| Extraction.CapturesWithoutDecode | src/lib/Context/__Coreum_Context.ts:64-81 | without decoding the capture cannot fail |
| Extraction.CapturesNoneStays | src/Model/Parser.ts:129-137 | once a segment fails to decode the capture stays failed |
| Extraction.FillParams | src/Model/Parser.ts:126-137 | the loop succeeds exactly when no segment fails to decode, and then fills the specified record |
| BodyParsing.UrlEncodedFields | src/Model/Parser.ts:160-176 | an empty or blank body is a SyntaxError, otherwise the appended pairs |
| BodyParsing.GetBody | src/Model/Parser.ts:67-113 | the method with its form loops computes the specified body |
| BodyParsing.SyntaxErrorYieldsEmpty | src/Model/Parser.ts:109-111 | bad JSON and an empty url-encoded body give `{}` without consulting the schema |
| BodyParsing.GetBodyThrowsOnly422 | src/Model/Parser.ts:67-113 | whatever `getBody` throws is a 422 HttpError; SyntaxErrors never escape |
| BodyParsing.UnreadableKindsRejected | src/modules/Parser/Parser.ts:95-105 | the media kinds, and in the modules generation an unknown type, are refused with "unprocessable.contentType" |
| BodyParsing.NoBodySkipsValidation | src/Model/Parser.ts:103-105 | a method without a body gives `{}` whatever the schema |
| BodyParsing.GenerationsDifferOnlyOnUnknown | src/modules/Parser/Parser.ts:72-116 | the generations differ only on an unknown type: the top-level parser reads it as text, the modules parser refuses it |
| BodyParsing.UrlEncodedKeepsRepeats | src/Model/Parser.ts:171-173 | a url-encoded body keeps every value of a repeated key, in order |
| BodyParsing.CoreumParseRequestBody | src/lib/Context/__Coreum_Context.ts:86-128 | the method with its form loops computes the oldest context's body |
| BodyParsing.CoreumBodyErrors | src/lib/Context/__Coreum_Context.ts:86-128 | SyntaxErrors escape, an unknown type is a 422 "unprocessable.body", and otherwise only a 422 or the schema's Error is thrown |
| BodyParsing.GetSearch | src/Model/Parser.ts:54-65 | each value coerced, the last of a repeated key kept, then validated |
| BodyParsing.CoreumParseRequestSearch | src/lib/Context/__Coreum_Context.ts:53-62 | repeats accumulate into arrays, then the search schema |
| BodyParsing.SearchRepeatsDiffer | src/lib/Context/__Coreum_Context.ts:53-62 | the newer parsers keep the last value of a repeated key, the oldest keeps them all |
| BodyParsing.GetParams | src/Model/Parser.ts:115-140 | the loop computes the specified parameters |
| BodyParsing.CoreumParseRequestParams | src/lib/Context/__Coreum_Context.ts:64-84 | the loop computes the oldest context's parameters |
| BodyParsing.CapturesWithoutParams | src/Model/Parser.ts:129-137 | a template without ':' captures nothing |
| BodyParsing.StaticTemplateParams | src/Model/Parser.ts:122-124 | a template without ':' skips validation in the newer parsers, but the oldest context still runs the params schema on `{}` |
| BodyParsing.MissingTrailingParam | src/Model/Parser.ts:129-139 | "/x/:id" against "/x" validates `{}`, so a schema requiring id answers 422 |
| ContentTypes.FirstMatchStep | src/Model/Parser.ts:239-263 | one step of the test chain: the entry's kind when its substring occurs, else the rest of the chain |
| ContentTypes.NormalizeIsFirstMatch | src/Model/Parser.ts:222-266 | getNormalizedContentType is the method test followed by the first-match walk over the substring table |
| ContentTypes.FirstMatchSpec | src/Model/Parser.ts:239-265 | "unknown" exactly when no substring occurs; otherwise the kind of an occurring entry with no earlier entry occurring |
| ContentTypes.NoBodyAllowedIff | src/Model/Parser.ts:226-237 | "no-body-allowed" exactly for a request whose upper-cased method is not POST, PUT, PATCH or DELETE |
| ContentTypes.FirstMatchNeverNoBody | src/Model/Parser.ts:239-265 | the substring table never yields "no-body-allowed" |
| ContentTypes.ResponseLikeBodyRequest | src/Model/Parser.ts:226-237 | a body-carrying request and a response classify alike |
| ContentTypes.GetIsNeverRead | src/Model/Parser.ts:226-237 | a GET is never read, whatever its Content-Type |
| ContentTypes.LowerCasePostIsRead | src/Model/Parser.ts:229 | the method is compared upper-cased, so "post" is read |
| CookieRequestHeader.PairOf | src/Request/HttpRequest.ts:76-77 | a part yields a pair only with a non-empty name and a non-empty value |
| CookieRequestHeader.PairsNonEmpty | src/Request/HttpRequest.ts:75-79 | every pair set has a non-empty name and value |
| CookieRequestHeader.StrSplitValuesDefined | src/Request/HttpRequest.ts:73-78 | with strSplit every value set is trimmed and non-blank |
| CookieRequestHeader.TokenPairParsed | src/Request/HttpRequest.ts:76-77 | `name=value` of two tokens reads back as that pair |
| CookieRequestHeader.CookieHeaderRoundTrip | src/Request/HttpRequest.ts:67-83 | pairs of tokens written as `name=value` and joined by "; " (the cookie-string of section 4.2.1 of RFC 6265) are read back exactly |
| CookieRequestHeader.SpacedPairParsed | src/lib/Request/__Coreum_Request.ts:94-97 | the oldest wrapper reads " name=value" with the space kept in the name |
| CookieRequestHeader.CoreumNamesKeepLeadingSpace | src/lib/Request/__Coreum_Request.ts:91-101 | splitting without trimming, every name after the first in a "; "-joined header keeps its leading space |
| CookieRequestHeader.ValueCutAtEquals | src/Request/HttpRequest.ts:76 | a value holding "=" is cut at its first "=" |
| CookieRequestHeader.EmptyNameSkipped | src/Request/HttpRequest.ts:77 | a pair with an empty name is skipped |
| CookieRequestHeader.EmptyValueSkipped | src/Request/HttpRequest.ts:77 | a pair with an empty value is skipped |
| CookieRequestHeader.LastNamedPlain | src/Request/HttpRequest.ts:75-79 | setting the pairs one by one leaves, under each name, the cookie of the last pair so named |
| CookieRequestHeader.SrcJarAnswersLast | src/Request/HttpRequest.ts:67-83 | the filled jar answers every name with the value of its last pair and has no other names |
| CookieRequestHeader.OptionsJarAnswersLast | src/modules/HttpRequest/HttpRequest.ts:37-53 | the modules jar answers every name with the value of its last pair |
| CookieRequestHeader.ValueMapAnswersLast | src/lib/Request/__Coreum_Request.ts:91-101 | the oldest wrapper's map holds exactly the names with a pair, each with its last value |
| CookieRequestHeader.SetPlain | src/Request/HttpRequest.ts:78 | one `set({ name, value })` is one more pair of the header |
| CookieRequestHeader.FillSrcJar | src/Request/HttpRequest.ts:67-83 | `resolveCookies` gives a fresh jar filled from the Cookie header |
| CookieRequestHeader.SetEachPair | src/Request/HttpRequest.ts:75-79 | the loop sets every part read as a pair, in turn |
| CookieRequestHeader.FillOptionsJar | src/modules/HttpRequest/HttpRequest.ts:37-53 | the `cookies` getter gives a fresh jar filled from the Cookie header |
| Requests.RequestMethod | src/Request/HttpRequest.ts:16 | a request from an address alone is a GET; an init method spelling OPTIONS in any case becomes "OPTIONS" |
| Requests.ResolveUrlObject | src/Request/HttpRequest.ts:28-54 | the URL with an empty pathname replaced by "/", and otherwise unchanged |
| Requests.HeaderPrecedence | src/modules/HttpRequest/HttpRequest.ts:26-34 | with both a wrapped request and init headers, src takes the init's and modules the wrapped request's |
| Requests.PreflightGenerations | src/lib/Request/__Coreum_Request.ts:30-40 | the oldest test implies the later one; they differ only on an empty Access-Control-Request-Method value |
| Requests.BareRequestDefaults | src/Request/HttpRequest.ts:85-90 | a request made from an address alone is a GET and never a preflight |
| Requests.LowerCaseOptionsPreflight | src/Request/HttpRequest.ts:85-90 | "options" with the header set is a preflight, as the platform upper-cases the method |
| Requests.MethodNotAllowedIff | src/lib/Request/__Coreum_Request.ts:24-28 | a method is refused exactly when no table entry spells its upper-cased form |
| Requests.MethodCaseIgnored | src/lib/Request/__Coreum_Request.ts:24-28 | "patch" is allowed and "FETCH" refused |
| Requests.CoreumContentType | src/lib/Request/__Coreum_Request.ts:42-86 | the getter computes the same classification as the parsers' |
| Requests.HttpRequest.constructor | src/Request/HttpRequest.ts:12-21 | method, URL, headers, cookies and preflight flag are each resolved once as specified |
| Requests.ModulesHttpRequest.constructor | src/modules/HttpRequest/HttpRequest.ts:15-20 | the input and init are kept and the method resolved |
| Requests.ModulesHttpRequest.Cookies | src/modules/HttpRequest/HttpRequest.ts:37-53 | a fresh jar filled from the current Cookie header |
| Requests.CoreumRequest.constructor | src/lib/Request/__Coreum_Request.ts:14-22 | the init's headers only, and the cookies parsed into a name-value map |
| Requests.CoreumRequest.ParseCookies | src/lib/Request/__Coreum_Request.ts:91-101 | each `name=value` part with both sides non-empty is set in turn |
| ResponseBodies.Render | src/Response/HttpResponse.ts:76-119 | `getBody` throws exactly for an ArrayBuffer, Blob, FormData, URLSearchParams or ReadableStream body; asks for application/json exactly for an array or plain object, text/plain otherwise |
| ResponseBodies.RenderedText | src/modules/HttpResponse/HttpResponse.ts:79-121 | an array renders as `[...]`, a plain object as `{...}`, null or undefined as "", a Date as its ISO text, anything else as `String(body)` |
| Responses.GetAfterSet | src/Headers/HttpHeaders.ts:16-22 | after `set`, `get` answers exactly the value set |
| Responses.ContentTypeRule | src/Response/HttpResponse.ts:67-74 | Content-Type is written only when absent or exactly "text/plain"; no other header changes |
| Responses.SetCookiesKept | src/Response/HttpResponse.ts:45-57 | the init's Set-Cookie entries survive, followed by one per cookie header, in order, whatever Content-Type is set |
| Responses.StatusFromInit | src/Response/HttpResponse.ts:59-65 | cookies and Content-Type bring no Location, so the derived status depends only on the init |
| Responses.StatusTextIdentifies | src/Response/HttpResponse.ts:121-124 | a known status text names exactly one status; any other status reads "Unknown" |
| Responses.AppendSetCookies | src/Response/HttpResponse.ts:50-54 | each cookie header is appended under Set-Cookie, in order |
| Responses.SetContentType | src/Response/HttpResponse.ts:67-74 | the header list becomes the Content-Type rule applied to the old one |
| Responses.AssembleHeaders | src/Response/HttpResponse.ts:45-57 | a fresh header list: the init's, then the cookies, then the body's Content-Type |
| Responses.HttpResponse.constructor | src/Response/HttpResponse.ts:17-26 | cookies from the init, headers assembled, body rendered, status from the init or Location, status text from the table |
| Responses.HttpResponse.Build | src/Response/HttpResponse.ts:41-124 | the jar, headers, body text and status, computed in the constructor's order |
| Responses.HttpResponse.Redirect | src/Response/HttpResponse.ts:126-135 | bodiless; the init's status or 302; Location set to the URL after the status is fixed |
| Responses.HttpResponse.PermanentRedirect | src/Response/HttpResponse.ts:137-145 | status 301, "Moved Permanently", Location the URL |
| Responses.HttpResponse.TemporaryRedirect | src/Response/HttpResponse.ts:147-152 | status 307, "Temporary Redirect", Location the URL |
| Responses.HttpResponse.SeeOther | src/Response/HttpResponse.ts:154-159 | status 303, "See Other", Location the URL |
| Responses.NewHttpResponse | src/Response/HttpResponse.ts:17-26 | the constructor throws exactly for a binary or stream body; otherwise the response the constructor builds |
| Responses.ErrorResponse | src/Error/HttpError.ts:13-20 | the error body as JSON with Content-Type application/json, and the error's status (200 for status 0) |
| Responses.ModulesHttpResponse.constructor | src/modules/HttpResponse/HttpResponse.ts:20-29 | the same pipeline over the modules cookie jar |
| Responses.ModulesHttpResponse.Redirect | src/modules/HttpResponse/HttpResponse.ts:129-142 | bodiless; the init's status or 302; Location the URL |
| Responses.ModulesHttpResponse.PermanentRedirect | src/modules/HttpResponse/HttpResponse.ts:143-152 | status 301 with Location the URL |
| Responses.ModulesHttpResponse.TemporaryRedirect | src/modules/HttpResponse/HttpResponse.ts:153-159 | status 307 with Location the URL |
| Responses.ModulesHttpResponse.SeeOther | src/modules/HttpResponse/HttpResponse.ts:160-166 | status 303 with Location the URL |
| Responses.CoreumHeadersRule | src/lib/Response/__Coreum_Response.ts:16-36 | a JSON body always gets application/json, even over the caller's Content-Type; Set-Cookie entries are the init's followed by the cookies' |
| Responses.CoreumResponse.constructor | src/lib/Response/__Coreum_Response.ts:12-40 | headers assembled, a JSON-serialisable body stringified, status the init's or 200, status text the init's or "OK" |
| RouteIds.MakeRouteId | src/Route/Route.ts:52-54 | an id is bracketed: it starts with "[" and ends with "]" |
| RouteIds.CoreumRouteId | src/lib/Route/__Coreum_Route.ts:66-68 | an id of the oldest generation is bracketed the same way |
| RouteIds.ParseMakeRouteId | src/Route/Route.ts:52-54 | an id reads back as the upper-cased method and the endpoint |
| RouteIds.RouteIdInjective | src/Route/Route.ts:52-54 | two ids are equal only when the methods agree up to case and the endpoints are equal |
| RouteIds.MakeRouteIdUpperCases | src/lib/Route/__Coreum_Route.ts:66-68 | makeRouteId is getId applied to the upper-cased method; the two agree on an upper-case method |
| RoutePattern.Classify | src/Route/RouteAbstract.ts:48-50 | each "/"-part becomes a parameter segment exactly when it starts with ":" |
| RoutePattern.SourceParts | src/Route/RouteAbstract.ts:50 | each parameter part becomes the one-segment capture group, every other part stays literal |
| RoutePattern.PatternSource | src/Route/RouteAbstract.ts:52 | the regular expression source is anchored with "^" and "$" |
| RoutePattern.TestIff | src/Route/RouteAbstract.ts:46-53 | a pathname is accepted iff it has as many "/"-parts as the template, each `:x` position holds a non-empty part and every other position equals the template's part |
| RoutePattern.LiteralAcceptsExactlyItself | src/modules/Route/RouteAbstract.ts:41-48 | a template without parameters accepts exactly itself |
| RoutePattern.Fill | src/Route/RouteAbstract.ts:50 | substituting values for a template's parameter parts keeps every literal part |
| RoutePattern.AcceptsInstances | src/Route/RouteAbstract.ts:46-53 | every instantiation of a template with non-empty slash-free values is accepted |
| RoutePattern.R4AcceptsNumber | test/route.test.ts:49-57 | "/r4/:id" accepts "/r4/123" |
| RoutePattern.R4AcceptsWord | test/route.test.ts:49-57 | "/r4/:id" accepts "/r4/abc" |
| RoutePattern.R4Accepts | test/route.test.ts:49-57 | "/r4/:id" accepts any non-empty slash-free segment in the parameter position |
| RoutePattern.R4RejectsMissing | test/route.test.ts:49-57 | "/r4/:id" rejects "/r4" |
| RoutePattern.R4RejectsExtra | test/route.test.ts:49-57 | "/r4/:id" rejects "/r4/123/extra" |
| RoutePattern.R4Pattern | src/Route/RouteAbstract.ts:46-53 | "/r4/:id" compiles to a root part, the literal "r4" and the parameter "id" |
| RoutePattern.ParamNames | src/lib/Route/__Coreum_Route.ts:54-64 | the parameter names are at most as many as the parts |
| RoutePattern.ParamNamesSnoc | src/lib/Route/__Coreum_Route.ts:57-61 | one more part adds its name without ":" exactly when it starts with ":" |
| RoutePattern.GetParamNames | src/lib/Route/__Coreum_Route.ts:54-64 | the loop returns the `:`-part names in template order, without the ":" |
| RoutePattern.ParamNamesAreCaptures | src/lib/Route/__Coreum_Route.ts:44-64 | the parameter names are exactly the capture groups of the pattern, in order |
| RouteResolve.ResolveEndpoint | src/Route/RouteAbstract.ts:27-40 | a static route keeps its path verbatim; a dynamic one gets joinPathSegments(prefix, path) |
| RouteResolve.ResolveMethod | src/Route/RouteAbstract.ts:42-44 | GET for a plain-string definition, the given method for an object |
| RouteResolve.ResolveId | src/Route/RouteAbstract.ts:55-57 | the id is "[" + method + "]:[" + endpoint + "]" |
| RouteResolve.DynamicEndpointNormalised | src/modules/Route/RouteAbstract.ts:31-33 | a dynamic endpoint starts with "/", does not end in "/" unless it is "/", and is a fixed point of joinPathSegments |
| RouteResolve.EmptyPrefixEndpoint | src/Route/RouteAbstract.ts:33-37 | with the default empty prefix a dynamic endpoint is its path joined alone |
| RouteResolve.IdEmbedsEndpoint | src/Route/Route.ts:31-34 | a route's id reads back as its method and its prefixed endpoint |
| RouteResolve.StringDefinitionExample | test/route.test.ts:21-29 | a string definition "/r1" gives GET and the endpoint "/r1" under an empty prefix |
| RouteTable.FirstTrue | src/modules/Registry/RouteRegistry.ts:113-128 | the first accepted position, if any: it is accepted, every earlier one is rejected, and none means every position is rejected |
| RouteTable.FindFirst | src/Route/RouteRegistry.ts:33-61 | the scan that stops at the first accepting position returns exactly that first position |
| RouteTable.FirstTrueAt | src/modules/Registry/RouteRegistry.ts:113-128 | an accepted position preceded only by rejected ones is the one `find` returns |
| RouteTable.NoneTrue | src/modules/Registry/RouteRegistry.ts:131-133 | when every position is rejected `find` returns nothing |
| RouteRegistry.Fallback | src/modules/Registry/RouteRegistry.ts:121-122 | the fallback template is the template's parts or those parts without the last |
| RouteRegistry.RulesDifferOnLiteralLast | src/modules/Router/RouterRouteRegistry.ts:113 | the variant that pops any non-empty last part differs from the registry's rule exactly when the last part is a non-empty literal |
| RouteRegistry.Hits | src/modules/Registry/RouteRegistry.ts:113-128 | one verdict per stored record |
| RouteRegistry.HitsAt | src/modules/Registry/RouteRegistry.ts:114-127 | the verdict on the j-th record is the callback's: pattern or shortened template for a `:` template, case-insensitive equality otherwise |
| RouteRegistry.ExactIdWins | src/modules/Registry/RouteRegistry.ts:107-111 | a record stored under `[method]:[pathname]` is returned, whatever records come before it |
| RouteRegistry.ScanFirstMatchDecides | src/modules/Registry/RouteRegistry.ts:112-129 | without an exact key the first record in insertion order whose path matches is the candidate |
| RouteRegistry.NotFoundIffNoPathMatch | src/modules/Registry/RouteRegistry.ts:131-133 | the lookup is a 404 exactly when there is no exact key and no stored path matches |
| RouteRegistry.EarlierPathMatchGives405 | src/modules/Registry/RouteRegistry.ts:135-139 | the method is checked only after the path decided: a first path match with another method gives 405 even when a later record matches both |
| RouteRegistry.CollideSymmetric | src/modules/Registry/RouteRegistry.ts:84-101 | pathsCollide does not depend on the order of its arguments |
| RouteRegistry.CollideReflexive | src/modules/Router/registries/RouterRouteRegistry.ts:82-99 | every path collides with itself |
| RouteRegistry.Variation | src/modules/Registry/RouteRegistry.ts:52-53 | the variation turns part i into a parameter and keeps every other part |
| RouteRegistry.VariationPaths | src/modules/Registry/RouteRegistry.ts:49-57 | one candidate path per part of the template |
| RouteRegistry.AddOnceKeeps | src/modules/Registry/RouteRegistry.ts:45-47 | adding a path unless present keeps the earlier entries in place, contains the path and keeps the list free of duplicates |
| RouteRegistry.AddAllKeeps | src/modules/Registry/RouteRegistry.ts:49-57 | adding the variations one by one keeps the earlier entries in place and the list free of duplicates |
| RouteRegistry.PossiblesStayDistinct | src/modules/Registry/RouteRegistry.ts:43-58 | recording a template keeps the side index free of duplicates, keeps every earlier entry and adds the template |
| RouteRegistry.Registry.constructor | src/modules/Registry/RouteRegistry.ts:14-16 | a new registry is empty and valid |
| RouteRegistry.Registry.Add | src/modules/Registry/RouteRegistry.ts:18-28 | the record is stored under its id, overwriting, the side index records the endpoint, and the table stays valid |
| RouteRegistry.Registry.Find | src/modules/Registry/RouteRegistry.ts:30-41 | the lookup of the pathname under the upper-cased method |
| RouteRegistry.Registry.AddPossibleCollision | src/modules/Registry/RouteRegistry.ts:43-58 | the loop leaves the side index equal to the template followed by its new variations, still free of duplicates |
| RouteRegistry.Registry.CheckPossibleCollision | src/modules/Registry/RouteRegistry.ts:60-82 | no warning is ever produced, since stored records are never `Route` instances |
| RouteRegistry.Registry.PathsCollide | src/modules/Registry/RouteRegistry.ts:84-101 | the loop returns true iff the paths have as many parts and every defined literal pair agrees |
| RouteRegistry.Registry.FindRouteByPathname | src/modules/Registry/RouteRegistry.ts:103-142 | the exact key first, else the first path match in insertion order, then 404 or 405 or the record |
| RouteRegistry.TrailingParamMayBeMissing | src/modules/Registry/RouteRegistry.ts:120-123 | "/x/:id" serves "/x" through the missing-last-parameter fallback |
| RouteRegistry.InnerParamMayNotBeMissing | src/modules/Registry/RouteRegistry.ts:120-123 | "/x/:id/y" does not serve "/x": only a last parameter may be missing |
| EndpointRouteRegistry.RemoveLastParamParts | src/Route/RouteRegistry.ts:141-143 | removeLastParam drops exactly the last "/"-part |
| EndpointRouteRegistry.LastParamNeedsColon | src/Route/RouteRegistry.ts:135-139 | a template that ends in a parameter has a ":" |
| EndpointRouteRegistry.Hits | src/Route/RouteRegistry.ts:33-61 | one verdict per stored endpoint |
| EndpointRouteRegistry.HitsAt | src/Route/RouteRegistry.ts:35-60 | the verdict on the j-th endpoint is the loop's test on it |
| EndpointRouteRegistry.FirstEndpointDecides | src/Route/RouteRegistry.ts:33-72 | the first matching endpoint decides: found when the method matches up to case, else 405 |
| EndpointRouteRegistry.SecondMethodReplacesFirst | src/Route/RouteRegistry.ts:16-25 | registering a second method on a static endpoint replaces the first, whose requests then get 405 |
| EndpointRouteRegistry.Pairs | src/Route/RouteRegistry.ts:12-14 | the (method, endpoint) of each stored route, in insertion order |
| EndpointRouteRegistry.IdProbeNeverHits | src/Route/RouteRegistry.ts:76-81 | probing the endpoint-keyed store with a route id never finds a record, so only the per-record reports remain |
| EndpointRouteRegistry.DiagnoseAllSnoc | src/Route/RouteRegistry.ts:83-132 | one more stored record appends exactly its own reports |
| EndpointRouteRegistry.ScanDiagnostics | src/Route/RouteRegistry.ts:83-132 | the loop yields the reports about each stored record in insertion order |
| EndpointRouteRegistry.Registry.constructor | src/Route/RouteRegistry.ts:8-10 | a new registry is empty and valid |
| EndpointRouteRegistry.Registry.List | src/Route/RouteRegistry.ts:12-14 | the (method, endpoint) pairs in insertion order |
| EndpointRouteRegistry.Registry.Add | src/Route/RouteRegistry.ts:16-25 | the route is stored under its endpoint, replacing any route there, and the table stays valid |
| EndpointRouteRegistry.Registry.Find | src/Route/RouteRegistry.ts:27-73 | the result is the first-match lookup |
| EndpointRouteRegistry.Registry.CheckPossibleCollision | src/Route/RouteRegistry.ts:75-133 | the reports are the id probe followed by the per-record reports |
| Routers.LookupError | src/Route/RouteRegistry.ts:63-70 | a failed lookup throws 404 when nothing matched and 405 when the method did not |
| Routers.ModelOf | src/Router/Router.ts:28-32 | a stored entry is read back with a validator for exactly the parts it has |
| Routers.RoutesOf | src/Router/Router.ts:70-76 | the routes among a controller's fields, in field order |
| Routers.AddRouteKeepsChains | src/Router/Router.ts:64-69 | adding a route sets its endpoint's record, touches no middleware chain, and without a model leaves the models alone |
| Routers.AddRouteTwice | src/Router/Router.ts:64-76 | a route added twice (by its constructor, then through its controller) leaves the tables as one addition does |
| Routers.ModelAgainAfterRoute | src/Route/Route.ts:38-41 | the model registered again right after `addRoute` changes nothing |
| Routers.RoutesOfStep | src/Router/Router.ts:71-75 | one more field adds itself exactly when it is a route |
| Routers.AddAllSnoc | src/Router/Router.ts:71-75 | adding one more route is one more `addRoute` |
| Routers.OtherFieldsIgnored | src/Router/Router.ts:72 | fields that are not routes add nothing |
| Routers.LastRouteWins | src/Route/RouteRegistry.ts:16-25 | a route's record is what its endpoint holds at the end unless a later route took that endpoint |
| Routers.AddAllKeepsChains | src/Router/Router.ts:70-76 | adding routes never touches the middleware chains |
| Routers.Router.constructor | src/Router/Router.ts:16-17 | a new router has an empty cache, an empty global prefix and no registry created |
| Routers.Router.SetGlobalPrefix | src/Router/Router.ts:50-52 | the prefix is stored as given |
| Routers.Router.RouteRegistry | src/Router/Router.ts:55-60 | the route registry is created on first use and the same afterwards |
| Routers.Router.MiddlewareRegistry | src/Router/Router.ts:82-87 | the middleware registry is created on first use and the same afterwards |
| Routers.Router.ModelRegistry | src/Router/Router.ts:99-104 | the model registry is created on first use and the same afterwards |
| Routers.Router.GetRouteList | src/Router/Router.ts:61-63 | the (method, endpoint) pairs in registration order |
| Routers.Router.AddModel | src/Router/Router.ts:105-107 | the models become the registry's `add` of the model |
| Routers.Router.AddRoute | src/Router/Router.ts:64-69 | the route is stored, then its model when it has one |
| Routers.Router.AddController | src/Router/Router.ts:70-76 | every field that is a route is added, in field order |
| Routers.Router.AddField | src/Router/Router.ts:72-74 | one route field is one more `addRoute` |
| Routers.Router.AddMiddleware | src/Router/Router.ts:88-90 | the chains become the registry's `add` of the middleware |
| Routers.Router.FindMiddleware | src/Router/Router.ts:91-96 | a no-op while the registry was never created, else the composed chain |
| Routers.Router.FindModel | src/Router/Router.ts:108-113 | nothing while the registry was never created, else the stored entry if any |
| Routers.Router.FindRoute | src/Router/Router.ts:77-79 | the record the registry finds, or the 404 or 405 it throws |
| Routers.Router.Prepare | src/Router/Router.ts:26-28 | a fresh context with unparsed parts and a 200 response, with the route's middleware and model |
| Routers.Router.GetRouteHandler | src/Router/Router.ts:19-46 | the cached handler of the request when there is one; else the lookup, a failure throwing before anything is cached, and the prepared handler cached for the request |
| Routers.Router.Resolve | src/Router/Router.ts:25-28 | the uncached path: the lookup and the handler prepared for the route found |
| Routers.WrapResult | src/Router/Router.ts:33-41 | a returned response passes through, a throw propagates, any other value becomes a response carrying the context's current cookies, headers, status and status text |
| Routers.RunUntilCallback | src/Router/Router.ts:31-32 | the middleware runs first, and only when it finishes are body, search and params parsed into the context |
| Routers.RunHandler | src/Router/Router.ts:30-42 | middleware, then parsing, then the route code, each failure propagating; a value the route returns becomes a response carrying the status, status text, headers and cookies as the middleware and route code left them on the context |
| Routers.EditAndWrap | src/Router/Router.ts:33-41 | the route code's edits to the context response, then the wrapping: a built response carries the edited fields |
| Routers.BuiltWithStatus | test/context.test.ts:148-156 | a route that sets `ctx.res.status`, with no later status change, answers with that status |
| Routers.BuiltWithHeader | test/context.test.ts:158-166 | a header the route sets, and no later edit touches, reaches the response with that value |
| Routers.BuiltWithCookie | test/context.test.ts:168-177 | a cookie the route sets, and no later edit replaces, reaches the response as a Set-Cookie line holding its name and value |
| Routers.Route.constructor | src/Route/Route.ts:24-42 | endpoint under the global prefix, then method, pattern and id; the route registers itself and its model again |
| Routers.StaticRoute.constructor | src/Route/StaticRoute.ts:27-51 | the path as given, GET, and a handler that serves the file and then calls the given callback; the route registers itself |
| Servers.Dispatch | src/Server/ServerAbstract.ts:89-109 | a preflight departs; the routed response is served; a 404 HttpError goes to the not-found handler, a 405 one to the method-not-allowed handler, anything else to the error handler |
| Servers.ThrownGoesByStatus | src/Server/ServerAbstract.ts:97-108 | a thrown value reaches the handler its status names; a value that is not an HttpError counts as 500 |
| Servers.ErrorFieldsCarry | src/Server/ServerAbstract.ts:115-130 | every default error body carries the message, and the thrown value itself when it is not an Error |
| Servers.JsonResponse | src/Server/ServerAbstract.ts:132-144 | a JSON response with the status given (200 for 0) |
| Servers.DefaultError | src/Server/ServerAbstract.ts:115-130 | the error body with the error's status, 500 for anything but an HttpError |
| Servers.Server.constructor | src/Server/ServerAbstract.ts:17-21 | no CORS and no hooks installed |
| Servers.Server.SetCors | src/Server/ServerAbstract.ts:31-33 | a new `Cors` with these options |
| Servers.Server.SetOnError | src/Server/ServerAbstract.ts:35-37 | the error handler installed |
| Servers.Server.SetOnNotFound | src/Server/ServerAbstract.ts:39-41 | the not-found handler installed |
| Servers.Server.SetOnBeforeListen | src/Server/ServerAbstract.ts:43-45 | the before-listen hook installed |
| Servers.Server.SetOnBeforeClose | src/Server/ServerAbstract.ts:47-49 | the before-close hook installed |
| Servers.Server.SetOnAfterResponse | src/Server/ServerAbstract.ts:51-53 | the after-response hook installed |
| Servers.Server.GetResponse | src/Server/ServerAbstract.ts:89-144 | each destination of the dispatch answered by its installed handler or the default |
| Servers.Server.Finish | src/Server/ServerAbstract.ts:77-87 | the CORS headers applied (with the corrected `apply`), then the after-response hook gives the response returned |
| ModulesServers.Dispatch | src/modules/Server/ServerAbstract.ts:163-183 | the dispatch with the static `isStatusOf`, which reads any other value as a 500 |
| ModulesServers.SameDispatch | src/modules/Server/ServerAbstract.ts:172-182 | the two generations send every request to the same handler |
| ModulesServers.JsonBody | src/modules/HttpResponse/HttpResponse.ts:79-121 | a JSON value handed to the response: arrays and objects as JSON, strings as text, null as "", numbers and booleans as the text `JSON.stringify` gives them, so a number is printed in canonical form |
| ModulesServers.ZeroAndNegativeBodies | test/response/response-body.test.ts:136-153 | a route returning 0 or -0 answers "0", and one returning -42.5 answers "-42.5" |
| ModulesServers.ErrorReply | src/modules/Server/ServerAbstract.ts:111-121 | the error's status, and a body the constructor accepts |
| ModulesServers.ErrorReplyReadsBack | src/modules/Server/ServerAbstract.ts:111-121 | an HttpError's data when it has some, else its message as text; another Error as its `String` form |
| ModulesServers.ErrorBodiesDiffer | src/modules/Server/ServerAbstract.ts:111-121 | on a bare HttpError the top-level default answers with JSON, the modules default with the message as text |
| ModulesServers.TextResponse | src/modules/Server/ServerAbstract.ts:123-137 | a response from a body and a status |
| ModulesServers.DefaultError | src/modules/Server/ServerAbstract.ts:111-121 | the default `handleError` response and status |
| ModulesServers.Handlers | src/modules/Server/ServerAbstract.ts:142-147 | the middleware handlers in the order they are listed |
| ModulesServers.StoredModel | src/modules/Server/ServerAbstract.ts:141 | a validator for exactly the parts the stored model names |
| ModulesServers.WrapResult | src/modules/Server/ServerAbstract.ts:151-160 | an HttpResponse result passes; anything else becomes a response with the context response's current status, status text, headers and cookies |
| ModulesServers.RunRoute | src/modules/Server/ServerAbstract.ts:145-160 | each middleware awaited in turn; a throw stops the run; else the callback gets the context's parts and its result is delivered with the status, status text, headers and cookies the middleware and route code left on `ctx.res` |
| ModulesServers.HandleRouteAsWritten | src/modules/Server/ServerAbstract.ts:139-161 | a failed lookup throws 404 or 405; otherwise nothing is parsed, the callback sees empty parts, and the response carries the edits made to `ctx.res` |
| ModulesServers.RunUnparsed | src/modules/Server/ServerAbstract.ts:143-160 | the context from the request alone, then the middleware and the callback, with their edits to `ctx.res` reaching the response |
| ModulesServers.ParseAndRun | src/modules/Server/ServerAbstract.ts:143-160 | as intended: body, search and params parsed for the route's endpoint and model; a parse error throws before any middleware; the response carries the edits made to `ctx.res` |
| ModulesServers.HandleRoute | src/modules/Server/ServerAbstract.ts:139-161 | as intended: lookup errors as written, then the parsed run, with the edits made to `ctx.res` reaching the response |
| ModulesServers.RunParsed | src/modules/Server/ServerAbstract.ts:143-160 | the context given its parsed parts, then the middleware and the callback, with their edits to `ctx.res` reaching the response |
| ModulesServers.FetchRoute | src/modules/Server/ServerAbstract.ts:139-141 | a failed lookup gives the 404 or 405 error; a found route comes with its model and its middleware in order, and the router state is unchanged |
| ModulesServers.EditAndWrap | src/modules/Server/ServerAbstract.ts:149-160 | the route code's edits to `ctx.res`, then the delivery of the result with the edited fields |
| ModulesServers.DeliveredWithStatus | src/modules/Server/ServerAbstract.ts:155-160 | a route that sets `ctx.res.status`, with no later status change, is answered with that status |
| ModulesServers.AsWrittenDropsSearch | src/modules/Server/ServerAbstract.ts:143 | a GET with one search pair to a plain route: parsed, the search holds the key; as written, the callback sees no key |
| ModulesServers.ModulesServer.constructor | src/modules/Server/ServerAbstract.ts:24-26 | a new router installed; no CORS and no hooks |
| ModulesServers.ModulesServer.SetGlobalPrefix | src/modules/Server/ServerAbstract.ts:37-39 | the prefix handed to the router |
| ModulesServers.ModulesServer.SetCors | src/modules/Server/ServerAbstract.ts:41-43 | a new `Cors` with these options |
| ModulesServers.ModulesServer.SetOnError | src/modules/Server/ServerAbstract.ts:45-47 | the error handler installed |
| ModulesServers.ModulesServer.SetOnNotFound | src/modules/Server/ServerAbstract.ts:49-51 | the not-found handler installed |
| ModulesServers.ModulesServer.SetOnBeforeListen | src/modules/Server/ServerAbstract.ts:53-55 | the before-listen hook installed |
| ModulesServers.ModulesServer.SetOnBeforeExit | src/modules/Server/ServerAbstract.ts:57-59 | the before-exit hook installed |
| ModulesServers.ModulesServer.SetOnAfterResponse | src/modules/Server/ServerAbstract.ts:61-67 | the after-response hook installed |
| ModulesServers.ModulesServer.GetResponse | src/modules/Server/ServerAbstract.ts:163-183 | each destination of the dispatch answered by its installed handler or the plain-text default |
| ModulesServers.ModulesServer.Finish | src/modules/Server/ServerAbstract.ts:87-97 | CORS (with the corrected `apply`), then the after-response hook |
| PathJoin.StripLeadingSlashes | src/utils/joinPathSegments.ts:9 | the result is a suffix of the segment that does not start with "/", and every character removed is a "/" |
| PathJoin.StripTrailingSlashes | src/utils/joinPathSegments.ts:9 | the result is a prefix of the segment that does not end with "/", and every character removed is a "/" |
| PathJoin.DefinedSegments | src/utils/joinPathSegments.ts:5-8 | the first filter never lengthens the list |
| PathJoin.StrippedSegments | src/utils/joinPathSegments.ts:9 | the map step keeps the length, and each entry is its segment with the slashes stripped at both ends |
| PathJoin.NonEmptySegments | src/utils/joinPathSegments.ts:10 | every segment kept by the second filter is non-empty and comes from the input |
| PathJoin.AllDefined | src/utils/joinPathSegments.ts:2 | spread string arguments arrive as defined segments, in order |
| PathJoin.JoinPathSegments | src/utils/joinPathSegments.ts:1-13 | the result always starts with "/" |
| PathJoin.StripSlashesClean | src/utils/joinPathSegments.ts:9-10 | a segment that survives stripping neither starts nor ends with "/" |
| PathJoin.KeptAreClean | src/utils/joinPathSegments.ts:5-10 | every segment that survives both filters neither starts nor ends with "/" |
| PathJoin.JoinClean | src/utils/joinPathSegments.ts:11 | joining slash-free-ended segments with "/" gives text that neither starts nor ends with "/" |
| PathJoin.JoinNoDoubleSlash | src/utils/joinPathSegments.ts:11 | joining such segments with "/" never creates "//" |
| PathJoin.RootIffNothingKept | src/utils/joinPathSegments.ts:12 | the result is exactly "/" if and only if no segment survives the two filters |
| PathJoin.NoTrailingSlash | src/utils/joinPathSegments.ts:9-12 | the result never ends in "/" unless it is "/" itself |
| PathJoin.BoundariesNoDoubleSlash | src/utils/joinPathSegments.ts:9-12 | when no kept segment contains "//", neither does the result |
| PathJoin.HasNonSpaceNotBlank | src/utils/joinPathSegments.ts:7 | a segment with a visible character passes the white-space test |
| PathJoin.Idempotent | src/utils/joinPathSegments.ts:4-13 | joining a joined path again as the only segment gives it back unchanged |
| PathJoin.KeptOfJoined | src/utils/joinPathSegments.ts:4-12 | a joined path passed again keeps nothing, or exactly its own text after the leading "/" |
| PathJoin.NestedJoin | src/utils/joinPathSegments.ts:4-13 | joinPathSegments(a, joinPathSegments(b)) equals joinPathSegments(a, b) |
| PathJoin.KeptConcat | src/utils/joinPathSegments.ts:5-10 | filtering and stripping distribute over concatenation of the argument lists |
| PathJoin.DroppedSegmentIgnored | src/utils/joinPathSegments.ts:5-8 | an undefined or white-space-only argument can be inserted anywhere without changing the result |
| PathJoin.TwoSegmentsInOrder | src/utils/joinPathSegments.ts:7-11 | two clean visible segments are kept in order and untrimmed, giving "/" + a + "/" + b |
| PathJoin.KeptClean | src/utils/joinPathSegments.ts:7-10 | a clean segment with a visible character is kept verbatim (inner white space included) |
| PathJoin.KeptVerbatim | src/utils/joinPathSegments.ts:7-10 | clean segments that start with a visible character pass both filters unchanged |
| PathJoin.JoinAfterRoot | src/utils/joinPathSegments.ts:4-12 | the parts of a split absolute path join back to "/" followed by the segments |
| PathJoin.EmptyPrefix | src/utils/joinPathSegments.ts:7 | an empty prefix argument is dropped, so the path joins as if alone |
| TextEqual.UpperIsCaseInsensitive | src/utils/textIsEqual.ts:6-11 | "upper" holds exactly when the trimmed texts agree character by character up to ASCII case |
| TextEqual.LowerSameAsUpper | src/utils/textIsEqual.ts:9-15 | "lower" is the same relation as "upper", since both compare upper-cased forms |
| TextEqual.ExactImpliesUpper | src/utils/textIsEqual.ts:9-17 | exact equality of the trimmed texts implies the case-insensitive relation |
| TextEqual.Equivalence | src/utils/textIsEqual.ts:1-18 | every mode is reflexive, symmetric and transitive |
| TextEqual.LengthMismatch | src/utils/textIsEqual.ts:6-17 | texts whose trimmed lengths differ are unequal in every mode |
| TextEqual.TrimmedFirst | src/utils/textIsEqual.ts:6-7 | both arguments are trimmed before any comparison: pre-trimmed arguments give the same answer |
| StrCapitalize.CapitalizeParts | src/utils/strCapitalize.ts:5 | each split part becomes its first character upper-cased followed by the whole input's tail |
| StrCapitalize.CapitalizeWords | src/utils/strCapitalize.ts:4-6 | (corrected) each word is capitalised on its own |
| StrCapitalize.StrCapitalizeWords | src/utils/strCapitalize.ts:1-8 | (corrected) same length as the input; a character is upper-cased exactly when it starts the input or follows a space |
| StrCapitalize.CapitalizeFrom | src/utils/strCapitalize.ts:1-8 | the character-level reference definition of word capitalisation |
| StrCapitalize.CharwiseFrom | src/utils/strCapitalize.ts:4-6 | split, capitalise each word, join with spaces equals the character-level definition |
| StrCapitalize.CapitalizeWordsCharwise | src/utils/strCapitalize.ts:2-7 | the corrected function agrees with the character-level definition on every non-empty input |
| StrCapitalize.AgreeOnSingleWord | src/utils/strCapitalize.ts:5 | on an input without spaces the as-written and the corrected function agree: upper(first char) + rest |
| StrCapitalize.SingleWordIdempotent | src/utils/strCapitalize.ts:1-8 | on a single word a second application changes nothing |
| StrCapitalize.MultiWordRepeatsTail | src/utils/strCapitalize.ts:4-6 | as written "ab cd" gives "Ab cd Cb cd", while the corrected function gives "Ab Cd" |
| Coercion.ParseDecimal | src/Model/Parser.ts:271 | a text accepted by the numeric pattern yields a well-formed decimal (optional sign, digits, optional point and digits) |
| Coercion.ParseDecimalSound | src/Model/Parser.ts:271-272 | a parsed decimal is written back exactly as the text it was parsed from |
| Coercion.ParseDecimalComplete | src/Model/Parser.ts:271-272 | every well-formed decimal's text is accepted and read back as that decimal (the partner of ParseDecimalSound) |
| Coercion.CanonicalShape | src/Model/Parser.ts:273 | the decimal a number read by `Number(value)` is printed as has no leading zero before another digit, no trailing zero in its fraction, no empty fraction and no sign on zero |
| Coercion.CanonicalFixed | src/Model/Parser.ts:273 | a decimal already in that printed form is printed as it is written |
| Coercion.CanonicalIdempotent | src/Model/Parser.ts:273 | printing the printed form again changes nothing |
| Coercion.CanonicalKeepsValue | src/Model/Parser.ts:273 | the printed form denotes the same number: its value times 10^k equals the input's for every k that covers the fraction |
| Coercion.NumberTextReadsBack | src/Model/Parser.ts:272-273 | the printed text matches the numeric pattern again and reads back as the canonical decimal |
| Coercion.LeadingZerosDropped | src/Model/Parser.ts:273 | "007" is printed as "7" |
| Coercion.TrailingZerosDropped | src/Model/Parser.ts:273 | "1.50" is printed as "1.5" |
| Coercion.NegativeZeroUnsigned | src/Model/Parser.ts:273 | "-0" and "-0.00" are printed as "0" |
| Coercion.ProcessString | src/Model/Parser.ts:267-281 | the coercion never yields an uploaded file |
| Coercion.GetProcessedValue | src/lib/Context/__Coreum_Context.ts:145-158 | the coercion never yields an uploaded file |
| Coercion.ProcessStringCases | src/Model/Parser.ts:267-281 | both directions per case: a number exactly when the input is defined and matches the numeric pattern (kept as the digits of the input, and printed in canonical form through Coercion.NumberText), a boolean exactly when it does not and its lower-cased form is "true"/"false" (true iff "true"), "" for a blank input, else the input itself |
| Coercion.NumericIsDefined | src/Model/Parser.ts:269-272 | a numeric text is never blank, so both generations' coercions agree on it |
| Coercion.CoercionsAgree | src/lib/Context/__Coreum_Context.ts:145-158 | the oldest generation's coercion differs from processString only on blank inputs, which it keeps as they are |
| Records.Appended | src/utils/objAppendEntry.ts:6-13 | the record stays well formed; a new key goes last in key order, an existing one keeps its place |
| Records.AppendedCollects | src/utils/objAppendEntry.ts:6-13 | an absent key gets the bare value, a single value becomes [existing, value], an array grows by one; every other key is untouched |
| Records.AppendAllCollects | src/utils/objAppendEntry.ts:1-14 | n appends to a key keep all n values under it, in order |
| Records.AppendAllOthers | src/utils/objAppendEntry.ts:1-14 | a key that receives no append keeps whatever it had |
| Records.FromCollected | src/utils/objAppendEntry.ts:7-13 | the shape a key holds after exactly these appends reads back as those values |
| Records.AppendAllShape | src/utils/objAppendEntry.ts:1-14 | starting without the key: no append leaves it absent, one gives the scalar, n >= 2 give the array of all n values |
| Records.Record.Assign | src/utils/objAppendEntry.ts:8-12 | `data[key] = value` replaces the key's entry in place |
| Records.ObjAppendEntry | src/utils/objAppendEntry.ts:1-14 | the record is changed in place to the appended record |
| HttpTables.MethodName | src/Request/enums/Method.ts:5-24 | every Method value is already upper-case |
| HttpTables.MethodFromString | src/Request/enums/Method.ts:5-24 | the member found for a string has exactly that string as its value |
| HttpTables.MethodRoundTrip | src/Request/enums/Method.ts:5-24 | every member is found again from its value |
| HttpTables.MethodNameInjective | src/Request/enums/Method.ts:5-24 | distinct members have distinct values |
| HttpTables.DefaultStatusText | src/Response/enums/DefaultStatusTexts.ts:4-18 | a text is defined for exactly the thirteen listed codes, and none is empty |
| HttpTables.StatusTextInjective | src/Response/enums/DefaultStatusTexts.ts:4-18 | the status texts are distinct, so a text identifies its code |

## Left out

- Transport: `Bun.serve`, `listen`, `exit`, `close` and the signal handlers are not modelled, because they are runtime I/O. The hooks they call are kept as tokens.
- Asynchrony: every `async` handler, middleware and body read is run in sequence. Concurrent requests sharing a router are not modelled.
- Handlers: route, middleware, error and not-found handlers are opaque tokens. What they return, and whether they throw, is a parameter of each dispatch method, and so are the edits they make to the context's response: each status, status text, header `set` or `append` and cookie `set`, in order. Any other side effect of route code is not modelled.
- Static routes: file serving, MIME lookup and transpiling in `src/modules/Route/StaticRoute.ts` are not modelled, because they read the file system. The same holds for the default handler of the top-level server. Only their route ids and registration are kept.
- Configuration and runtime detection: the global prefix and the runtime are parameters. Environment variables and config files are not read.
- Validation libraries: a schema is an abstract validator that accepts a value or returns issues. The "Unsupported parser" branch of the validator adapter is not modelled.
- Parsing.ParseWithSchema: reports a failed validation as a plain error whose message names the part, as `__Coreum_parse` throws it. The library's issue object, attached as the error's cause, is not modelled.
- Bun's native cookie map: the jars backed by `Bun.CookieMap` are not modelled. The `Map`-backed jars, which behave the same way, are.
- Body reading: the byte stream, the 1 MiB threshold for buffered reading and charset decoding are not modelled. The body arrives as already-decoded text or form pairs.
- `JSON.parse`, `JSON.stringify` of arbitrary values, and `Date` text formatting are parameters or tagged values, because they are platform code.
- Helpers whose files are not part of this model are given the plain reading their names and call sites imply. These are `strIsDefined`, `textIsDefined`, `textSplit`, `strSplit`, `strRemoveWhitespace`, `patternIsEqual`, `isRegexMatch`, `strIsEqual`, `strAfterMark`, `strBeforeMark`, `isSomeArray`, `boolToString`, `toStringBool`, `isJSONSerializable`, `getProcessedValue`, `appendEntry` and `capitalize`.
- Case mapping and trimming cover ASCII only. Locale-aware Unicode case mapping is not modelled.
- Route patterns assume literal segments contain no regular-expression metacharacters. Escaping in the generated pattern is not modelled.
- Numbers are decimals of unbounded precision rather than IEEE doubles. Rounding and `NaN` are not modelled.
- Json.NumberStringified: the canonical text is always positional. JavaScript prints a value of 1e21 or more, or below 1e-6, in exponent notation ("1e+21", "1e-7"), and rounds past 17 significant digits; `Coercion.NumberText` does neither.
- CookieHeader.AttributeValues: SameSite is capitalised by the per-word correction of `strCapitalize`, not by the function as written. The two agree on every one-word value (StrCapitalize.AgreeOnSingleWord), and "strict", "lax" and "none" are the values the option's type allows.
- Css: array values and the numeric-key ordering of JavaScript objects are not modelled. A rule's keys keep their insertion order.
- Css: indentation with `/^/gm` is modelled on `"\n"` line breaks only.
- Html: Twitter player sizes are integers only. The meta fields `charset`, `media` and `scheme`, which the builder never emits, are not modelled.
- HeaderList.HttpHeaders.Append: the value is stored as given. The platform strips leading and trailing HTTP white space from it (section 5.2 of the WHATWG Fetch Standard), so " a " reads back as "a" there and as " a " here.
- HeaderList.HttpHeaders.Set: the value is stored untrimmed, for the same reason as `append`.
- HeaderList.HttpHeaders.Combine: the source's pairs are visited with names in order of first appearance, while the platform sorts them. `get` on the result does not depend on that order, but the order of the target's entries does.
- HeaderList.HttpHeaders.Combine: combining a map into itself is accepted only when it holds no Set-Cookie. With one, the platform's live walk never ends (HeaderList.SelfCombineNeverEnds), and a method that never returns cannot be stated. The same holds for HeaderList.HttpHeaders.InnerCombine.
- CorsHeaders.Cors.ApplyAsWritten: stated only for a response without Set-Cookie. With one it never returns, which CorsHeaders.ApplyAsWrittenNeverEnds states.
- CookieExtract.ResetOptions: `strSplit` is read as a split whose parts are trimmed and whose empty parts are dropped. An `Expires` read back is not parsed, because `delete` overwrites it with the epoch date. The name is the one read from the header, still percent-encoded.
- CookieExtract.ResetKeepsAttributes: stated for cookies whose Domain, Path and SameSite texts `processString` keeps as text. A value that it turns into a number or a boolean is read back as absent, and the re-set cookie then drops that attribute.
- CookieExtract.ResetKeepsMaxAge: stated for the same cookies. A Max-Age that does not read back as a number is read as absent.
- CookieJar.DeleteAsWrittenKeepsMaxAge: stated for the same cookies as CookieExtract.ResetKeepsAttributes.
- CookieJar.DeletedHeader: stated for the same cookies as CookieExtract.ResetKeepsAttributes.
- Console warnings are not modelled. This covers the route registries' warnings about clashing parameterised endpoints and the cookie parser's warnings about unknown keys. Registration goes ahead exactly as it does after the warning.
- The global router instance becomes an explicit router argument, so the model has no module-level singleton.

## Findings

| source | as written | input that shows it | evidently intended | confidence | as-written member | corrected member |
|---|---|---|---|---|---|---|
| src/utils/strCapitalize.ts:4-6 | each word is its first letter upper-cased followed by `input.slice(1)`, the tail of the whole input | `"ab cd"` gives `"Ab cd Cb cd"` | each word's first letter upper-cased, then the rest of that word | not executed | StrCapitalize.MultiWordRepeatsTail | StrCapitalize.StrCapitalizeWords |
| src/Cors/Cors.ts:40-43 | `getCorsHeaders` returns the response's own headers with CORS added, and `apply` combines them into themselves while the platform's `forEach` walks them live | a response with one `Set-Cookie` line: every Set-Cookie pair visited appends another that the walk reaches later, so `apply` never returns | only the CORS headers are added, and cookies are unchanged | not executed | CorsHeaders.ApplyAsWrittenNeverEnds | CorsHeaders.CorrectedApplyKeepsCookies |
| src/lib/Server/__Coreum_Server.ts:89-92 | `handleFetch` combines the whole CORS copy of the headers into the response | a response with one cookie and CORS configured sends that cookie twice | each cookie is sent once | not executed | CoreumServers.OneCookieSentTwice | CoreumServers.CoreumServer.HandleFetch |
| src/Cookies/CookiesUsingMap.ts:54-59 | `delete` sets an expired cookie under the name, which `set` percent-encodes, while the stored key is the raw name | deleting the cookie `"a b"` leaves `get("a b")` returning the old value | the stored cookie reads as removed | not executed | CookieJar.DeleteAsWrittenMisses | CookieJar.DeleteClears |
| src/modules/Server/ServerAbstract.ts:143 | `Context.makeFromRequest(req, route.endpoint, model)` uses only the request, so body, search and params are never parsed | `GET /a?k=v` to the route `/a`: the handler sees an empty search | the context carries the parsed body, search and params for the route's endpoint and model | not executed | ModulesServers.AsWrittenDropsSearch | ModulesServers.HandleRoute |
| src/Cookies/CookiesUsingMap.ts:54-59 | `delete` re-sets the cookie with every option read back from its header, Max-Age included, beside the epoch `Expires` | a cookie set with `maxAge: 60` and no other option: the deleting Set-Cookie line still carries `Max-Age=60`, which section 5.3 of RFC 6265 ranks above `Expires`, so the cookie lives on | the deleting line expires the cookie, with no Max-Age | not executed | CookieJar.DeleteAsWrittenKeepsMaxAge | CookieJar.DeletedHeader |
| src/lib/Middleware/__Coreum_Middleware.ts:26 | the wrapper builds its context without the route's schemas, and the wrapped route then reuses that context | a route whose params schema rejects the request's params, wrapped by any middleware: the callback and the route code run instead of the params rejection | a wrapped route validates params and search as an unwrapped one does | not executed | CoreumRouteHandlers.HandleWrapped | CoreumRouteHandlers.HandleWrappedValidated |
