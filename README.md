# TrackPHP router, modelled in Dafny

This project models the request router of TrackPHP (`src/Router/Router.php`).
The router keeps one list of routes per HTTP method, `GET` and `POST`.
`get` and `post` register a route from a pattern such as
`/posts/{postId}/comments/{commentId}` and a handler such as `comments#show`.
`match` returns the first route of the request method's list whose compiled
regex accepts the URI, after binding the captured segments to the route's
parameter names. The model's `match` accepts a URI only when it matches the
pattern exactly; the regex as written also lets a final newline through (see
"## Findings" and "## Left out").

Module layout:

- `wrappers.dfy`:
  - Module `Wrappers`: `Option` and `Outcome` (the exception `addRoute` throws becomes `Fail(message)`).
  - Module `SeqFacts`: small identities about sequences.
- `pattern.dfy`:
  - Module `Pattern`: scans a pattern into literal characters and `{name}` slots, the way the shared regex `\{[^/]+\}` of `compilePattern` and `extractParamNames` reads it. This includes its greediness: a placeholder starts at `{`, needs at least one character before its closing brace, and ends at the last `}` before the next `/`, so a bare `{}` with no later `}` in its segment stays literal text (while `{}}` is one placeholder named `}`, `Pattern.EmptyBraces`). The module also builds the regex text and the name list from those tokens.
  - Module `PatternShape`: proves two placeholders never share a segment.
- `matcher.dfy`:
  - Module `Matcher`: the anchored match of a compiled pattern, with PCRE's backtracking order for `([^/]+)`.
  - Module `MatcherProofs`: what it accepts.
  - Module `CaptureUniqueness`: proves captures are unique.
- `params.dfy`:
  - Module `Params`: PHP ordered string arrays and `array_combine`.
  - Module `Binding`: substituting bound parameters back into a pattern.
- `handler.dfy`: `explode('#', $handler, 2)`, `ucfirst` and the controller class name.
- `router.dfy`: the `Route` record and the `Router` class with its `routes` table, `AddRoute`, `Get`, `Post` and `Match`.
- `scenarios.dfy` (`RouteShapes`): route shapes used by the router's tests, stated generally:
  - a literal prefix followed by one placeholder;
  - two placeholders separated by a literal segment.
- `suite.dfy` (`SuiteRoutes`, `SuiteHandlers`): the literal patterns, URIs and handlers of `tests/Router/RouterTest.php` as value-level facts.
- `router_suite.dfy` (`RouterSuite`): the test scenarios as methods on the `Router` class. Each method is generic over the test's pattern, handler and URI.

How the source's operations map into the model:

- Regex text. `Route.regexPattern` holds the regex text exactly as `compilePattern` builds it. Next to it, `Route.matcher` holds the token sequence that text denotes. `Match` runs the matcher on those tokens, and `Pattern.CompilePattern` ties the two together.
- Handlers. `Outcome` replaces the exception. A call that would throw returns `Fail(HandlerFormatMessage)` and changes nothing.
- The method field. PHP's `Route::$method` is named `httpMethod`, because `method` is a Dafny keyword.

## Model

| member | source | states |
|---|---|---|
| Pattern.SegmentEnd | src/Router/Router.php:66 | how far `[^/]` reaches: the index of the first `/`, or the length when there is none; no `/` lies before it |
| Pattern.LastCloseBefore | src/Router/Router.php:59 | the last `}` at index 2 or later before a bound, or none, with no `}` after it |
| Pattern.PlaceholderEnd | src/Router/Router.php:59 | a placeholder match starts at a `{` and ends at a `}` before the next `/`, with at least one character between the braces |
| Pattern.PlaceholderEndFound | src/Router/Router.php:59 | `\{[^/]+\}` matches at the start of a pattern exactly when the pattern opens with `{` and such a `}` follows within the segment; being greedy, it ends at the last one |
| Pattern.Tokenize | src/Router/Router.php:59-66 | no contract of its own: its definition is the left-to-right scan that the placeholder regex of `extractParamNames` and `compilePattern` performs. At each position, either a placeholder matches (`PlaceholderEnd`) and becomes one slot, with the scan resuming after its `}`, or the character stays literal. Its properties are proved in `TokenizeUnparse` (no text lost), `TokenizeWellNamed` (names are segment values) and `PatternShape.TokenizeSeparated` (a `/` between any two slots) |
| Pattern.TokenizeUnparse | src/Router/Router.php:66 | the placeholder scan loses no text: writing the tokens back gives the pattern |
| Pattern.TokenizeWellNamed | src/Router/Router.php:59 | every placeholder name found is non-empty and slash-free |
| Pattern.ExtractParamNames | src/Router/Router.php:57-61 | the parameter names are the placeholders in order of appearance, each a non-empty slash-free string |
| Pattern.StaticCompilesToItself | src/Router/Router.php:63-68 | a pattern without placeholders compiles to `#^` + pattern + `$#` |
| Pattern.EmptyBraces | src/Router/Router.php:59 | `[^/]+` needs at least one character, so `{}` scans as two literal characters, while `{}}` scans as one placeholder named `}` |
| Pattern.Render | src/Router/Router.php:66 | no contract of its own: the regex body `preg_replace` produces, with literals kept and each slot replaced by `([^/]+)`. `RenderStatic` proves that a slot-free token list renders to its own text |
| Pattern.CompilePattern | src/Router/Router.php:63-68 | no contract of its own: `#^` + Render(Tokenize(p)) + `$#`. Its properties are proved in `StaticCompilesToItself`, `RouteShapes.OneParameterRegex` and `RouteShapes.TwoParameterRegex`, and what the regex accepts is proved in `MatcherProofs.AcceptsExactly` |
| PatternShape.TokenizeSeparated | src/Router/Router.php:66 | after each placeholder a literal `/` comes before any further placeholder, so one segment holds at most one capture group |
| Matcher.MatchFrom | src/Router/Router.php:25 | a successful match yields one non-empty slash-free capture per placeholder, and filling the pattern with them reproduces the URI (soundness) |
| Matcher.Fill | src/Router/Router.php:66 | no contract of its own: the reference definition of what a compiled pattern stands for, namely the pattern with its i-th placeholder replaced by the i-th capture. `MatchFrom`'s soundness and `MatcherProofs.MatchFromComplete` relate the matcher to it |
| Matcher.TrySplit | src/Router/Router.php:25 | each backtracking choice of a capture's length only succeeds with captures that fill the pattern to the URI |
| MatcherProofs.MatchFromComplete | src/Router/Router.php:25 | any way of filling the placeholders with segment values that yields the URI makes the match succeed (completeness) |
| MatcherProofs.Accepts | src/Router/Router.php:25 | no contract of its own: `preg_match` succeeds, under the strict reading of `$`. It is characterised by `AcceptsExactly` |
| MatcherProofs.AcceptsAsWritten | src/Router/Router.php:67 | no contract of its own: `preg_match` with `$` as written. It accepts when the strict match succeeds, or when the URI ends in `"\n"` and the strict match succeeds on the rest. `TrailingNewlineSlipsPastDollar` shows where it differs from `Accepts` |
| MatcherProofs.AcceptsExactly | src/Router/Router.php:63-68 | the compiled pattern accepts a URI if and only if the URI is the pattern with each placeholder replaced by a non-empty slash-free value |
| MatcherProofs.StaticMatchesOnlyItself | src/Router/Router.php:63-68 | a pattern without placeholders accepts a URI if and only if the URI equals the pattern |
| MatcherProofs.LastCharAgrees | src/Router/Router.php:66 | a filled pattern ends in `/` exactly when the pattern does |
| MatcherProofs.TrailingSlashMustMatch | src/Router/Router.php:66-67 | an accepted URI ends in `/` if and only if its pattern does, so `/about` rejects `/about/` |
| MatcherProofs.EmptySegmentFromPattern | src/Router/Router.php:66 | two adjacent slashes in a filled pattern come from two adjacent slashes in the pattern |
| MatcherProofs.EmptySegmentNeverMatches | src/Router/Router.php:66-67 | a URI with an empty segment (`//`) never matches a pattern without one |
| MatcherProofs.TrailingNewlineSlipsPastDollar | src/Router/Router.php:67 | with `$` as written, a static pattern also accepts itself followed by a newline, which the strict acceptor rejects |
| CaptureUniqueness.FillSegmentEnd | src/Router/Router.php:66 | within one segment, the filled text has exactly as many characters before its `/` as the pattern has literals there |
| CaptureUniqueness.CapturesUnique | src/Router/Router.php:25 | for a compiled pattern, two capture lists that fill it to the same URI are equal |
| CaptureUniqueness.CapturesDetermined | src/Router/Router.php:25-26 | the captures `preg_match` returns after the full match is shifted off are the only captures that fill the pattern to the URI |
| Params.Keys | src/Router/Router.php:27-30 | the keys of an ordered array, position by position |
| Params.Lookup | src/Router/Router.php:27-30 | reading a key yields a value exactly when the key is present |
| Params.Put | src/Router/Router.php:27-30 | assignment overwrites an existing key in place and appends a new one; afterwards the key reads as the new value and every other key reads as before |
| Params.Combine | src/Router/Router.php:27-30 | no contract of its own: `array_combine`, assigning the names' values key by key, left to right, with `Put`. Its properties are proved in `CombineLast`, `CombineDistinct`, `CombineKeysIn` and `CombineAbsent` |
| Params.CombineAbsent | src/Router/Router.php:27-30 | `array_combine` has no key that is not among the names |
| Params.CombineLast | src/Router/Router.php:27-30 | a name reads as the value paired with its last occurrence, so with a repeated name the later capture wins |
| Params.CombineDistinct | src/Router/Router.php:27-30 | with distinct names, the combined array pairs the i-th name with the i-th capture, in order, and has one entry per name |
| Params.CombineKeysIn | src/Router/Router.php:27-30 | the keys of the combined array are exactly the names |
| Params.LastOccurrence | src/Router/Router.php:27-30 | every occurring name has a last occurrence, after which it does not occur again |
| Binding.SubstituteFill | src/Router/Router.php:27-30 | substituting bindings that agree with the captures gives the same text as filling the pattern with the captures |
| Binding.BindingRoundTrip | src/Router/Router.php:25-30 | after a match of a pattern with distinct names, names and captures are equally many, the i-th name reads as the i-th capture, and substituting the bound parameters into the pattern reproduces the URI |
| Handler.IndexOf | src/Router/Router.php:39 | the first position of a character, present exactly when the character occurs (`str_contains`) |
| Handler.SplitHandler | src/Router/Router.php:39-43 | a handler without `#` is refused; otherwise it equals token + `#` + action with no `#` in the token (split at the first `#`, the action taken verbatim) |
| Handler.SplitHandlerUnique | src/Router/Router.php:43 | any decomposition token + `#` + action whose token has no `#` is the split `explode` returns |
| Handler.Ucfirst | src/Router/Router.php:44 | same length and same tail; a lower-case ASCII first letter becomes the upper-case letter at the same alphabet position, any other string is left unchanged |
| Handler.UcfirstIdempotent | src/Router/Router.php:44 | upper-casing the first character twice is the same as once |
| Handler.ControllerName | src/Router/Router.php:44 | the controller name is `ucfirst` of the token followed by `Controller` |
| Routing.Route.constructor | src/Router/Router.php:47-54 | a new route holds the given method, pattern, regex, controller, action and parameters |
| Routing.CompiledFor | src/Router/Router.php:45-51 | no contract of its own: a route is filed under its method, and its regex text and matcher are both compiled from its own pattern |
| Routing.BuiltFrom | src/Router/Router.php:39-54 | no contract of its own: the route fields `addRoute` derives from a well-formed handler. It holds the method, the pattern, `compilePattern`'s regex, the controller name from the part before the first `#`, and the action after it. `RouterSuite.HandlerRoute` unpacks it for the test scenarios, and `Routing.Router.AddRoute` promises it |
| Routing.FirstMatch | src/Router/Router.php:24-31 | the first route in registration order that accepts the URI: it accepts, no earlier route does, and there is none exactly when no route accepts |
| Routing.FirstMatchAt | src/Router/Router.php:24-31 | a route that accepts the URI, with no earlier route accepting it, is the first match |
| Routing.EarlierRegistrationShadows | src/Router/Router.php:24-31 | of two routes with the same pattern, the later one is never the first match |
| Routing.Router.constructor | src/Router/Router.php:7-10 | a new router has an empty list for `GET` and one for `POST` and nothing else |
| Routing.Router.Valid | src/Router/Router.php:7-10 | no contract of its own: the invariant of the `routes` table. Its keys are exactly `GET` and `POST`, the table being initialised with those two and `addRoute` only called with them. Every stored route is compiled for the method it is filed under, which `addRoute` (lines 45-54) ensures. The constructor establishes it, and `AddRoute`, `Get`, `Post` and `Match` preserve it |
| Routing.Router.Bucket | src/Router/Router.php:24 | no contract of its own: `$this->routes[$method] ?? []`, the method's list, or the empty list for a method with none. `Routing.Router.Match` is specified over it, which is how `RouterSuite.OtherMethodMisses` shows that a method such as `PUT` matches nothing |
| Routing.Router.AddRoute | src/Router/Router.php:37-55 | a handler without `#` fails with the source's message and leaves the table unchanged; otherwise exactly one route, compiled from the pattern and handler and with no parameters, is appended to the method's list and no other list changes |
| Routing.Router.Get | src/Router/Router.php:12-15 | registration under `GET`, with the same outcome as `AddRoute` |
| Routing.Router.Post | src/Router/Router.php:17-20 | registration under `POST`, with the same outcome as `AddRoute` |
| Routing.Router.Match | src/Router/Router.php:22-35 | under the strict acceptor (no final-newline slack, see "## Left out"), returns null exactly when no route of the method's list accepts the URI (an unknown method has no list), and otherwise returns the first accepting route of that method. Its parameters become the names combined with the captures, and substituting them back gives the URI when names are distinct. The table and every other route's parameters stay unchanged |
| RouteShapes.TokenizeLiterals | src/Router/Router.php:66 | text without `{` holds no placeholder |
| RouteShapes.TokenizeWholeSegment | src/Router/Router.php:66 | a placeholder filling its whole segment is one slot named by the text between its braces |
| RouteShapes.StaticNames | src/Router/Router.php:57-61 | text without `{` has no parameter names |
| RouteShapes.OneParameterRegex | src/Router/Router.php:63-68 | a literal prefix x followed by `{n}` compiles to `#^` + x + `([^/]+)` + `$#` |
| RouteShapes.OneParameterNames | src/Router/Router.php:57-61 | the parameters of `x{n}` are exactly `[n]` |
| RouteShapes.OneParameterMatch | src/Router/Router.php:25-30 | `x{n}` matches x + v for every segment value v, capturing `[v]` and binding n to v |
| RouteShapes.TokenizeTwoParameters | src/Router/Router.php:66 | `x{n}y{m}`, with y starting a new segment, scans into x's literals, slot n, y's literals, slot m |
| RouteShapes.TwoParameterRegex | src/Router/Router.php:63-68 | `x{n}y{m}` compiles to `#^` + x + `([^/]+)` + y + `([^/]+)` + `$#` |
| RouteShapes.TwoParameterNames | src/Router/Router.php:57-61 | the parameters of `x{n}y{m}` are n then m |
| RouteShapes.TwoParameterMatch | src/Router/Router.php:25-26 | `x{n}y{m}` matches x + v + y + w for segment values v and w, capturing v then w |
| RouteShapes.TwoParameterRejectsEmptyFirst | src/Router/Router.php:66-67 | `x{n}y{m}` rejects x + y + w, where the first parameter is left empty |
| RouteShapes.CombinePair | src/Router/Router.php:27-30 | two distinct names and two values combine into the two pairs in order |
| RouteShapes.ParameterRouteRejectsTrailingSlash | src/Router/Router.php:66-67 | a pattern ending in a placeholder never matches a URI ending in `/` |
| SuiteRoutes.CommentPatternPlain | tests/Router/RouterTest.php:71 | the comment route's pattern has no regex metacharacter |
| SuiteRoutes.PostPatternPlain | tests/Router/RouterTest.php:55 | the post route's pattern has no regex metacharacter |
| SuiteRoutes.RootRoute | tests/Router/RouterTest.php:20-34 | `/` compiles to `#^/$#`, has no parameters, and accepts `/` and nothing else |
| SuiteRoutes.HomeRoute | tests/Router/RouterTest.php:36-50 | `/home` compiles to `#^/home$#` and has no parameters |
| SuiteRoutes.HomeRouteMatches | tests/Router/RouterTest.php:41 | `/home` accepts `/home` and nothing else |
| SuiteRoutes.AboutRoute | tests/Router/RouterTest.php:87-93 | `/about` rejects `/not-found` and `/about/` |
| SuiteRoutes.PostRegex | tests/Router/RouterTest.php:62 | `/posts/{postId}` compiles to `#^/posts/([^/]+)$#` |
| SuiteRoutes.PostMatch | tests/Router/RouterTest.php:57-65 | `/posts/{postId}` matches `/posts/42`, capturing `42` and binding postId to `42` |
| SuiteRoutes.PostRejectsEmpty | tests/Router/RouterTest.php:172-179 | `/posts/{id}` rejects `/posts/` and `/posts//` |
| SuiteRoutes.CommentRegex | tests/Router/RouterTest.php:78 | the comment route compiles to `#^/posts/([^/]+)/comments/([^/]+)$#` |
| SuiteRoutes.CommentMatch | tests/Router/RouterTest.php:73 | the comment route matches `/posts/42/comments/56` with captures `42`, `56` |
| SuiteRoutes.CommentBinding | tests/Router/RouterTest.php:81-84 | the comment route's parameters are postId, commentId and bind to `42` and `56` in that order |
| SuiteRoutes.CommentRejectsEmptyPost | tests/Router/RouterTest.php:186 | the comment route rejects `/posts//comments/56` |
| SuiteRoutes.CommentRejectsEmptyComment | tests/Router/RouterTest.php:187-188 | the comment route rejects `/posts/42/comments/` and `/posts/42/comments//` |
| SuiteHandlers.HomeIndexSplit | tests/Router/RouterTest.php:23 | `home#index` splits into `home` and `index` |
| SuiteHandlers.PostsShowSplit | tests/Router/RouterTest.php:55 | `posts#show` splits into `posts` and `show` |
| SuiteHandlers.CommentsShowSplit | tests/Router/RouterTest.php:71 | `comments#show` splits into `comments` and `show` |
| SuiteHandlers.AuthFormSplit | tests/Router/RouterTest.php:98 | `auth#form` splits into `auth` and `form` |
| SuiteHandlers.AuthSubmitSplit | tests/Router/RouterTest.php:99 | `auth#submit` splits into `auth` and `submit` |
| SuiteHandlers.PagesFirstSplit | tests/Router/RouterTest.php:127 | `pages#first` splits into `pages` and `first` |
| SuiteHandlers.PagesSecondSplit | tests/Router/RouterTest.php:128 | `pages#second` splits into `pages` and `second` |
| SuiteHandlers.HomeControllerName | tests/Router/RouterTest.php:31 | the token `home` names `HomeController` |
| SuiteHandlers.PostsControllerName | tests/Router/RouterTest.php:63 | the token `posts` names `PostsController` |
| SuiteHandlers.CommentsControllerName | tests/Router/RouterTest.php:79 | the token `comments` names `CommentsController` |
| SuiteHandlers.MissingSeparatorRefused | tests/Router/RouterTest.php:108-114 | `missingSeparator` has no `#`, so registering it is refused |
| RouterSuite.HandlerRoute | src/Router/Router.php:43-54 | a route built from a handler carries its pattern, compiled matcher and regex, `ControllerName` of the token, and the action |
| RouterSuite.RouterWith | tests/Router/RouterTest.php:22-23 | a fresh router after one registration holds exactly that route, with no parameters, and other methods hold none |
| RouterSuite.RouterWithTwo | tests/Router/RouterTest.php:97-99 | a fresh router after two registrations holds them in registration order under their methods |
| RouterSuite.StaticRoute | tests/Router/RouterTest.php:36-50 | registering a static pattern and matching the pattern itself returns that route under `GET`: regex `#^` + pattern + `$#`, controller and action from the handler, no parameters |
| RouterSuite.StaticRouteMisses | tests/Router/RouterTest.php:116-122 | a static route returns null for any other URI (`/not-found`, `/about/`) |
| RouterSuite.OtherMethodMisses | tests/Router/RouterTest.php:148-170 | a route registered under one method is never returned for another (`POST`, `GET`, `PUT`) |
| RouterSuite.MethodsKeptApart | tests/Router/RouterTest.php:95-106 | one pattern registered under `GET` and `POST` returns the `GET` route for `GET` and the `POST` route for `POST` |
| RouterSuite.FirstOnDuplicate | tests/Router/RouterTest.php:124-133 | of two registrations of one pattern, the first is returned |
| RouterSuite.InvalidHandler | tests/Router/RouterTest.php:108-114 | a handler without `#` fails with the source's message and nothing is registered |
| RouterSuite.OneParameterServes | tests/Router/RouterTest.php:52-66 | the route for `x{n}` carries the one-group regex and binds n to v for the URI x + v |
| RouterSuite.OneParameter | tests/Router/RouterTest.php:52-66 | registering `x{n}` and matching x + v returns that route, with the one-group regex and parameters `[(n, v)]` |
| RouterSuite.EmptyLastParameter | tests/Router/RouterTest.php:172-179 | a route ending in a placeholder returns null for a URI ending in `/` |
| RouterSuite.EmptyFirstParameter | tests/Router/RouterTest.php:181-189 | `x{n}y{m}` returns null for x + y + w, where the first parameter is empty |
| RouterSuite.TwoParameterServes | tests/Router/RouterTest.php:68-85 | the route for `x{n}y{m}` carries the two-group regex and binds n to v and m to w for x + v + y + w |
| RouterSuite.TwoParameters | tests/Router/RouterTest.php:68-85 | registering `x{n}y{m}` with n ≠ m and matching x + v + y + w returns that route, with parameters `[(n, v), (m, w)]` in order |

## Left out

- `Version.php`, the front controller and dispatching a matched route to a controller class are outside this model. They do not decide how routes are registered or matched.
- Reverse routing (`path`) and named routes are not modelled. `tests/Router/RouterTest.php:191-244` exercises them, but `src/Router/Router.php` defines neither, and this model follows the source.
- Duplicate placeholder names are not rejected. `tests/Router/RouterTest.php:11-18` expects an exception, but `addRoute` as written does not check for one. The model follows the code: a repeated name keeps the value of its last capture (`Params.CombineLast`).
- Routing.Router.Match: the substitution round trip is stated only for patterns with distinct names. With repeated names an earlier capture is overwritten, so the URI in general cannot be rebuilt (it can when the repeated name's captures coincide).
- Routing.Router.Match: decides acceptance with the strict acceptor `Accepts` (`MatchFrom`), not with the regex as written. Without the `D` modifier, the `$` of `src/Router/Router.php:67` also matches before a final newline. So for a pattern ending in literal text, a URI that is an accepted URI plus a final `"\n"` gets from this `Match` either null or a later route whose pattern accepts the URI strictly, while the source returns the earlier route. A later pattern ending in a placeholder accepts it strictly and captures the newline. For example, with only `/about` registered, `"/about\n"` gets null here and `/about` in the source. If `/about` is registered and then `/{page}`, the source returns `/about`, and this model returns `/{page}` with the capture `"about\n"`. The as-written acceptance is modelled separately by `MatcherProofs.AcceptsAsWritten` and exhibited by `MatcherProofs.TrailingNewlineSlipsPastDollar`.
- Routing.Router.AddRoute: requires `PlainPattern`, a pattern without regex metacharacters or `#`. The source inserts literal text into the regex unescaped, and a general PCRE engine is not modelled, so other patterns are registered with a meaning this model cannot state. An invalid regex would make `preg_match` warn.
- Routing.Router.AddRoute: `httpMethod` must be `GET` or `POST`. Only `get` and `post` call this private method, and they pass exactly those two.
- PCRE itself is replaced by a structural matcher for the one regex shape `compilePattern` produces. That shape is `#^`, then literal text with `([^/]+)` groups, then `$#`.
- Handler.Ucfirst: models `ucfirst` on ASCII letters only, as PHP's byte-wise `ucfirst` does. Strings are sequences of characters, not bytes.
- The exception thrown for an invalid handler becomes `Fail(HandlerFormatMessage)`.
- Concurrency and PHP object identity beyond the router's own routes are out of scope.
- `src/Router/Route.php` is not part of this model. Its fields are taken to be the six constructor arguments, with `params` writable, the way `match` uses them.
- The test suite's router-level scenarios are stated once for the general shape of each test, in `RouterSuite`. The literal strings are checked at value level in `SuiteRoutes` and `SuiteHandlers`, where the literal pattern meets its general shape.

## Findings

| source | as written | input that shows it | evidently intended | confidence | as-written member | corrected member |
|---|---|---|---|---|---|---|
| src/Router/Router.php:67 | the regex ends in `$#` without the `D` modifier, so `$` also matches just before a final newline | route `/about`, URI `"/about\n"`: accepted; with `/about` then `/{page}` registered, the source returns `/about` where the strict model returns `/{page}` | the route matches its pattern exactly, as `tests/Router/RouterTest.php:116-122` expects for a trailing `/`, so a trailing newline should be refused too | not executed; medium (depends on whether a decoded newline can reach `match`) | MatcherProofs.TrailingNewlineSlipsPastDollar | MatcherProofs.AcceptsExactly |
