# convexity-n-layer-template core, modelled in Dafny

This project models the logic of the Express starter template "convexity-n-layer-template". The template's wiring to Express, Redis, Sentry and Node's runtime is not modelled. The model covers:

- **Service container** (`ServiceContainer`): a string-keyed registry of factories, singleton markers and a singleton cache. Singletons are built lazily by `resolve` and cached. Transient services are rebuilt on every `resolve`. An unknown token fails with `Service <token> not found`. A factory is an abstract producer: each invocation hands out a fresh instance id and is appended to an invocation log.
- **Service registrar and bootstrapper** (`ServiceRegistration`, `Bootstrap`): registration of the three managers, then the fixed setup sequence middleware → routing → error handling. The first failing step aborts the rest and its error is rethrown. The Express app is modelled as a list of installed layer labels. A step's failure is injected through a `faults` map.
- **Event bus** (`EventBus`): per-event-type subscriber lists that only grow. Publishing delivers the payload to every wrapped handler in subscription order. A handler's failure is caught and logged, with the service name and event type.
- **Rate-limit cache** (`RateLimit`): the fixed-window counter keyed by `method-url-ip`, with its reset, increment, 429-with-`retryAfter` and cleanup rules. The clock is a `now` parameter.
- **User registration** (`Users`): the lazily created service singleton, plus `RegisterNewUser`, which creates the user and then publishes one welcome-mail event.
- **Request/response decisions**:
  - Zod error formatting (`ZodFormat`) and schema validation (`Validation`);
  - the error-middleware classification chain (`ErrorMiddleware`);
  - the response body builders (`Responses`) and `AppError` defaults (`AppErrors`);
  - the CORS origin decision (`Cors`);
  - the cookie-name state of `Cookies` (`CookieStore`).
- **Module generator script** (`PascalCase`, `ModuleGenerator`): the `toPascalCase` tokeniser, with its regular expression hand-coded as a matcher, the `--name` lookup and the six-entry directory plan. The file system is a map from paths to directories and files. `mkdirSync` and `writeFileSync` are methods of a `FileSystem` class.

Imperative code is modelled by classes whose methods are tied by their `ensures` clauses to pure specification functions. The container, event bus, rate limiter, cookies, registrar, bootstrapper, validation middleware and generator are modelled this way. The properties are proved as lemmas about those functions.

The source leaves two cases open; the model follows the code:
- A second `register`/`registerSingleton` of the same token overwrites the factory. It does not fail.
- A cached singleton keeps winning over a re-registration (`ReRegisterKeepsCachedInstance`).

Supporting modules: `Wrappers` (Option, Result, Outcome), `Json` (a JSON value type) and `UserEntity` (the user record shapes).

Some specification functions have no row of their own. The rows of their lemmas and methods state what they do:
- `RateLimit.Step` models the middleware body (idempotency.middleware.ts:26-52).
- `PascalCase.Tokens` and `PascalCase.ToPascalCase` model `toPascalCase` (generateModules.js:15-20).
- `ModuleGenerator.ModuleName` models the `--name` lookup (generateModules.js:27-35).
- `ModuleGenerator.ScaffoldSpec` and `ModuleGenerator.GenerateSpec` model `main()` (generateModules.js:151-204).
- `ErrorMiddleware.Classify` models the handler's choice of status and message (error.middleware.ts:12-54).
- `Validation.Validate` models the validation middleware (global.validation.ts:7-21).
- `CookieStore.CallEffect` models one `set` or `remove` call (cookies.ts:7-21).

## Model

| member | source | states |
|---|---|---|
| ServiceContainer.Registry.Register | template/src/Core/Infrastructure/Container/container.ts:9-11 | registering adds or replaces the token's factory and changes nothing else: other factories, singleton marks, the cache and the invocation log stay as they were; the registry stays well formed |
| ServiceContainer.Registry.RegisterSingleton | template/src/Core/Infrastructure/Container/container.ts:13-16 | the token is marked singleton and stored with its factory; other factories, the cache and the invocation log are unchanged, so nothing is built |
| ServiceContainer.Registry.Invoke | template/src/Core/Infrastructure/Container/container.ts:25-31 | invoking a factory yields a fresh instance id made by that factory and appends the factory to the invocation log |
| ServiceContainer.Registry.Resolve | template/src/Core/Infrastructure/Container/container.ts:18-35 | resolve fails exactly when the token is not registered, and keeps the registry well formed |
| ServiceContainer.Empty | template/src/Core/Infrastructure/Container/container.ts:4-7 | a new container knows no token |
| ServiceContainer.Apply | template/src/Core/Infrastructure/Container/container.ts:9-35 | every container call keeps the registry well formed |
| ServiceContainer.Run | template/src/Core/Infrastructure/Container/container.ts:9-35 | any sequence of calls from a new container leaves a well-formed registry |
| ServiceContainer.ResolveUnregisteredFails | template/src/Core/Infrastructure/Container/container.ts:34 | resolving a never-registered token fails with `Service <token> not found` and changes nothing |
| ServiceContainer.RegisterSingletonIsLazy | template/src/Core/Infrastructure/Container/container.ts:13-16 | registerSingleton marks and stores the factory but invokes nothing and caches nothing |
| ServiceContainer.FirstResolveBuildsAndCaches | template/src/Core/Infrastructure/Container/container.ts:23-28 | the first resolve of a singleton invokes its factory exactly once, caches that new instance and returns it |
| ServiceContainer.CachedResolveIsIdentical | template/src/Core/Infrastructure/Container/container.ts:19-21 | a cached singleton is returned as the identical instance, with no factory invoked and no state change |
| ServiceContainer.SingletonResolvedTwice | template/src/Core/Infrastructure/Container/container.ts:19-28 | two resolves of a singleton return the same instance and invoke the factory at most once |
| ServiceContainer.TransientResolveRebuilds | template/src/Core/Infrastructure/Container/container.ts:30-32 | a transient token's factory runs on every resolve, giving distinct instances and caching nothing |
| ServiceContainer.ReRegisterKeepsCachedInstance | template/src/Core/Infrastructure/Container/container.ts:19-21 | once cached, re-registering the token either way does not change what resolve returns |
| ServiceContainer.RegisterKeepsSingletonMark | template/src/Core/Infrastructure/Container/container.ts:9-11 | register on a marked, not yet built singleton replaces its factory but it stays a singleton built from the new factory |
| ServiceContainer.HasIffRegistered | template/src/Core/Infrastructure/Container/container.ts:37-39 | after any call sequence, has(token) holds iff some call registered that token |
| ServiceContainer.Container.constructor | template/src/Core/Infrastructure/Container/container.ts:4-7 | a new container holds the empty registry |
| ServiceContainer.Container.Register | template/src/Core/Infrastructure/Container/container.ts:9-11 | the map fields are updated as the Register specification says |
| ServiceContainer.Container.RegisterSingleton | template/src/Core/Infrastructure/Container/container.ts:13-16 | the map fields are updated as the RegisterSingleton specification says |
| ServiceContainer.Container.Invoke | template/src/Core/Infrastructure/Container/container.ts:25-31 | a factory call as the Invoke specification says |
| ServiceContainer.Container.Resolve | template/src/Core/Infrastructure/Container/container.ts:18-35 | result and new cache are those of the Resolve specification |
| ServiceContainer.Container.Has | template/src/Core/Infrastructure/Container/container.ts:37-39 | has holds iff the token has a factory |
| ServiceRegistration.Registration | template/src/Core/Infrastructure/service-registrar.ts:14-18 | infrastructure, then domain, then initialisation registration keeps the registry well formed |
| ServiceRegistration.RegisterAllMarksManagers | template/src/Core/Infrastructure/service-registrar.ts:20-48 | after registerAll the three managers are singletons with their own factories, has holds and resolve cannot fail for them; no other token is added, nothing is built or invoked |
| ServiceRegistration.ServiceRegistrar.constructor | template/src/Core/Infrastructure/service-registrar.ts:12 | the registrar works on the given container |
| ServiceRegistration.ServiceRegistrar.RegisterAll | template/src/Core/Infrastructure/service-registrar.ts:14-18 | the container ends in the Registration state |
| ServiceRegistration.ServiceRegistrar.RegisterInfrastructureServices | template/src/Core/Infrastructure/service-registrar.ts:20-35 | three registerSingleton calls in order |
| Bootstrap.SetupStep | template/src/Core/Infrastructure/Bootstrap/application-bootstrapper.ts:19-28 | one resolve-then-setup phase keeps the registry well formed |
| Bootstrap.Bootstrapped | template/src/Core/Infrastructure/Bootstrap/application-bootstrapper.ts:13-35 | the whole bootstrap keeps the registry well formed |
| Bootstrap.Registered | template/src/Core/Infrastructure/Bootstrap/application-bootstrapper.ts:16 | the registration phase always passes |
| Bootstrap.FirstFault | template/src/Core/Infrastructure/Bootstrap/application-bootstrapper.ts:19-28 | the index of the first setup phase that throws, or 4 when none does |
| Bootstrap.SetupStepOnMarkedToken | template/src/Core/Infrastructure/Bootstrap/application-bootstrapper.ts:19-28 | a setup phase resolves its manager into the singleton cache and installs its layer unless that phase throws |
| Bootstrap.ManagersMarked | template/src/Core/Infrastructure/service-registrar.ts:20-35 | after registration each manager token is a singleton with its factory, and nothing is built |
| Bootstrap.FirstSetupSteps | template/src/Core/Infrastructure/Bootstrap/application-bootstrapper.ts:19-24 | middleware setup runs first, then routing; routing runs only when middleware passed |
| Bootstrap.BootstrapRunsInOrder | template/src/Core/Infrastructure/Bootstrap/application-bootstrapper.ts:13-35 | phases run register → middleware → routing → error handling; the first fault stops all later phases and is rethrown unchanged; on success the error handler is the last layer |
| Bootstrap.EarlyFaultStops | template/src/Core/Infrastructure/Bootstrap/application-bootstrapper.ts:19-34 | a fault in middleware or routing setup stops the sequence there with that error |
| Bootstrap.LastStepRuns | template/src/Core/Infrastructure/Bootstrap/application-bootstrapper.ts:27-34 | with no earlier fault all four phases run and the outcome is the error-handling fault or success |
| Bootstrap.ManagersAreCachedSingletons | template/src/Core/Infrastructure/Bootstrap/application-bootstrapper.ts:19-27 | after a successful bootstrap every manager used is the container's cached singleton and resolving it again returns the same instance |
| Bootstrap.CachedManagers | template/src/Core/Infrastructure/Container/container.ts:19-21 | three cached managers resolve to themselves |
| Bootstrap.FreshBootstrapBuildsEachManagerOnce | template/src/Core/Infrastructure/Bootstrap/application-bootstrapper.ts:16-28 | on a fresh container a successful bootstrap invokes each manager factory exactly once, in phase order, and never hits not-found |
| Bootstrap.FreshManagerStep | template/src/Core/Infrastructure/Bootstrap/application-bootstrapper.ts:19-28 | a passing phase on an unbuilt manager invokes its factory once |
| Bootstrap.Surface.constructor | template/src/Core/Infrastructure/Bootstrap/application-bootstrapper.ts:13 | a new app has no layers |
| Bootstrap.ApplicationBootstrapper.constructor | template/src/Core/Infrastructure/Bootstrap/application-bootstrapper.ts:9-11 | the bootstrapper works on the given container |
| Bootstrap.ApplicationBootstrapper.Bootstrap | template/src/Core/Infrastructure/Bootstrap/application-bootstrapper.ts:13-35 | container, app layers, phases entered and managers used are those of Bootstrapped, with the same app given to every phase |
| Bootstrap.ApplicationBootstrapper.RegisterServices | template/src/Core/Infrastructure/Bootstrap/application-bootstrapper.ts:37-41 | the container ends in the Registration state |
| Bootstrap.ApplicationBootstrapper.Setup | template/src/Core/Infrastructure/Bootstrap/application-bootstrapper.ts:19-28 | one phase as SetupStep says |
| EventBus.Deliver | template/src/Core/Events/event.bus.ts:14-20 | a wrapped handler gets the payload unchanged; a log line naming the service and event type is written exactly when the handler throws |
| EventBus.Deliveries | template/src/Core/Events/event.bus.ts:9-22 | one delivery per subscriber, in subscription order |
| EventBus.DeliveriesAppend | template/src/Core/Events/event.bus.ts:22-26 | the deliveries to a concatenated subscriber list are the concatenated deliveries |
| EventBus.FailuresAreIsolated | template/src/Core/Events/event.bus.ts:14-22 | a handler's delivery depends only on that handler, not on whether others fail |
| EventBus.SubscribingTwiceDeliversTwice | template/src/Core/Events/event.bus.ts:22-26 | subscribing twice yields two identical, independent deliveries after the earlier ones |
| EventBus.PublishWithoutSubscribersIsEmpty | template/src/Core/Events/event.bus.ts:9-11 | on a bus where nobody subscribed to the type, it has no wrapped handler and publish completes with no delivery |
| EventBus.Bus.constructor | template/src/Core/Events/event.bus.ts:6-7 | a new bus has no subscriptions |
| EventBus.Bus.Subscribe | template/src/Core/Events/event.bus.ts:13-27 | exactly one subscriber is appended at the end of that type's list and every other list is unchanged |
| EventBus.Bus.Publish | template/src/Core/Events/event.bus.ts:9-11 | every subscriber of the type receives the payload in order, and no subscription list changes |
| RateLimit.Key | template/src/Core/Middlewares/idempotency.middleware.ts:20-22 | the key is method, url and ip joined by `-` |
| RateLimit.CeilDiv1000 | template/src/Core/Middlewares/idempotency.middleware.ts:36 | the ceiling of x/1000 |
| RateLimit.Cleanup | template/src/Core/Middlewares/idempotency.middleware.ts:11-18 | exactly the entries older than the window are removed; the rest are unchanged |
| RateLimit.UnseenKeyStartsWindow | template/src/Core/Middlewares/idempotency.middleware.ts:47-51 | an unseen key is stored as (now, 1) and the request passes |
| RateLimit.KnownKeyDecision | template/src/Core/Middlewares/idempotency.middleware.ts:29-51 | within the window: below the limit the count rises by one and the request passes, at the limit a 429 with `retryAfter` = ceil(remaining/1000) leaves the entry unchanged; after the window the entry restarts at (now, 1) |
| RateLimit.RefusalWaitsAtLeastOneSecond | template/src/Core/Middlewares/idempotency.middleware.ts:32-36 | a refusal always carries retryAfter ≥ 1 |
| RateLimit.StepTouchesOnlyItsKey | template/src/Core/Middlewares/idempotency.middleware.ts:29-49 | a request changes only its own key's entry |
| RateLimit.StepKeepsCountsBounded | template/src/Core/Middlewares/idempotency.middleware.ts:40-48 | with maxRequests ≥ 1 every count stays in 1..maxRequests, through requests and cleanup |
| RateLimit.KeyIsInjective | template/src/Core/Middlewares/idempotency.middleware.ts:21 | requests whose method and ip contain no `-` get distinct keys |
| RateLimit.RateLimiter.constructor | template/src/Core/Middlewares/idempotency.middleware.ts:8-9 | the limiter starts with an empty cache and the given window and limit, which default to 10000 ms and 10 requests |
| RateLimit.RateLimiter.Middleware | template/src/Core/Middlewares/idempotency.middleware.ts:26-52 | the decision and the updated cache are those of Step on the request's key |
| RateLimit.RateLimiter.CleanupCache | template/src/Core/Middlewares/idempotency.middleware.ts:11-18 | the loop leaves the cache equal to Cleanup of the old cache |
| Users.Create | template/src/Modules/User/repository/user.repository.ts:18-27 | the created user carries the input fields unchanged, the given id and both timestamps equal to now |
| Users.UsersService.constructor | template/src/Modules/User/services/users.service.ts:10 | the service publishes on the given bus |
| Users.UsersService.RegisterNewUser | template/src/Modules/User/services/users.service.ts:21-25 | returns exactly the user the repository creates from the unchanged input (given id, both timestamps now), after one create call followed by exactly one welcome-mail publish carrying that user; every delivery carries it |
| Users.UsersService.NotifyRegister | template/src/Modules/User/services/users.service.ts:27-31 | publishes SEND_WELCOME_MAIL with payload {user} |
| Users.UsersServiceHolder.constructor | template/src/Modules/User/services/users.service.ts:11 | the static instance starts unset |
| Users.UsersServiceHolder.GetInstance | template/src/Modules/User/services/users.service.ts:14-19 | returns the stored instance, creating and storing it only when none exists |
| Users.GetInstanceTwice | template/src/Modules/User/services/users.service.ts:14-19 | two getInstance calls return the same instance |
| ZodFormat.DigitChar | template/src/Core/Common.ts:7 | the decimal digit character of d |
| ZodFormat.Decimal | template/src/Core/Common.ts:7 | a numeric path segment is written as a non-empty string of digits |
| ZodFormat.DecimalRoundTrip | template/src/Core/Common.ts:7 | reading the written digits back yields the number |
| ZodFormat.SegmentTexts | template/src/Core/Common.ts:7 | each path segment is converted to its text |
| ZodFormat.Split | template/src/Core/Common.ts:7 | splitting a string gives at least one part |
| ZodFormat.SplitAfterPrefix | template/src/Core/Common.ts:7 | a separator-free prefix joins the first part of the split |
| ZodFormat.SplitJoin | template/src/Core/Common.ts:7 | splitting a joined list of separator-free parts returns the parts |
| ZodFormat.FormatIssue | template/src/Core/Common.ts:5-10 | a formatted issue always ends with `: ` followed by its message |
| ZodFormat.FormatIssueReadsBack | template/src/Core/Common.ts:5-10 | the text before the final `: message`, split at `.`, gives each path segment's text, when no key holds a dot |
| ZodFormat.InvalidDataIffNoIssues | template/src/Core/Common.ts:12-22 | `Invalid data` is answered exactly when the error has no issue |
| ZodFormat.OnlyFirstIssueCounts | template/src/Core/Common.ts:16-18 | errors with the same first issue format identically |
| ZodFormat.RootIssueFormat | template/src/Core/Common.ts:7-9 | an issue with an empty path reads `: ` + message |
| ZodFormat.PathTextSplitsBack | template/src/Core/Common.ts:7 | when keys hold no `.`, splitting the formatted path at `.` recovers each segment's text |
| Validation.ValidateOutcomes | template/src/Core/Configs/global.validation.ts:7-21 | a failed parse sends 400 with formatZodError of the error and leaves the body; a successful parse calls next, replacing the body by the parsed data only when the override flag is set |
| Validation.RejectionReportsFirstIssue | template/src/Core/Configs/global.validation.ts:11-13 | the 400 message is the first issue's path and message |
| Validation.Request.constructor | template/src/Core/Configs/global.validation.ts:8 | a request holds the given body |
| Validation.ValidateSchema | template/src/Core/Configs/global.validation.ts:7-21 | the schema sees only the old body; reply and new body are those of Validate |
| ErrorMiddleware.ErrorHandler | template/src/Core/Middlewares/error.middleware.ts:9-55 | an object error gets exactly one response whose body reads back as `status: false` with the classified status and message (the message dropping out when undefined); a non-object makes the handler itself throw a TypeError |
| ErrorMiddleware.AppErrorWins | template/src/Core/Middlewares/error.middleware.ts:12-18 | an AppError yields its own status code and message, whatever else holds |
| ErrorMiddleware.OtherErrorPriority | template/src/Core/Middlewares/error.middleware.ts:21-54 | for other object errors: 422 `Validation failed` iff Validation/Zod name, 409 `Duplicate field value` iff otherwise code 11000, 400 `Invalid JSON` iff otherwise a body, and otherwise 500 with `Something went wrong` in production or the error's own message elsewhere |
| ErrorMiddleware.ProductionHidesMessages | template/src/Core/Middlewares/error.middleware.ts:21-54 | in production a non-AppError response carries only one of the four fixed messages |
| ErrorMiddleware.UnknownErrorOutsideProduction | template/src/Core/Middlewares/error.middleware.ts:48-54 | outside production an unclassified error with any code other than 11000 is reported as 500 with its own message |
| ErrorMiddleware.MissingMessageLeavesOnlyStatus | template/src/Core/Middlewares/error.middleware.ts:48-54 | outside production an unclassified error without a message sends 500 with a body holding only `status: false` |
| Responses.Success | template/src/Core/Response/response.handler.ts:11-17 | the JSON sent reads back as the response, has `status: true`, and has a `message` or `data` field exactly when that argument was given |
| Responses.Error | template/src/Core/Response/response.handler.ts:24-29 | the JSON sent reads back as the response and is exactly `status: false` and the message, with no `data` field |
| Responses.BodyRoundTrip | template/src/Core/Response/response.handler.ts:11-29 | the JSON body of a response parses back to that response |
| Responses.SendSuccess | template/src/Core/Response/response.handler.ts:20-22 | writes the given status code with a body that parses to success(data, message) |
| Responses.SendError | template/src/Core/Response/response.handler.ts:31-33 | writes the given status code with a body that parses to error(message) |
| Responses.ErrorBodyFields | template/src/Core/Response/response.handler.ts:24-29 | the error body holds exactly `status: false` and `message` |
| AppErrors.NewAppError | template/src/Core/Errors/app.errors.ts:12-24 | explicit arguments are stored unchanged and each omitted one independently takes its default (500, `INTERNAL_ERROR`, operational); the message passes through and details is absent when omitted |
| AppErrors.OmittedArgumentsTakeDefaults | template/src/Core/Errors/app.errors.ts:12 | omitted arguments default to 500, `INTERNAL_ERROR` and operational |
| Cors.NormalizeOrigin | template/src/Core/Middlewares/cors.ts:23 | one trailing `/` is removed, and nothing else changes |
| Cors.OriginDecision | template/src/Core/Middlewares/cors.ts:19-35 | allowed iff the origin is absent, empty, or normalised into the environment's list; a rejection carries `Not allowed by CORS` |
| Cors.NormalizeStripsOnlyOne | template/src/Core/Middlewares/cors.ts:23 | exactly one trailing slash is stripped |
| Cors.TrailingSlashTolerance | template/src/Core/Middlewares/cors.ts:23-34 | a listed origin is allowed with or without one trailing slash but not with two |
| Cors.EnvironmentsAreSeparate | template/src/Core/Middlewares/cors.ts:10-28 | the production origin is allowed iff NODE_ENV is production, the staging origin iff it is not |
| CookieStore.LastSetName | template/src/Core/Configs/cookies.ts:8 | the name of the last set call, which only remove calls follow; none when there was no set |
| CookieStore.StoredIsLastSetName | template/src/Core/Configs/cookies.ts:8-9 | after any calls the stored name is that of the most recent set, even when res.cookie is not a function |
| CookieStore.RemoveClearsLastSetCookie | template/src/Core/Configs/cookies.ts:19-21 | remove clears the cookie named by the most recent set |
| CookieStore.CookiesOnlyFromSetWithFunction | template/src/Core/Configs/cookies.ts:9-14 | a cookie is written only by a set whose response has a cookie function, and always with the session options (httpOnly, secure, sameSite none, seven days) |
| CookieStore.Response.constructor | template/src/Core/Configs/cookies.ts:7 | a response starts with no cookie calls |
| CookieStore.Cookies.constructor | template/src/Core/Configs/cookies.ts:5 | no cookie name is stored at first |
| CookieStore.Cookies.Set | template/src/Core/Configs/cookies.ts:7-17 | stores the name and writes the cookie only when res.cookie is a function |
| CookieStore.Cookies.Remove | template/src/Core/Configs/cookies.ts:19-21 | clears the stored name's cookie |
| PascalCase.MatchAt | template/scripts/generateModules.js:17 | a match starts at i iff the character there is a letter or digit |
| PascalCase.MatchAlnum | template/scripts/generateModules.js:17 | every matched character is a letter or digit |
| PascalCase.TokensAlnum | template/scripts/generateModules.js:17 | every token is non-empty and alphanumeric |
| PascalCase.TokensCoverAlnum | template/scripts/generateModules.js:17 | the tokens concatenate to the input's letters and digits; separators are dropped |
| PascalCase.PascalCaseFailsIffNoAlnum | template/scripts/generateModules.js:16-18 | toPascalCase fails (match is null) iff the input has no letter or digit |
| PascalCase.PascalCaseKeepsAlnum | template/scripts/generateModules.js:17-19 | apart from case, the output is the input's letters and digits |
| PascalCase.PascalCaseShape | template/scripts/generateModules.js:17-19 | the output is the concatenation of the capitalised tokens: each word starts with a character that is not a lowercase letter (an uppercase letter, or a digit left as it is, as in `2fa`) and has no uppercase letter after it; the output is only ASCII letters and digits |
| PascalCase.SeparatedWords | template/scripts/generateModules.js:17-19 | two lowercase words around a separator become their capitalised concatenation |
| PascalCase.AcronymBeforeWord | template/scripts/generateModules.js:17 | an uppercase run before a capitalised word splits before the last capital |
| PascalCase.KebabCaseExample | template/scripts/generateModules.js:11-20 | `my-wallet` becomes `MyWallet` |
| PascalCase.AcronymExample | template/scripts/generateModules.js:17 | `XMLHttp` becomes `XmlHttp` |
| PascalCase.Capitalize | template/scripts/generateModules.js:18 | capitalisation keeps the length |
| PascalCase.LowerAll | template/scripts/generateModules.js:153 | lowercasing maps each character |
| ModuleGenerator.IndexOf | template/scripts/generateModules.js:28 | the first position of the argument, or none exactly when absent |
| ModuleGenerator.ModuleNameUsesFirstFlag | template/scripts/generateModules.js:27-35 | the name is missing iff `--name` is absent or its next argument is missing or empty; otherwise the first `--name` is used |
| ModuleGenerator.TrimStartCuts | template/scripts/generateModules.js:198 | trimming the start removes only leading white space, up to a non-space |
| ModuleGenerator.TrimEndCuts | template/scripts/generateModules.js:198 | trimming the end removes only trailing white space |
| ModuleGenerator.TrimCutsOnlySpace | template/scripts/generateModules.js:198 | trim returns a slice with only white space cut on both ends and no white space at its ends |
| ModuleGenerator.TrimIdempotent | template/scripts/generateModules.js:198 | trimming twice equals trimming once |
| ModuleGenerator.ModulePath | template/scripts/generateModules.js:154 | the module lives at src/Modules/<Pascal> |
| ModuleGenerator.StructureShape | template/scripts/generateModules.js:164-183 | the plan has six directories entity, http, repository, route, services, validation, each with one `<lower>.<kind>.ts` file |
| ModuleGenerator.MkdirAll | template/scripts/generateModules.js:186 | a failed recursive mkdir changes nothing |
| ModuleGenerator.MkdirAllCreates | template/scripts/generateModules.js:186 | a recursive mkdir creates every missing ancestor as a directory, keeps existing entries and adds nothing else |
| ModuleGenerator.Step | template/scripts/generateModules.js:186-198 | a failed file-system call changes nothing |
| ModuleGenerator.RunFailureStops | template/scripts/generateModules.js:190-201 | after a failure no later call has an effect |
| ModuleGenerator.RunAppend | template/scripts/generateModules.js:190-201 | running two call lists is running the first, then the second |
| ModuleGenerator.RunSnoc | template/scripts/generateModules.js:190-201 | one more call runs only if all earlier calls succeeded |
| ModuleGenerator.FileSystem.constructor | template/scripts/generateModules.js:1 | the file system holds the given entries |
| ModuleGenerator.FileSystem.ExistsSync | template/scripts/generateModules.js:158 | existence is membership in the entries |
| ModuleGenerator.FileSystem.MkdirSync | template/scripts/generateModules.js:186-192 | the entries change as Step says for a mkdir |
| ModuleGenerator.FileSystem.WriteFileSync | template/scripts/generateModules.js:198 | the entries change as Step says for a write |
| ModuleGenerator.Generate | template/scripts/generateModules.js:151-206 | the whole script, outcome and file system as GenerateSpec says |
| ModuleGenerator.Scaffold | template/scripts/generateModules.js:158-201 | the existence check, mkdir and creation loop as ScaffoldSpec says |
| ModuleGenerator.CreateAll | template/scripts/generateModules.js:190-201 | the nested loops perform the plan's calls in order, stopping at the first failure |
| ModuleGenerator.FailedWriteStops | template/scripts/generateModules.js:195-200 | a failed write ends the run of the remaining writes |
| ModuleGenerator.CreateDirectory | template/scripts/generateModules.js:191-200 | one directory, then its files, stopping at the first failure |
| ModuleGenerator.FileOpsAppend | template/scripts/generateModules.js:195-200 | the writes of two file lists are concatenated |
| ModuleGenerator.PlanPrefix | template/scripts/generateModules.js:190-201 | the calls for a prefix of the structure are a prefix of the plan |
| ModuleGenerator.FailedPrefix | template/scripts/generateModules.js:190-201 | a failing prefix decides the outcome of the whole plan |
| ModuleGenerator.RunPlanCreates | template/scripts/generateModules.js:190-201 | into an empty module directory, every planned directory and trimmed file is created, existing entries are kept and nothing unplanned appears |
| ModuleGenerator.ModuleDirectoryCreated | template/scripts/generateModules.js:186 | the recursive mkdir of a new module path creates it and its missing ancestors only |
| ModuleGenerator.ScaffoldCreatesModule | template/scripts/generateModules.js:158-201 | for a new module the script reports success, keeps all existing entries and installs all six directories with their trimmed template files and nothing else |
| ModuleGenerator.ExistingModuleWritesNothing | template/scripts/generateModules.js:158-161 | an existing module directory exits with code 1 and writes nothing |
| ModuleGenerator.MissingNameWritesNothing | template/scripts/generateModules.js:16-33 | a missing name exits with code 1, an unmatchable name crashes, and neither writes anything |

## Left out

- Asynchrony: promises, `await`, and the interleaving of concurrent requests or event handlers are modelled as sequential steps. The event emitter's internals are replaced by the ordered subscriber list.
- Handler, factory and schema behaviour are parameters. Factories are abstract producers that return a fresh instance id. A handler's outcome and the schema's parse result come from a given function.
- Clocks and randomness:
  - `Date.now()` is a `now` parameter of the rate limiter and of user creation.
  - The mock repository's random id is an `id` parameter.
- `setInterval` scheduling of the cache cleanup is left out; `CleanupCache` is the callback it would run.
- Console output and logging side effects are left out, except the event bus's failure log line, which is part of the delivery trace.
- `process.exit` becomes the `Exited(1)` outcome. The crash of `toPascalCase` on a null match becomes `Crashed`.
- The bodies of the generator's six templates are a parameter `templates`. Only their trimming and placement are modelled.
- The file system is a map from path segment lists to directories and files. `path.join` normalisation, permissions and I/O errors other than a missing parent or an existing path are not modelled.
- Express, `http.Server`, Sentry, Redis, `systemCheck`, `encryption.ts`, the email service and its templates, and the route/middleware managers are not part of this model. Each manager appears in the bootstrap only as the layer label it adds. A setup phase installs its whole layer or, when it throws, none of it: the `app.use` calls a real manager makes before it throws are not modelled.
- The `cors` package that consumes the options is a foreign library. Only the `origin` decision and the fixed options are modelled.
- `toPascalCase` matches only ASCII letters and digits, as the regular expression's character classes do. For the `\b` boundary, `_` also counts as a word character (`IsWordChar`), though no token ever contains it. `toUpperCase`/`toLowerCase` on non-ASCII characters is not modelled.
- JSON numbers are integers; floating point is left out.
- The static fields `UsersService.instance` and `Cookies.cookie` become holder objects (`UsersServiceHolder`, `Cookies`) that are passed around.
- ErrorMiddleware.Thrown: an object error's `name` is a string and its `message` a string or absent. Non-string `name` or `message` values are not modelled: a non-string name behaves like any unmatched name, and a non-string message would be sent as a JSON value other than a string. Every non-object value (`null`, `undefined`, a string, a number) is one case, `NonObject`, on which the handler throws.
- Users.UsersService.RegisterNewUser: the repository call is not awaited as a separate object. The created user is given by `Create` from the input, an id and the clock.
- ModuleGenerator.ScaffoldCreatesModule: stated for a file system whose `src` and `src/Modules` are absent or directories. When one of them is a file, the script fails and `Exited`/`Crashed` outcomes are not characterised further.
