# Review-rewards SMS and voice webhook, modelled in Dafny

The modelled program is a small web service. It texts hotel customers an
invitation to leave a spoken review and reads their SMS replies. A "yes"
gets a confirmation, a call notification, a pause of eight seconds and a
phone call that plays a TwiML script and records the review. A "no" gets a
goodbye. Any other reply gets the invitation's fallback text. When the
provider reports that the call has completed, the service texts a thank-you.
A campaign endpoint greets and invites every customer. A registration page
checks its form in the browser before posting it. Two entry points start the
server: one reads flags (`main.go`), the other reads the environment
(`cmd/app/main.go`).

The model is a set of Dafny modules that follow the program's packages:

- `Message`: the catalog.
- `Sms` and `Voice`: the two services.
- `Configuration`: the configuration and customer records.
- `ReviewController`: the webhook.
- `Registration`: the page's validators.
- `Logging`: the shared log-level parser.
- `Startup`, `CliMain` and `AppMain`: the entry points.

The support modules are:

- `Results`: option, result and outcome types.
- `Format`: the part of `fmt` that is used.
- `Strings`: `TrimSpace` and `ToLower`.
- `Transport`: the provider, the Pub/Sub topic and the clock.
- `Plans`: a handler's outbound work as a list of steps.

The provider is not modelled. The `Transport.Gateway` class records every
request together with an arbitrary answer, and the handlers hand those
answers back as ghost values. Their contracts then pin the whole history of
requests, publications and pauses to a pure function of those answers:
`Plans.Run` for a webhook reply, `ReviewController.Campaign` for the
campaign. Lemmas about these functions state what the program promises.
They cover:

- the order of the steps;
- stopping at the first failure;
- the call being placed only after both texts were accepted;
- every customer being greeted.

A Go error value is an `Outcome`: `Ok`, `Err(text)` or `Panic`. `sendMessage`
converts every error to `*TwilioRestError` without checking its type, so a
transport error of any other kind panics. In a handler, the router's
recovery turns that panic into a 500 (`Panicked`). In a campaign goroutine
nothing recovers it, so it ends the process (`Crashed`).

## Model

| member | source | states |
|---|---|---|
| `Message.HelloMessageShape` | pkg/message/message.go:46-48 | the personalised greeting is exactly "Hello, " + name + "!" for every name |
| `Message.HelloMessageNameRecoverable` | pkg/message/message.go:46-48 | the name can be read back from the greeting, so distinct names give distinct greetings |
| `Format.SprintfOneString` | pkg/message/message.go:30 | a template with one `%s` between two `%`-free parts, given one argument, puts the argument between the parts |
| `Message.GetReviewGreetingAndInstructionsTwiML` | pkg/message/message.go:50-57 | the script built by successive appends is the constant `<Response>` + greeting + instructions + record + `</Response>`, and starts with `<Response>` and ends with `</Response>` |
| `Message.ReviewTwimlFrame` | pkg/message/message.go:51-55 | the call script starts with `<Response>` and ends with `</Response>` |
| `Message.ReviewTwimlGreets` | pkg/message/message.go:33-35 | the call script contains "Ahoy! Greetings from Twilio Resorts and Spas" |
| `Message.ReviewTwimlRecords` | pkg/message/message.go:41-43 | the call script contains the record verb with timeout 10, maxLength 60 and a beep |
| `Configuration.CustomerToMap` | pkg/configuration/customer_configuration.go:14-23 | the map has exactly the six keys phoneNumber, firstName, lastName, email, id and createdAt |
| `Configuration.CustomerToMapFields` | pkg/configuration/customer_configuration.go:16-21 | every key holds its own field unchanged, so email and phone number are not swapped |
| `Configuration.CustomerMapRoundTrip` | pkg/configuration/customer_configuration.go:14-23 | the customer rebuilt from the map is the original |
| `Configuration.CustomerMapRoundTripBack` | pkg/configuration/customer_configuration.go:14-23 | any map with exactly the six keys is the map of the customer rebuilt from it |
| `Strings.TrimSpaceIsTrim` | pkg/controller/review_controller.go:76 | trimming keeps a contiguous slice of the body and removes only white space at either end, and what it keeps neither starts nor ends with white space |
| `Strings.TrimSpaceIgnoresPadding` | pkg/controller/review_controller.go:76 | white space added at either end does not change the trimmed body |
| `Strings.TrimSpaceOfLower` | pkg/controller/review_controller.go:76-80 | trimming and lower-casing can be done in either order |
| `Strings.ToLowerIdempotent` | pkg/controller/review_controller.go:80 | lower-casing twice is lower-casing once |
| `Sms.SendMessage` | pkg/sms/sms_service.go:116-188 | exactly one create request with To = to, From = from and Body = body; when it is accepted, one publication of {to, body} and success; an API error returns errMsg + ". Error: " + the error text with nothing published; any other error panics |
| `Sms.PublishesOnlyOnSuccess` | pkg/sms/sms_service.go:131-186 | a send publishes exactly when the provider accepts it; the one payload published is the JSON object `{"to": recipient, "message": body}`, which reads back as the record; and with any error prefix the send succeeds exactly when it was accepted |
| `Sms.JsonRoundTrip` | pkg/sms/sms_service.go:23-26 | the marshalled record, under the JSON tags `to` and `message`, reads back as the record, and only that record's own payload reads back as it |
| `Sms.SendGreeting` | pkg/sms/sms_service.go:45-50 | sends GREETING from the account's number to `to`, with the greeting error prefix |
| `Sms.SendInvite` | pkg/sms/sms_service.go:52-57 | sends PARTICIPATION_INVITE from the account's number to `to`, with its error prefix |
| `Sms.SendAcceptConfirmation` | pkg/sms/sms_service.go:59-64 | sends PARTICIPATION_ACCEPT_RESPONSE from the account's number to `to`, with its error prefix |
| `Sms.SendInviteFallback` | pkg/sms/sms_service.go:66-71 | sends PARTICIPATION_INVITE_FALLBACK from the account's number to `to`, with its error prefix |
| `Sms.SendAskForName` | pkg/sms/sms_service.go:73-78 | sends ASK_FOR_NAME from the account's number to `to`, with its error prefix |
| `Sms.SendAskForNameFallback` | pkg/sms/sms_service.go:80-85 | sends the same ASK_FOR_NAME body, with the fallback's own error prefix |
| `Sms.SendNamedGreeting` | pkg/sms/sms_service.go:87-93 | sends GetHelloMessage(name) from the account's number to `to`, with its error prefix |
| `Sms.SendCallNotification` | pkg/sms/sms_service.go:95-100 | sends CALL_NOTIFICATION from the account's number to `to`, with its error prefix |
| `Sms.SendThankYou` | pkg/sms/sms_service.go:102-107 | sends PARTICIPATION_THANKYOU from the account's number to `to`, with its error prefix |
| `Sms.SendGoodbye` | pkg/sms/sms_service.go:109-114 | sends GOODBYE from the account's number to `to`, with its error prefix |
| `Voice.InitiateReviewCall` | pkg/voice/voice_service.go:34-47 | exactly one create-call request with the review call's parameters; success when accepted, otherwise "[InitiateReviewCall] Failed to create review call.\n Error: " + the error text |
| `Voice.ReviewCallFields` | pkg/voice/voice_service.go:36-41 | the call goes to `to` from the account's number, reports only "completed" to base URL + callback path with the configured method, and carries the review script, which greets the customer and records the answer |
| `Voice.RetrieveCallLogs` | pkg/voice/voice_service.go:49-66 | with a list failure, the "[RetrieveCallLogs]" error; otherwise one entry per provider record, in order, with the four fields copied, or a panic exactly when some record lacks a field |
| `ReviewController.FailsClosed` | pkg/controller/review_controller.go:127-140 | without a signature header a request is refused, whatever the validator would answer |
| `ReviewController.IsValidRequest` | pkg/controller/review_controller.go:127-140 | the loop over the form builds the first value of every key, and the answer is the validator applied to baseURL + RequestURI, those values and the first signature, or false with no signature |
| `ReviewController.AcceptExactly` | pkg/controller/review_controller.go:76-93 | the accept branch runs exactly when the trimmed body is "yes" in any mix of upper and lower case |
| `ReviewController.DeclineExactly` | pkg/controller/review_controller.go:94-102 | the goodbye branch runs exactly when the trimmed body is "no" in any mix of upper and lower case |
| `ReviewController.ClassifyIgnoresPadding` | pkg/controller/review_controller.go:76 | white space around the reply does not change its branch |
| `ReviewController.ClassifyIgnoresCase` | pkg/controller/review_controller.go:80 | lower-casing the reply does not change its branch |
| `ReviewController.AcceptExample` | pkg/controller/review_controller.go:80 | "Yes" selects the accept branch |
| `ReviewController.DeclineExample` | pkg/controller/review_controller.go:94 | "No" selects the goodbye branch |
| `ReviewController.FallbackExample` | pkg/controller/review_controller.go:103-105 | "yeah" selects the fallback branch |
| `ReviewController.SendInviteConfirmation` | pkg/controller/review_controller.go:152-157 | performs the one-step confirmation plan and returns its outcome |
| `ReviewController.SendCallNotificationAndInitiateCall` | pkg/controller/review_controller.go:159-168 | performs notification, an 8-second pause and the call, stopping at the first failure, and returns that run's outcome |
| `ReviewController.SendGreetingAndInvite` | pkg/controller/review_controller.go:142-150 | performs greeting then invite, stopping at the first failure, and returns that run's outcome |
| `ReviewController.HandleSms` | pkg/controller/review_controller.go:67-113 | an invalid request gets 403 with nothing sent; otherwise the history grows by exactly the run of the reply's branch plan, and the answer is 200 on success, 500 on an error and a recovered panic otherwise |
| `ReviewController.AnswerReply` | pkg/controller/review_controller.go:74-112 | the steps performed are exactly the plan of the reply's branch, up to its first failure, and the result is that run's outcome |
| `ReviewController.HandleCallEvent` | pkg/controller/review_controller.go:115-125 | an invalid request gets 403 with nothing sent; otherwise exactly one thank-you to the `To` number, answered 200 even when it fails, unless the send panicked |
| `ReviewController.SingleTextBranches` | pkg/controller/review_controller.go:94-112 | the goodbye branch sends exactly one goodbye and the fallback branch exactly one fallback, whatever the provider answers |
| `ReviewController.AcceptPlanned` | pkg/controller/review_controller.go:82-92 | the accept branch requests, in order, the confirmation, the notification and the review call |
| `ReviewController.CallOnlyAfterBothTexts` | pkg/controller/review_controller.go:82-92 | the review call is requested only if both the confirmation and the notification were accepted |
| `ReviewController.LastOfPlanMeansEarlierAccepted` | pkg/controller/review_controller.go:82-92 | a run that made its plan's last request, one no earlier step makes, had every earlier request accepted |
| `ReviewController.GreetAndInvitePlanned` | pkg/controller/review_controller.go:142-150 | greet-and-invite requests the greeting and then the invite |
| `ReviewController.GreetingFailureSkipsInvite` | pkg/controller/review_controller.go:143-145 | a refused greeting is the only request, and the invite is skipped |
| `ReviewController.GreetingAttempted` | pkg/controller/review_controller.go:143 | greet-and-invite always requests the greeting |
| `ReviewController.StartReviewCampaign` | pkg/controller/review_controller.go:41-65 | a lookup error gives 500 with nothing sent; otherwise each customer is greeted and invited in turn, and the answer reports `invites` = the number of customers whatever the sends did, unless a send panicked |
| `ReviewController.CampaignSnoc` | pkg/controller/review_controller.go:50-57 | one more customer extends a campaign that did not crash by exactly that customer's greet-and-invite run, and crashes it exactly when that run panics |
| `ReviewController.ConsumedExtend` | pkg/controller/review_controller.go:50-57 | when every earlier customer's run used exactly its answers and so did the new one's, the longer campaign keeps that property |
| `ReviewController.CampaignAdvance` | pkg/controller/review_controller.go:50-57 | greeting and inviting the next customer extends the campaign so far by that customer's events, and the campaign crashes exactly when that send panicked |
| `ReviewController.CampaignUnfold` | pkg/controller/review_controller.go:50-57 | a campaign that did not crash is the shorter campaign, which did not crash either, followed by the last customer's run |
| `ReviewController.CampaignGreetsEveryone` | pkg/controller/review_controller.go:50-57 | a campaign that did not crash has requested a greeting to every customer, whatever the provider answered |
| `ReviewController.CampaignAllAccepted` | pkg/controller/review_controller.go:50-64 | when every request is accepted the campaign does not crash and requests greeting then invite for each customer in order, two per customer |
| `Plans.StepFacts` | pkg/controller/review_controller.go:159-168 | a step makes its request, records its answer, and succeeds exactly when it is a pause or its request was accepted |
| `Plans.RunStopsAtFirstFailure` | pkg/controller/review_controller.go:82-112 | a run makes a prefix of its plan's requests in order; it succeeds exactly when every answer was an acceptance, and then it made all of them; otherwise only its last request was refused |
| `Plans.RunAppend` | pkg/controller/review_controller.go:82-91 | running two plans one after the other is running their concatenation, the second only if the first succeeded |
| `Plans.RunAllAccepted` | pkg/controller/review_controller.go:82-92 | with every request accepted, a run succeeds and makes its whole plan |
| `Plans.RunStarts` | pkg/controller/review_controller.go:82 | a run always makes the first request of its plan |
| `Format.DecimalRoundTrip` | cmd/app/main.go:146 | the `%d` rendering of a count reads back as that count |
| `Startup.CallTotalBodyCount` | cmd/app/main.go:146 | the answer is "Total Calls: " followed by digits that read back as the count |
| `Startup.CallTotalHandler` | cmd/app/main.go:140-147 | one call-log request; a list error gives 500; otherwise 200 with "Total Calls: N" for the N records, or a recovered panic when a record lacks a field |
| `Startup.LookupFinds` | cmd/app/main.go:134-148 | the router takes the first route registered for a method and path |
| `Startup.LookupSound` | cmd/app/main.go:134-148 | a request is routed exactly when some registered route has its method and path, and then to that route's handler |
| `Startup.LookupMisses` | cmd/app/main.go:134-148 | a request no registered route matches gets no handler |
| `Logging.InitializeLoggerAccepts` | main.go:86-105 | a level name is accepted exactly when it is one of debug, info, warn, error, panic and fatal, and selects the level of that name; anything else gives "invalid log level argument" |
| `Logging.LevelNameSelects` | cmd/app/main.go:184-203 | each of the six levels is selected by its own name |
| `Logging.LevelNameInjective` | main.go:88-100 | distinct levels are selected by distinct names |
| `Logging.LoggerExamples` | main.go:101-102 | "", "INFO" and "Debug" are refused, and "info" is accepted |
| `CliMain.MainChecks` | main.go:26-60 | an empty `from` aborts first, then an empty `url`; start-up succeeds exactly when both are set and the level is accepted, and then carries the flags' values and the environment's account |
| `CliMain.BadLevelAborts` | main.go:57-60 | an unaccepted level ends start-up with "Failed to initialize logger. Error: invalid log level argument" |
| `CliMain.DefaultLevelIsInfo` | main.go:30 | without a `loglevel` flag the default "info" is used and accepted |
| `CliMain.CallbackIsRouted` | main.go:54-55 | the configured status callback method and path reach the call-event handler |
| `CliMain.RoutesReachHandlers` | main.go:72-82 | the SMS, call-total and favicon routes reach their handlers, and unregistered ones reach none |
| `AppMain.MainChecks` | cmd/app/main.go:76-120 | a tracer failure aborts first, then an empty phone number, then an empty base URL; start-up succeeds exactly when all are set and LOG_LEVEL names a level, and then carries the environment's values |
| `AppMain.UnsetLevelAborts` | cmd/app/main.go:92 | with LOG_LEVEL unset, start-up ends with the logger error |
| `AppMain.CallbackIsRouted` | cmd/app/main.go:114-115 | the configured status callback method and path reach the call-event handler |
| `AppMain.RoutesReachHandlers` | cmd/app/main.go:134-148 | ping, SMS, metrics and call-total reach their handlers, and a POST to /call-total reaches none |
| `Registration.Utf16LengthBounds` | asset/script.js:27 | a string's JavaScript length is between its character count and twice that, is zero only when it is empty, and equals the character count in the Basic Multilingual Plane |
| `Registration.NameBounds` | asset/script.js:25-39 | a name is accepted exactly when it has 1 to 32 characters, for names in the Basic Multilingual Plane; over 32 characters or empty is always refused |
| `Registration.NameChecksReadTheirField` | asset/script.js:33-39 | the last-name check reads the last-name field and the first-name check the first-name field, each ignoring the other |
| `Registration.NameBoundaries` | asset/script.js:27 | a 32-letter name is accepted; a 33-letter name and the empty name are refused |
| `Registration.MatchesGroupsIff` | asset/script.js:51 | a fixed-width run of anchored digit groups matches exactly the digit strings as long as the widths together |
| `Registration.PhoneIsTenDigits` | asset/script.js:50-57 | a phone number is valid exactly when it is ten ASCII digits |
| `Registration.PhoneExamples` | asset/script.js:51 | ten digits are accepted; a plus sign, spaces, dashes or nine digits are refused |
| `Registration.ValidInputsIff` | asset/script.js:15-23 | the form is valid exactly when both names have 1 to 32 units, the phone is ten digits and the e-mail check accepts |
| `Registration.OnSubmitClick` | asset/script.js:3-13 | a form is posted to /register exactly when both names are 1 to 32 UTF-16 code units, the phone number is ten digits and the e-mail check accepts, and the posted JSON reads back as the form; otherwise "Invalid Input" is alerted |
| `Registration.FormJsonRoundTrip` | asset/script.js:59-70 | the posted JSON reads back as the form, and only the form's own JSON reads back as it |

## Left out

- The database behind `StartReviewCampaign`. Its customer list arrives as a `Result` value, and a lookup error is a `Failure`.
- The routes of `main.go` and `cmd/app/main.go` pass four arguments to `NewReviewController`. The controller's constructor takes six (it adds a context and the database). The entry points also never register the campaign route. The model builds the controller from its configuration, base URL and validator.
- The constructor calls in the entry points do not match their definitions: main.go:62 passes three arguments to the four-parameter `NewSMSService` (pkg/sms/sms_service.go:41), and main.go:63 and cmd/app/main.go:123 pass three arguments to the two-parameter `NewVoiceService` (pkg/voice/voice_service.go:30); cmd/app/main.go:122 matches its definition. The model gives both services one shared configuration.
- The goroutines and `WaitGroup` of `StartReviewCampaign` run in the model as a sequential loop, in customer order. The model does not capture requests interleaving across customers.
- `time.Sleep` is a `Slept(8)` event, not real time.
- The Pub/Sub client: creating it reads `PROJECT_ID` and `TOPIC`, and its failure (`log.Fatalf`) is assumed not to happen. A failed publish is only printed to stdout, so the model records the publication and nothing more. The published payload is modelled as the JSON object's members (keys and values in order); the byte-level text `json.Marshal` writes, with its escaping, is not modelled.
- The `/ping` handler's fixed answer (200 "pong") is not modelled; only its route is.
- Logging (zap debug and error lines), Prometheus metrics and OpenTelemetry tracing: none of them affects a result. Tracer set-up is reduced to its error value in `AppMain.Main`.
- `initializeLogger`'s `cfg.Build()` is assumed to succeed, and `logger.Sync` is not modelled.
- The request validator's HMAC check is an arbitrary function parameter.
- `Strings.ToLower` lower-cases ASCII letters only. Non-ASCII letters cannot lower-case to `y`, `e`, `s`, `n` or `o`, so the branch choice is unaffected.
- `Format.Sprintf` handles only the `%s` and `%%` verbs, which are all the catalog uses.
- `Sms.SendGreeting` takes no name. `sendGreetingAndInvite` passes the customer's first name, which the service's signature does not accept. The model follows the service and always sends the fixed greeting.
- The test for `GetReviewGreetingAndInstructionsTwiML` expects an error result as well. The model follows `message.go`, which returns a string only.
- `Registration.IsValidInputs`: the e-mail regular expression is an arbitrary parameter. The real expression is unanchored, so it accepts any value that contains a match.
- The DOM reads, `clearForm`, and the XHR in `submit` (including the callback on a 200 answer) from the registration page. The click handler is modelled up to what it posts.
- `flag.Parse` internals: flags arrive as a map. Environment variables arrive as a map too, and an unset one reads as "".
- Gin internals: each route table registers every method and path once (Gin refuses a duplicate registration), so `Startup.Lookup` picking the matching route stands for the router's dispatch. `StaticFile` is modelled as a GET and a HEAD route. The 404 for unregistered routes, the favicon file and the `/metrics` handler's output are not modelled.
- `GenerateUserID` (random UUIDs), the register and control-panel controllers, and the customer-data-platform clients are not part of this model.
