# Registration system: account service, clients and form, in Dafny

This project models the logic of a small registration/login system:

- the **account service** (`server/app.py`, over the user collection of
  `server/database.py`): the `/register` and `/login` handlers as functions
  over a store, which is a sequence of user records in insertion order;
- the **message service**'s `/generate-message` handler
  (`message-service/server.js`), with the text generator as an oracle;
- the **web client** (`web/src/api.js`): `register` makes the account call,
  then the welcome-message call, then merges the replies; `login` is a
  single call;
- the **mobile client** (`mobile_screen/LoginApp/services/authService.js`):
  `authService.login` and `authService.register`;
- the **web registration form** (`web/src/pages/RegisterForm.js`):
  `handleSubmit`, `handleChange` and `handleCloseSnackbar` as pure
  transitions on `{formData, loading, snackbar, navScheduled}`.

Every HTTP exchange is a parameter: an `Outcome` (`NoResponse`, or
`Reply(status, body)`) for axios, a `FetchOutcome` for `fetch`, and a
`WelcomeReply` for the server's `requests` call. Each client operation
returns the list of requests it actually made, so its sequencing can be
stated. Values are JSON values plus JavaScript's `undefined` (module
`Values`). That module also holds the coercions the code depends on:
truthiness, property reads that throw on `null`, `String(...)`,
`JSON.stringify` dropping `undefined` properties, and object spread.

Files: `values.dfy`, `http.dfy`, `account_service.dfy`,
`message_service.dfy`, `web_api.dfy`, `mobile_auth.dfy`,
`register_form.dfy`, and `pipeline.dfy` (properties of the components put
together).

Where the specification and the code differ, the model follows the code:

- The web client does not validate its input. The empty-field guard lives
  only in the form.
- The server's `/register` is more tolerant than the specification's
  orchestrator: it answers 201 even when the greeting fails.
- The server stores the whole request body, extra keys included.

## Model

| member | source | states |
|---|---|---|
| AccountService.GetUser | registration-system/server/database.py:25-26 | the result is nothing exactly when no stored record has that email; otherwise it is a stored record with that email and no earlier record has it |
| AccountService.WelcomeMessage | registration-system/server/app.py:31-36 | a transport failure or an undecodable body gives "Welcome to our service!"; an object body with `message` gives that value, one without it gives null; a JSON body that is not an object gives no value (the handler crashes) |
| AccountService.Register | registration-system/server/app.py:15-41 | missing email/password/name gives 400 "Missing required fields" whatever the store holds; a taken email gives 409 "User already exists"; both leave the store unchanged and call nothing. The store changes exactly when the email is new, only by appending the body unchanged. The message service is then called once with the name, and the reply is 201 "Registration successful" with the greeting, or 500 if the greeting body is not an object |
| AccountService.Login | registration-system/server/app.py:43-64 | missing email or password gives 400; with both keys every non-200 answer is 401 "Invalid email or password", for an unknown email and for a wrong password alike; 200 exactly when the first stored record with that email has exactly that password (and a name); its body holds that record's email and name and no password |
| AccountService.RegisterPreservesValid | registration-system/server/app.py:23-28 | if stored records are well formed and their emails pairwise distinct, both still hold after a registration |
| AccountService.LoginSucceedsIff | registration-system/server/app.py:51-56 | on a valid store, login answers 200 if and only if some stored user has that email and that password, and it never crashes |
| AccountService.LoginWrongPasswordRefused | registration-system/server/app.py:52-56 | on a valid store, an email whose stored password differs from the supplied one gets the same 401 as an unknown email |
| AccountService.RegisterThenLogin | registration-system/server/app.py:24-28 | after registering a new email, logging in with the same email and password returns 200 with that email and name |
| AccountService.Serve | registration-system/server/app.py:15-64 | handling requests one at a time never removes or rewrites a stored record, and adds at most one per request |
| AccountService.ServePreservesValid | registration-system/server/app.py:20-28 | any sequence of register and login requests, handled one at a time, keeps the emails distinct and the records well formed |
| MessageService.GenerateMessage | registration-system/message-service/server.js:12-30 | the reply is always a JSON object: 200 with the completion under `message` (`undefined` leaves the key out), or 500 with "Failed to generate message" when the generator fails or the request body is undefined or null (a request without a JSON body under Express 5) |
| WebApi.AccountRequest | registration-system/web/src/api.js:15-19 | the account request carries email and password unchanged and the username under `name`; it has no other key, so there is no `username` key; undefined fields are left out |
| WebApi.MessageRequest | registration-system/web/src/api.js:24-26 | the message request carries only `name`, set to the username |
| WebApi.FailureText | registration-system/web/src/api.js:32-34 | a failure without a response gives the fallback; an HTTP error gives its body's truthy `error` field as text, else the fallback |
| WebApi.Merge | registration-system/web/src/api.js:28-31 | the result has every key of the account reply plus `welcomeMessage`; `welcomeMessage` holds the greeting and overrides a same-named account key; every other key keeps the account reply's value |
| WebApi.Register | registration-system/web/src/api.js:10-36 | the account call comes first; the message call is made exactly when the account call succeeded. Either call failing throws with its reply's error text or "Registration failed". Success happens exactly when both calls succeed, and then gives the merge of the two replies |
| WebApi.Login | registration-system/web/src/api.js:38-46 | posts the credentials as given; a 2xx body is returned verbatim; otherwise it throws the body's `error` or "Login failed" |
| WebApi.AccountRequestForwardsFields | registration-system/web/src/api.js:10-19 | for string fields the account request is exactly `{email, password, name: username}`, empty strings included, whatever other keys the form has |
| WebApi.AccountFailureSkipsMessage | registration-system/web/src/api.js:15-26 | when the account call fails no message call is made, and the message outcome cannot affect the result |
| WebApi.FailingStepIndistinguishable | registration-system/web/src/api.js:32-34 | the same failing reply gives the same error at the account step and at the message step |
| WebApi.MessageFailureNotCompensated | registration-system/web/src/api.js:24-34 | after a successful account call, a failing message call fails the registration, and no further call is made |
| WebApi.RegistrationExample | registration-system/web/src/api.js:28-31 | account reply `{id: 1, name: "Ana"}` with greeting "Welcome, Ana! Glad to have you." resolves to `{id: 1, name: "Ana", welcomeMessage: ...}` |
| Values.ErrorText | registration-system/web/src/api.js:34 | the Error thrown for a field and a fallback has the fallback as its message when the field is falsy, the string itself when it is a non-empty string, and "[object Object]" for an object |
| MobileAuth.Settle | registration-system/mobile_screen/LoginApp/services/authService.js:14-24 | network and parse errors are rethrown unchanged; a decoded 2xx body is returned verbatim; otherwise it throws with the body's truthy `error` or the fallback, or with a TypeError for a null body; success happens exactly on a decoded 2xx reply |
| MobileAuth.Login | registration-system/mobile_screen/LoginApp/services/authService.js:4-25 | posts `{email, password}`; it succeeds exactly on a decoded 2xx reply and returns that body; network and parse errors are rethrown unchanged; a non-2xx object body throws its `error` or "Login failed", a non-2xx null body a TypeError |
| MobileAuth.Register | registration-system/mobile_screen/LoginApp/services/authService.js:27-48 | its one call goes to the account register route with `{email, password, name}`, and it requests no greeting; it succeeds exactly on a decoded 2xx reply; network and parse errors are rethrown unchanged; a non-2xx object body throws its `error` or "Registration failed", a non-2xx null body a TypeError |
| MobileAuth.RegisterSendsArguments | registration-system/mobile_screen/LoginApp/services/authService.js:29-35 | with string arguments the body is exactly `{email, password, name}`, empty strings included |
| MobileAuth.ParseFailureIgnoresStatus | registration-system/mobile_screen/LoginApp/services/authService.js:14-24 | a body that fails to parse is rethrown unchanged whatever the status |
| RegisterForm.Start | registration-system/web/src/pages/RegisterForm.js:80-94 | the submission is rejected exactly when username, email or password is missing or empty, and then only the snackbar changes, to the error "Please fill in all fields"; otherwise only loading turns on, and the form data goes to `register` |
| RegisterForm.SuccessText | registration-system/web/src/pages/RegisterForm.js:99-103 | the success text is `welcomeMessage` when truthy, else "Registration successful!", so it is always truthy |
| RegisterForm.Finish | registration-system/web/src/pages/RegisterForm.js:96-121 | loading ends false and the snackbar opens. Its severity is success exactly on success. Success clears the three fields and schedules navigation. Failure shows the thrown text and changes nothing else |
| RegisterForm.Submit | registration-system/web/src/pages/RegisterForm.js:80-122 | a rejected submission makes no request; an accepted one makes exactly the client's requests and settles on its result; navigation is newly scheduled only by a successful registration |
| RegisterForm.Change | registration-system/web/src/pages/RegisterForm.js:124-130 | the named field takes the value; every other field, the loading flag, the snackbar and navigation are unchanged |
| RegisterForm.CloseSnackbar | registration-system/web/src/pages/RegisterForm.js:132-134 | the snackbar closes, keeping its message and severity; nothing else changes |
| RegisterForm.RejectedChangesOnlySnackbar | registration-system/web/src/pages/RegisterForm.js:84-91 | an empty field means no request; form data, loading and navigation are unchanged, and the snackbar shows "Please fill in all fields" |
| RegisterForm.SubmittedEndsNotLoading | registration-system/web/src/pages/RegisterForm.js:93-121 | every submission that reached `register` makes at least one request and ends with loading off and the snackbar open |
| RegisterForm.FailureKeepsForm | registration-system/web/src/pages/RegisterForm.js:113-118 | a failed registration shows the thrown text as an error, keeps the form populated and schedules no navigation |
| RegisterForm.ChangeCommutesWithClose | registration-system/web/src/pages/RegisterForm.js:124-134 | editing a field and closing the snackbar touch disjoint parts of the state |
| Pipeline.FormGuardPassesServerValidation | registration-system/web/src/pages/RegisterForm.js:84-91 | whatever passes the form's guard reaches the server with email, password and name present and non-empty, so the server never answers it 400 |
| Pipeline.ServerToleratesMessageService | registration-system/server/app.py:31-41 | because the message service always answers with an object, a registration that inserted always answers 201; a failed generation gives a null greeting |
| Pipeline.DuplicateThroughForm | registration-system/server/app.py:23-25 | a form submission for a stored email leaves the store unchanged and makes one request; the form shows "User already exists" and stays populated, with navigation unchanged |
| Pipeline.RegistrationThroughForm | registration-system/web/src/pages/RegisterForm.js:96-111 | with both services working, the store gains the user and the form shows the generated greeting; the form clears and schedules navigation, and the new user can log in |
| Pipeline.MessageFailureLeavesAccount | registration-system/web/src/api.js:24-34 | a failing greeting makes the form report "Failed to generate message" although the account exists; the form stays populated, and submitting again is refused with "User already exists" |
| Pipeline.MobileRegisterThroughServer | registration-system/mobile_screen/LoginApp/services/authService.js:27-48 | the mobile register sent to the account service resolves exactly when the email is new; a taken email throws the server's "User already exists" |
| Pipeline.LoginClientsAgree | registration-system/mobile_screen/LoginApp/services/authService.js:4-25 | for a reply with an object body, the web and mobile login make the same request and give the same body on success or the same error text on failure |
| Pipeline.LoginClientsDisagreeOnNullBody | registration-system/mobile_screen/LoginApp/services/authService.js:16-18 | a non-2xx `null` body gives "Login failed" on the web but a TypeError on mobile |

## Left out

- The MongoDB connection, process configuration, service URLs and ports are left out. They are I/O and configuration.
- AccountService.GetUser: the lookup uses structural equality on the `email` value. MongoDB query matching is not modelled. That includes matching an element of an array-valued email, `null` matching records that lack the field, and operator documents such as `{"$ne": ...}` used as the email.
- AccountService.Register: the `_id` that `insert_one` adds to the stored document is not modelled. A request body that already carries a duplicate `_id` (a driver error) is not modelled either.
- AccountService.Login: Python's `!=` is modelled as structural equality. Python's `True == 1` and `1 == 1.0` are not modelled.
- A request body that is not a JSON object (`request.json` being None or a list) is not modelled. That is framework behaviour outside the handlers.
- AccountService.WelcomeMessage: it assumes a version of `requests` in which the JSON decode error is a `RequestException`, so an undecodable body gives the fixed greeting. With older versions it would crash the handler instead.
- The check-then-insert in `/register` is not atomic. Email uniqueness is claimed only for requests handled one at a time (`Serve`), not for concurrent ones.
- MessageService.GenerateMessage: it assumes the JSON parser of Express 5, which leaves the request body undefined when the request has no JSON body, so the handler answers 500. Under Express 4 the body is `{}`, and the generator is called with the name undefined; no manifest pins the version.
- The text generator in the message service is an oracle. Its prompt, model name and the non-determinism of its output are not modelled.
- Values.Spread: spreading a string or an array copies its indices as keys, but the model copies nothing. The account service always answers with an object.
- Values.Defined: only top-level `undefined` properties are dropped. Nested ones are not, and numbers are integers, so floating point is not modelled.
- Property reads are modelled only for keys that no built-in prototype defines ("error", "message", "welcomeMessage", ...).
- The form's two-second `setTimeout` before navigation is a flag (`navScheduled`). Time and the navigation itself are not modelled.
- Rendering, styling, the theme, routes and assets are not modelled. Neither are the mobile screens, the web login page and the console logging.
- The server's test scripts are not part of this model. They target other routes and helpers than the handlers define.
