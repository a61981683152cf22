/**
 Properties of the components put together: the web form and client
 talking to the account service and the message service, and the two
 clients compared with each other.
 */
module Pipeline {
  import opened Values
  import opened Http
  import AccountService
  import MessageService
  import WebApi
  import MobileAuth
  import RegisterForm

  /**
   A handler's response as a client receives it. Flask's generic 500 page
   is HTML, which axios hands over as a string; its text is a parameter.
   */
  function Delivered(r: AccountService.Response, errorPage: string): (o: Outcome)
    ensures o.Reply?
    ensures r.Respond? ==> o == Reply(r.status, r.body)
    ensures r.InternalError? ==> o == Reply(500, Str(errorPage))
  {
    match r
    case Respond(status, body) => Reply(status, body)
    case InternalError => Reply(500, Str(errorPage))
  }

  /** The account request built from a form that passed its guard. */
  function FormRequest(s: RegisterForm.FormState): Object {
    WebApi.AccountRequest(RegisterForm.AsObject(s.formData))
  }

  /** The form's guard is stricter than the server's: whatever passes it carries all three keys, non-empty. */
  lemma FormGuardPassesServerValidation(s: RegisterForm.FormState, store: AccountService.Store,
                                        reply: AccountService.WelcomeReply)
    requires RegisterForm.AllFilled(s.formData)
    ensures AccountService.HasRegisterFields(FormRequest(s))
    ensures FormRequest(s)["email"] == Str(s.formData["email"]) && s.formData["email"] != ""
    ensures FormRequest(s)["password"] == Str(s.formData["password"]) && s.formData["password"] != ""
    ensures FormRequest(s)["name"] == Str(s.formData["username"]) && s.formData["username"] != ""
    ensures AccountService.Register(store, FormRequest(s), reply).response != AccountService.Respond(400, AccountService.ErrorBody("Missing required fields"))
  {
  }

  /** The message service's replies are always JSON objects, so a registration that inserted answers 201. */
  lemma ServerToleratesMessageService(store: AccountService.Store, data: Object, request: Value, completion: Option<Value>)
    requires AccountService.HasRegisterFields(data) && !AccountService.EmailTaken(store, data["email"])
    ensures var reply := MessageService.GenerateMessage(request, completion);
            var step := AccountService.Register(store, data, AccountService.JsonBody(reply.body));
            step.store == store + [data] && step.response.Respond? && step.response.status == 201
    ensures completion.None? ==>
              AccountService.Register(store, data, AccountService.JsonBody(MessageService.GenerateMessage(request, completion).body)).response
              == AccountService.Respond(201, AccountService.RegisteredBody(Null))
  {
  }

  /**
   A submission through the form for an email the store already holds:
   the store is untouched, no greeting is requested, and the form shows
   the server's own text while staying populated.
   */
  lemma DuplicateThroughForm(s: RegisterForm.FormState, store: AccountService.Store,
                             welcome: AccountService.WelcomeReply, message: Outcome, errorPage: string)
    requires RegisterForm.AllFilled(s.formData)
    requires AccountService.EmailTaken(store, Str(s.formData["email"]))
    ensures var step := AccountService.Register(store, FormRequest(s), welcome);
            var sub := RegisterForm.Submit(s, Delivered(step.response, errorPage), message);
            && step.store == store
            && |sub.calls| == 1
            && sub.state.snackbar == RegisterForm.Snackbar(true, Str("User already exists"), RegisterForm.Error)
            && sub.state.formData == s.formData
            && sub.state.navScheduled == s.navScheduled
  {
  }

  /**
   A first registration through the form when both services work: the
   store gains the user, the form shows the generated greeting, clears
   itself and schedules navigation, and the new user can log in.
   */
  lemma RegistrationThroughForm(s: RegisterForm.FormState, store: AccountService.Store,
                                serverCompletion: Option<Value>, greeting: string, errorPage: string)
    requires RegisterForm.AllFilled(s.formData)
    requires !AccountService.EmailTaken(store, Str(s.formData["email"]))
    requires greeting != ""
    ensures var step := AccountService.Register(store, FormRequest(s),
                          AccountService.JsonBody(MessageService.GenerateMessage(Obj(map["name" := Str(s.formData["username"])]), serverCompletion).body));
            var message := MessageService.GenerateMessage(Obj(map["name" := Str(s.formData["username"])]), Some(Str(greeting)));
            var sub := RegisterForm.Submit(s, Delivered(step.response, errorPage), message);
            && step.store == store + [FormRequest(s)]
            && sub.state.snackbar == RegisterForm.Snackbar(true, Str(greeting), RegisterForm.Success)
            && sub.state.formData == RegisterForm.EmptyForm
            && sub.state.navScheduled
            && AccountService.Login(step.store, map["email" := Str(s.formData["email"]), "password" := Str(s.formData["password"])])
               == AccountService.Respond(200, AccountService.LoginBody(Str(s.formData["email"]), Str(s.formData["username"])))
  {
    var data := FormRequest(s);
    FormGuardPassesServerValidation(s, store, AccountService.RequestFailed);
    var serverReply := MessageService.GenerateMessage(Obj(map["name" := Str(s.formData["username"])]), serverCompletion);
    ServerToleratesMessageService(store, data, Obj(map["name" := Str(s.formData["username"])]), serverCompletion);
    AccountService.RegisterThenLogin(store, data, AccountService.JsonBody(serverReply.body),
                                     map["email" := Str(s.formData["email"]), "password" := Str(s.formData["password"])]);
  }

  /**
   The greeting fails after the account was created: the form reports
   the message service's error, and submitting again is refused as a
   duplicate, because nothing rolled the account back.
   */
  lemma MessageFailureLeavesAccount(s: RegisterForm.FormState, store: AccountService.Store,
                                    welcome: AccountService.WelcomeReply, welcome2: AccountService.WelcomeReply,
                                    message2: Outcome, errorPage: string)
    requires RegisterForm.AllFilled(s.formData)
    requires !AccountService.EmailTaken(store, Str(s.formData["email"]))
    requires AccountService.Register(store, FormRequest(s), welcome).response.Respond?
    ensures var step := AccountService.Register(store, FormRequest(s), welcome);
            var failed := MessageService.GenerateMessage(Obj(map["name" := Str(s.formData["username"])]), None);
            var sub := RegisterForm.Submit(s, Delivered(step.response, errorPage), failed);
            && step.store == store + [FormRequest(s)]
            && sub.state.snackbar == RegisterForm.Snackbar(true, Str(MessageService.GenerationFailed), RegisterForm.Error)
            && sub.state.formData == s.formData
            && var step2 := AccountService.Register(step.store, FormRequest(s), welcome2);
               var sub2 := RegisterForm.Submit(sub.state, Delivered(step2.response, errorPage), message2);
               && step2.store == step.store
               && sub2.state.snackbar == RegisterForm.Snackbar(true, Str("User already exists"), RegisterForm.Error)
  {
    var data := FormRequest(s);
    FormGuardPassesServerValidation(s, store, welcome);
    var step := AccountService.Register(store, data, welcome);
    assert step.store == store + [data];
    assert step.response.status == 201;
    var failed := MessageService.GenerateMessage(Obj(map["name" := Str(s.formData["username"])]), None);
    assert failed == Reply(500, Obj(map["error" := Str(MessageService.GenerationFailed)]));
    var run := WebApi.Register(RegisterForm.AsObject(s.formData), Delivered(step.response, errorPage), failed);
    assert run.result == Err(MessageService.GenerationFailed);
    var sub := RegisterForm.Submit(s, Delivered(step.response, errorPage), failed);
    assert sub.state == RegisterForm.Finish(s.(loading := true), run.result);
    assert sub.state.formData == s.formData;
    assert step.store[|store|] == data;
    assert AccountService.Matches(step.store[|store|], data["email"]);
    DuplicateThroughForm(sub.state, step.store, welcome2, message2, errorPage);
  }

  /**
   The two clients read a login reply with an object body the same way:
   the same body on success, the same error text on failure.
   */
  lemma LoginClientsAgree(email: Value, password: Value, status: int, body: map<string, Value>)
    ensures var web := WebApi.Login(map["email" := email, "password" := password], Reply(status, Obj(body)));
            var mobile := MobileAuth.Login(email, password, MobileAuth.Fetched(status, MobileAuth.Decoded(Obj(body))));
            && web.calls == [mobile.call]
            && (web.result.Ok? <==> mobile.result.Ok?)
            && (web.result.Ok? ==> web.result.value == mobile.result.value)
            && (web.result.Err? ==> mobile.result == Err(MobileAuth.Raised(web.result.error)))
  {
  }

  /** Where the clients part ways: a non-2xx `null` body gives the web text "Login failed" but a TypeError on mobile. */
  lemma LoginClientsDisagreeOnNullBody(email: Value, password: Value, status: int)
    requires !IsOk(status)
    ensures WebApi.Login(map["email" := email, "password" := password], Reply(status, Null)).result == Err("Login failed")
    ensures MobileAuth.Login(email, password, MobileAuth.Fetched(status, MobileAuth.Decoded(Null))).result == Err(MobileAuth.NullBody)
  {
  }

  /**
   The mobile register against the account service: it resolves exactly
   when the email is new, and a taken email surfaces the server's text.
   */
  lemma MobileRegisterThroughServer(store: AccountService.Store, email: string, password: string, name: string,
                                    welcome: AccountService.WelcomeReply)
    ensures var step := AccountService.Register(store, map["email" := Str(email), "password" := Str(password), "name" := Str(name)], welcome);
            step.response.Respond? ==>
              var a := MobileAuth.Register(Str(email), Str(password), Str(name),
                                           MobileAuth.Fetched(step.response.status, MobileAuth.Decoded(step.response.body)));
              && (a.result.Ok? <==> !AccountService.EmailTaken(store, Str(email)))
              && (AccountService.EmailTaken(store, Str(email)) ==> a.result == Err(MobileAuth.Raised("User already exists")))
  {
    MobileAuth.RegisterSendsArguments(email, password, name, MobileAuth.NetworkError(""));
  }
}
