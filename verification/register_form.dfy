/**
 The web registration form's event handlers as pure transitions on its
 state. Submitting is split at the `await`: `Start` runs up to the
 register call, `Finish` runs once it has settled; `Submit` composes the
 two around the client's `register`. Navigation is a flag recording that
 the delayed move to the login page was scheduled.
 */
module RegisterForm {
  import opened Values
  import opened Http
  import WebApi

  datatype Severity = Success | Error

  datatype Snackbar = Snackbar(open: bool, message: Value, severity: Severity)

  /** `formData` holds the inputs' string values by input name. */
  datatype FormState = FormState(formData: map<string, string>, loading: bool, snackbar: Snackbar, navScheduled: bool)

  /** A submission either stops at the empty-field guard or reaches the register call with the form's data. */
  datatype Submission = Rejected(next: FormState) | Pending(next: FormState, userData: Object)

  /** The state after a whole submission, and the requests it made. */
  datatype Submitted = Submitted(state: FormState, calls: seq<Call>)

  const EmptyForm: map<string, string> := map["username" := "", "email" := "", "password" := ""]

  const Initial := FormState(EmptyForm, false, Snackbar(false, Str(""), Success), false)

  /** `!formData[key]` is false: the input exists and is not empty. */
  predicate Filled(formData: map<string, string>, key: string) {
    key in formData && formData[key] != ""
  }

  predicate AllFilled(formData: map<string, string>) {
    Filled(formData, "email") && Filled(formData, "password") && Filled(formData, "username")
  }

  /** The form data as the object handed to `register`. */
  function AsObject(formData: map<string, string>): (obj: Object)
    ensures obj.Keys == formData.Keys
    ensures forall k :: k in formData ==> obj[k] == Str(formData[k])
  {
    map k | k in formData :: Str(formData[k])
  }

  /** `handleSubmit` up to the `await`: the empty-field guard, then `setLoading(true)`. */
  function Start(s: FormState): (sub: Submission)
    ensures sub.Rejected? <==> !AllFilled(s.formData)
    // rejected: only the snackbar changes, to the fill-in error
    ensures sub.Rejected? ==>
              sub.next == s.(snackbar := Snackbar(true, Str("Please fill in all fields"), Error))
    // accepted: loading turns on, and the form's data goes to register as it is
    ensures sub.Pending? ==> sub.next == s.(loading := true) && sub.userData == AsObject(s.formData)
  {
    if !AllFilled(s.formData) then
      Rejected(s.(snackbar := Snackbar(true, Str("Please fill in all fields"), Error)))
    else
      Pending(s.(loading := true), AsObject(s.formData))
  }

  /** The snackbar text on success: `response.welcomeMessage || 'Registration successful!'`. */
  function SuccessText(response: Object): (text: Value)
    ensures Truthy(text)
    ensures Truthy(Field(response, "welcomeMessage")) ==> text == response["welcomeMessage"]
    ensures !Truthy(Field(response, "welcomeMessage")) ==> text == Str("Registration successful!")
  {
    var welcome := Field(response, "welcomeMessage");
    if Truthy(welcome) then welcome else Str("Registration successful!")
  }

  /**
   `handleSubmit` after the `await`. Success clears the three fields and
   schedules navigation; failure shows the error and keeps the form. The
   `finally` turns loading off either way.
   */
  function Finish(s: FormState, result: Result<Object, string>): (t: FormState)
    ensures !t.loading
    ensures t.snackbar.open
    ensures t.snackbar.severity == Success <==> result.Ok?
    ensures result.Ok? ==> t == FormState(EmptyForm, false, Snackbar(true, SuccessText(result.value), Success), true)
    ensures result.Err? ==> t == s.(loading := false, snackbar := Snackbar(true, Str(result.error), Error))
  {
    match result
    case Ok(response) =>
      s.(snackbar := Snackbar(true, SuccessText(response), Success), formData := EmptyForm,
         navScheduled := true, loading := false)
    case Err(message) =>
      s.(snackbar := Snackbar(true, Str(message), Error), loading := false)
  }

  /** A whole `handleSubmit`, given the outcomes of the two calls `register` may make. */
  function Submit(s: FormState, account: Outcome, message: Outcome): (r: Submitted)
    // the guard makes no call at all
    ensures !AllFilled(s.formData) ==> r.calls == [] && r.state == Start(s).next
    ensures AllFilled(s.formData) ==>
              var run := WebApi.Register(AsObject(s.formData), account, message);
              r.calls == run.calls && r.state == Finish(s.(loading := true), run.result)
    // navigation is scheduled by this submission only when registration succeeded
    ensures r.state.navScheduled != s.navScheduled ==> r.state.snackbar.severity == Success && r.state.formData == EmptyForm
  {
    match Start(s)
    case Rejected(next) => Submitted(next, [])
    case Pending(next, userData) =>
      var run := WebApi.Register(userData, account, message);
      Submitted(Finish(next, run.result), run.calls)
  }

  /** `handleChange` for the input named `name`: that entry changes, no other. */
  function Change(s: FormState, name: string, value: string): (t: FormState)
    ensures name in t.formData && t.formData[name] == value
    ensures t.formData.Keys == s.formData.Keys + {name}
    ensures forall k :: k in s.formData && k != name ==> t.formData[k] == s.formData[k]
    ensures t.loading == s.loading && t.snackbar == s.snackbar && t.navScheduled == s.navScheduled
  {
    s.(formData := s.formData[name := value])
  }

  /** `handleCloseSnackbar`: closes it and keeps its message and severity. */
  function CloseSnackbar(s: FormState): (t: FormState)
    ensures !t.snackbar.open
    ensures t.snackbar.message == s.snackbar.message && t.snackbar.severity == s.snackbar.severity
    ensures t.formData == s.formData && t.loading == s.loading && t.navScheduled == s.navScheduled
  {
    s.(snackbar := s.snackbar.(open := false))
  }

  // ---------------------------------------------------------------------
  // Properties

  /** A rejected submission leaves the form, the loading flag and navigation alone. */
  lemma RejectedChangesOnlySnackbar(s: FormState, account: Outcome, message: Outcome)
    requires !AllFilled(s.formData)
    ensures Submit(s, account, message).calls == []
    ensures Submit(s, account, message).state.formData == s.formData
    ensures Submit(s, account, message).state.loading == s.loading
    ensures Submit(s, account, message).state.navScheduled == s.navScheduled
    ensures Submit(s, account, message).state.snackbar == Snackbar(true, Str("Please fill in all fields"), Error)
  {
  }

  /** Every submission that reached the register call ends with loading off and the snackbar open. */
  lemma SubmittedEndsNotLoading(s: FormState, account: Outcome, message: Outcome)
    requires AllFilled(s.formData)
    ensures !Submit(s, account, message).state.loading
    ensures Submit(s, account, message).state.snackbar.open
    ensures |Submit(s, account, message).calls| >= 1
  {
  }

  /** A failed registration shows the thrown text, keeps the form populated and schedules nothing. */
  lemma FailureKeepsForm(s: FormState, account: Outcome, message: Outcome)
    requires AllFilled(s.formData)
    requires WebApi.Register(AsObject(s.formData), account, message).result.Err?
    ensures Submit(s, account, message).state.formData == s.formData
    ensures Submit(s, account, message).state.navScheduled == s.navScheduled
    ensures Submit(s, account, message).state.snackbar
            == Snackbar(true, Str(WebApi.Register(AsObject(s.formData), account, message).result.error), Error)
  {
  }

  /** Editing a field and closing the snackbar commute. */
  lemma ChangeCommutesWithClose(s: FormState, name: string, value: string)
    ensures CloseSnackbar(Change(s, name, value)) == Change(CloseSnackbar(s), name, value)
  {
  }
}
