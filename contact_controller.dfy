/**
 * The contact-form controller: four state cells (`formData`, `errors`,
 * `isLoading`, `submitSuccess`) and the handlers that update them
 * (`validateForm`, `handleSubmit`, `handleChange`, and the timer that hides
 * the success notice). Each handler runs as one atomic update.
 */
module ContactController {
  import opened Wrappers
  import opened ContactSchema

  /** The value the form starts with and is reset to after a successful send: every field an empty string. */
  const EmptyForm := FormData("", "", Some(""), "")

  /** `{ ...prev, [name]: value }`: field `f` becomes `v`, the others keep their values. */
  function Updated(data: FormData, f: Field, v: string): (r: FormData)
    ensures Value(r, f) == Some(v)
    ensures forall g | g != f :: Value(r, g) == Value(data, g)
  {
    match f
    case FirstName => data.(firstName := v)
    case Email => data.(email := v)
    case Phone => data.(phone := Some(v))
    case Message => data.(message := v)
  }

  /** Assuming zod rejects the empty string as an e-mail address, every field of the initial value shows an error. */
  lemma EmptyFormErrorsEverywhere(isEmail: EmailCheck)
    requires !isEmail("")
    ensures ErrorsFor(EmptyForm, isEmail).Keys == AllFields
  {
  }

  /**
   * Assuming zod rejects the empty string as an e-mail address, the value the
   * form starts with fails all four rules, the phone's included.
   */
  lemma EmptyFormFailsEveryRule(isEmail: EmailCheck)
    requires !isEmail("")
    ensures ErrorsFor(EmptyForm, isEmail).Keys == AllFields
    ensures |Issues(EmptyForm, isEmail)| == 4
  {
    EmptyFormErrorsEverywhere(isEmail);
    assert forall k | 0 <= k < 4 :: !Passes(EmptyForm, FieldAt(k), isEmail);
    AllFailingFrom(EmptyForm, isEmail, 0);
  }

  /** No issue after index `i` (and before `k`) concerns the same field as issue `i`. */
  predicate LastUpTo(issues: seq<Issue>, i: nat, k: nat)
    requires i < k <= |issues|
  {
    forall j | i < j < k :: issues[j].path != issues[i].path
  }

  /**
   * The `forEach` of `validateForm` that turns a `ZodError`'s issues into a
   * `newErrors` object: its keys are exactly the issues' paths, and each key
   * holds the message of the last issue on that path.
   */
  method CollectErrors(issues: seq<Issue>) returns (newErrors: map<Field, string>)
    ensures forall f :: f in newErrors <==> exists i | 0 <= i < |issues| :: issues[i].path == f
    ensures forall i | 0 <= i < |issues| && LastUpTo(issues, i, |issues|) :: newErrors[issues[i].path] == issues[i].message
  {
    newErrors := map[];
    for k := 0 to |issues|
      invariant forall f :: f in newErrors <==> exists i | 0 <= i < k :: issues[i].path == f
      invariant forall i | 0 <= i < k && LastUpTo(issues, i, k) :: newErrors[issues[i].path] == issues[i].message
    {
      newErrors := newErrors[issues[k].path := issues[k].message];
    }
  }

  /** Two maps with the same keys and the same value at every key are equal. */
  lemma MapsAgree(m1: map<Field, string>, m2: map<Field, string>)
    requires forall f :: f in m1 <==> f in m2
    requires forall f | f in m1 :: m1[f] == m2[f]
    ensures m1 == m2
  {
  }

  /** A field is the path of some issue exactly when its rule fails, that is, when the expected map has it. */
  lemma IssuePathIffFailing(data: FormData, isEmail: EmailCheck, f: Field)
    ensures (exists i | 0 <= i < |Issues(data, isEmail)| :: Issues(data, isEmail)[i].path == f) <==> f in ErrorsFor(data, isEmail)
  {
    var issues := Issues(data, isEmail);
    assert f in AllFields by {
      assert f.FirstName? || f.Email? || f.Phone? || f.Message?;
    }
    if exists i | 0 <= i < |issues| :: issues[i].path == f {
      var i :| 0 <= i < |issues| && issues[i].path == f;
      assert !Passes(data, issues[i].path, isEmail);
    }
  }

  class ContactForm {
    /** zod's e-mail check, fixed for the lifetime of the form. */
    const isEmail: EmailCheck
    var formData: FormData
    var errors: map<Field, string>
    var isLoading: bool
    var submitSuccess: bool

    /**
     * Kept by every handler: the phone is always a present string (so the
     * schema's `.optional()` never applies), and every displayed error is the
     * message of a rule the field's current value still fails.
     */
    ghost predicate Valid()
      reads this
    {
      && formData.phone.Some?
      && forall f | f in errors :: !Passes(formData, f, isEmail) && errors[f] == RuleMessage(f)
    }

    /** The component's first render: empty fields, no errors, idle, no success notice. */
    constructor (isEmail: EmailCheck)
      ensures Valid()
      ensures this.isEmail == isEmail
      ensures formData == EmptyForm && errors == map[] && !isLoading && !submitSuccess
    {
      this.isEmail := isEmail;
      formData := EmptyForm;
      errors := map[];
      isLoading := false;
      submitSuccess := false;
    }

    /**
     * `validateForm`: parses `data`; on success the error map becomes empty, on
     * failure it is replaced wholesale by one message per failing field.
     */
    method ValidateForm(data: FormData) returns (ok: bool)
      modifies this`errors
      ensures ok <==> forall f :: Passes(data, f, isEmail)
      ensures errors == ErrorsFor(data, isEmail)
      ensures ok ==> errors == map[]
    {
      ParseSucceedsIff(data, isEmail);
      var issues := Issues(data, isEmail);
      if issues == [] {
        errors := map[];
        ok := true;
      } else {
        var newErrors := CollectErrors(issues);
        // the collected map is exactly the expected one: same keys, and each
        // field's only issue is its last one
        var expected := ErrorsFor(data, isEmail);
        forall f ensures f in newErrors <==> f in expected {
          IssuePathIffFailing(data, isEmail, f);
        }
        forall f | f in newErrors ensures newErrors[f] == expected[f] {
          var i :| 0 <= i < |issues| && issues[i].path == f;
          assert LastUpTo(issues, i, |issues|);
        }
        MapsAgree(newErrors, expected);
        errors := newErrors;
        ok := false;
      }
    }

    /**
     * `handleSubmit`, with the outcome of the outbound send as a parameter.
     * `sent` is the payload handed to the send, `None` when it is not called.
     * The submit button is disabled while loading, so the form is idle here.
     */
    method Submit(sendSucceeds: bool) returns (sent: Option<FormData>)
      requires Valid() && !isLoading
      modifies this
      ensures Valid() && !isLoading
      ensures sent == if forall f :: Passes(old(formData), f, isEmail) then Some(old(formData)) else None
      ensures errors == ErrorsFor(old(formData), isEmail)
      ensures sent.Some? ==> errors == map[]
      ensures sent.Some? && sendSucceeds ==> formData == EmptyForm && submitSuccess
      ensures !(sent.Some? && sendSucceeds) ==> formData == old(formData) && submitSuccess == old(submitSuccess)
    {
      isLoading := true;
      var valid := ValidateForm(formData);
      if valid {
        sent := Some(formData);
        if sendSucceeds {
          submitSuccess := true;
          formData := EmptyForm;
        }
        isLoading := false;
      } else {
        sent := None;
        isLoading := false;
      }
    }

    /**
     * `handleChange`: field `name` takes `value`, the other fields keep theirs;
     * the field's error is cleared if one is shown, and no other error changes.
     */
    method Change(name: Field, value: string)
      requires Valid()
      modifies this`formData, this`errors
      ensures Valid()
      ensures formData == Updated(old(formData), name, value)
      ensures errors == old(errors) - {name}
    {
      var oldData := formData;
      formData := Updated(formData, name, value);
      if name in errors {
        errors := errors - {name};
      }
      forall f | f in errors ensures !Passes(formData, f, isEmail) {
        PassesIsLocal(oldData, formData, f, isEmail);
      }
    }

    /** The 5-second timer started by a successful send: it hides the success notice and nothing else. */
    method ClearSuccess()
      requires Valid()
      modifies this`submitSuccess
      ensures Valid()
      ensures !submitSuccess
    {
      submitSuccess := false;
    }
  }
}
