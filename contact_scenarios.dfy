/**
 * Runs of the contact-form controller from its first render, proved from the
 * handlers' contracts alone.
 */
module ContactScenarios {
  import opened Wrappers
  import opened ContactSchema
  import opened ContactController

  /**
   * Submitting the untouched form never calls the send: all four fields get
   * their rule's message, and the values and the success notice stay as they were.
   */
  method SubmitUntouchedForm(isEmail: EmailCheck, sendSucceeds: bool)
    returns (sent: Option<FormData>, errors: map<Field, string>, data: FormData, success: bool, loading: bool)
    requires !isEmail("")
    ensures sent == None
    ensures errors.Keys == AllFields && forall f | f in errors :: errors[f] == RuleMessage(f)
    ensures data == EmptyForm && !success && !loading
  {
    var form := new ContactForm(isEmail);
    EmptyFormFailsEveryRule(isEmail);
    sent := form.Submit(sendSucceeds);
    errors, data, success, loading := form.errors, form.formData, form.submitSuccess, form.isLoading;
  }

  /**
   * Leaving the phone input blank is not leaving it out: a valid name, e-mail
   * and message with an untouched phone still fail, on the phone alone.
   */
  method SubmitWithBlankPhone(isEmail: EmailCheck, sendSucceeds: bool, name: string, email: string, message: string)
    returns (sent: Option<FormData>, errors: map<Field, string>)
    requires |name| >= MinNameLength && isEmail(email) && |message| >= MinMessageLength
    ensures sent == None
    ensures errors == map[Phone := PhoneMessage]
  {
    var form := new ContactForm(isEmail);
    form.Change(FirstName, name);
    form.Change(Email, email);
    form.Change(Message, message);
    assert form.formData == FormData(name, email, Some(""), message);
    assert !Passes(form.formData, Phone, isEmail);
    sent := form.Submit(sendSucceeds);
    errors := form.errors;
    assert forall f :: f in errors <==> f == Phone by {
      forall f ensures f in errors <==> f == Phone {
        assert f.FirstName? || f.Email? || f.Phone? || f.Message?;
      }
    }
  }

  /** The same values with the phone absent, as the schema sees them, pass every rule. */
  lemma OmittedPhonePasses(isEmail: EmailCheck, name: string, email: string, message: string)
    requires |name| >= MinNameLength && isEmail(email) && |message| >= MinMessageLength
    ensures Issues(FormData(name, email, None, message), isEmail) == []
  {
  }

  /**
   * Editing a field after a failed submit clears that field's error only.
   */
  method EditAfterFailedSubmit(isEmail: EmailCheck, name: string)
    returns (sent: Option<FormData>, errors: map<Field, string>, data: FormData)
    requires !isEmail("")
    ensures sent == None
    ensures errors.Keys == AllFields - {FirstName}
    ensures data == EmptyForm.(firstName := name)
  {
    var form := new ContactForm(isEmail);
    EmptyFormFailsEveryRule(isEmail);
    sent := form.Submit(false);
    form.Change(FirstName, name);
    errors, data := form.errors, form.formData;
  }

  /**
   * A complete, valid form is sent once with exactly the typed values; on
   * success the fields are cleared and the notice is shown, and the timer
   * later hides the notice, returning the form to its first-render state.
   */
  method SendThenTimer(isEmail: EmailCheck, name: string, email: string, phone: string, message: string)
    returns (sent: Option<FormData>, shown: bool, after: FormData, shownAfterTimer: bool, errorsAfter: map<Field, string>,
             loadingAfter: bool)
    requires |name| >= MinNameLength && isEmail(email) && |phone| >= MinPhoneLength && |message| >= MinMessageLength
    ensures sent == Some(FormData(name, email, Some(phone), message))
    ensures shown && !shownAfterTimer
    ensures after == EmptyForm && errorsAfter == map[] && !loadingAfter
  {
    var form := new ContactForm(isEmail);
    form.Change(FirstName, name);
    form.Change(Email, email);
    form.Change(Phone, phone);
    form.Change(Message, message);
    assert forall f :: Passes(form.formData, f, isEmail) by {
      forall f ensures Passes(form.formData, f, isEmail) {
        assert f.FirstName? || f.Email? || f.Phone? || f.Message?;
      }
    }
    sent := form.Submit(true);
    shown := form.submitSuccess;
    form.ClearSuccess();
    after, shownAfterTimer, errorsAfter, loadingAfter := form.formData, form.submitSuccess, form.errors, form.isLoading;
  }

  /**
   * A failed send keeps the typed values, so a retry sends the same payload.
   */
  method RetryAfterFailedSend(isEmail: EmailCheck, name: string, email: string, phone: string, message: string)
    returns (first: Option<FormData>, kept: FormData, loading: bool, shown: bool, second: Option<FormData>)
    requires |name| >= MinNameLength && isEmail(email) && |phone| >= MinPhoneLength && |message| >= MinMessageLength
    ensures first == Some(FormData(name, email, Some(phone), message)) && second == first
    ensures kept == FormData(name, email, Some(phone), message)
    ensures !loading && !shown
  {
    var form := new ContactForm(isEmail);
    form.Change(FirstName, name);
    form.Change(Email, email);
    form.Change(Phone, phone);
    form.Change(Message, message);
    assert forall f :: Passes(form.formData, f, isEmail) by {
      forall f ensures Passes(form.formData, f, isEmail) {
        assert f.FirstName? || f.Email? || f.Phone? || f.Message?;
      }
    }
    first := form.Submit(false);
    kept, loading, shown := form.formData, form.isLoading, form.submitSuccess;
    second := form.Submit(true);
  }
}
