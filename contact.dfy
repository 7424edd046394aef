/** The contact form: its validator, the per-field error record, the change
    handler and the submit handler with its simulated API call. */
module Contact {
  import opened Text
  import opened EmailPattern

  /** The four inputs of the form, by their `name` attribute. */
  datatype Field = Name | Email | Phone | Message

  datatype FormData = FormData(name: string, email: string, phone: string, message: string)
  {
    function Get(f: Field): string {
      match f
      case Name => name
      case Email => email
      case Phone => phone
      case Message => message
    }

    /** `{ ...prev, [name]: value }`: the named field takes the value, the other
        three keep theirs. */
    function With(f: Field, value: string): (r: FormData)
      ensures r.Get(f) == value
      ensures forall g :: g != f ==> r.Get(g) == Get(g)
    {
      match f
      case Name => this.(name := value)
      case Email => this.(email := value)
      case Phone => this.(phone := value)
      case Message => this.(message := value)
    }
  }

  /** The initial (and the post-submit) contents of the form. */
  const EmptyForm := FormData("", "", "", "")

  /** `Record<string, string>` of error messages, keyed by field. A key may be
      present with the value "" once the user has edited that field. */
  type Errors = map<Field, string>

  const NameRequired := "Name is required"
  const EmailRequired := "Email is required"
  const EmailInvalid := "Please enter a valid email"
  const MessageRequired := "Message is required"

  /** `errors[name]` is truthy: present and not "". */
  predicate HasError(errors: Errors, f: Field) {
    f in errors && errors[f] != ""
  }

  /** The record `validateForm` builds: one conditional per required field, in
      the order of the source. The phone field is never checked and every
      message stored is non-empty. */
  function ValidationErrors(form: FormData): (r: Errors)
    ensures Phone !in r
    ensures forall f :: f in r ==> HasError(r, f)
  {
    var afterName := if IsBlank(form.name) then map[Name := NameRequired] else map[];
    var afterEmail :=
      if IsBlank(form.email) then afterName[Email := EmailRequired]
      else if !Matches(form.email) then afterName[Email := EmailInvalid]
      else afterName;
    if IsBlank(form.message) then afterEmail[Message := MessageRequired] else afterEmail
  }

  /** `Object.keys(newErrors).length === 0`. */
  predicate IsValid(form: FormData) {
    |ValidationErrors(form)| == 0
  }

  /** A name that trims to "" yields 'Name is required', and nothing else
      produces a name error. */
  lemma NameError(form: FormData)
    ensures Name in ValidationErrors(form) <==> IsBlank(form.name)
    ensures IsBlank(form.name) ==> ValidationErrors(form)[Name] == NameRequired
  {
  }

  /** The message field is checked like the name. */
  lemma MessageError(form: FormData)
    ensures Message in ValidationErrors(form) <==> IsBlank(form.message)
    ensures IsBlank(form.message) ==> ValidationErrors(form)[Message] == MessageRequired
  {
  }

  /** The e-mail field gets exactly one message: 'Email is required' when it is
      blank, otherwise 'Please enter a valid email' when the pattern fails
      (tested on the untrimmed value), otherwise none. */
  lemma EmailError(form: FormData)
    ensures IsBlank(form.email) ==> ValidationErrors(form)[Email] == EmailRequired
    ensures !IsBlank(form.email) && !Matches(form.email) ==>
              ValidationErrors(form)[Email] == EmailInvalid
    ensures Email !in ValidationErrors(form) <==> Matches(form.email)
  {
    if Matches(form.email) {
      MatchedIsNotBlank(form.email);
    }
  }

  /** `validateForm` returns true exactly when name and message are not blank and
      the e-mail matches the pattern; the phone plays no part. */
  lemma IsValidIff(form: FormData)
    ensures IsValid(form) <==>
              !IsBlank(form.name) && Matches(form.email) && !IsBlank(form.message)
  {
    var r := ValidationErrors(form);
    EmailError(form);
    NameError(form);
    MessageError(form);
    if !IsBlank(form.name) && Matches(form.email) && !IsBlank(form.message) {
      assert r == map[];
    } else {
      assert exists f :: f in r;
    }
  }

  /** The phone field never changes the error record, hence never the verdict. */
  lemma PhoneIrrelevant(form: FormData, phone: string)
    ensures ValidationErrors(form.With(Phone, phone)) == ValidationErrors(form)
  {
    var other := form.With(Phone, phone);
    assert other.name == form.name && other.email == form.email && other.message == form.message;
  }

  /** Stale errors vanish: the record is rebuilt from the current data alone, so
      a field that is now valid has no entry whatever the previous record held. */
  lemma ValidFieldHasNoError(form: FormData, f: Field)
    requires f == Name ==> !IsBlank(form.name)
    requires f == Email ==> Matches(form.email)
    requires f == Message ==> !IsBlank(form.message)
    ensures f !in ValidationErrors(form)
  {
    EmailError(form);
  }

  /** The state of the Contact section. */
  class ContactForm {
    var formData: FormData
    var errors: Errors
    var isSubmitting: bool
    var isSubmitted: bool

    constructor ()
      ensures formData == EmptyForm && errors == map[]
      ensures !isSubmitting && !isSubmitted
    {
      formData := EmptyForm;
      errors := map[];
      isSubmitting := false;
      isSubmitted := false;
    }

    /** `validateForm`: replaces `errors` wholesale and reports whether the new
        record is empty. */
    method ValidateForm() returns (ok: bool)
      modifies this`errors
      ensures errors == ValidationErrors(formData)
      ensures ok <==> |errors| == 0
      ensures ok <==> !IsBlank(formData.name) && Matches(formData.email) && !IsBlank(formData.message)
    {
      var newErrors: Errors := map[];
      if Trim(formData.name) == "" {
        newErrors := newErrors[Name := NameRequired];
      }
      if Trim(formData.email) == "" {
        newErrors := newErrors[Email := EmailRequired];
      } else if !Matches(formData.email) {
        newErrors := newErrors[Email := EmailInvalid];
      }
      if Trim(formData.message) == "" {
        newErrors := newErrors[Message := MessageRequired];
      }
      errors := newErrors;
      ok := |newErrors| == 0;
      IsValidIff(formData);
    }

    /** `handleChange`: sets only the edited field, and clears that field's error
        to "" only when it was set; every other error is left as it was. */
    method HandleChange(field: Field, value: string)
      modifies this`formData, this`errors
      ensures formData == old(formData).With(field, value)
      ensures HasError(old(errors), field) ==> errors == old(errors)[field := ""]
      ensures !HasError(old(errors), field) ==> errors == old(errors)
      ensures forall g :: g != field ==> formData.Get(g) == old(formData).Get(g)
    {
      formData := formData.With(field, value);
      if HasError(errors, field) {
        errors := errors[field := ""];
      }
    }

    /** The synchronous part of `handleSubmit`, up to the awaited API call. An
        invalid form returns early with only `errors` rewritten; a valid one
        enters the submitting state. */
    method HandleSubmit() returns (accepted: bool)
      modifies this`errors, this`isSubmitting
      ensures errors == ValidationErrors(formData)
      ensures accepted <==> IsValid(formData)
      ensures accepted ==> isSubmitting
      ensures !accepted ==> isSubmitting == old(isSubmitting)
    {
      accepted := ValidateForm();
      if !accepted {
        return;
      }
      isSubmitting := true;
    }

    /** The continuation after the simulated two-second API call: the form is
        submitted and emptied. */
    method ApiResolved()
      modifies this`formData, this`isSubmitting, this`isSubmitted
      ensures !isSubmitting && isSubmitted
      ensures formData == EmptyForm
    {
      isSubmitting := false;
      isSubmitted := true;
      formData := EmptyForm;
    }

    /** The five-second timer that hides the success message. */
    method SuccessTimeout()
      modifies this`isSubmitted
      ensures !isSubmitted
    {
      isSubmitted := false;
    }
  }

  /** A whole submit: validation, and when it passes the API delay elapsing.
      From the idle state an invalid form stays idle with its data untouched; a
      valid one ends submitted, not submitting, with all four fields "". */
  method Submit(form: ContactForm) returns (accepted: bool)
    requires !form.isSubmitting
    modifies form
    ensures accepted <==> IsValid(old(form.formData))
    ensures form.errors == ValidationErrors(old(form.formData))
    ensures !accepted ==> !form.isSubmitting && form.formData == old(form.formData)
    ensures !accepted ==> form.isSubmitted == old(form.isSubmitted)
    ensures accepted ==> !form.isSubmitting && form.isSubmitted
    ensures accepted ==> forall f :: form.formData.Get(f) == ""
  {
    accepted := form.HandleSubmit();
    if accepted {
      form.ApiResolved();
    }
  }
}
