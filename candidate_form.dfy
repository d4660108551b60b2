/** The candidate registration form: five required fields, the registration request and
    the hand-over to the terms page (src/pages/candidate/CandidateForm.jsx). */
module CandidateForm {
  import opened Common

  datatype Field = Name | FatherName | Dob | Email | Phone

  datatype Details = Details(name: string, fatherName: string, dob: string, email: string, phone: string)

  function Get(d: Details, f: Field): string {
    match f
    case Name => d.name
    case FatherName => d.fatherName
    case Dob => d.dob
    case Email => d.email
    case Phone => d.phone
  }

  function EmptyDetails(): (d: Details)
    ensures forall f: Field :: Get(d, f) == ""
  {
    Details("", "", "", "", "")
  }

  /** handleChange: the named field takes the typed value, the other four stay. */
  function SetField(d: Details, f: Field, v: string): (r: Details)
    ensures Get(r, f) == v
    ensures forall g: Field | g != f :: Get(r, g) == Get(d, g)
  {
    match f
    case Name => d.(name := v)
    case FatherName => d.(fatherName := v)
    case Dob => d.(dob := v)
    case Email => d.(email := v)
    case Phone => d.(phone := v)
  }

  /** `Object.values(form).some(v => !v)` */
  predicate AnyEmpty(d: Details) {
    d.name == "" || d.fatherName == "" || d.dob == "" || d.email == "" || d.phone == ""
  }

  /** The form is incomplete exactly when one of the five fields is empty. */
  lemma AnyEmptyIff(d: Details)
    ensures AnyEmpty(d) <==> exists f: Field :: Get(d, f) == ""
  {
    if AnyEmpty(d) {
      if d.name == "" { assert Get(d, Name) == ""; }
      else if d.fatherName == "" { assert Get(d, FatherName) == ""; }
      else if d.dob == "" { assert Get(d, Dob) == ""; }
      else if d.email == "" { assert Get(d, Email) == ""; }
      else { assert Get(d, Phone) == ""; }
    }
  }

  /** Filling every field makes the form complete, whatever the order. */
  lemma FillingAllFields(d: Details, a: string, b: string, c: string, e: string, g: string)
    requires a != "" && b != "" && c != "" && e != "" && g != ""
    ensures !AnyEmpty(SetField(SetField(SetField(SetField(SetField(d, Name, a), FatherName, b), Dob, c), Email, e), Phone, g))
  {
  }

  const IncompleteMessage: string := "Please complete all fields to proceed."
  const ConnectionMessage: string := "System was unable to register your details. Please check your connection."

  /** The test the candidate arrived with (the router state). */
  datatype TestInfo = TestInfo(id: int, durationMinutes: int)

  /** The body of the registration post: the test id and the five fields. */
  datatype Registration = Registration(testId: int, details: Details)

  datatype Route = Stay | ToTerms(test: TestInfo, candidateId: int)

  class CandidatePage {
    const test: TestInfo
    var form: Details
    var error: string
    var isSubmitting: bool
    var route: Route

    constructor (test: TestInfo)
      ensures this.test == test && form == EmptyDetails() && error == "" && !isSubmitting && route == Stay
    {
      this.test := test;
      form := Details("", "", "", "", "");
      error := "";
      isSubmitting := false;
      route := Stay;
    }

    method Change(f: Field, v: string)
      modifies this
      ensures form == SetField(old(form), f, v)
      ensures error == old(error) && isSubmitting == old(isSubmitting) && route == old(route)
    {
      form := SetField(form, f, v);
    }

    /** submit up to its await (the button is disabled while submitting). An incomplete
        form only sets the error; a complete one clears it, starts submitting and posts the
        registration. */
    method BeginSubmit() returns (request: Option<Registration>)
      modifies this
      ensures old(isSubmitting) ==> request.None? && error == old(error) && isSubmitting
      ensures !old(isSubmitting) && AnyEmpty(form) ==>
        request.None? && error == IncompleteMessage && !isSubmitting
      ensures !old(isSubmitting) && !AnyEmpty(form) ==>
        request == Some(Registration(test.id, form)) && error == "" && isSubmitting
      ensures request.Some? ==> forall f: Field :: Get(request.value.details, f) != ""
      ensures form == old(form) && route == old(route)
    {
      if isSubmitting {
        return None;
      }
      if form.name == "" || form.fatherName == "" || form.dob == "" || form.email == "" || form.phone == "" {
        error := IncompleteMessage;
        return None;
      }
      isSubmitting := true;
      error := "";
      request := Some(Registration(test.id, form));
    }

    /** The registration settles: success routes to the terms page with the test and the
        new candidate id, failure shows the connection message; submitting ends either
        way. */
    method FinishSubmit(response: Response<int>)
      modifies this
      ensures !isSubmitting
      ensures response.Ok? ==> route == ToTerms(test, response.data) && error == old(error)
      ensures response.Failed? ==> route == old(route) && error == ConnectionMessage
      ensures form == old(form)
    {
      if response.Ok? {
        route := ToTerms(test, response.data);
      } else {
        error := ConnectionMessage;
      }
      isSubmitting := false;
    }
  }
}
