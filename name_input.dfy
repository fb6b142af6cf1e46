/** The two-step name form: first the director's name, then the school's; each
    step moves on only with a name that is not blank, and the names handed to the
    game are trimmed. */
module NameInput {
  import opened Common
  import opened Text

  datatype FormStep = Director | School

  /** A blank field: what `!name.trim()` tests, and what disables its submit button. */
  predicate Blank(name: string)
  {
    Trim(name) == []
  }

  /** A field is blank exactly when it holds white space only. */
  lemma BlankIff(name: string)
    ensures Blank(name) <==> AllWhiteSpace(name)
  {
    TrimEmptyIff(name);
  }

  class NameForm {
    var step: FormStep
    var directorName: string
    var schoolName: string

    /** The school step is reached only with a director's name that is not blank,
        and that name cannot be edited there (its field is not shown). */
    ghost predicate Valid()
      reads this
    {
      step == School ==> !Blank(directorName)
    }

    constructor ()
      ensures Valid() && step == Director && directorName == [] && schoolName == []
    {
      step := Director;
      directorName, schoolName := [], [];
    }

    /** Typing in the director field, which the form shows on its first step only. */
    method EditDirector(value: string)
      requires Valid() && step == Director
      modifies this`directorName
      ensures Valid() && directorName == value
    {
      directorName := value;
    }

    /** Typing in the school field, shown on the second step. */
    method EditSchool(value: string)
      requires Valid() && step == School
      modifies this`schoolName
      ensures Valid() && schoolName == value
    {
      schoolName := value;
    }

    predicate DirectorSubmitDisabled()
      reads this
    {
      Blank(directorName)
    }

    predicate SchoolSubmitDisabled()
      reads this
    {
      Blank(schoolName)
    }

    /** `handleDirectorSubmit`: on to the school step when the name is not blank. */
    method SubmitDirector()
      requires Valid() && step == Director
      modifies this`step
      ensures Valid()
      ensures step == School <==> !Blank(directorName)
    {
      if !Blank(directorName) {
        step := School;
      }
    }

    /** `handleSchoolSubmit`: the trimmed pair of names handed to the game, or
        nothing when the school's name is blank. */
    method SubmitSchool() returns (submitted: Option<(string, string)>)
      requires Valid() && step == School
      ensures submitted.Some? <==> !Blank(schoolName)
      ensures submitted.Some? ==> submitted.value == (Trim(directorName), Trim(schoolName))
      ensures submitted.Some? ==> submitted.value.0 != [] && submitted.value.1 != []
    {
      if !Blank(schoolName) {
        submitted := Some((Trim(directorName), Trim(schoolName)));
      } else {
        submitted := None;
      }
    }

    /** The back button: to the director step, keeping both names as typed. */
    method Back()
      requires Valid() && step == School
      modifies this`step
      ensures Valid() && step == Director
    {
      step := Director;
    }
  }

  /** The names the form submits are their own trim: neither starts or ends with
      white space, and trimming them again changes nothing. */
  lemma SubmittedNamesAreTrimmed(director: string, school: string)
    requires !Blank(director) && !Blank(school)
    ensures Trim(Trim(director)) == Trim(director) && Trim(Trim(school)) == Trim(school)
    ensures !IsWhiteSpace(Trim(school)[0]) && !IsWhiteSpace(Trim(school)[|Trim(school)| - 1])
    ensures !IsWhiteSpace(Trim(director)[0]) && !IsWhiteSpace(Trim(director)[|Trim(director)| - 1])
  {
    TrimIdempotent(director);
    TrimIdempotent(school);
    TrimSpec(director);
    TrimSpec(school);
  }
}
