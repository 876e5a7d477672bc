/** `Arguments` of the top-level `validators.py`: a single `action` field and
    two guards, both raising the same message. */
module RootValidators {
  import opened Results
  import Validators

  const Actions: set<string> := {"iam", "deploy"}

  datatype Arguments = Arguments(action: Option<string>)

  datatype ValidationError = MissingAction

  function Message(e: ValidationError): string
  {
    "Must provide `action` argument"
  }

  /** `validate_arguments`: passes exactly for `iam` and `deploy`. */
  function ValidateArguments(args: Arguments): (r: Result<(), ValidationError>)
    ensures r.Success? <==> args.action.Some? && args.action.value in Actions
    ensures r.Failure? ==> Message(r.error) == "Must provide `action` argument"
  {
    if args.action.None? || args.action.value == "" then Failure(MissingAction)
    else if args.action.value !in Actions then Failure(MissingAction)
    else Success(())
  }

  /** The cases the source's tests exercise: no action and `false` are refused,
      `iam` and `deploy` accepted without any other input. */
  lemma ActionValues()
    ensures ValidateArguments(Arguments(None)).Failure?
    ensures ValidateArguments(Arguments(Some("false"))).Failure?
    ensures ValidateArguments(Arguments(Some("iam"))) == Success(())
    ensures ValidateArguments(Arguments(Some("deploy"))) == Success(())
  {
  }

  /** Whatever the four-field validator accepts, this one accepts for the
      same action: the later validator only adds rules. */
  lemma FourFieldValidatorIsStricter(args: Validators.Arguments)
    ensures Validators.ValidateArguments(args).Success? ==> ValidateArguments(Arguments(args.action)).Success?
  {
  }
}
