/** `Arguments` of `src/validators.py`: the command-line arguments and the
    guard chain `validate_arguments` runs over them. A field left at its
    default `None` is `None` here. */
module Validators {
  import opened Results

  const Actions: set<string> := {"iam", "deploy"}

  /** The four fields the constructor stores, unchanged by validation. */
  datatype Arguments = Arguments(
    action: Option<string>,
    domainSupport: Option<bool>,
    domainName: Option<string>,
    sourceDir: Option<string>)

  /** Python truthiness of an optional string: present and non-empty. */
  predicate Given(s: Option<string>)
  {
    s.Some? && s.value != ""
  }

  /** Python truthiness of an optional flag. */
  predicate Flagged(flag: Option<bool>)
  {
    flag == Some(true)
  }

  datatype ValidationError =
    | MissingAction
    | UnknownAction
    | MissingDomainName
    | MissingSourceDir
    | DomainSupportWithoutIam

  /** The exception texts, as the source words them. The last one states the
      opposite of the rule it enforces: the flag is refused for every action
      except `iam`. */
  function Message(e: ValidationError): string
  {
    match e
    case MissingAction => "Must provide `action` argument"
    case UnknownAction => "`action` argument must be either `iam` or `deploy`"
    case MissingDomainName => "Must provide a domain name for website deployment"
    case MissingSourceDir => "Must provide a directory containing website static files"
    case DomainSupportWithoutIam => "Argument --domain-support is invalid when used with iam command"
  }

  /** The length of each text. */
  function MessageLength(e: ValidationError): (n: nat)
    ensures n == |Message(e)|
  {
    match e
    case MissingAction => 30
    case UnknownAction => 50
    case MissingDomainName => 49
    case MissingSourceDir => 56
    case DomainSupportWithoutIam => 63
  }

  /** Each error has its own text, so the text tells which guard refused the
      arguments. */
  lemma MessagesAreDistinct(e1: ValidationError, e2: ValidationError)
    ensures Message(e1) == Message(e2) ==> e1 == e2
  {
    var n1, n2 := MessageLength(e1), MessageLength(e2);
    assert e1 != e2 ==> n1 != n2;
  }

  /** The arguments the tool accepts, stated as three independent rules. */
  predicate Acceptable(args: Arguments)
  {
    && args.action.Some? && args.action.value in Actions
    && (args.action.value == "deploy" ==> Given(args.domainName) && Given(args.sourceDir))
    && (Flagged(args.domainSupport) ==> args.action.value == "iam")
  }

  /** `validate_arguments`: the guards in source order; the first that fails
      determines the error. */
  function ValidateArguments(args: Arguments): (r: Result<(), ValidationError>)
    ensures r.Success? <==> Acceptable(args)
    ensures r == Failure(MissingAction) <==> !Given(args.action)
    ensures r == Failure(UnknownAction) <==> Given(args.action) && args.action.value !in Actions
    ensures r == Failure(MissingDomainName) <==>
      args.action == Some("deploy") && !Given(args.domainName)
    ensures r == Failure(MissingSourceDir) <==>
      args.action == Some("deploy") && Given(args.domainName) && !Given(args.sourceDir)
    ensures r == Failure(DomainSupportWithoutIam) <==>
      && Given(args.action) && args.action.value in Actions
      && (args.action.value == "deploy" ==> Given(args.domainName) && Given(args.sourceDir))
      && Flagged(args.domainSupport) && args.action.value != "iam"
  {
    if !Given(args.action) then Failure(MissingAction)
    else if args.action.value !in Actions then Failure(UnknownAction)
    else if args.action.value == "deploy" && !Given(args.domainName) then Failure(MissingDomainName)
    else if args.action.value == "deploy" && !Given(args.sourceDir) then Failure(MissingSourceDir)
    else if Flagged(args.domainSupport) && args.action.value != "iam" then Failure(DomainSupportWithoutIam)
    else Success(())
  }

  /** `deploy` with every field given passes; adding `--domain-support` to it,
      or leaving out the source directory, does not. */
  lemma DeployScenarios()
    ensures ValidateArguments(Arguments(Some("deploy"), None, Some("example.com"), Some("site"))) == Success(())
    ensures ValidateArguments(Arguments(Some("deploy"), Some(true), Some("example.com"), Some("site")))
      == Failure(DomainSupportWithoutIam)
    ensures ValidateArguments(Arguments(Some("deploy"), Some(true), Some("example.com"), None)) == Failure(MissingSourceDir)
    ensures ValidateArguments(Arguments(Some("iam"), Some(true), None, None)) == Success(())
    ensures ValidateArguments(Arguments(Some(""), Some(true), None, None)) == Failure(MissingAction)
  {
  }
}
