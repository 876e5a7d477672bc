# static-site-deployment-tool: a Dafny model of its sequential core

The tool deploys a static website to AWS: it creates CloudFormation stacks and
waits for them, finds the Route 53 hosted zone of the site's domain, checks
its command-line arguments, and names the CloudFront origin access control
with a random digit string. This project models those pieces of logic and
proves what they compute.

- `results.dfy` (`Results`): the `Option` and `Result` types that carry the
  error paths. An uncaught Python exception or a `SystemExit` becomes a
  `Failure`.
- `utils.dfy` (`Utils`): `CloudFormationStackCreator` from `src/utils.py`.
  - The boto3 CloudFormation client is a `ScriptedClient` object. It holds the
    `describe_stacks` responses it will give, in order, and a ghost log of
    every request it was sent.
  - The stack lookup, the output lookup and the polling loop are methods with
    loop invariants. Each is proved equal to a specification function:
    `FindStack`, `FindOutput`, `StackOutput` and `CreationStatus`/`Repoll`.
    Lemmas state what those functions mean.
  - The spinner generator is a small class whose n-th yield is proved.
- `create.dfy` (`Create`): `get_hosted_zone_id` and the constructor of
  `CloudFrontDistributionStackCreator` from `src/create.py`.
  - The `list_hosted_zones` response is given as the list of its `(Name, Id)`
    records.
  - Python's `str.split('/')` is `Split`, proved to invert `Join`.
  - The lookup is a `for` loop proved equal to `ResolveZone`. It states that
    the last match wins, that an empty id segment means "not found", and that
    a short id is an index error.
- `validators.dfy` (`Validators`): the four-field `Arguments` of
  `src/validators.py`. The guard chain is a function proved equal to a
  three-rule acceptance predicate, with one if-and-only-if per error that
  fixes which guard fires first.
- `root_validators.dfy` (`RootValidators`): the one-field `Arguments` of the
  top-level `validators.py`.
- `cf_distribution.dfy` (`CfDistribution`): `random_string` and the
  origin-access-control name. The calls to `random.randint(0, 10)` are an
  oracle sequence of draws.

The argument records are immutable datatypes. So `validate_arguments`
changing none of the fields set by the constructor holds by construction.

## Model

| member | source | states |
|---|---|---|
| Utils.FindStack | src/utils.py:84-96 | on success, the stack and its index: `Stacks[i]` is that stack, it has the name, and no earlier stack has it; an index error iff the list is empty; "could not be found" iff the list is non-empty and no name matches |
| Utils.FindStackInResponse | src/utils.py:84-96 | the `while` scan over `Stacks` returns exactly `FindStack`, the first-match specification |
| Utils.FindOutput | src/utils.py:73-82 | an absent `Outputs` key is a key error; an index error iff the `Outputs` list is empty; whenever some output has the key, the value of the first such output; a successful value always comes from the first output with the key; "Output ... could not be found" iff the list is non-empty and no key matches; no other failure occurs |
| Utils.ScanOutputs | src/utils.py:74-82 | the `while` scan over `Outputs` returns exactly `FindOutput` |
| Utils.StackOutput | src/utils.py:66-82 | the result is `FindOutput` of the outputs of the FIRST stack with the requested name; with no such stack, an index error when the list is empty and "Stack ... could not be found" otherwise |
| Utils.CreationStatus | src/utils.py:37-56 | the status check uses at most as many `describe_stacks` calls as the script holds, and at least one unless its outcome is that the script ran out |
| Utils.Repoll | src/utils.py:42-51 | the polling loop, entered with a status, uses no more responses than remain |
| Utils.CreationResult | src/utils.py:26-30 | `create_stack` succeeds iff the status check returned true; false becomes "Stack creation failed"; errors of the check propagate |
| Utils.RepollStopsAtFirstTerminal | src/utils.py:42-51 | the loop stops at the first response whose status at the fixed index is not CREATE_IN_PROGRESS, after exactly that many calls, and reports whether that status is CREATE_COMPLETE |
| Utils.PollStopsAtFirstTerminalStatus | src/utils.py:37-56 | if k is the position of the first status other than CREATE_IN_PROGRESS, the check makes k+1 calls and returns true iff that status is CREATE_COMPLETE |
| Utils.FailedStatusFailsCreation | src/utils.py:26-30 | a first terminal status other than CREATE_COMPLETE (CREATE_FAILED among them) makes `create_stack` fail with "Stack creation failed" after k+1 calls |
| Utils.RepollIgnoresNames | src/utils.py:40-51 | re-polls read the stack at the index found in the first response and never compare names again, even when another stack now occupies that index |
| Utils.RepollShortResponse | src/utils.py:42-51 | if the k-th re-poll response is the first too short to hold the remembered index, and every earlier one showed CREATE_IN_PROGRESS there, the loop ends with an index error after k+1 calls |
| Utils.ShorterRepollIsIndexError | src/utils.py:50 | for one two-response script whose second response is shorter than the remembered index, the check ends with an index error after two calls |
| Utils.CreateStackScenarios | src/utils.py:15-56 | IN_PROGRESS, IN_PROGRESS, COMPLETE succeeds after three polls; IN_PROGRESS, FAILED fails with "Stack creation failed" after two |
| Utils.StackOutputFailures | src/utils.py:66-96 | an empty `Stacks` list and an empty `Outputs` list both give an index error; a missing key gives "Output ... could not be found"; a missing stack gives "Stack ... could not be found" |
| Utils.FirstOutputWins | src/utils.py:74-82 | with two outputs under the requested key, the first one's value is returned |
| Utils.FirstStackWins | src/utils.py:73 | with two stacks under the requested name, the first one's outputs are read |
| Utils.MessageIdentifiesError | src/utils.py:30-95 | the exception's message (that of the uncaught `IndexError` or `KeyError`, or one of the three `SystemExit` messages) determines the error, including the stack name or output key it names |
| Utils.ScriptedClient.CreateStack | src/utils.py:19-24 | the creation request is logged and consumes no `describe_stacks` response |
| Utils.ScriptedClient.DescribeStacks | src/utils.py:37-39 | returns the next scripted response and logs one request; once the script is used up, it returns none and logs nothing |
| Utils.SpinningCursor.constructor | src/utils.py:58-64 | a new spinner has yielded nothing |
| Utils.SpinningCursor.Next | src/utils.py:58-64 | the n-th value yielded, counting from 0, is `"\|/-\\"[n mod 4]` |
| Utils.CloudFormationStackCreator.CreateStack | src/utils.py:15-30 | exactly one creation request, with CAPABILITY_NAMED_IAM and OnFailure DELETE, is sent before any poll; then one `describe_stacks` request per poll; the result is `CreationResult` of the status check |
| Utils.CloudFormationStackCreator.CheckStackCreationStatus | src/utils.py:32-56 | the polling loop returns `CreationStatus` of the script, consumes exactly the responses it counts, and logs one request per poll |
| Utils.CloudFormationStackCreator.GetStackOutput | src/utils.py:66-82 | one `describe_stacks` call; its result is `StackOutput` of that one response |
| Create.Split | src/create.py:49 | `str.split('/')` gives at least one part, no part contains the separator, and joining the parts gives the string back |
| Create.SplitUnique | src/create.py:49 | the split parts are the only separator-free parts that join to the string |
| Create.MatchesNameOrOneDot | src/create.py:48 | a zone matches under the domain name and under the name with one trailing dot; not with two dots, not under a `www.` subdomain; a matching name is the domain name followed by at most one character |
| Create.LastMatch | src/create.py:47-49 | the index of a zone named `d` or `d.` after which no zone matches; none iff no zone matches |
| Create.ResolveZone | src/create.py:46-57 | a successful lookup yields a non-empty id; the only failures are the index error and "Could not find hosted zone" for that domain |
| Create.ResolveZoneMeaning | src/create.py:46-57 | a successful lookup returns the non-empty third id segment of a matching zone that no later zone matches; with no match it fails with "Could not find hosted zone"; it is an index error iff some matching id has fewer than three parts |
| Create.GetHostedZoneId | src/create.py:36-57 | the `for` loop that overwrites the accumulator on each match returns exactly `ResolveZone` |
| Create.ResolveAppendOther | src/create.py:47-49 | appending a zone that does not match changes nothing |
| Create.ResolveAppendMatch | src/create.py:46-57 | when no earlier matching zone has an id of fewer than three parts, appending a matching zone whose id has at least three parts decides the outcome: its third segment, or "not found" when that segment is empty (an earlier short id still gives the index error, as `ResolveZoneMeaning` states) |
| Create.OnlyFirstOfThreeMatches | src/create.py:46-51 | with only the first of three zones matching, and its id of the form `/hostedzone/<id>` with a non-empty `<id>`, the lookup yields `<id>` |
| Create.TwoMatchingZones | src/create.py:46-57 | of two matching zones whose ids both have at least three parts, the second decides: its third segment, or "not found" when that segment is empty |
| Create.ExampleZonesResolve | tests/test_create.py:6-32 | the zones of the source's test, looked up for `example.com`, give `1234` |
| Create.LastMatchWins | src/create.py:46-49 | `example.com -> /hostedzone/1` followed by `example.com. -> /hostedzone/2` gives `2` |
| Create.EmptySegmentIsNotFound | src/create.py:49-57 | a later matching zone with id `/hostedzone/` discards an earlier good match, and the lookup fails |
| Create.ShortIdIsIndexError | src/create.py:49 | a matching zone with id `1234` is an index error, even before a later well-formed match |
| Create.MatchingIsExact | src/create.py:48 | `www.example.com` and `Example.com` do not match `example.com` |
| Create.MessageIdentifiesError | src/create.py:53-57 | the text of the raised exception tells "not found" from the index error and names the domain exactly |
| Create.CloudFrontDistributionStackCreator.constructor | src/create.py:21-24 | stores the domain name, an empty template and the hosted zone id |
| Create.NewStackCreator | src/create.py:21-24 | construction fails, with the lookup's error, iff the lookup fails; otherwise the new object holds the domain name, an empty template and the resolved id |
| Validators.ValidateArguments | src/validators.py:19-41 | passes iff the action is `iam` or `deploy`, `deploy` has a domain name and a source directory, and the domain-support flag comes only with `iam`; each of the five errors holds iff its guard is the first to fail in source order |
| Validators.MessagesAreDistinct | src/validators.py:20-41 | the five guards raise five different texts, so the text tells which guard refused the arguments |
| Validators.DeployScenarios | src/validators.py:19-41 | a full `deploy` passes; `deploy` with the flag, or without a source directory, fails with the matching error; `iam` with the flag passes; an empty action is missing |
| RootValidators.ValidateArguments | validators.py:6-10 | passes iff the action is present and is `iam` or `deploy`; every failure carries "Must provide `action` argument" |
| RootValidators.ActionValues | tests/test_validators.py:6-22 | no action and `false` are refused; `iam` and `deploy` pass with no other input |
| RootValidators.FourFieldValidatorIsStricter | src/validators.py:19-41 | whatever the four-field validator accepts, the one-field validator accepts for the same action |
| CfDistribution.DecimalString | definitions/cf_distribution.py:20 | `str(n)` has at least one character, one below 10 and two from 10 to 99 |
| CfDistribution.DecimalRoundTrip | definitions/cf_distribution.py:20 | `str(n)` is all digits, reads back as n, and has no leading zero unless n is 0 |
| CfDistribution.DrawWidth | definitions/cf_distribution.py:20 | a draw renders as one character, except 10, which renders as two |
| CfDistribution.Rendered | definitions/cf_distribution.py:19-20 | the rendering of n draws has between n and 2n characters |
| CfDistribution.RenderedDigits | definitions/cf_distribution.py:18-20 | the rendering of any draws is decimal digits only |
| CfDistribution.RenderedGrows | definitions/cf_distribution.py:19-20 | rendering more draws never gives a shorter string |
| CfDistribution.RandomString | definitions/cf_distribution.py:12-21 | the result is the rendering of the first 10 to 20 draws; it is 20 or 21 digits long; every shorter prefix of those draws renders to fewer than 20 characters, so the loop stops at the first length of 20 or more |
| CfDistribution.OriginAccessControlName | definitions/cf_distribution.py:150 | the name is `secure-static-site-` followed by `random_string`: the rendering of the first 10 to 20 draws, stopped at the first length of 20 or more; so it is digits after the prefix, 39 or 40 characters in all |

## Left out

- The boto3 clients are not modelled as services. `describe_stacks` is a scripted sequence of responses, and `list_hosted_zones` is a list of `(Name, Id)` records.
- A rejection by the client's `create_stack` call is not modelled.
- A `describe_stacks` response without a `Stacks` key, and a stack without `StackName` or `StackStatus`, are not modelled: responses always carry them.
- `print`, `sys.stdout` writes and `time.sleep` (src/utils.py:25, 43-46, 52; src/create.py:45) are I/O and are left out. For that reason the spinner is modelled on its own and is not advanced inside the polling loop.
- Utils.CloudFormationStackCreator.CheckStackCreationStatus: the source polls without bound. The model ends with the `ScriptExhausted` outcome once the scripted responses run out, and says nothing about what the real service would answer next.
- Utils.ScriptedClient.DescribeStacks: once the script is used up it logs nothing, because no response exists to give.
- Utils.Message: the outcome of an exhausted script is not an error of the source, so it has no text.
- Create.NewStackCreator: a Dafny constructor cannot fail, so the raising constructor of `CloudFrontDistributionStackCreator` is a factory method returning a `Result`. The class's constructor only stores the fields.
- The troposphere template is an empty placeholder. Its resources and `deploy_static_site` (src/create.py:26-34) hand data to a library that is not part of this model.
- The rest of definitions/cf_distribution.py (lines 23-206), the other template definitions, main.py, src/commands.py, src/__init__.py, src/iam.py and example_config.py are not part of this model. They are declarative template data or command-line glue.
- `random.randint` is not modelled. Its results are an input sequence of draws in 0..10, with at least 20 supplied, which is the most the loop can use.
- The `__init__` of src/validators.py has a stray `(` at line 9, so the file does not parse as written. The model takes the evidently intended constructor with four keyword arguments, each defaulting to `None`.
- The last message of src/validators.py (lines 36-40) says the flag is invalid "when used with iam command". The guard refuses it with every action except `iam`. The model follows the guard and keeps the message text as written.
