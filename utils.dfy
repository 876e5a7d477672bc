/** The CloudFormation stack helpers of `CloudFormationStackCreator`: creating a
    stack and polling its status, locating a stack in a `describe_stacks` response,
    reading a stack output, and the progress spinner.

    The CloudFormation client is a `ScriptedClient`: the `describe_stacks`
    responses it will give, in order, and a log of the requests it was sent. */
module Utils {
  import opened Results

  const CreateInProgress := "CREATE_IN_PROGRESS"
  const CreateComplete := "CREATE_COMPLETE"
  const NamedIamCapability := "CAPABILITY_NAMED_IAM"
  const DeleteOnFailure := "DELETE"
  const SpinnerFrames := "|/-\\"

  /** One entry of a stack's `Outputs` list. */
  datatype Output = Output(outputKey: string, outputValue: string)

  /** One entry of the `Stacks` list of a `describe_stacks` response;
      `outputs` is None when the entry carries no `Outputs` key. */
  datatype Stack = Stack(stackName: string, stackStatus: string, outputs: Option<seq<Output>>)

  /** The `Stacks` list of one `describe_stacks` response. */
  type Response = seq<Stack>

  datatype Request =
    | CreateStackRequest(stackName: string, templateBody: string, capabilities: seq<string>, onFailure: string)
    | DescribeStacksRequest(stackName: string)

  /** What ends an operation abnormally. */
  datatype Error =
    | IndexError                        // a list read past its end, never caught
    | KeyError(key: string)             // a missing dictionary key, never caught
    | StackNotFound(stackName: string)  // SystemExit
    | OutputNotFound(keyName: string)   // SystemExit
    | CreationFailed                    // SystemExit
    | ScriptExhausted                   // the scripted client has no response left

  /** The exception's message: that of the uncaught exception (its `str`) or
      of the `SystemExit`. The scripted client's exhaustion is no error of the
      source and has no text. */
  function Message(e: Error): string
    requires e != ScriptExhausted
  {
    match e
    case IndexError => "list index out of range"
    case KeyError(key) => "'" + key + "'"
    case StackNotFound(name) => "Stack '" + name + "' could not be found"
    case OutputNotFound(key) => "Output '" + key + "' could not be found"
    case CreationFailed => "Stack creation failed"
  }

  /** Equal texts around two strings mean equal strings. */
  lemma Framed(prefix: string, a: string, b: string, suffix: string)
    requires prefix + a + suffix == prefix + b + suffix
    ensures a == b
  {
    var m := prefix + a + suffix;
    assert a == m[|prefix|..|m| - |suffix|];
    assert b == m[|prefix|..|m| - |suffix|];
  }

  /** The exception's message tells every error apart, including the
      stack name or output key it names. */
  lemma MessageIdentifiesError(e1: Error, e2: Error)
    requires e1 != ScriptExhausted && e2 != ScriptExhausted
    ensures Message(e1) == Message(e2) ==> e1 == e2
  {
    var m1, m2 := Message(e1), Message(e2);
    if e1.StackNotFound? && e2.StackNotFound? {
      if m1 == m2 {
        Framed("Stack '", e1.stackName, e2.stackName, "' could not be found");
      }
    } else if e1.OutputNotFound? && e2.OutputNotFound? {
      if m1 == m2 {
        Framed("Output '", e1.keyName, e2.keyName, "' could not be found");
      }
    } else if e1.KeyError? && e2.KeyError? {
      if m1 == m2 {
        Framed("'", e1.key, e2.key, "'");
      }
    } else if (e1.StackNotFound? && e2.CreationFailed?) || (e1.CreationFailed? && e2.StackNotFound?) {
      assert m1[6] != m2[6];
    } else if e1 != e2 {
      assert m1[0] != m2[0];
    }
  }

  /** The position of the first occurrence of `key` in `keys`. */
  function IndexOf(keys: seq<string>, key: string): (r: Option<nat>)
    ensures r.None? <==> key !in keys
    ensures r.Some? ==> r.value < |keys| && keys[r.value] == key
    ensures r.Some? ==> forall j :: 0 <= j < r.value ==> keys[j] != key
  {
    if keys == [] then None
    else if keys[0] == key then Some(0)
    else match IndexOf(keys[1..], key)
      case None => None
      case Some(i) => Some(i + 1)
  }

  function StackNames(stacks: Response): seq<string>
  {
    seq(|stacks|, i requires 0 <= i < |stacks| => stacks[i].stackName)
  }

  function OutputKeys(outputs: seq<Output>): seq<string>
  {
    seq(|outputs|, i requires 0 <= i < |outputs| => outputs[i].outputKey)
  }

  /** The stack named `stackName` in a response, with its position. The first
      entry is read before any name is compared, so an empty list fails with an
      index error rather than with "could not be found". */
  function FindStack(stacks: Response, stackName: string): (r: Result<(Stack, nat), Error>)
    ensures r.Success? ==>
      && r.value.1 < |stacks| && stacks[r.value.1] == r.value.0
      && r.value.0.stackName == stackName
      && forall j :: 0 <= j < r.value.1 ==> stacks[j].stackName != stackName
    ensures r == Failure(IndexError) <==> stacks == []
    ensures r == Failure(StackNotFound(stackName)) <==>
      stacks != [] && forall j :: 0 <= j < |stacks| ==> stacks[j].stackName != stackName
    ensures r.Failure? ==> r.error in {IndexError, StackNotFound(stackName)}
  {
    if stacks == [] then Failure(IndexError)
    else
      assert forall j :: 0 <= j < |stacks| ==> StackNames(stacks)[j] == stacks[j].stackName;
      match IndexOf(StackNames(stacks), stackName)
      case None => Failure(StackNotFound(stackName))
      case Some(i) => Success((stacks[i], i))
  }

  /** The value of the first output whose key is `keyName`. The `Outputs` key is
      read first, then its first entry, before any key is compared. */
  function FindOutput(outputs: Option<seq<Output>>, keyName: string): (r: Result<string, Error>)
    ensures outputs == None ==> r == Failure(KeyError("Outputs"))
    ensures outputs == Some([]) ==> r == Failure(IndexError)
    ensures r.Success? ==> exists i :: FirstOutputWithKey(outputs.value, keyName, i) && outputs.value[i].outputValue == r.value
    ensures forall i :: outputs.Some? && FirstOutputWithKey(outputs.value, keyName, i) ==> r == Success(outputs.value[i].outputValue)
    ensures r == Failure(IndexError) <==> outputs == Some([])
    ensures r.Failure? ==> r.error in {KeyError("Outputs"), IndexError, OutputNotFound(keyName)}
    ensures r == Failure(OutputNotFound(keyName)) <==>
      outputs.Some? && outputs.value != [] && forall j :: 0 <= j < |outputs.value| ==> outputs.value[j].outputKey != keyName
  {
    match outputs
    case None => Failure(KeyError("Outputs"))
    case Some(os) =>
      if os == [] then Failure(IndexError)
      else
        assert forall j :: 0 <= j < |os| ==> OutputKeys(os)[j] == os[j].outputKey;
        match IndexOf(OutputKeys(os), keyName)
        case None => Failure(OutputNotFound(keyName))
        case Some(i) =>
          assert FirstOutputWithKey(os, keyName, i);
          Success(os[i].outputValue)
  }

  ghost predicate FirstOutputWithKey(outputs: seq<Output>, keyName: string, i: int)
  {
    && 0 <= i < |outputs| && outputs[i].outputKey == keyName
    && forall j :: 0 <= j < i ==> outputs[j].outputKey != keyName
  }

  /** `_find_stack_in_response`: the scan over the `Stacks` list. */
  method FindStackInResponse(response: Response, stackName: string) returns (r: Result<(Stack, nat), Error>)
    ensures r == FindStack(response, stackName)
  {
    var stackIndex := 0;
    if stackIndex >= |response| {
      return Failure(IndexError);
    }
    var stack := response[stackIndex];
    while stack.stackName != stackName
      invariant 0 <= stackIndex < |response| && stack == response[stackIndex]
      invariant forall j :: 0 <= j < stackIndex ==> response[j].stackName != stackName
      decreases |response| - stackIndex
    {
      stackIndex := stackIndex + 1;
      if stackIndex >= |response| {
        return Failure(StackNotFound(stackName));
      }
      stack := response[stackIndex];
    }
    return Success((stack, stackIndex));
  }

  /** The scan over a stack's `Outputs` in `_get_stack_output`. */
  method ScanOutputs(outputs: Option<seq<Output>>, keyName: string) returns (r: Result<string, Error>)
    ensures r == FindOutput(outputs, keyName)
  {
    if outputs.None? {
      return Failure(KeyError("Outputs"));
    }
    var os := outputs.value;
    var outputIndex := 0;
    if outputIndex >= |os| {
      return Failure(IndexError);
    }
    var output := os[outputIndex];
    while output.outputKey != keyName
      invariant 0 <= outputIndex < |os| && output == os[outputIndex]
      invariant forall j :: 0 <= j < outputIndex ==> os[j].outputKey != keyName
      decreases |os| - outputIndex
    {
      outputIndex := outputIndex + 1;
      if outputIndex >= |os| {
        return Failure(OutputNotFound(keyName));
      }
      output := os[outputIndex];
    }
    return Success(output.outputValue);
  }

  /** The outcome of a status check and the number of `describe_stacks` calls it made. */
  datatype Poll = Poll(outcome: Result<bool, Error>, calls: nat)

  /** `_check_stack_creation_status` as a function of the client's script: the
      first response locates the stack by name, later responses are read at
      that same position. */
  function CreationStatus(script: seq<Response>, stackName: string): (p: Poll)
    ensures p.calls <= |script|
    ensures p.outcome != Failure(ScriptExhausted) ==> 1 <= p.calls
  {
    if script == [] then Poll(Failure(ScriptExhausted), 0)
    else match FindStack(script[0], stackName)
      case Failure(e) => Poll(Failure(e), 1)
      case Success((stack, i)) =>
        var q := Repoll(script[1..], i, stack.stackStatus);
        Poll(q.outcome, q.calls + 1)
  }

  /** The polling loop, entered with the last status read. */
  function Repoll(script: seq<Response>, stackIndex: nat, status: string): (p: Poll)
    ensures p.calls <= |script|
    decreases |script|
  {
    if status != CreateInProgress then Poll(Success(status == CreateComplete), 0)
    else if script == [] then Poll(Failure(ScriptExhausted), 0)
    else if stackIndex >= |script[0]| then Poll(Failure(IndexError), 1)
    else
      var q := Repoll(script[1..], stackIndex, script[0][stackIndex].stackStatus);
      Poll(q.outcome, q.calls + 1)
  }

  /** How `create_stack` turns the status check into its own outcome. */
  function CreationResult(status: Result<bool, Error>): (r: Result<(), Error>)
    ensures r.Success? <==> status == Success(true)
    ensures status == Success(false) ==> r == Failure(CreationFailed)
    ensures status.Failure? ==> r == Failure(status.error)
  {
    match status
    case Success(ok) => if ok then Success(()) else Failure(CreationFailed)
    case Failure(e) => Failure(e)
  }

  ghost predicate FirstStackWithName(stacks: Response, stackName: string, i: int)
  {
    && 0 <= i < |stacks| && stacks[i].stackName == stackName
    && forall j :: 0 <= j < i ==> stacks[j].stackName != stackName
  }

  /** What `_get_stack_output` computes from the one response it reads: the
      output lookup in the FIRST stack with the name, or the failure of the
      stack lookup. */
  function StackOutput(response: Response, stackName: string, keyName: string): (r: Result<string, Error>)
    ensures forall i :: FirstStackWithName(response, stackName, i) ==> r == FindOutput(response[i].outputs, keyName)
    ensures (forall j :: 0 <= j < |response| ==> response[j].stackName != stackName) ==>
      r == Failure(if response == [] then IndexError else StackNotFound(stackName))
  {
    match FindStack(response, stackName)
    case Failure(e) => Failure(e)
    case Success((stack, k)) =>
      assert forall i :: FirstStackWithName(response, stackName, i) ==> i == k;
      FindOutput(stack.outputs, keyName)
  }

  /** Once the loop is entered with `status`, it stops at the k-th further
      response: the first one whose status at `stackIndex` is not
      CREATE_IN_PROGRESS. */
  lemma {:induction false} RepollStopsAtFirstTerminal(script: seq<Response>, stackIndex: nat, status: string, k: nat)
    requires k <= |script|
    requires forall j :: 0 <= j < k ==> stackIndex < |script[j]|
    requires k == 0 ==> status != CreateInProgress
    requires k > 0 ==> status == CreateInProgress && script[k - 1][stackIndex].stackStatus != CreateInProgress
    requires forall j :: 0 <= j < k - 1 ==> script[j][stackIndex].stackStatus == CreateInProgress
    ensures Repoll(script, stackIndex, status)
      == Poll(Success((if k == 0 then status else script[k - 1][stackIndex].stackStatus) == CreateComplete), k)
    decreases k
  {
    if k > 0 {
      RepollStopsAtFirstTerminal(script[1..], stackIndex, script[0][stackIndex].stackStatus, k - 1);
    }
  }

  /** The status check makes k+1 `describe_stacks` calls, where k is the position
      of the first response whose status (at the position the first response
      gave) is not CREATE_IN_PROGRESS; it reports true iff that status is
      CREATE_COMPLETE. */
  lemma PollStopsAtFirstTerminalStatus(script: seq<Response>, stackName: string, k: nat)
    requires k < |script|
    requires FindStack(script[0], stackName).Success?
    requires var i := FindStack(script[0], stackName).value.1;
      && (forall j :: 0 <= j <= k ==> i < |script[j]|)
      && (forall j :: 0 <= j < k ==> script[j][i].stackStatus == CreateInProgress)
      && script[k][i].stackStatus != CreateInProgress
    ensures var i := FindStack(script[0], stackName).value.1;
      CreationStatus(script, stackName) == Poll(Success(script[k][i].stackStatus == CreateComplete), k + 1)
  {
    var i := FindStack(script[0], stackName).value.1;
    RepollStopsAtFirstTerminal(script[1..], i, script[0][i].stackStatus, k);
  }

  /** Any terminal status other than CREATE_COMPLETE, CREATE_FAILED among them,
      makes `create_stack` exit with "Stack creation failed". */
  lemma FailedStatusFailsCreation(script: seq<Response>, stackName: string, k: nat)
    requires k < |script|
    requires FindStack(script[0], stackName).Success?
    requires var i := FindStack(script[0], stackName).value.1;
      && (forall j :: 0 <= j <= k ==> i < |script[j]|)
      && (forall j :: 0 <= j < k ==> script[j][i].stackStatus == CreateInProgress)
      && script[k][i].stackStatus !in {CreateInProgress, CreateComplete}
    ensures CreationResult(CreationStatus(script, stackName).outcome) == Failure(CreationFailed)
    ensures CreationStatus(script, stackName).calls == k + 1
  {
    PollStopsAtFirstTerminalStatus(script, stackName, k);
  }

  /** Re-polls read the stack at the position found in the first response and
      never compare names again: here the stack named "site" is listed second
      with CREATE_FAILED, but the stack now listed first is COMPLETE, so the
      check reports success. */
  lemma RepollIgnoresNames()
    ensures CreationStatus(
      [[Stack("site", CreateInProgress, None)],
       [Stack("other", CreateComplete, None), Stack("site", "CREATE_FAILED", None)]],
      "site") == Poll(Success(true), 2)
  {
    var script := [[Stack("site", CreateInProgress, None)],
                   [Stack("other", CreateComplete, None), Stack("site", "CREATE_FAILED", None)]];
    assert FindStack(script[0], "site") == Success((script[0][0], 0));
    PollStopsAtFirstTerminalStatus(script, "site", 1);
  }

  /** Once the loop is entered, if the k-th further response is the first one
      too short to hold the stack at `stackIndex`, and every earlier one still
      showed CREATE_IN_PROGRESS there, the loop ends with an index error after
      k+1 calls. */
  lemma {:induction false} RepollShortResponse(script: seq<Response>, stackIndex: nat, status: string, k: nat)
    requires k < |script| && status == CreateInProgress
    requires forall j :: 0 <= j < k ==> stackIndex < |script[j]| && script[j][stackIndex].stackStatus == CreateInProgress
    requires stackIndex >= |script[k]|
    ensures Repoll(script, stackIndex, status) == Poll(Failure(IndexError), k + 1)
    decreases k
  {
    if k > 0 {
      RepollShortResponse(script[1..], stackIndex, script[0][stackIndex].stackStatus, k - 1);
    }
  }

  /** A re-poll response with fewer stacks than the position found first ends
      the check with an index error. */
  lemma ShorterRepollIsIndexError()
    ensures CreationStatus(
      [[Stack("other", CreateComplete, None), Stack("site", CreateInProgress, None)],
       [Stack("site", CreateInProgress, None)]],
      "site") == Poll(Failure(IndexError), 2)
  {
    var script := [[Stack("other", CreateComplete, None), Stack("site", CreateInProgress, None)],
                   [Stack("site", CreateInProgress, None)]];
    assert FindStack(script[0], "site") == Success((script[0][1], 1));
  }

  /** IN_PROGRESS, IN_PROGRESS, COMPLETE: `create_stack` returns normally after
      three polls; IN_PROGRESS, FAILED: it exits after two. */
  lemma CreateStackScenarios()
    ensures var ok := [[Stack("site", CreateInProgress, None)], [Stack("site", CreateInProgress, None)],
                       [Stack("site", CreateComplete, None)]];
      CreationStatus(ok, "site") == Poll(Success(true), 3)
      && CreationResult(CreationStatus(ok, "site").outcome) == Success(())
    ensures var failed := [[Stack("site", CreateInProgress, None)], [Stack("site", "CREATE_FAILED", None)]];
      CreationStatus(failed, "site") == Poll(Success(false), 2)
      && CreationResult(CreationStatus(failed, "site").outcome) == Failure(CreationFailed)
  {
    var ok := [[Stack("site", CreateInProgress, None)], [Stack("site", CreateInProgress, None)],
               [Stack("site", CreateComplete, None)]];
    assert FindStack(ok[0], "site") == Success((ok[0][0], 0));
    PollStopsAtFirstTerminalStatus(ok, "site", 2);
    var failed := [[Stack("site", CreateInProgress, None)], [Stack("site", "CREATE_FAILED", None)]];
    assert FindStack(failed[0], "site") == Success((failed[0][0], 0));
    PollStopsAtFirstTerminalStatus(failed, "site", 1);
  }

  /** How `_get_stack_output` fails: an empty `Stacks` list and an empty
      `Outputs` list both fail with an index error at their first read; an
      absent key and an absent stack end with their "could not be found" exits. */
  lemma StackOutputFailures()
    ensures StackOutput([], "site", "BucketName") == Failure(IndexError)
    ensures StackOutput([Stack("site", CreateComplete, Some([]))], "site", "BucketName") == Failure(IndexError)
    ensures StackOutput([Stack("site", CreateComplete, Some([Output("Other", "x")]))], "site", "BucketName")
      == Failure(OutputNotFound("BucketName"))
    ensures StackOutput([Stack("other", CreateComplete, Some([Output("BucketName", "x")]))], "site", "BucketName")
      == Failure(StackNotFound("site"))
  {
    var s := Stack("site", CreateComplete, Some([Output("Other", "x")]));
    assert FindStack([s], "site") == Success((s, 0));
    assert FindStack([Stack("site", CreateComplete, Some([]))], "site").Success?;
  }

  /** The first output with the key wins over later ones. */
  lemma FirstOutputWins()
    ensures StackOutput([Stack("site", CreateComplete, Some([Output("Other", "a"), Output("BucketName", "b"), Output("BucketName", "c")]))],
                        "site", "BucketName") == Success("b")
  {
    var os := [Output("Other", "a"), Output("BucketName", "b"), Output("BucketName", "c")];
    var s := Stack("site", CreateComplete, Some(os));
    assert FindStack([s], "site") == Success((s, 0));
    assert OutputKeys(os) == ["Other", "BucketName", "BucketName"];
  }

  /** Of two stacks with the requested name, the first one's outputs are read. */
  lemma FirstStackWins()
    ensures StackOutput([Stack("site", CreateComplete, Some([Output("BucketName", "a")])),
                         Stack("site", CreateComplete, Some([Output("BucketName", "b")]))],
                        "site", "BucketName") == Success("a")
  {
    var stacks := [Stack("site", CreateComplete, Some([Output("BucketName", "a")])),
                   Stack("site", CreateComplete, Some([Output("BucketName", "b")]))];
    assert FirstStackWithName(stacks, "site", 0);
    assert FirstOutputWithKey([Output("BucketName", "a")], "BucketName", 0);
  }

  function Describes(stackName: string, n: nat): (log: seq<Request>)
  {
    seq(n, _ => DescribeStacksRequest(stackName))
  }

  /** The CloudFormation client: the `describe_stacks` responses still to be
      given, in order, and every request it has been sent. */
  class ScriptedClient {
    var responses: seq<Response>
    ghost var log: seq<Request>

    constructor (responses: seq<Response>)
      ensures this.responses == responses && log == []
    {
      this.responses := responses;
      log := [];
    }

    method CreateStack(stackName: string, templateBody: string, capabilities: seq<string>, onFailure: string)
      modifies this
      ensures responses == old(responses)
      ensures log == old(log) + [CreateStackRequest(stackName, templateBody, capabilities, onFailure)]
    {
      log := log + [CreateStackRequest(stackName, templateBody, capabilities, onFailure)];
    }

    /** Gives the next scripted response; once the script is used up, none, and
        no request is recorded. */
    method DescribeStacks(stackName: string) returns (r: Option<Response>)
      modifies this
      ensures old(responses) == [] ==> r == None && responses == [] && log == old(log)
      ensures old(responses) != [] ==>
        && r == Some(old(responses)[0]) && responses == old(responses)[1..]
        && log == old(log) + [DescribeStacksRequest(stackName)]
    {
      if responses == [] {
        r := None;
      } else {
        r := Some(responses[0]);
        responses := responses[1..];
        log := log + [DescribeStacksRequest(stackName)];
      }
    }
  }

  /** `_spinning_cursor`: an endless generator cycling through `|`, `/`, `-`, `\`. */
  class SpinningCursor {
    var position: nat
    ghost var yielded: nat

    ghost predicate Valid()
      reads this
    {
      position == yielded % |SpinnerFrames|
    }

    constructor ()
      ensures Valid() && yielded == 0
    {
      position := 0;
      yielded := 0;
    }

    /** `next(spinner)`: the n-th value yielded, counting from 0, is frame n mod 4. */
    method Next() returns (cursor: char)
      requires Valid()
      modifies this
      ensures Valid() && yielded == old(yielded) + 1
      ensures cursor == SpinnerFrames[old(yielded) % |SpinnerFrames|]
    {
      cursor := SpinnerFrames[position];
      position := if position + 1 == |SpinnerFrames| then 0 else position + 1;
      yielded := yielded + 1;
    }
  }

  class CloudFormationStackCreator {
    const client: ScriptedClient

    constructor (client: ScriptedClient)
      ensures this.client == client
    {
      this.client := client;
    }

    /** `create_stack`: one creation request, then the status check. */
    method CreateStack(templateBody: string, stackName: string) returns (r: Result<(), Error>)
      modifies client
      ensures var p := CreationStatus(old(client.responses), stackName);
        && client.log == old(client.log)
             + [CreateStackRequest(stackName, templateBody, [NamedIamCapability], DeleteOnFailure)]
             + Describes(stackName, p.calls)
        && client.responses == old(client.responses)[p.calls..]
        && r == CreationResult(p.outcome)
    {
      client.CreateStack(stackName, templateBody, [NamedIamCapability], DeleteOnFailure);
      var status := CheckStackCreationStatus(stackName);
      match status
      case Success(ok) =>
        if ok {
          r := Success(());
        } else {
          r := Failure(CreationFailed);
        }
      case Failure(e) =>
        r := Failure(e);
    }

    /** `_check_stack_creation_status`: polls until the status is no longer
        CREATE_IN_PROGRESS and reports whether it is CREATE_COMPLETE. */
    method CheckStackCreationStatus(stackName: string) returns (r: Result<bool, Error>)
      modifies client
      ensures var p := CreationStatus(old(client.responses), stackName);
        && r == p.outcome
        && client.responses == old(client.responses)[p.calls..]
        && client.log == old(client.log) + Describes(stackName, p.calls)
    {
      ghost var script := client.responses;
      ghost var log0 := client.log;
      var response := client.DescribeStacks(stackName);
      if response.None? {
        return Failure(ScriptExhausted);
      }
      var found := FindStackInResponse(response.value, stackName);
      if found.Failure? {
        assert Describes(stackName, 1) == [DescribeStacksRequest(stackName)];
        return Failure(found.error);
      }
      var (stack, stackIndex) := found.value;
      var stackStatus := stack.stackStatus;
      ghost var calls: nat := 1;
      while stackStatus == CreateInProgress
        invariant calls <= |script| && client.responses == script[calls..]
        invariant client.log == log0 + Describes(stackName, calls)
        invariant var q := Repoll(client.responses, stackIndex, stackStatus);
          CreationStatus(script, stackName) == Poll(q.outcome, q.calls + calls)
        decreases |client.responses|
      {
        response := client.DescribeStacks(stackName);
        if response.None? {
          return Failure(ScriptExhausted);
        }
        assert script[calls..][1..] == script[calls + 1..];
        assert Describes(stackName, calls) + [DescribeStacksRequest(stackName)] == Describes(stackName, calls + 1);
        calls := calls + 1;
        if stackIndex >= |response.value| {
          return Failure(IndexError);
        }
        stack := response.value[stackIndex];
        stackStatus := stack.stackStatus;
      }
      return Success(stackStatus == CreateComplete);
    }

    /** `_get_stack_output`: one `describe_stacks` call, the stack located by
        name, then the first output with the key. */
    method GetStackOutput(stackName: string, keyName: string) returns (r: Result<string, Error>)
      modifies client
      ensures old(client.responses) == [] ==>
        r == Failure(ScriptExhausted) && client.responses == [] && client.log == old(client.log)
      ensures old(client.responses) != [] ==>
        && r == StackOutput(old(client.responses)[0], stackName, keyName)
        && client.responses == old(client.responses)[1..]
        && client.log == old(client.log) + [DescribeStacksRequest(stackName)]
    {
      var response := client.DescribeStacks(stackName);
      if response.None? {
        return Failure(ScriptExhausted);
      }
      var found := FindStackInResponse(response.value, stackName);
      if found.Failure? {
        return Failure(found.error);
      }
      var stack := found.value.0;
      r := ScanOutputs(stack.outputs, keyName);
    }
  }
}
