/** `OperationResult` and `OperationResult<TValue>`, with their factories.
    One class models both: `carriesValue` tells the value-carrying variant
    from the plain one, and a plain result is an `OperationResult<()>` whose
    value slot stays empty. */
module OperationResults {
  import opened Results
  import opened Messages
  import opened MessageCollections

  /** True when no message of `s` has severity Error. */
  predicate NoError(s: seq<Message>) {
    !ContainsLevel(s, Error)
  }

  /** Warning and Information messages never turn success into failure, and an
      Error message always does. */
  lemma {:induction false} AppendKeepsSuccessUnlessError(s: seq<Message>, extra: seq<Message>)
    ensures NoError(s + extra) <==> NoError(s) && forall i :: 0 <= i < |extra| ==> extra[i].severity != Error
  {
    ContainsLevelConcat(s, extra, Error);
  }

  class OperationResult<T> {
    /** The owned collection: created empty, never replaced. */
    const messages: MessageCollection
    /** True for `OperationResult<TValue>`, false for the plain `OperationResult`. */
    const carriesValue: bool
    /** The `Value` slot; `None` stands for `null`. */
    var value: Option<T>

    constructor(carriesValue: bool)
      ensures this.carriesValue == carriesValue && value == None
      ensures fresh(messages) && messages.items == []
    {
      this.carriesValue := carriesValue;
      value := None;
      messages := new MessageCollection();
    }

    /** `Succeeded`: derived, never stored; true exactly when no message is an Error. */
    function Succeeded(): (b: bool)
      reads messages
      ensures b <==> forall i :: 0 <= i < |messages.items| ==> messages.items[i].severity != Error
      ensures messages.items == [] ==> b
    {
      NoError(messages.items)
    }

    /** `HasMessages()`: whether the collection is non-empty, whatever the severities. */
    function HasMessages(): (b: bool)
      reads messages
      ensures b <==> |messages.items| > 0
      ensures !b ==> Succeeded()
    {
      messages.Count() > 0
    }

    /** `HasValue()`: whether the value slot holds a non-null value. */
    function HasValue(): (b: bool)
      reads this
      ensures b <==> value != None
    {
      value.Some?
    }
  }

  /** `OperationResult.Success()`: succeeds, with no messages. */
  method Success() returns (r: OperationResult<()>)
    ensures fresh(r) && fresh(r.messages) && !r.carriesValue && r.value == None
    ensures r.messages.items == [] && r.Succeeded() && !r.HasMessages()
  {
    r := new OperationResult<()>(false);
  }

  /** `OperationResult.Failure(params messages)`: a null or empty list is rejected;
      otherwise the result holds exactly the given messages, in order. */
  method Failure(messages: Option<seq<Message>>) returns (r: Result<OperationResult<()>>)
    ensures messages.None? || messages.value == [] ==> r == Err(ArgumentNull("messages"))
    ensures messages.Some? && messages.value != [] ==>
      r.Ok? && fresh(r.value) && fresh(r.value.messages) && !r.value.carriesValue && r.value.value == None
      && r.value.messages.items == messages.value && r.value.HasMessages()
  {
    if messages.None? || messages.value == [] {
      return Err(ArgumentNull("messages"));
    }
    var result := new OperationResult<()>(false);
    var _ := result.messages.AddRange(messages);
    r := Ok(result);
  }

  /** `Failure(params messages)` built from a single Warning message reports
      success: success depends only on the absence of Error messages. */
  method WarningOnlyFailureSucceeds() returns (r: OperationResult<()>)
    ensures r.Succeeded() && r.HasMessages()
  {
    var failure := Failure(Some([Message(Warning, [])]));
    r := failure.value;
    assert r.messages.items[0].severity == Warning;
  }

  /** `OperationResult.Failure(exception)`: exactly one Error message, so it fails. */
  method FailureWithException(exception: Exception) returns (r: OperationResult<()>)
    ensures fresh(r) && fresh(r.messages) && !r.carriesValue && r.value == None
    ensures r.messages.items == [ExceptionMessage(exception)] && !r.Succeeded()
  {
    r := new OperationResult<()>(false);
    r.messages.Add(ExceptionMessage(exception));
    assert r.messages.items[0].severity == Error;
  }

  /** `OperationResult.Failure(problemDetails)`: delegates with severity Error. */
  method FailureWithProblemDetails(problemDetails: ProblemDetails) returns (r: OperationResult<()>)
    ensures fresh(r) && fresh(r.messages) && !r.carriesValue && r.value == None
    ensures r.messages.items == [ProblemDetailsMessage(problemDetails, Error)] && !r.Succeeded()
  {
    r := FailureWithProblemDetailsAndSeverity(problemDetails, Error);
  }

  /** `OperationResult.Failure(problemDetails, severity)`: exactly one message of the
      given severity; the result fails exactly when that severity is Error. */
  method FailureWithProblemDetailsAndSeverity(problemDetails: ProblemDetails, severity: Level)
    returns (r: OperationResult<()>)
    ensures fresh(r) && fresh(r.messages) && !r.carriesValue && r.value == None
    ensures r.messages.items == [ProblemDetailsMessage(problemDetails, severity)]
    ensures r.Succeeded() <==> severity != Error
  {
    r := new OperationResult<()>(false);
    r.messages.Add(ProblemDetailsMessage(problemDetails, severity));
    assert r.messages.items[0].severity == severity;
  }

  /** `OperationResult.Success<TValue>()`: succeeds, no messages, no value. */
  method ValueSuccess<T>() returns (r: OperationResult<T>)
    ensures fresh(r) && fresh(r.messages) && r.carriesValue
    ensures r.messages.items == [] && r.Succeeded() && !r.HasMessages() && !r.HasValue()
  {
    r := new OperationResult<T>(true);
  }

  /** `OperationResult.Success<TValue>(value)`: succeeds, no messages, stores `value`. */
  method ValueSuccessWith<T>(value: Option<T>) returns (r: OperationResult<T>)
    ensures fresh(r) && fresh(r.messages) && r.carriesValue && r.value == value
    ensures r.messages.items == [] && r.Succeeded() && !r.HasMessages()
    ensures r.HasValue() <==> value.Some?
  {
    r := new OperationResult<T>(true);
    r.value := value;
  }

  /** `OperationResult.Failure<TValue>(params messages)`, as written: there is no
      emptiness check, so an empty list gives a result that succeeds; a null list
      is rejected only by `AddRange`, naming `collection`. */
  method ValueFailure<T>(messages: Option<seq<Message>>) returns (r: Result<OperationResult<T>>)
    ensures messages.None? ==> r == Err(ArgumentNull("collection"))
    ensures messages.Some? ==>
      r.Ok? && fresh(r.value) && fresh(r.value.messages) && r.value.carriesValue && r.value.value == None
      && r.value.messages.items == messages.value
    ensures messages == Some([]) ==> r.Ok? && r.value.Succeeded()
  {
    var result := new OperationResult<T>(true);
    var o := result.messages.AddRange(messages);
    if o.Failed? {
      return Err(o.error);
    }
    r := Ok(result);
  }

  /** `Failure<TValue>()` called with no messages at all reports success. */
  method EmptyValueFailureSucceeds<T>() returns (r: OperationResult<T>)
    ensures r.Succeeded() && !r.HasMessages()
  {
    var failure := ValueFailure<T>(Some([]));
    r := failure.value;
  }

  /** `Failure<TValue>(params messages)` with the emptiness check of the plain
      overload: a null or empty list is rejected, so a value-carrying failure built
      from messages always has at least one. */
  method ValueFailureChecked<T>(messages: Option<seq<Message>>) returns (r: Result<OperationResult<T>>)
    ensures messages.None? || messages.value == [] ==> r == Err(ArgumentNull("messages"))
    ensures messages.Some? && messages.value != [] ==>
      r.Ok? && fresh(r.value) && fresh(r.value.messages) && r.value.carriesValue && r.value.value == None
      && r.value.messages.items == messages.value && r.value.HasMessages()
  {
    if messages.None? || messages.value == [] {
      return Err(ArgumentNull("messages"));
    }
    var result := new OperationResult<T>(true);
    var _ := result.messages.AddRange(messages);
    r := Ok(result);
  }

  /** `OperationResult.Failure<TValue>(exception)`: exactly one Error message. */
  method ValueFailureWithException<T>(exception: Exception) returns (r: OperationResult<T>)
    ensures fresh(r) && fresh(r.messages) && r.carriesValue && r.value == None
    ensures r.messages.items == [ExceptionMessage(exception)] && !r.Succeeded()
  {
    r := new OperationResult<T>(true);
    r.messages.Add(ExceptionMessage(exception));
    assert r.messages.items[0].severity == Error;
  }

  /** `OperationResult.Failure<TValue>(problemDetails)`: delegates with severity Error. */
  method ValueFailureWithProblemDetails<T>(problemDetails: ProblemDetails) returns (r: OperationResult<T>)
    ensures fresh(r) && fresh(r.messages) && r.carriesValue && r.value == None
    ensures r.messages.items == [ProblemDetailsMessage(problemDetails, Error)] && !r.Succeeded()
  {
    r := ValueFailureWithProblemDetailsAndSeverity(problemDetails, Error);
  }

  /** `OperationResult.Failure<TValue>(problemDetails, severity)`: exactly one message
      of the given severity. */
  method ValueFailureWithProblemDetailsAndSeverity<T>(problemDetails: ProblemDetails, severity: Level)
    returns (r: OperationResult<T>)
    ensures fresh(r) && fresh(r.messages) && r.carriesValue && r.value == None
    ensures r.messages.items == [ProblemDetailsMessage(problemDetails, severity)]
    ensures r.Succeeded() <==> severity != Error
  {
    r := new OperationResult<T>(true);
    r.messages.Add(ProblemDetailsMessage(problemDetails, severity));
    assert r.messages.items[0].severity == severity;
  }
}
