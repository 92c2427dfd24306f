/** `OperationResultExtensions`: conversion between result shapes, and the
    success/failure continuation combinators. */
module OperationResultExtensions {
  import opened Results
  import opened Messages
  import opened MessageCollections
  import opened OperationResults

  /** The shape `ConvertTo<TOperationResult>` is asked for, which the library finds
      by inspecting the type argument: the generic interface `IOperationResult<U>`
      or a non-generic result type. */
  datatype Target = ValueCarrying | NonGeneric

  /** The messages `ConvertTo<TOperationResult>` leaves in the new result, as
      written: the non-generic branch adds the source messages once in the branch
      and once more after it. */
  function ConvertedMessages(source: seq<Message>, target: Target): seq<Message>
  {
    match target
    case ValueCarrying => source
    case NonGeneric => source + source
  }

  /** Whatever the target, conversion keeps the success state: duplicated messages
      add no new severity. */
  lemma {:induction false} ConversionKeepsSuccess(source: seq<Message>, target: Target)
    ensures NoError(ConvertedMessages(source, target)) == NoError(source)
  {
    if target == NonGeneric {
      ContainsLevelConcat(source, source, Error);
    }
  }

  /** A non-empty source converted to a non-generic result does not keep its
      messages: it gets them twice. */
  lemma PlainConversionDuplicatesMessages(m: Message)
    ensures ConvertedMessages([m], NonGeneric) == [m, m]
    ensures ConvertedMessages([m], NonGeneric) != [m]
  {
  }

  /** `ConvertTo<TOperationResult>`, as written: a fresh result of the chosen shape,
      with no value, carrying `ConvertedMessages` of the source's messages. The
      source is not modified and the new collection is a distinct object. */
  method ConvertTo<T, U>(source: OperationResult<T>, target: Target) returns (r: OperationResult<U>)
    ensures fresh(r) && fresh(r.messages) && r.messages != source.messages
    ensures r.carriesValue == (target == ValueCarrying) && r.value == None
    ensures r.messages.items == ConvertedMessages(source.messages.items, target)
    ensures r.Succeeded() == source.Succeeded()
  {
    if target == ValueCarrying {
      r := new OperationResult<U>(true);
    } else {
      r := new OperationResult<U>(false);
      var _ := r.messages.AddRange(Some(source.messages.items));
    }
    var _ := r.messages.AddRange(Some(source.messages.items));
    ConversionKeepsSuccess(source.messages.items, target);
  }

  /** `ConvertTo<TOperationResult>` as evidently intended: the source messages are
      copied once, whatever the target. */
  method ConvertToIntended<T, U>(source: OperationResult<T>, target: Target) returns (r: OperationResult<U>)
    ensures fresh(r) && fresh(r.messages) && r.messages != source.messages
    ensures r.carriesValue == (target == ValueCarrying) && r.value == None
    ensures r.messages.items == source.messages.items
    ensures r.Succeeded() == source.Succeeded()
  {
    r := new OperationResult<U>(target == ValueCarrying);
    var _ := r.messages.AddRange(Some(source.messages.items));
  }

  /** `ConvertTo<TOperationResult, TValue>`: a fresh value-carrying result with no
      value and a copy of the source's messages, in order. */
  method ConvertToValue<T, U>(source: OperationResult<T>) returns (r: OperationResult<U>)
    ensures fresh(r) && fresh(r.messages) && r.messages != source.messages
    ensures r.carriesValue && r.value == None
    ensures r.messages.items == source.messages.items
    ensures r.Succeeded() == source.Succeeded()
  {
    r := new OperationResult<U>(true);
    var _ := r.messages.AddRange(Some(source.messages.items));
  }

  /** A delegate `Action<TOperationResult>`. Its only effect is abstract: it records
      every result it is invoked with, and appends its fixed `effect` messages to
      that result's collection (an empty `effect` is a delegate that does not touch
      the result). */
  class Action<T> {
    const effect: seq<Message>
    var received: seq<OperationResult<T>>

    constructor(effect: seq<Message>)
      ensures this.effect == effect && received == []
    {
      this.effect := effect;
      received := [];
    }

    method Invoke(result: OperationResult<T>)
      modifies this, result.messages
      ensures received == old(received) + [result]
      ensures result.messages.items == old(result.messages.items) + effect
    {
      received := received + [result];
      result.messages.items := result.messages.items + effect;
    }
  }

  /** `OnSuccess`: a null result is rejected; otherwise the delegate runs exactly
      once when the result succeeds and not at all when it fails, and the same
      result is returned. */
  method OnSuccess<T>(result: OperationResult?<T>, action: Action<T>) returns (r: Result<OperationResult<T>>)
    modifies action, if result == null then {} else {result.messages}
    ensures result == null ==> r == Err(ArgumentNull("operationResult")) && action.received == old(action.received)
    ensures result != null ==> r.Ok? && r.value == result
    ensures result != null ==>
      var fires := old(result.Succeeded());
      && action.received == old(action.received) + (if fires then [result] else [])
      && result.messages.items == old(result.messages.items) + (if fires then action.effect else [])
  {
    if result == null {
      return Err(ArgumentNull("operationResult"));
    }
    if result.Succeeded() {
      action.Invoke(result);
    }
    r := Ok(result);
  }

  /** `OnFailure`: a null result is rejected; otherwise the delegate runs exactly
      once when the result fails and not at all when it succeeds, and the same
      result is returned. */
  method OnFailure<T>(result: OperationResult?<T>, action: Action<T>) returns (r: Result<OperationResult<T>>)
    modifies action, if result == null then {} else {result.messages}
    ensures result == null ==> r == Err(ArgumentNull("operationResult")) && action.received == old(action.received)
    ensures result != null ==> r.Ok? && r.value == result
    ensures result != null ==>
      var fires := !old(result.Succeeded());
      && action.received == old(action.received) + (if fires then [result] else [])
      && result.messages.items == old(result.messages.items) + (if fires then action.effect else [])
  {
    if result == null {
      return Err(ArgumentNull("operationResult"));
    }
    if !result.Succeeded() {
      action.Invoke(result);
    }
    r := Ok(result);
  }

  /** The messages after `On`'s first step: the success delegate's effect is
      appended when it is present and the result succeeded. */
  function AfterSuccessStep<T>(items: seq<Message>, success: Action?<T>): (r: seq<Message>) {
    if success != null && NoError(items) then items + success.effect else items
  }

  /** `On(success, failure)`: runs `OnSuccess` when `success` is given, then
      `OnFailure` when `failure` is given, re-reading `Succeeded` in between, so a
      success delegate that adds an Error lets the failure delegate run too. With
      a null result and no delegate nothing is checked and null comes back. */
  method On<T>(result: OperationResult?<T>, success: Action?<T>, failure: Action?<T>)
    returns (r: Result<OperationResult?<T>>)
    modifies success, failure, if result == null then {} else {result.messages}
    ensures result == null ==>
      r == (if success == null && failure == null then Ok(null) else Err(ArgumentNull("operationResult")))
    ensures result == null && success != null ==> success.received == old(success.received)
    ensures result == null && failure != null ==> failure.received == old(failure.received)
    ensures result != null ==> r == Ok(result)
    ensures result != null ==>
      var mid := AfterSuccessStep(old(result.messages.items), success);
      var firstFires := success != null && NoError(old(result.messages.items));
      var secondFires := failure != null && !NoError(mid);
      && result.messages.items == mid + (if secondFires then failure.effect else [])
      && (success != null && success != failure ==>
            success.received == old(success.received) + (if firstFires then [result] else []))
      && (failure != null && failure != success ==>
            failure.received == old(failure.received) + (if secondFires then [result] else []))
      && (success != null && success == failure ==>
            success.received == old(success.received) + (if firstFires then [result] else [])
                                                    + (if secondFires then [result] else []))
  {
    var current: OperationResult?<T> := result;
    if success != null {
      var s := OnSuccess(current, success);
      if s.Err? {
        return Err(s.error);
      }
      current := s.value;
    }
    assert result != null ==>
      result.messages.items == AfterSuccessStep(old(result.messages.items), success);
    if failure != null {
      var f := OnFailure(current, failure);
      if f.Err? {
        return Err(f.error);
      }
      current := f.value;
    }
    r := Ok(current);
  }

  /** `On` re-reads `Succeeded` between its two steps: on a result that succeeds,
      a success delegate that adds an Error message makes the failure delegate run
      as well, each exactly once. */
  method OnRunsBothWhenSuccessAddsError(exception: Exception)
    returns (result: OperationResult<()>, success: Action<()>, failure: Action<()>)
    ensures success.received == [result] && failure.received == [result]
    ensures !result.Succeeded()
  {
    result := Success();
    success := new Action([ExceptionMessage(exception)]);
    failure := new Action([]);
    var _ := On(result, success, failure);
    assert result.messages.items == [ExceptionMessage(exception)];
    assert result.messages.items[0].severity == Error;
  }
}
