# Operation results, in Dafny

A model of the ForEvolve operation-result pattern. An operation returns a result
instead of throwing for expected failures. The result holds an ordered collection
of severity-tagged messages (Error, Warning, Information). Its success state is
derived, never stored: a result succeeds exactly when none of its messages is an
Error. A value-carrying variant adds an optional value slot.

The model has five modules:

- `Results` (results.dfy): `Option`, `Result` and `Outcome`, and `ArgumentError`.
  `ArgumentError` turns the library's `ArgumentNullException` and
  `ArgumentOutOfRangeException` into values that carry the parameter name.
- `Messages` (messages.dfy): the `Level` enumeration and the `Message` datatype
  (a severity plus an ordered list of named details). It also has the three
  `Message` constructors, as pinned down by the library's tests, and the exception
  and problem-details messages.
- `MessageCollections` (message_collection.dfy): the class `MessageCollection`
  over a `seq<Message>`. Every list operation is a method whose postcondition
  gives the new contents in terms of the old ones. The severity queries and
  `IndexOf` are loops proved against their specifications.
- `OperationResults` (operation_result.dfy): the class `OperationResult<T>` with
  its owned collection, the derived `Succeeded`, `HasMessages`, `HasValue`, and
  every `Success`/`Failure` factory. A plain `OperationResult` is an
  `OperationResult<()>` whose `carriesValue` is false.
- `OperationResultExtensions` (extensions.dfy): `ConvertTo` in its two forms, and
  the combinators `OnSuccess`, `OnFailure` and `On`. A delegate is a small
  `Action` object. It records each result it is invoked with and appends a fixed
  list of messages (its `effect`) to that result.

Null is modelled as `None` for message lists, details, detail sources and the
value slot, and as a nullable reference (`OperationResult?`) for the combinators.

A plain result, an `OperationResult<()>` with `carriesValue` false, still has a
`value` field and a `HasValue` function, which the C# class
(OperationResult.cs:10-99) does not have. Every plain factory and conversion
leaves that slot empty, and nothing in the model reads it for a plain result.

Two places where the library's code is not uniform. The model follows the code
as written in both, and gives a corrected member beside it (see Findings):

- The value-carrying branch of `ConvertTo<TOperationResult>`
  (OperationResult.cs:131-136, then 144) and `ConvertTo<TOperationResult, TValue>`
  (148-155) copy the source messages once. The non-generic branch adds them at
  line 141 and again at line 144.
- `Failure(params messages)` rejects a null or empty list at line 33.
  `Failure<TValue>(params messages)` (72-77) has no such check. A null list there
  reaches `AddRange`, which rejects it naming `collection`, not `messages`.

## Model

| member | source | states |
|---|---|---|
| Messages.FromSeverity | test/ForEvolve.Core.Tests/OperationResults/MessageTest.cs:17-35 | the message has the given severity and an empty, present details list |
| Messages.FromDetails | test/ForEvolve.Core.Tests/OperationResults/MessageTest.cs:43-67 | succeeds iff details are given; then it stores that severity and exactly those details; a null mapping gives ArgumentNull naming `details` |
| Messages.DropNulls | test/ForEvolve.Core.Tests/OperationResults/MessageTest.cs:72-82 | the `ignoreNull` filter (this model's reading of the flag): a member is kept iff it is in the input and its value is not null; the identity when no member is null |
| Messages.DropNullsConcat | test/ForEvolve.Core.Tests/OperationResults/MessageTest.cs:72-82 | the filter keeps the relative order of the members it keeps: filtering `a + b` gives the filtered `a` followed by the filtered `b` |
| Messages.FromObject | test/ForEvolve.Core.Tests/OperationResults/MessageTest.cs:84-134 | a null source gives ArgumentNull naming `details` for either `ignoreNull`; otherwise the severity is stored, and with no null member the details are exactly the members in order, for both `ignoreNull` values |
| Messages.ConstructorsAgreeOnEmptySource | test/ForEvolve.Core.Tests/OperationResults/MessageTest.cs:84-92 | an empty dictionary and an object without members both give the same message as the severity-only constructor |
| Messages.ObjectMembersLoadIntoDetails | test/ForEvolve.Core.Tests/OperationResults/MessageTest.cs:94-128 | members `SomeProp = "Some value"`, `SomeCheck = true` load into exactly those two details, in that order, for both `ignoreNull` values |
| Messages.ExceptionMessage | src/ForEvolve.OperationResults/OperationResult.cs:42 | the exception message has severity Error |
| Messages.ProblemDetailsMessage | src/ForEvolve.OperationResults/OperationResult.cs:54 | the problem-details message has the requested severity and carries the payload's fields |
| MessageCollections.ContainsLevelConcat | src/ForEvolve.Core/OperationResults/MessageCollection.cs:129-132 | a severity query on `a + b` holds iff it holds on `a` or on `b` |
| MessageCollections.RemoveFirst | src/ForEvolve.Core/OperationResults/MessageCollection.cs:85-88 | removal shortens the list by one exactly when the element is present |
| MessageCollections.RemoveFirstAt | src/ForEvolve.Core/OperationResults/MessageCollection.cs:85-88 | when the first occurrence is at `i`, removal yields `s[..i] + s[i+1..]` |
| MessageCollections.RemoveFirstAbsent | src/ForEvolve.Core/OperationResults/MessageCollection.cs:85-88 | removing an absent element leaves the list unchanged |
| MessageCollections.RemoveFirstMultiset | src/ForEvolve.Core/OperationResults/MessageCollection.cs:85-88 | removal deletes exactly one copy of the element when present, and nothing else |
| MessageCollections.MessageCollection.constructor | src/ForEvolve.Core/OperationResults/MessageCollection.cs:18 | a new collection is empty |
| MessageCollections.MessageCollection.Count | src/ForEvolve.Core/OperationResults/MessageCollection.cs:24 | the number of messages; zero exactly when the collection is empty |
| MessageCollections.MessageCollection.Get | src/ForEvolve.Core/OperationResults/MessageCollection.cs:21 | the getter returns slot `index` when `0 <= index < Count` and ArgumentOutOfRange otherwise |
| MessageCollections.MessageCollection.Set | src/ForEvolve.Core/OperationResults/MessageCollection.cs:21 | the setter replaces only slot `index` when it is in range; otherwise ArgumentOutOfRange and no change |
| MessageCollections.MessageCollection.Add | src/ForEvolve.Core/OperationResults/MessageCollection.cs:30-33 | the contents become `old + [item]` |
| MessageCollections.MessageCollection.AddRange | src/ForEvolve.Core/OperationResults/MessageCollection.cs:35-46 | the contents become `old + c`, keeping the order of `c`; a null `c` gives ArgumentNull naming `collection` and no change |
| MessageCollections.MessageCollection.Clear | src/ForEvolve.Core/OperationResults/MessageCollection.cs:49-52 | the collection becomes empty |
| MessageCollections.MessageCollection.Contains | src/ForEvolve.Core/OperationResults/MessageCollection.cs:55-58 | true iff an equal message is present |
| MessageCollections.MessageCollection.IndexOf | src/ForEvolve.Core/OperationResults/MessageCollection.cs:73-76 | the first index holding an equal message, or -1 exactly when there is none |
| MessageCollections.MessageCollection.Insert | src/ForEvolve.Core/OperationResults/MessageCollection.cs:79-82 | for `0 <= index <= Count` the contents become `old[..index] + [item] + old[index..]`; otherwise ArgumentOutOfRange and no change |
| MessageCollections.MessageCollection.Remove | src/ForEvolve.Core/OperationResults/MessageCollection.cs:85-88 | returns true iff an equal message was present; the contents lose only its first occurrence |
| MessageCollections.MessageCollection.RemoveAt | src/ForEvolve.Core/OperationResults/MessageCollection.cs:91-94 | for `0 <= index < Count` the contents become `old[..index] + old[index+1..]`; otherwise ArgumentOutOfRange and no change |
| MessageCollections.MessageCollection.HasError | src/ForEvolve.Core/OperationResults/MessageCollection.cs:106-109 | true iff some message has severity exactly Error; the collection is not modified |
| MessageCollections.MessageCollection.HasWarning | src/ForEvolve.Core/OperationResults/MessageCollection.cs:115-118 | true iff some message has severity exactly Warning; the collection is not modified |
| MessageCollections.MessageCollection.HasInformation | src/ForEvolve.Core/OperationResults/MessageCollection.cs:124-127 | true iff some message has severity exactly Information; the collection is not modified |
| MessageCollections.MessageCollection.HasLevel | src/ForEvolve.Core/OperationResults/MessageCollection.cs:129-132 | the scan is true iff some message has exactly the requested severity, and false on an empty collection |
| OperationResults.AppendKeepsSuccessUnlessError | src/ForEvolve.OperationResults/OperationResult.cs:13 | appending messages keeps success iff none of them is an Error: Warning and Information never make a result fail |
| OperationResults.OperationResult.constructor | src/ForEvolve.OperationResults/OperationResult.cs:16 | a new result owns a fresh, empty collection and has no value |
| OperationResults.OperationResult.Succeeded | src/ForEvolve.OperationResults/OperationResult.cs:13 | true iff no message has severity Error; an empty result succeeds |
| OperationResults.OperationResult.HasMessages | src/ForEvolve.OperationResults/OperationResult.cs:19-22 | true iff the collection is non-empty; a result without messages succeeds |
| OperationResults.OperationResult.HasValue | src/ForEvolve.OperationResults/OperationResult.cs:115-118 | true iff the value slot is not null |
| OperationResults.Success | src/ForEvolve.OperationResults/OperationResult.cs:26-29 | a fresh plain result that succeeds and has no messages |
| OperationResults.Failure | src/ForEvolve.OperationResults/OperationResult.cs:31-37 | a null or empty list gives ArgumentNull naming `messages`; otherwise the result holds exactly the given messages, in order |
| OperationResults.WarningOnlyFailureSucceeds | src/ForEvolve.OperationResults/OperationResult.cs:31-37 | `Failure` built from a single Warning message has a message, yet reports success, because success depends only on Error messages (line 13) |
| OperationResults.FailureWithException | src/ForEvolve.OperationResults/OperationResult.cs:39-44 | a fresh plain result holding exactly one exception message; it fails |
| OperationResults.FailureWithProblemDetails | src/ForEvolve.OperationResults/OperationResult.cs:46-49 | delegates with severity Error: exactly one problem-details message of severity Error; it fails |
| OperationResults.FailureWithProblemDetailsAndSeverity | src/ForEvolve.OperationResults/OperationResult.cs:51-56 | exactly one problem-details message of the given severity; the result fails iff that severity is Error |
| OperationResults.ValueSuccess | src/ForEvolve.OperationResults/OperationResult.cs:62-65 | a fresh value-carrying result that succeeds, has no messages and no value |
| OperationResults.ValueSuccessWith | src/ForEvolve.OperationResults/OperationResult.cs:67-70 | a fresh value-carrying result that succeeds, has no messages and stores the given value |
| OperationResults.ValueFailure | src/ForEvolve.OperationResults/OperationResult.cs:72-77 | as written: the result holds exactly the given messages, with no emptiness check, so an empty list yields a result that succeeds; a null list gives ArgumentNull naming `collection` |
| OperationResults.EmptyValueFailureSucceeds | src/ForEvolve.OperationResults/OperationResult.cs:72-77 | a value-carrying failure built from zero messages reports success and has no messages |
| OperationResults.ValueFailureChecked | src/ForEvolve.OperationResults/OperationResult.cs:31-37 | corrected form of the value-carrying failure factory: it rejects a null or empty list like the plain overload, so the result always has a message |
| OperationResults.ValueFailureWithException | src/ForEvolve.OperationResults/OperationResult.cs:79-84 | a fresh value-carrying result holding exactly one exception message; it fails |
| OperationResults.ValueFailureWithProblemDetails | src/ForEvolve.OperationResults/OperationResult.cs:86-89 | delegates with severity Error: exactly one problem-details message of severity Error; it fails |
| OperationResults.ValueFailureWithProblemDetailsAndSeverity | src/ForEvolve.OperationResults/OperationResult.cs:91-96 | exactly one problem-details message of the given severity; the result fails iff that severity is Error |
| OperationResultExtensions.ConversionKeepsSuccess | src/ForEvolve.OperationResults/OperationResult.cs:125-146 | for either target, the converted messages succeed iff the source's do |
| OperationResultExtensions.PlainConversionDuplicatesMessages | src/ForEvolve.OperationResults/OperationResult.cs:138-145 | converting a one-message source to a non-generic result yields two copies, not the source's messages |
| OperationResultExtensions.ConvertTo | src/ForEvolve.OperationResults/OperationResult.cs:125-146 | a fresh result of the chosen shape, with no value and a distinct collection; its messages are the converted messages; its success equals the source's; the source is untouched |
| OperationResultExtensions.ConvertToIntended | src/ForEvolve.OperationResults/OperationResult.cs:125-146 | corrected conversion: the new result's messages equal the source's, in order, for both targets |
| OperationResultExtensions.ConvertToValue | src/ForEvolve.OperationResults/OperationResult.cs:148-155 | a fresh value-carrying result with no value, a distinct collection equal to the source's messages in order, and the source's success state |
| OperationResultExtensions.Action.Invoke | src/ForEvolve.OperationResults/OperationResult.cs:183 | invoking a delegate records the result it was given and appends the delegate's effect to that result's messages |
| OperationResultExtensions.OnSuccess | src/ForEvolve.OperationResults/OperationResult.cs:177-186 | a null result gives ArgumentNull naming `operationResult`; otherwise the delegate runs exactly once iff the result succeeded, and the same result is returned |
| OperationResultExtensions.OnFailure | src/ForEvolve.OperationResults/OperationResult.cs:188-197 | a null result gives ArgumentNull naming `operationResult`; otherwise the delegate runs exactly once iff the result failed, and the same result is returned |
| OperationResultExtensions.On | src/ForEvolve.OperationResults/OperationResult.cs:159-175 | runs the success step only if that delegate is given, then the failure step only if that delegate is given, re-reading success in between; returns the same result; a null result with no delegate comes back as null |
| OperationResultExtensions.OnRunsBothWhenSuccessAddsError | src/ForEvolve.OperationResults/OperationResult.cs:166-173 | on a succeeding result, a success delegate that adds an Error makes the failure delegate run too, each once |

## Left out

- `GetEnumerator`, `CopyTo` and `IsReadOnly` (MessageCollection.cs:27, 61-70, 97-100): enumeration and array plumbing with no contract of interest.
- The source of `Message`, `ExceptionMessage`, `ProblemDetailsMessage`, `IMessage` and `ProblemDetails` is not part of this model. `Message` is built from what the library's tests assert about its constructors. The other two are functions that each yield one `Message`.
- Messages are compared by value, since `Message` is a datatype. The library's list operations (`Contains`, `IndexOf`, `Remove`) use the messages' `Equals`, which for a class without an override is reference identity.
- Null elements in a collection are not modelled; `HasLevel` would throw on one.
- The details list does not enforce unique keys, which a C# dictionary guarantees by its type.
- Messages.FromObject: the object's public members are passed as an explicit ordered list of (name, value) pairs in place of reflection. Its contract does not say what `ignoreNull` does with null-valued members: no test asserts it. When `ignoreNull` is true the body drops them (`DropNulls`). That is this model's own assumption, read from the flag's name.
- Messages.ExceptionMessage: states only the severity. The details it builds (the exception's text under the key `Message`) are this model's own assumption, because the `ExceptionMessage` source is not part of this model. A null exception is not modelled.
- OperationResults.OperationResult.HasValue: the value slot is `Option<T>`, as for a reference or nullable `TValue`. For a non-nullable value type, C#'s `Value != null` is always true, so `Success<int>()` reports a value. The model does not capture that.
- The public `Value` setter is not a separate operation; only `Success<TValue>(value)` sets the slot.
- OperationResultExtensions.ConvertTo: the reflective choice of target (`typeof`, `MakeGenericType`, `Activator.CreateInstance`) is the explicit `Target` flag. Asking for the concrete class `OperationResult<X>` takes the non-generic branch and fails the final cast with `InvalidCastException`. That case is not modelled. A null source, which throws `NullReferenceException`, is not modelled either.
- OperationResultExtensions.OnSuccess: a null delegate, which throws `NullReferenceException` when invoked, is not modelled. Delegates have one abstract effect: they append a fixed list of messages. Other side effects and exceptions thrown by a delegate are not modelled.
- OperationResultExtensions.OnFailure: the same delegate restrictions as `OnSuccess`.
- `MyClass` (OperationResult.cs:203-224) is demo code that writes to the console.
- The Markdown pipeline registration and the telemetry client interface are glue outside the operation-result core.
- Concurrency: nothing is synchronised. The model is sequential.
- `Count` is a 32-bit `int` in the library; the model's lists are unbounded.

## Findings

| source | as written | input that shows it | evidently intended | confidence | as-written member | corrected member |
|---|---|---|---|---|---|---|
| src/ForEvolve.OperationResults/OperationResult.cs:138-145 | the non-generic branch adds the source messages at line 141 and again at line 144 | a source with one message `m`, converted to `IOperationResult`, gets `[m, m]` | the converted result carries the source messages once, in order | high, not executed | OperationResultExtensions.ConvertTo (exhibited by OperationResultExtensions.PlainConversionDuplicatesMessages) | OperationResultExtensions.ConvertToIntended |
| src/ForEvolve.OperationResults/OperationResult.cs:72-77 | `Failure<TValue>(params messages)` has no emptiness check, unlike `Failure(params messages)` at line 33 | `Failure<int>()` with no arguments returns a result whose `Succeeded` is true | a failure factory rejects an empty message list, as the plain overload does | medium, not executed | OperationResults.ValueFailure (exhibited by OperationResults.EmptyValueFailureSucceeds) | OperationResults.ValueFailureChecked |
