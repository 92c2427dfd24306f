/** Messages: a severity tag plus an ordered list of named details. */
module Messages {
  import opened Results

  /** `OperationMessageLevel`: a flat categorical tag, never ranked. */
  datatype Level = Error | Warning | Information

  /** A detail value; `Null` stands for a member whose value is `null`. */
  datatype Value = Null | Text(text: string) | Flag(flag: bool) | Number(number: int)

  /** The details mapping, in insertion order. */
  type Details = seq<(string, Value)>

  /** A message; immutable once built. */
  datatype Message = Message(severity: Level, details: Details)

  /** `new Message(severity)`: the severity, and an empty (never absent) details mapping. */
  function FromSeverity(severity: Level): (m: Message)
    ensures m.severity == severity
    ensures m.details == []
  {
    Message(severity, [])
  }

  /** `new Message(severity, details)`: stores exactly the given details; a null
      mapping is rejected with an error naming `details`. */
  function FromDetails(severity: Level, details: Option<Details>): (r: Result<Message>)
    ensures r.Ok? <==> details.Some?
    ensures details.None? ==> r == Err(ArgumentNull("details"))
    ensures details.Some? ==> r.value.severity == severity && r.value.details == details.value
  {
    match details
    case None => Err(ArgumentNull("details"))
    case Some(d) => Ok(Message(severity, d))
  }

  /** True when no member of `members` has a null value. */
  predicate NoNullMembers(members: Details) {
    forall i :: 0 <= i < |members| ==> members[i].1 != Null
  }

  /** The members of `members` whose value is not null, in their original order. */
  function DropNulls(members: Details): (r: Details)
    ensures |r| <= |members|
    ensures forall p :: p in r <==> p in members && p.1 != Null
    ensures NoNullMembers(members) ==> r == members
  {
    if members == [] then []
    else if members[0].1 == Null then DropNulls(members[1..])
    else [members[0]] + DropNulls(members[1..])
  }

  /** The filter works member by member, so it keeps the relative order of the
      members it keeps: filtering a concatenation concatenates the filtered parts. */
  lemma {:induction false} DropNullsConcat(a: Details, b: Details)
    ensures DropNulls(a + b) == DropNulls(a) + DropNulls(b)
  {
    if a != [] {
      assert (a + b)[0] == a[0];
      assert (a + b)[1..] == a[1..] + b;
      DropNullsConcat(a[1..], b);
    } else {
      assert a + b == b;
    }
  }

  /** `new Message(severity, object, ignoreNull)`. The object's public members are
      given as the ordered list `source` of (name, value) pairs; a null object is
      rejected with an error naming `details`. With `ignoreNull`, members whose
      value is null are skipped. */
  function FromObject(severity: Level, source: Option<Details>, ignoreNull: bool): (r: Result<Message>)
    ensures r.Ok? <==> source.Some?
    ensures source.None? ==> r == Err(ArgumentNull("details"))
    ensures source.Some? ==> r.value.severity == severity
    ensures source.Some? && NoNullMembers(source.value) ==> r.value.details == source.value
  {
    match source
    case None => Err(ArgumentNull("details"))
    case Some(members) => Ok(Message(severity, if ignoreNull then DropNulls(members) else members))
  }

  /** The three constructors agree on an empty source: an empty dictionary and an
      object without members both give the message built from the severity alone. */
  lemma ConstructorsAgreeOnEmptySource(severity: Level, ignoreNull: bool)
    ensures FromDetails(severity, Some([])) == Ok(FromSeverity(severity))
    ensures FromObject(severity, Some([]), ignoreNull) == Ok(FromSeverity(severity))
  {
  }

  /** An object with members `SomeProp = "Some value"` and `SomeCheck = true` loads
      into exactly those two details, in that order, whatever `ignoreNull` is. */
  lemma ObjectMembersLoadIntoDetails(severity: Level, ignoreNull: bool)
    ensures FromObject(severity, Some([("SomeProp", Text("Some value")), ("SomeCheck", Flag(true))]), ignoreNull)
         == Ok(Message(severity, [("SomeProp", Text("Some value")), ("SomeCheck", Flag(true))]))
  {
    var members := [("SomeProp", Text("Some value")), ("SomeCheck", Flag(true))];
    assert NoNullMembers(members);
  }

  /** A caught exception, reduced to its descriptive text. */
  datatype Exception = Exception(message: string)

  /** A problem-details payload, given as its ordered list of named fields. */
  datatype ProblemDetails = ProblemDetails(fields: Details)

  /** `new ExceptionMessage(exception)`: an Error message describing the exception. */
  function ExceptionMessage(exception: Exception): (m: Message)
    ensures m.severity == Error
  {
    Message(Error, [("Message", Text(exception.message))])
  }

  /** `new ProblemDetailsMessage(problemDetails, severity)`: a message of the given
      severity carrying the payload's fields. */
  function ProblemDetailsMessage(problemDetails: ProblemDetails, severity: Level): (m: Message)
    ensures m.severity == severity
    ensures m.details == problemDetails.fields
  {
    Message(severity, problemDetails.fields)
  }
}
