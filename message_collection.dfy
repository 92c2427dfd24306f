/** `MessageCollection`: an ordered, index-addressable, mutable list of messages. */
module MessageCollections {
  import opened Results
  import opened Messages

  /** True when some message of `s` has exactly the severity `level`. */
  predicate ContainsLevel(s: seq<Message>, level: Level) {
    exists i :: 0 <= i < |s| && s[i].severity == level
  }

  /** A severity query over a concatenation splits over its two halves. */
  lemma {:induction false} ContainsLevelConcat(a: seq<Message>, b: seq<Message>, level: Level)
    ensures ContainsLevel(a + b, level) <==> ContainsLevel(a, level) || ContainsLevel(b, level)
  {
    if ContainsLevel(a + b, level) {
      var i :| 0 <= i < |a + b| && (a + b)[i].severity == level;
      if i >= |a| {
        assert b[i - |a|] == (a + b)[i];
      } else {
        assert a[i] == (a + b)[i];
      }
    }
    if ContainsLevel(b, level) {
      var j :| 0 <= j < |b| && b[j].severity == level;
      assert (a + b)[|a| + j] == b[j];
    }
    if ContainsLevel(a, level) {
      var j :| 0 <= j < |a| && a[j].severity == level;
      assert (a + b)[j] == a[j];
    }
  }

  /** `s` without its first element equal to `x` (all of `s` when there is none):
      what `List<T>.Remove` leaves behind. */
  function RemoveFirst(s: seq<Message>, x: Message): (r: seq<Message>)
    ensures |r| == if x in s then |s| - 1 else |s|
  {
    if s == [] then []
    else if s[0] == x then s[1..]
    else [s[0]] + RemoveFirst(s[1..], x)
  }

  /** When the first occurrence of `x` is at `i`, removing it splices `s` around `i`. */
  lemma {:induction false} RemoveFirstAt(s: seq<Message>, x: Message, i: nat)
    requires i < |s| && s[i] == x
    requires forall j :: 0 <= j < i ==> s[j] != x
    ensures RemoveFirst(s, x) == s[..i] + s[i + 1..]
  {
    if i > 0 {
      RemoveFirstAt(s[1..], x, i - 1);
      assert s[..i] == [s[0]] + s[1..][..i - 1];
      assert s[i + 1..] == s[1..][i..];
    }
  }

  /** Removing an absent element leaves the sequence as it was. */
  lemma {:induction false} RemoveFirstAbsent(s: seq<Message>, x: Message)
    requires x !in s
    ensures RemoveFirst(s, x) == s
  {
    if s != [] {
      RemoveFirstAbsent(s[1..], x);
    }
  }

  /** Removal deletes exactly one copy of `x` when present, and nothing else. */
  lemma {:induction false} RemoveFirstMultiset(s: seq<Message>, x: Message)
    ensures multiset(RemoveFirst(s, x)) == multiset(s) - multiset{x}
  {
    if s != [] {
      assert s == [s[0]] + s[1..];
      if s[0] != x {
        RemoveFirstMultiset(s[1..], x);
      }
    }
  }

  class MessageCollection {
    /** The private `_items` list. */
    var items: seq<Message>

    /** A new collection is empty. */
    constructor()
      ensures items == []
    {
      items := [];
    }

    /** `Count`: the number of messages; zero exactly when there are none. */
    function Count(): (c: nat)
      reads this
      ensures c == 0 <==> items == []
    {
      |items|
    }

    /** The indexer's getter; an index outside `[0, Count)` is rejected. */
    method Get(index: int) returns (r: Result<Message>)
      ensures 0 <= index < |items| ==> r == Ok(items[index])
      ensures !(0 <= index < |items|) ==> r == Err(ArgumentOutOfRange("index"))
    {
      if 0 <= index < |items| {
        r := Ok(items[index]);
      } else {
        r := Err(ArgumentOutOfRange("index"));
      }
    }

    /** The indexer's setter: replaces slot `index` only. */
    method Set(index: int, item: Message) returns (o: Outcome)
      modifies this
      ensures 0 <= index < |old(items)| ==> o == Done && items == old(items)[index := item]
      ensures !(0 <= index < |old(items)|) ==> o == Failed(ArgumentOutOfRange("index")) && items == old(items)
    {
      if 0 <= index < |items| {
        items := items[index := item];
        o := Done;
      } else {
        o := Failed(ArgumentOutOfRange("index"));
      }
    }

    /** Appends one message. */
    method Add(item: Message)
      modifies this
      ensures items == old(items) + [item]
    {
      items := items + [item];
    }

    /** Appends a whole list, keeping its order; a null list is rejected. */
    method AddRange(collection: Option<seq<Message>>) returns (o: Outcome)
      modifies this
      ensures collection.None? ==> o == Failed(ArgumentNull("collection")) && items == old(items)
      ensures collection.Some? ==> o == Done && items == old(items) + collection.value
    {
      match collection
      case None =>
        o := Failed(ArgumentNull("collection"));
      case Some(c) =>
        items := items + c;
        o := Done;
    }

    /** Empties the collection. */
    method Clear()
      modifies this
      ensures items == []
    {
      items := [];
    }

    /** True exactly when an equal message is present. */
    method Contains(item: Message) returns (b: bool)
      ensures b <==> item in items
    {
      var i := IndexOf(item);
      b := i >= 0;
    }

    /** The first index holding a message equal to `item`, or -1. */
    method IndexOf(item: Message) returns (i: int)
      ensures -1 <= i < |items|
      ensures i == -1 <==> item !in items
      ensures i >= 0 ==> items[i] == item && forall j :: 0 <= j < i ==> items[j] != item
    {
      var k := 0;
      while k < |items|
        invariant 0 <= k <= |items|
        invariant forall j :: 0 <= j < k ==> items[j] != item
      {
        if items[k] == item {
          return k;
        }
        k := k + 1;
      }
      i := -1;
    }

    /** Inserts `item` before position `index`; `index` may be `Count` (append). */
    method Insert(index: int, item: Message) returns (o: Outcome)
      modifies this
      ensures 0 <= index <= |old(items)| ==>
        o == Done && items == old(items)[..index] + [item] + old(items)[index..]
      ensures !(0 <= index <= |old(items)|) ==>
        o == Failed(ArgumentOutOfRange("index")) && items == old(items)
    {
      if 0 <= index <= |items| {
        items := items[..index] + [item] + items[index..];
        o := Done;
      } else {
        o := Failed(ArgumentOutOfRange("index"));
      }
    }

    /** Removes the first message equal to `item`; reports whether there was one. */
    method Remove(item: Message) returns (removed: bool)
      modifies this
      ensures removed <==> item in old(items)
      ensures items == RemoveFirst(old(items), item)
    {
      var i := IndexOf(item);
      if i >= 0 {
        RemoveFirstAt(items, item, i);
        items := items[..i] + items[i + 1..];
        removed := true;
      } else {
        RemoveFirstAbsent(items, item);
        removed := false;
      }
    }

    /** Removes the message at `index`. */
    method RemoveAt(index: int) returns (o: Outcome)
      modifies this
      ensures 0 <= index < |old(items)| ==> o == Done && items == old(items)[..index] + old(items)[index + 1..]
      ensures !(0 <= index < |old(items)|) ==> o == Failed(ArgumentOutOfRange("index")) && items == old(items)
    {
      if 0 <= index < |items| {
        items := items[..index] + items[index + 1..];
        o := Done;
      } else {
        o := Failed(ArgumentOutOfRange("index"));
      }
    }

    /** True exactly when some message has severity Error. */
    method HasError() returns (b: bool)
      ensures b <==> exists i :: 0 <= i < |items| && items[i].severity == Error
    {
      b := HasLevel(Error);
    }

    /** True exactly when some message has severity Warning. */
    method HasWarning() returns (b: bool)
      ensures b <==> exists i :: 0 <= i < |items| && items[i].severity == Warning
    {
      b := HasLevel(Warning);
    }

    /** True exactly when some message has severity Information. */
    method HasInformation() returns (b: bool)
      ensures b <==> exists i :: 0 <= i < |items| && items[i].severity == Information
    {
      b := HasLevel(Information);
    }

    /** Scans the messages for one whose severity is exactly `level`. */
    method HasLevel(level: Level) returns (b: bool)
      ensures b == ContainsLevel(items, level)
      ensures items == [] ==> !b
    {
      var k := 0;
      while k < |items|
        invariant 0 <= k <= |items|
        invariant forall j :: 0 <= j < k ==> items[j].severity != level
      {
        if items[k].severity == level {
          return true;
        }
        k := k + 1;
      }
      b := false;
    }
  }
}
