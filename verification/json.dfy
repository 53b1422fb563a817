/**
 * The JSON token tree the engine builds requests from and reads replies out of (the part of
 * Newtonsoft.Json.Linq it uses): property lookup, HasValues, the indexers with the exceptions
 * they raise, and the text JToken.ToString() gives.
 */
module Json {
  import opened Wrappers
  import opened Text
  import Collections

  datatype Json =
    | JNull
    | JBool(b: bool)
    | JNumber(literal: string)
    | JString(s: string)
    | JArray(elements: seq<Json>)
    | JObject(members: seq<Member>)

  datatype Member = Member(name: string, value: Json)

  /** What an indexer is given: a property name or an array position. */
  datatype Key = Name(name: string) | Position(index: nat)

  /**
   * JObject[name]: the value of the property with that name, or nothing (null in the source).
   * When a parsed text repeats a name, the later value replaced the earlier one, so the last
   * member with the name is the one found.
   */
  function Get(members: seq<Member>, name: string): Option<Json> {
    if members == [] then None
    else if members[|members| - 1].name == name then Some(members[|members| - 1].value)
    else Get(members[..|members| - 1], name)
  }

  /** Something is found exactly when some member has the name, and it is the last such member's value. */
  lemma {:induction false} GetFindsLast(members: seq<Member>, name: string)
    ensures Get(members, name).Some? <==> exists i :: 0 <= i < |members| && members[i].name == name
    ensures Get(members, name).Some? ==>
      exists i :: 0 <= i < |members| && members[i] == Member(name, Get(members, name).value)
                  && forall j :: i < j < |members| ==> members[j].name != name
  {
    if members != [] {
      var last := |members| - 1;
      if members[last].name == name {
        assert members[last] == Member(name, Get(members, name).value);
      } else {
        GetFindsLast(members[..last], name);
        GetFindsLastStep(members, name);
      }
    }
  }

  /** The inductive step: a last member with another name changes nothing. */
  lemma GetFindsLastStep(members: seq<Member>, name: string)
    requires members != [] && members[|members| - 1].name != name
    requires var init := members[..|members| - 1];
      && (Get(init, name).Some? <==> exists i :: 0 <= i < |init| && init[i].name == name)
      && (Get(init, name).Some? ==>
          exists i :: 0 <= i < |init| && init[i] == Member(name, Get(init, name).value)
                      && forall j :: i < j < |init| ==> init[j].name != name)
    ensures Get(members, name).Some? <==> exists i :: 0 <= i < |members| && members[i].name == name
    ensures Get(members, name).Some? ==>
      exists i :: 0 <= i < |members| && members[i] == Member(name, Get(members, name).value)
                  && forall j :: i < j < |members| ==> members[j].name != name
  {
    var init := members[..|members| - 1];
    assert Get(members, name) == Get(init, name);
    if Get(init, name).Some? {
      var i :| 0 <= i < |init| && init[i] == Member(name, Get(init, name).value)
               && forall j :: i < j < |init| ==> init[j].name != name;
      LastUnshadowed(init, members, name, i);
    }
    NameInInit(members, name);
  }

  /** A member unshadowed in all but the last stays unshadowed when the last has another name. */
  lemma LastUnshadowed(init: seq<Member>, members: seq<Member>, name: string, i: nat)
    requires members != [] && init == members[..|members| - 1] && members[|members| - 1].name != name
    requires i < |init| && forall j :: i < j < |init| ==> init[j].name != name
    ensures forall j :: i < j < |members| ==> members[j].name != name
  {
    forall j | i < j < |members| ensures members[j].name != name {
      if j < |init| {
        assert init[j] == members[j];
      }
    }
  }

  /** With a last member of another name, the name occurs in the whole exactly when it occurs
      before the last. */
  lemma NameInInit(members: seq<Member>, name: string)
    requires members != [] && members[|members| - 1].name != name
    ensures var init := members[..|members| - 1];
      (exists i :: 0 <= i < |members| && members[i].name == name)
      <==> (exists i :: 0 <= i < |init| && init[i].name == name)
  {
    var init := members[..|members| - 1];
    if exists i :: 0 <= i < |members| && members[i].name == name {
      var i :| 0 <= i < |members| && members[i].name == name;
      assert init[i] == members[i];
    }
    if exists i :: 0 <= i < |init| && init[i].name == name {
      var i :| 0 <= i < |init| && init[i].name == name;
      assert members[i] == init[i];
    }
  }

  /** A name no member has finds nothing. */
  lemma GetMissing(members: seq<Member>, name: string)
    requires forall i :: 0 <= i < |members| ==> members[i].name != name
    ensures Get(members, name) == None
  {
    GetFindsLast(members, name);
  }

  /** A member that no later member shadows is the one found under its name. */
  lemma {:induction false} GetAt(members: seq<Member>, i: nat)
    requires i < |members|
    requires forall j :: i < j < |members| ==> members[j].name != members[i].name
    ensures Get(members, members[i].name) == Some(members[i].value)
  {
    if i < |members| - 1 {
      var init := members[..|members| - 1];
      assert init[i] == members[i];
      GetAt(init, i);
    }
  }

  /** The members whose name differs from the given one, in order. */
  function Without(members: seq<Member>, name: string): seq<Member> {
    if members == [] then []
    else if members[0].name == name then Without(members[1..], name)
    else [members[0]] + Without(members[1..], name)
  }

  /** Removing a name keeps exactly the members with another name. */
  lemma {:induction false} WithoutKeeps(members: seq<Member>, name: string)
    ensures forall m :: m in Without(members, name) <==> m in members && m.name != name
  {
    if members != [] {
      WithoutKeeps(members[1..], name);
      assert members == [members[0]] + members[1..];
    }
  }

  /** Removing one name leaves every other lookup as it was. */
  lemma {:induction false} GetWithout(members: seq<Member>, name: string, other: string)
    requires other != name
    ensures Get(Without(members, name), other) == Get(members, other)
    decreases |members|
  {
    if members != [] {
      var init := members[..|members| - 1];
      var last := members[|members| - 1];
      assert members == init + [last];
      var kept := Without(init, name);
      WithoutAppend(init, [last], name);
      WithoutOne(last, name);
      GetWithout(init, name, other);
      GetLast(init, last, other);
      if last.name == name {
        assert Without(members, name) == kept;
      } else {
        assert Without(members, name) == kept + [last];
        GetLast(kept, last, other);
      }
    }
  }

  /** Removing a name from one member keeps it exactly when its name differs. */
  lemma WithoutOne(m: Member, name: string)
    ensures Without([m], name) == if m.name == name then [] else [m]
  {
    assert [m][1..] == [];
  }

  /** A lookup sees the last member first. */
  lemma GetLast(init: seq<Member>, last: Member, name: string)
    ensures Get(init + [last], name) == if last.name == name then Some(last.value) else Get(init, name)
  {
    assert (init + [last])[..|init|] == init;
  }

  lemma {:induction false} WithoutAppend(a: seq<Member>, b: seq<Member>, name: string)
    ensures Without(a + b, name) == Without(a, name) + Without(b, name)
  {
    if a == [] {
      assert a + b == b;
    } else {
      WithoutAppend(a[1..], b, name);
      WithoutAppendStep(a, b, name);
    }
  }

  /** The inductive step: the first member of a is kept or dropped in front of both sides. */
  lemma WithoutAppendStep(a: seq<Member>, b: seq<Member>, name: string)
    requires a != []
    requires Without(a[1..] + b, name) == Without(a[1..], name) + Without(b, name)
    ensures Without(a + b, name) == Without(a, name) + Without(b, name)
  {
    TailOfAppend(a, b);
    var head := if a[0].name == name then [] else [a[0]];
    assert Without(a + b, name) == head + Without(a[1..] + b, name);
    AppendAssoc(head, Without(a[1..], name), Without(b, name));
  }

  lemma AppendAssoc<T>(a: seq<T>, b: seq<T>, c: seq<T>)
    ensures (a + b) + c == a + (b + c)
  {
  }

  lemma TailOfAppend<T>(a: seq<T>, b: seq<T>)
    requires a != []
    ensures (a + b)[0] == a[0] && (a + b)[1..] == a[1..] + b
  {
  }

  /** JToken.HasValues: a container with at least one child; never a plain value. */
  predicate HasValues(t: Json) {
    match t
    case JArray(elements) => elements != []
    case JObject(members) => members != []
    case _ => false
  }

  const NullReferenceMessage: string := "Object reference not set to an instance of an object."

  const ChildOfValueMessage: string := "Cannot access child value on Newtonsoft.Json.Linq.JValue."

  function ArrayKeyMessage(name: string): string {
    "Accessed JArray values with invalid key value: \"" + name + "\". Int32 array index expected."
  }

  function ObjectKeyMessage(index: nat): string {
    "Accessed JObject values with invalid key value: " + NatToString(index) + ". Object property name expected."
  }

  /**
   * The JToken indexer t[key]: a property of an object by name, an element of an array by
   * position; any other combination raises, and so does a position past the end.
   */
  function Child(t: Json, key: Key): (r: Result<Option<Json>>)
    ensures r.Ok? <==> (t.JObject? && key.Name?) || (t.JArray? && key.Position? && key.index < |t.elements|)
    ensures t.JArray? && r.Ok? ==> r.value == Some(t.elements[key.index])
    ensures t.JObject? && r.Ok? ==> r.value == Get(t.members, key.name)
  {
    match t
    case JObject(members) =>
      (match key
       case Name(n) => Ok(Get(members, n))
       case Position(i) => Err(ObjectKeyMessage(i)))
    case JArray(elements) =>
      (match key
       case Name(n) => Err(ArrayKeyMessage(n))
       case Position(i) => if i < |elements| then Ok(Some(elements[i])) else Err(Collections.IndexOutOfRangeMessage))
    case _ => Err(ChildOfValueMessage)
  }

  /** Indexing what an earlier lookup found; indexing nothing is a null dereference. */
  function Lookup(t: Option<Json>, key: Key): Result<Option<Json>> {
    match t
    case None => Err(NullReferenceMessage)
    case Some(token) => Child(token, key)
  }

  /** A string in JSON notation, with its quotes and backslashes escaped. */
  function Quote(s: string): string {
    "\"" + EscapeString(s) + "\""
  }

  function EscapeString(s: string): string {
    if s == [] then []
    else (if s[0] == '"' || s[0] == '\\' then ['\\', s[0]] else [s[0]]) + EscapeString(s[1..])
  }

  function JoinWithCommas(parts: seq<string>): string {
    if parts == [] then []
    else if |parts| == 1 then parts[0]
    else parts[0] + "," + JoinWithCommas(parts[1..])
  }

  /** A token written as JSON text without white space. */
  function Render(t: Json): string
    decreases t
  {
    match t
    case JNull => "null"
    case JBool(b) => if b then "true" else "false"
    case JNumber(literal) => literal
    case JString(s) => Quote(s)
    case JArray(elements) =>
      "[" + JoinWithCommas(seq(|elements|, i requires 0 <= i < |elements| => Render(elements[i]))) + "]"
    case JObject(members) =>
      "{" + JoinWithCommas(seq(|members|, i requires 0 <= i < |members| =>
        Quote(members[i].name) + ":" + Render(members[i].value))) + "}"
  }

  /**
   * JToken.ToString(): a string value is its text, null is empty, a boolean is True or False,
   * a number its digits; a container is its JSON text. A string the parser would read as a
   * date is taken here as a string too.
   */
  function TokenText(t: Json): string {
    match t
    case JString(s) => s
    case JNull => ""
    case JBool(b) => if b then "True" else "False"
    case JNumber(literal) => literal
    case _ => Render(t)
  }
}
