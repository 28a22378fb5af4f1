/**
 * ImplementsPartialJavaBean: a Mockito answer that makes a mock behave as a bean with
 * properties: `setX(v)` stores `v` under `X`, and `getX()` and `isX()` read it back; every
 * other call gets Mockito's default answer.
 *
 * Values are of any type `V`; Mockito's default answer itself is not part of this model.
 */
module PartialJavaBean {
  import opened Wrappers
  import opened JavaText

  /** A call on the mock: the method's name and its arguments (`None` for `null`); the parameter count is the argument count. */
  datatype Invocation<V> = Invocation(methodName: string, arguments: seq<Option<V>>)

  /** What the answer returns: a value (`None` for `null`), or whatever the default answer returns. */
  datatype Answer<V> = Returned(value: Option<V>) | DefaultAnswer

  /** The property map after a call, and the call's answer. */
  datatype Response<V> = Response(values: map<string, V>, answer: Answer<V>)

  /** The property a `set`, `get` or `is` method is about: its name after the prefix. */
  function PropertyAfter(name: string, prefixLength: nat): string
    requires prefixLength <= |name|
  {
    name[prefixLength..]
  }

  /**
   * `answer(invocation)`: a one-argument `set…` stores a non-null argument under the
   * property or removes the property for `null`, and returns `null`; a no-argument `is…`
   * or `get…` returns the stored value when there is one; anything else, and a property
   * without a value, gets the default answer.
   */
  function Respond<V>(values: map<string, V>, call: Invocation<V>): (r: Response<V>)
    ensures !StartsWith(call.methodName, "set") || |call.arguments| != 1 ==> r.values == values
  {
    var name := call.methodName;
    if StartsWith(name, "set") && |call.arguments| == 1 then
      var property := PropertyAfter(name, 3);
      if call.arguments[0].Some? then Response(values[property := call.arguments[0].value], Returned(None))
      else Response(values - {property}, Returned(None))
    else if StartsWith(name, "is") && |call.arguments| == 0 then
      var property := PropertyAfter(name, 2);
      if property in values then Response(values, Returned(Some(values[property]))) else Response(values, DefaultAnswer)
    else if StartsWith(name, "get") && |call.arguments| == 0 then
      var property := PropertyAfter(name, 3);
      if property in values then Response(values, Returned(Some(values[property]))) else Response(values, DefaultAnswer)
    else Response(values, DefaultAnswer)
  }

  lemma PrefixedName(prefix: string, property: string)
    ensures StartsWith(prefix + property, prefix) && (prefix + property)[|prefix|..] == property
  {
    assert (prefix + property)[..|prefix|] == prefix;
  }

  /**
   * A setter with a value stores it under its own property only, and returns `null`; the
   * getter and the `is` method of that property then return it.
   */
  lemma SetThenGet<V>(values: map<string, V>, property: string, v: V)
    ensures var r := Respond(values, Invocation("set" + property, [Some(v)]));
      r.answer == Returned(None) &&
      r.values == values[property := v] &&
      (forall other :: other != property ==> (other in r.values <==> other in values)) &&
      Respond(r.values, Invocation("get" + property, [])).answer == Returned(Some(v)) &&
      Respond(r.values, Invocation("is" + property, [])).answer == Returned(Some(v))
  {
    PrefixedName("set", property);
    PrefixedName("get", property);
    PrefixedName("is", property);
    assert !StartsWith("get" + property, "set") by {
      assert ("get" + property)[0] != "set"[0];
    }
    assert !StartsWith("is" + property, "set") by {
      assert ("is" + property)[0] != "set"[0];
    }
    assert !StartsWith("get" + property, "is") by {
      assert ("get" + property)[0] != "is"[0];
    }
  }

  /** A setter given `null` removes its property and returns `null`; the getter then gets the default answer. */
  lemma SetNullRemoves<V>(values: map<string, V>, property: string)
    ensures var r := Respond(values, Invocation<V>.Invocation("set" + property, [None]));
      r.answer == Returned(None) &&
      r.values == values - {property} &&
      Respond(r.values, Invocation<V>.Invocation("get" + property, [])).answer == DefaultAnswer
  {
    PrefixedName("set", property);
    PrefixedName("get", property);
    assert !StartsWith("get" + property, "set") by {
      assert ("get" + property)[0] != "set"[0];
    }
    assert !StartsWith("get" + property, "is") by {
      assert ("get" + property)[0] != "is"[0];
    }
  }

  /** A no-argument getter of a stored property returns its value and changes nothing. */
  lemma GetStored<V>(values: map<string, V>, property: string)
    requires property in values
    ensures Respond(values, Invocation<V>.Invocation("get" + property, [])) == Response(values, Returned(Some(values[property])))
  {
    PrefixedName("get", property);
    assert !StartsWith("get" + property, "set") by {
      assert ("get" + property)[0] != "set"[0];
    }
    assert !StartsWith("get" + property, "is") by {
      assert ("get" + property)[0] != "is"[0];
    }
  }

  /** Calls that are neither one-argument `set…` nor no-argument `get…`/`is…` get the default answer and change nothing. */
  lemma OtherCallsDefault<V>(values: map<string, V>, call: Invocation<V>)
    requires !(StartsWith(call.methodName, "set") && |call.arguments| == 1)
    requires !(StartsWith(call.methodName, "is") && |call.arguments| == 0)
    requires !(StartsWith(call.methodName, "get") && |call.arguments| == 0)
    ensures Respond(values, call) == Response(values, DefaultAnswer)
  {
  }

  /** The answer object and the property map it updates in place. */
  class ImplementsPartialJavaBean<V> {
    var values: map<string, V>

    constructor ()
      ensures values == map[]
    {
      values := map[];
    }

    method Answer(call: Invocation<V>) returns (answer: Answer<V>)
      modifies this
      ensures Response(values, answer) == Respond(old(values), call)
    {
      var name := call.methodName;
      if StartsWith(name, "set") && |call.arguments| == 1 {
        if call.arguments[0].Some? {
          values := values[name[3..] := call.arguments[0].value];
        } else {
          values := values - {name[3..]};
        }
        return Returned(None);
      } else if StartsWith(name, "is") && |call.arguments| == 0 {
        var property := name[2..];
        if property in values {
          return Returned(Some(values[property]));
        }
      } else if StartsWith(name, "get") && |call.arguments| == 0 {
        var property := name[3..];
        if property in values {
          return Returned(Some(values[property]));
        }
      }
      return DefaultAnswer;
    }
  }
}
