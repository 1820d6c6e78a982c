/** The earlier container of Injection.php: no class mappings, no singletons and no
    leader. Each constructor parameter is filled, in declaration order, from the caller's
    values (by name for an associative array, by position for a list) or else by a
    recursive `make` of its declared type. */
module EarlyContainer {
  import opened Php
  import Container

  /** A parameter as reflection reports it: its name and `strval($rParam->getType())`. */
  datatype Param = Param(name: string, typeName: string)

  /** The keys `0, 1, ..., n - 1`, as `range(0, n - 1)` gives them. */
  function Range(n: nat): (ks: seq<Key>)
    ensures |ks| == n && forall i :: 0 <= i < n ==> ks[i] == IntKey(i)
  {
    seq(n, i requires 0 <= i < n => IntKey(i))
  }

  /** `isAssoc`: a non-empty array whose keys are not `0 .. count - 1` in order. */
  function IsAssoc(arr: Array<Value>): (r: bool)
    ensures r <==> arr != [] && !IsList(arr)
  {
    if arr == [] then false
    else
      var r := KeysOf(arr) != Range(|arr|);
      assert r <==> !IsList(arr) by {
        if IsList(arr) {
          forall i | 0 <= i < |arr| ensures KeysOf(arr)[i] == Range(|arr|)[i] {
            KeysOfAt(arr, i);
          }
        } else {
          var i :| 0 <= i < |arr| && arr[i].0 != IntKey(i);
          KeysOfAt(arr, i);
          assert KeysOf(arr)[i] != Range(|arr|)[i];
        }
      }
      r
  }

  /** `matchParamToArguments`: nothing from an empty array; from an associative array the
      value stored under the parameter's name; from a list the value at its position. */
  function MatchParamToArguments(position: nat, name: string, arguments: Array<Value>): (v: Value)
    ensures arguments == [] ==> v == Null
    ensures IsAssoc(arguments) && v != Null ==> Get(arguments, StrKey(name)) == Some(v)
    ensures !IsAssoc(arguments) && v != Null ==> position < |arguments| && arguments[position].1 == v
  {
    if |arguments| > 0 then
      if IsAssoc(arguments) then
        match Get(arguments, StrKey(name))
        case Some(v) => v
        case None => Null
      else if position < |arguments| then arguments[position].1
      else Null
    else Null
  }

  /** The converse: a value stored where the parameter is looked up is found. */
  lemma MatchParamToArgumentsFinds(position: nat, name: string, arguments: Array<Value>)
    ensures IsAssoc(arguments) && Get(arguments, StrKey(name)).Some? ==>
              MatchParamToArguments(position, name, arguments) == Get(arguments, StrKey(name)).value
    ensures !IsAssoc(arguments) && position < |arguments| ==>
              MatchParamToArguments(position, name, arguments) == arguments[position].1
  {
  }

  /** An associative array is never read by position. */
  lemma AssocIgnoresPosition(p1: nat, p2: nat, name: string, arguments: Array<Value>)
    requires IsAssoc(arguments)
    ensures MatchParamToArguments(p1, name, arguments) == MatchParamToArguments(p2, name, arguments)
  {
  }

  class Injection {
    /** What reflection would report: each existing class with its constructor's parameters. */
    const classTable: map<string, seq<Param>>
    /** What reflection would report: each callable with its parameters. */
    const methodTable: map<Container.Callable, seq<Param>>

    constructor (classTable: map<string, seq<Param>>, methodTable: map<Container.Callable, seq<Param>>)
      ensures this.classTable == classTable && this.methodTable == methodTable
    {
      this.classTable := classTable;
      this.methodTable := methodTable;
    }

    /** `pass` holds one positional argument per parameter, in order: the caller's value
        where one is provided, else a new object of the parameter's type when that type is
        an existing class and fuel is left, else null. */
    ghost predicate Filled(params: seq<Param>, arguments: Array<Value>, fuel: nat, pass: Array<Value>) {
      IsList(pass) && |pass| == |params| &&
      forall i :: 0 <= i < |params| ==>
        var found := MatchParamToArguments(i, params[i].name, arguments);
        if found != Null then pass[i].1 == found
        else if fuel > 0 && params[i].typeName in classTable then
          pass[i].1.Obj? && pass[i].1.o is Instance && (pass[i].1.o as Instance).cls == params[i].typeName
        else pass[i].1 == Null
    }

    /** `makeArgumentsForMethod`: one positional argument per parameter, in order. A
        parameter the caller's values do not fill is given `make` of its type, a new
        object of that type exactly when it is an existing class (and fuel is left). */
    method MakeArgumentsForMethod(params: seq<Param>, arguments: Array<Value>, fuel: nat)
      returns (pass: Array<Value>)
      ensures Filled(params, arguments, fuel, pass)
      decreases fuel, 1
    {
      pass := [];
      var i := 0;
      while i < |params|
        invariant 0 <= i <= |params|
        invariant Filled(params[..i], arguments, fuel, pass)
      {
        var name := params[i].name;
        var arg := MatchParamToArguments(i, name, arguments);
        if arg == Null && fuel > 0 {
          var r := Make(params[i].typeName, [], fuel - 1);
          arg := if r.Some? then Obj(r.value) else Null;
        }
        pass := pass + [(IntKey(i), arg)];
        i := i + 1;
      }
      assert params[..i] == params;
    }

    /** `make`: an existing class is built from the arguments `makeArgumentsForMethod`
        gives its constructor; anything else is null. */
    method Make(cls: string, arguments: Array<Value>, fuel: nat) returns (r: Option<Instance>)
      ensures r.Some? <==> cls in classTable
      ensures r.Some? ==>
                fresh(r.value) && r.value.cls == cls && Filled(classTable[cls], arguments, fuel, r.value.args)
      decreases fuel, 2
    {
      if cls in classTable {
        var pass := MakeArgumentsForMethod(classTable[cls], arguments, fuel);
        var obj := new Instance(cls, pass);
        return Some(obj);
      }
      return None;
    }

    /** `callMethodWithInjection`: the callable is the target itself, or the pair of the
        target and the method name; its parameters are filled as `makeArgumentsForMethod`
        fills them and it is called with them. The result is none when reflection cannot
        find the callable. */
    method CallMethodWithInjection(objectOrMethod: Container.Target, methodName: Option<string>,
                                   arguments: Array<Value>, fuel: nat,
                                   invoke: (Container.Callable, Array<Value>) -> Value)
      returns (r: Option<Value>, pass: Array<Value>)
      ensures var toCall := Container.ToCall(objectOrMethod, methodName);
              && (r.None? <==> toCall !in methodTable)
              && (r.Some? ==> Filled(methodTable[toCall], arguments, fuel, pass) && r.value == invoke(toCall, pass))
    {
      var toCall := Container.ToCall(objectOrMethod, methodName);
      if toCall !in methodTable {
        return None, [];
      }
      pass := MakeArgumentsForMethod(methodTable[toCall], arguments, fuel);
      r := Some(invoke(toCall, pass));
    }
  }
}
