/** The dependency-injection container of src/Injection.php, together with the scalar
    fallback that examples/legacy/LegacyInjection.php adds to it (the `legacy` variant).

    Reflection is replaced by two tables fixed when a container is built: `classTable`
    lists every class that exists with the parameters of its constructor, and
    `methodTable` lists every callable with its parameters. */
module Container {
  import opened Php
  import opened PhpStrings

  /** A parameter as reflection reports it; `typeName` is `strval($rParam->getType())`,
      which is `""` for an untyped parameter. */
  datatype Param = Param(name: string, typeName: string, optional: bool, default: Value)

  /** The values a caller hands to `make` or `callMethod`: an array, or an object whose
      public properties are read by name. */
  datatype Provided = ArrayValues(a: Array<Value>) | ObjectValues(props: map<string, Value>)

  /** `setClassMapping`'s `$andInterface`, a bool or a string. */
  datatype InterfaceFlag = Flag(b: bool) | Suffix(s: string)

  /** The constructor's `$singletons`: a list of class names, or an array keyed by class
      name whose values are objects or null. */
  datatype SingletonsArg = ClassList(names: seq<string>) | ClassMap(slots: map<string, Option<object>>)

  /** What `callMethod` is asked to call: a name (a function or `Class::method`) or an object. */
  datatype Target = Named(name: string) | Object(obj: object)

  /** The callable `callMethod` hands to `call_user_func_array`: the target itself, or
      the pair `[target, method]`. */
  datatype Callable = Plain(target: Target) | Pair(target: Target, methodName: string)

  function ToCall(objectOrMethod: Target, methodName: Option<string>): Callable {
    if methodName.None? then Plain(objectOrMethod) else Pair(objectOrMethod, methodName.value)
  }

  function ParamNames(params: seq<Param>): seq<string> {
    seq(|params|, i requires 0 <= i < |params| => params[i].name)
  }

  /** `matchParamToValues`: an object is read by property name; an array that is a list
      gives the value at the parameter's position when there is one; any other array is
      read by parameter name; anything not found is null. */
  function MatchParamToValues(position: nat, name: string, withValues: Provided): (v: Value)
    ensures withValues.ObjectValues? && v != Null ==>
              name in withValues.props && withValues.props[name] == v
    ensures withValues.ArrayValues? && IsList(withValues.a) && v != Null ==>
              position < |withValues.a| && withValues.a[position].1 == v
    ensures withValues.ArrayValues? && !IsList(withValues.a) && v != Null ==>
              Get(withValues.a, StrKey(name)) == Some(v)
  {
    match withValues
    case ObjectValues(props) => if name in props then props[name] else Null
    case ArrayValues(a) =>
      if IsList(a) && position < |a| then a[position].1
      else if IsList(a) then
        ListHasNoStringKey(a, name);
        ByName(a, name)
      else ByName(a, name)
  }

  /** `array_key_exists($name, $a) ? $a[$name] : null`. */
  function ByName(a: Array<Value>, name: string): Value {
    match Get(a, StrKey(name))
    case Some(v) => v
    case None => Null
  }

  /** The converse: whatever the caller provides in the place the parameter is looked up
      is what the lookup yields. */
  lemma MatchParamToValuesFinds(position: nat, name: string, withValues: Provided)
    ensures withValues.ObjectValues? && name in withValues.props ==>
              MatchParamToValues(position, name, withValues) == withValues.props[name]
    ensures withValues.ArrayValues? && IsList(withValues.a) && position < |withValues.a| ==>
              MatchParamToValues(position, name, withValues) == withValues.a[position].1
    ensures withValues.ArrayValues? && !IsList(withValues.a) && Get(withValues.a, StrKey(name)).Some? ==>
              MatchParamToValues(position, name, withValues) == Get(withValues.a, StrKey(name)).value
  {
  }

  /** In an associative array a parameter is found by name only, whatever its position. */
  lemma MatchByNameIgnoresPosition(p1: nat, p2: nat, name: string, a: Array<Value>)
    requires !IsList(a)
    ensures MatchParamToValues(p1, name, ArrayValues(a)) == MatchParamToValues(p2, name, ArrayValues(a))
  {
  }

  /** `makeArgumentFallback`, the overridable last resort for a required parameter. */
  function MakeArgumentFallback(p: Param): Value {
    Null
  }

  /** The scalar a declared type falls back to in `LegacyInjection`. */
  function ScalarDefault(typeName: string): Value {
    match typeName
    case "" => Str("")
    case "string" => Str("")
    case "int" => Int(0)
    case "float" => Float(0.0)
    case "bool" => Bool(false)
    case _ => Str("")
  }

  /** `LegacyInjection::makeArgumentForParameter`: the parent's result unless it is null,
      in which case a scalar chosen by the declared type. */
  function LegacyArgument(parent: Value, typeName: string): (r: Value)
    ensures r != Null
    ensures parent != Null ==> r == parent
  {
    if parent != Null then parent else ScalarDefault(typeName)
  }

  lemma LegacyScalars(t: string)
    ensures LegacyArgument(Null, "") == Str("") && LegacyArgument(Null, "string") == Str("")
    ensures LegacyArgument(Null, "int") == Int(0)
    ensures LegacyArgument(Null, "float") == Float(0.0)
    ensures LegacyArgument(Null, "bool") == Bool(false)
    ensures t !in {"int", "float", "bool"} ==> LegacyArgument(Null, t) == Str("")
  {
  }

  /** The `??` chain of `makeArgumentForParameter` in its intended order: the container
      itself when the parameter's type is one of its own, else the caller's value, else
      what `make` built for the type, else the declared default of an optional parameter
      or the fallback of a required one. (As written, line 72 parses as
      `($arg ?? isOptional()) ? default : null`, which replaces any argument found so far;
      the model follows the order the surrounding lines intend.) */
  function Resolve(p: Param, self: Value, provided: Value, made: Value): (r: Value)
    ensures self != Null ==> r == self
    ensures self == Null && provided != Null ==> r == provided
    ensures self == Null && provided == Null && made != Null ==> r == made
    ensures self == Null && provided == Null && made == Null ==>
              r == if p.optional then p.default else MakeArgumentFallback(p)
    ensures r == Null <==>
              self == Null && provided == Null && made == Null && (p.optional ==> p.default == Null)
  {
    if self != Null then self
    else if provided != Null then provided
    else if made != Null then made
    else if p.optional then p.default
    else MakeArgumentFallback(p)
  }

  /** The array `makeArgumentsForMethod` passes on: each argument under its parameter's
      name, except an optional parameter whose argument is null. */
  function PassArguments(params: seq<Param>, resolved: seq<Value>): Array<Value>
    requires |resolved| == |params|
    decreases |params|
  {
    if params == [] then []
    else
      var n := |params| - 1;
      var pass := PassArguments(params[..n], resolved[..n]);
      if resolved[n] != Null || !params[n].optional then Put(pass, StrKey(params[n].name), resolved[n])
      else pass
  }

  /** One more parameter: it is passed under its name unless it is optional and null. */
  lemma PassArgumentsStep(params: seq<Param>, i: nat, resolved: seq<Value>, arg: Value)
    requires i < |params| && |resolved| == i
    ensures var pass := PassArguments(params[..i], resolved);
            PassArguments(params[..i + 1], resolved + [arg]) ==
              if arg != Null || !params[i].optional then Put(pass, StrKey(params[i].name), arg) else pass
  {
    assert params[..i + 1][..i] == params[..i];
    assert (resolved + [arg])[..i] == resolved;
  }

  /** Every key of the passed arguments is the name of a parameter. */
  lemma {:induction false} PassArgumentsKeys(params: seq<Param>, resolved: seq<Value>, k: Key)
    requires |resolved| == |params|
    ensures k in KeysOf(PassArguments(params, resolved)) ==> k.StrKey? && k.s in ParamNames(params)
    decreases |params|
  {
    if params != [] {
      var n := |params| - 1;
      var pass := PassArguments(params[..n], resolved[..n]);
      PassArgumentsKeys(params[..n], resolved[..n], k);
      if resolved[n] != Null || !params[n].optional {
        KeysOfPut(pass, StrKey(params[n].name), resolved[n]);
      }
      if k in KeysOf(pass) {
        var j :| 0 <= j < n && ParamNames(params[..n])[j] == k.s;
        assert ParamNames(params)[j] == k.s;
      } else {
        assert ParamNames(params)[n] == params[n].name;
      }
    }
  }

  /** With distinct parameter names (as reflection guarantees), a required parameter is
      always passed, an optional one is passed exactly when its argument is not null,
      and it is passed the argument resolved for it. */
  lemma {:induction false} PassArgumentsGet(params: seq<Param>, resolved: seq<Value>, i: nat)
    requires |resolved| == |params| && Distinct(ParamNames(params)) && i < |params|
    ensures Get(PassArguments(params, resolved), StrKey(params[i].name)) ==
              if resolved[i] != Null || !params[i].optional then Some(resolved[i]) else None
    decreases |params|
  {
    var n := |params| - 1;
    var pass := PassArguments(params[..n], resolved[..n]);
    var k := StrKey(params[i].name);
    if i < n {
      assert Distinct(ParamNames(params[..n])) by {
        forall a, b | 0 <= a < b < n
          ensures ParamNames(params[..n])[a] != ParamNames(params[..n])[b]
        {
          assert ParamNames(params)[a] == ParamNames(params[..n])[a];
          assert ParamNames(params)[b] == ParamNames(params[..n])[b];
        }
      }
      PassArgumentsGet(params[..n], resolved[..n], i);
      assert ParamNames(params)[i] != ParamNames(params)[n];
      if resolved[n] != Null || !params[n].optional {
        GetPut(pass, StrKey(params[n].name), resolved[n], k);
      }
    } else if resolved[n] != Null || !params[n].optional {
      GetPut(pass, k, resolved[n], k);
    } else {
      assert params[n].name !in ParamNames(params[..n]) by {
        forall j | 0 <= j < n
          ensures ParamNames(params[..n])[j] != params[n].name
        {
          assert ParamNames(params)[j] == ParamNames(params[..n])[j];
          assert ParamNames(params)[n] == params[n].name;
        }
      }
      PassArgumentsKeys(params[..n], resolved[..n], k);
    }
  }

  /** The keys `setClassMapping` assigns, in the order it assigns them. Any bool flag
      becomes the string `'Interface'`, so even `false` adds the interface alias; the
      alias always ends in the literal `Interface`, whatever string the flag holds. */
  function MappingKeys(fromClass: string, andNamespace: Option<string>, andInterface: InterfaceFlag): seq<string> {
    var alias := andInterface.Flag? || Truthy(andInterface.s);
    match andNamespace
    case None => [fromClass] + (if alias then [fromClass + "Interface"] else [])
    case Some(ns) =>
      var namespace := TrimRight(ns, {'\\'}) + "\\";
      [fromClass, namespace + fromClass] + (if alias then [namespace + fromClass + "Interface"] else [])
  }

  lemma MappingKeysCases(fromClass: string, andNamespace: Option<string>, andInterface: InterfaceFlag)
    ensures MappingKeys(fromClass, None, Flag(false)) == [fromClass, fromClass + "Interface"]
    ensures andInterface.Suffix? && !Truthy(andInterface.s) ==>
              MappingKeys(fromClass, andNamespace, andInterface) ==
                (if andNamespace.None? then [fromClass]
                 else [fromClass, TrimRight(andNamespace.value, {'\\'}) + "\\" + fromClass])
    ensures andInterface.Suffix? && Truthy(andInterface.s) ==>
              MappingKeys(fromClass, andNamespace, andInterface) == MappingKeys(fromClass, andNamespace, Flag(true))
  {
  }

  /** The mapping table after `setClassMapping(fromClass, toClass, andNamespace, andInterface)`. */
  function Mapped(cm: map<string, string>, fromClass: string, toClass: string,
                  andNamespace: Option<string>, andInterface: InterfaceFlag): map<string, string> {
    var alias := andInterface.Flag? || Truthy(andInterface.s);
    match andNamespace
    case None =>
      var m := cm[fromClass := toClass];
      if alias then m[fromClass + "Interface" := toClass] else m
    case Some(ns) =>
      var namespace := TrimRight(ns, {'\\'}) + "\\";
      var m := cm[fromClass := toClass][namespace + fromClass := toClass];
      if alias then m[namespace + fromClass + "Interface" := toClass] else m
  }

  /** `setClassMapping` makes every key it assigns resolve to the target and leaves every
      other key resolving as before; it adds no other key. */
  lemma MappedResolves(cm: map<string, string>, fromClass: string, toClass: string,
                       andNamespace: Option<string>, andInterface: InterfaceFlag, k: string)
    ensures MapClass(Mapped(cm, fromClass, toClass, andNamespace, andInterface), k) ==
              if k in MappingKeys(fromClass, andNamespace, andInterface) then toClass else MapClass(cm, k)
    ensures k in Mapped(cm, fromClass, toClass, andNamespace, andInterface) <==>
              k in cm || k in MappingKeys(fromClass, andNamespace, andInterface)
  {
  }

  /** The mapping table the constructor leaves, given the one it was passed: each of the
      framework's own classes under its short name, in the `Krag` namespace and with its
      interface, then PSR-3's logger interface to the framework's logger. */
  function DefaultMappings(cm: map<string, string>): map<string, string> {
    var krag := Some("Krag");
    var m1 := Mapped(cm, "App", "Krag\\App", krag, Flag(true));
    var m2 := Mapped(m1, "DB", "Krag\\DB", krag, Flag(true));
    var m3 := Mapped(m2, "HTTP", "Krag\\HTTP", krag, Flag(true));
    var m4 := Mapped(m3, "Injection", "Krag\\Injection", krag, Flag(true));
    var m5 := Mapped(m4, "Log", "Krag\\Log", krag, Flag(true));
    var m6 := Mapped(m5, "Result", "Krag\\Result", krag, Flag(true));
    var m7 := Mapped(m6, "Routing", "Krag\\Routing", krag, Flag(true));
    var m8 := Mapped(m7, "SQL", "Krag\\SQL", krag, Flag(true));
    var m9 := Mapped(m8, "Views", "Krag\\Views", krag, Flag(true));
    Mapped(m9, "\\Psr\\Log\\LoggerInterface", "Krag\\Log", None, Flag(false))
  }

  /** A framework class registered in the `Krag` namespace with its interface gets three
      keys: its short name, its qualified name and its qualified interface name (no
      unqualified interface alias). */
  lemma KragMapping(cm: map<string, string>, name: string, target: string)
    ensures Mapped(cm, name, target, Some("Krag"), Flag(true)) ==
              cm[name := target]["Krag\\" + name := target]["Krag\\" + name + "Interface" := target]
  {
    assert TrimRight("Krag", {'\\'}) == "Krag";
    assert "Krag" + "\\" == "Krag\\";
  }

  /** After construction the framework's logger answers for its short name and for
      PSR-3's logger interface, whatever the caller mapped those names to. */
  lemma DefaultMappingsLog(cm: map<string, string>)
    ensures MapClass(DefaultMappings(cm), "Log") == "Krag\\Log"
    ensures MapClass(DefaultMappings(cm), "\\Psr\\Log\\LoggerInterface") == "Krag\\Log"
  {
    var krag := Some("Krag");
    var m1 := Mapped(cm, "App", "Krag\\App", krag, Flag(true));
    var m2 := Mapped(m1, "DB", "Krag\\DB", krag, Flag(true));
    var m3 := Mapped(m2, "HTTP", "Krag\\HTTP", krag, Flag(true));
    var m4 := Mapped(m3, "Injection", "Krag\\Injection", krag, Flag(true));
    var m5 := Mapped(m4, "Log", "Krag\\Log", krag, Flag(true));
    var m6 := Mapped(m5, "Result", "Krag\\Result", krag, Flag(true));
    var m7 := Mapped(m6, "Routing", "Krag\\Routing", krag, Flag(true));
    var m8 := Mapped(m7, "SQL", "Krag\\SQL", krag, Flag(true));
    var m9 := Mapped(m8, "Views", "Krag\\Views", krag, Flag(true));
    KragMapping(m4, "Log", "Krag\\Log");
    KragMapping(m5, "Result", "Krag\\Result");
    KragMapping(m6, "Routing", "Krag\\Routing");
    KragMapping(m7, "SQL", "Krag\\SQL");
    KragMapping(m8, "Views", "Krag\\Views");
    assert m5["Log"] == "Krag\\Log";
    assert m9["Log"] == "Krag\\Log";
  }

  /** The singleton table the constructor starts from: a non-empty list of class names
      becomes one empty slot per name (`array_fill_keys($singletons, null)`), any other
      array is kept as given. */
  function NormaliseSingletons(singletons: SingletonsArg): (r: map<string, Option<object>>)
    ensures singletons.ClassList? ==>
              (forall c :: c in r <==> c in singletons.names) && (forall c :: c in r ==> r[c] == None)
  {
    match singletons
    case ClassList(names) => if |names| > 0 then map n | n in names :: None else map[]
    case ClassMap(slots) => slots
  }

  /** `$this->classMappings[$class] ?? $class`: one lookup, never repeated. */
  function MapClass(cm: map<string, string>, cls: string): string {
    if cls in cm then cm[cls] else cls
  }

  /** Mapping is a single hop: a class mapped to a target that is itself mapped resolves
      to that target, not further. */
  lemma MapClassSingleHop(cm: map<string, string>, a: string, b: string)
    requires a in cm && cm[a] == b && b in cm && cm[b] != b
    ensures MapClass(cm, a) == b && MapClass(cm, MapClass(cm, a)) != b
  {
  }

  /** The object a singleton slot holds, if the slot exists and is not null. */
  function SlotObject(singletons: map<string, Option<object>>, c: string): Option<object> {
    if c in singletons then singletons[c] else None
  }

  function OwnClass(legacy: bool): string {
    if legacy then "Krag\\LegacyInjection" else "Krag\\Injection"
  }

  /** The types a container is an `instanceof`: its class, its parent and its interfaces. */
  function OwnTypes(legacy: bool): set<string> {
    {"Krag\\Injection", "Krag\\InjectionInterface", "Psr\\Log\\LoggerAwareInterface",
     "Psr\\Container\\ContainerInterface"} + (if legacy then {"Krag\\LegacyInjection"} else {})
  }

  /** What `make` answers, as the container chain decides it: a container itself (its own
      class was asked for with no values), the object a container's singleton slot holds,
      a new object of the class a container builds, or null. */
  datatype Answer = Itself(inj: Injection) | Held(holder: Injection, obj: object)
                  | Builds(builder: Injection, built: string) | NoAnswer

  /** `make`'s result as the value `makeArgumentForParameter` continues with. */
  function ValueOf(r: Option<object>): Value {
    if r.Some? then Obj(r.value) else Null
  }

  /** `v` is what answer `a` gives: the container, the held object, a new object of the
      built class, or null. */
  ghost predicate Gives(a: Answer, v: Value) {
    match a
    case Itself(h) => v == Obj(h)
    case Held(_, o) => v == Obj(o)
    case Builds(_, c) => v.Obj? && v.o is Instance && (v.o as Instance).cls == c
    case NoAnswer => v == Null
  }

  class Injection {
    const classTable: map<string, seq<Param>>
    const methodTable: map<Callable, seq<Param>>
    /** A `LegacyInjection` rather than a plain `Injection`. */
    const legacy: bool
    /** `static::class`. */
    const ownClass: string
    const ownTypes: set<string>
    /** Class name to object; a null slot is wanted as a singleton but not built yet. */
    var singletons: map<string, Option<object>>
    var classMappings: map<string, string>
    var leader: Injection?
    ghost var Repr: set<Injection>

    /** The leader chain is finite and acyclic, and every container in it sees the same
        classes. */
    ghost predicate Valid()
      reads this`leader, this`Repr, Repr`leader, Repr`Repr
      decreases Repr
    {
      this in Repr &&
      (leader == null ==> Repr == {this}) &&
      (leader != null ==>
         leader in Repr && Repr == {this} + leader.Repr && this !in leader.Repr && leader.Valid() &&
         leader.classTable == classTable && leader.methodTable == methodTable)
    }

    /** The last container of the leader chain, the one that does the work of `callMethod`. */
    ghost function Head(): (h: Injection)
      requires Valid()
      reads this`leader, this`Repr, Repr`leader, Repr`Repr
      ensures h in Repr && h.leader == null
      decreases Repr
    {
      if leader == null then this else leader.Head()
    }

    constructor (classTable: map<string, seq<Param>>, methodTable: map<Callable, seq<Param>>, legacy: bool,
                 singletons: SingletonsArg, classMappings: map<string, string>)
      ensures Valid() && Repr == {this} && leader == null
      ensures this.classTable == classTable && this.methodTable == methodTable && this.legacy == legacy
      ensures ownClass == OwnClass(legacy) && ownTypes == OwnTypes(legacy)
      ensures this.singletons == NormaliseSingletons(singletons)
      ensures this.classMappings == DefaultMappings(classMappings)
    {
      this.classTable := classTable;
      this.methodTable := methodTable;
      this.legacy := legacy;
      ownClass := OwnClass(legacy);
      ownTypes := OwnTypes(legacy);
      this.singletons := NormaliseSingletons(singletons);
      this.classMappings := classMappings;
      leader := null;
      Repr := {this};
      new;
      var krag, withInterface := Some("Krag"), Flag(true);
      var self := SetClassMapping("App", "Krag\\App", krag, withInterface);
      self := SetClassMapping("DB", "Krag\\DB", krag, withInterface);
      self := SetClassMapping("HTTP", "Krag\\HTTP", krag, withInterface);
      self := SetClassMapping("Injection", "Krag\\Injection", krag, withInterface);
      self := SetClassMapping("Log", "Krag\\Log", krag, withInterface);
      self := SetClassMapping("Result", "Krag\\Result", krag, withInterface);
      self := SetClassMapping("Routing", "Krag\\Routing", krag, withInterface);
      self := SetClassMapping("SQL", "Krag\\SQL", krag, withInterface);
      self := SetClassMapping("Views", "Krag\\Views", krag, withInterface);
      var noNamespace, noInterface := None, Flag(false);
      self := SetClassMapping("\\Psr\\Log\\LoggerInterface", "Krag\\Log", noNamespace, noInterface);
    }

    /** `setInjection`: make `injection` the leader every request is put to first. */
    method SetInjection(injection: Injection)
      requires injection.Valid() && this !in injection.Repr
      requires injection.classTable == classTable && injection.methodTable == methodTable
      modifies this`leader, this`Repr
      ensures leader == injection && Repr == {this} + injection.Repr && Valid()
    {
      leader := injection;
      Repr := {this} + injection.Repr;
    }

    /** `setSingleton`: the slot for `cls` holds `obj` (null empties it); returns the container. */
    method SetSingleton(cls: string, obj: Option<object>) returns (r: Injection)
      modifies this`singletons
      ensures r == this && singletons == old(singletons)[cls := obj]
    {
      singletons := singletons[cls := obj];
      r := this;
    }

    /** `setClassMapping`, returning the container. */
    method SetClassMapping(fromClass: string, toClass: string, andNamespace: Option<string>,
                           andInterface: InterfaceFlag) returns (r: Injection)
      modifies this`classMappings
      ensures r == this
      ensures classMappings == Mapped(old(classMappings), fromClass, toClass, andNamespace, andInterface)
    {
      classMappings := classMappings[fromClass := toClass];
      var suffix := if andInterface.Flag? then "Interface" else andInterface.s;
      if andNamespace.None? {
        if Truthy(suffix) {
          classMappings := classMappings[fromClass + "Interface" := toClass];
        }
      } else {
        var namespace := TrimRight(andNamespace.value, {'\\'}) + "\\";
        classMappings := classMappings[namespace + fromClass := toClass];
        if Truthy(suffix) {
          classMappings := classMappings[namespace + fromClass + "Interface" := toClass];
        }
      }
      r := this;
    }

    /** `$this instanceof $type ? $this : null`. */
    function SelfArg(p: Param): Value {
      if p.typeName in ownTypes then Obj(this) else Null
    }

    /** The argument this container's resolver yields for `p` at `position`, given what the
        recursive `make` of its type produced. */
    function ArgumentFor(p: Param, position: nat, withValues: Provided, made: Value): Value {
      var base := Resolve(p, SelfArg(p), MatchParamToValues(position, p.name, withValues), made);
      if legacy then LegacyArgument(base, p.typeName) else base
    }

    /** What `make(cls, withValues)` answers in the current state: the leader's answer when
        it has one; else, with `cls` mapped once, this container for its own class asked
        for with no values, then a filled singleton slot, then a new object of an existing
        class, and else nothing. */
    ghost function Expected(cls: string, withValues: Provided): Answer
      requires Valid()
      reads this`leader, this`Repr, Repr`leader, Repr`Repr, Repr`classMappings, Repr`singletons
      decreases Repr
    {
      var fromLeader := if leader != null then leader.Expected(cls, withValues) else NoAnswer;
      if !fromLeader.NoAnswer? then fromLeader else OwnAnswer(cls, withValues)
    }

    /** This container's own answer, when the leader has none. */
    ghost function OwnAnswer(cls: string, withValues: Provided): Answer
      reads this`classMappings, this`singletons
    {
      var c := MapClass(classMappings, cls);
      if c == ownClass && withValues == ArrayValues([]) then Itself(this)
      else if SlotObject(singletons, c).Some? then Held(this, SlotObject(singletons, c).value)
      else if c in classTable then Builds(this, c)
      else NoAnswer
    }

    /** The answers `make(cls)` with no values can give whatever the singleton slots hold:
        a container of the chain that maps `cls` to its own class; the slot of one that does
        not; a new object of the existing class a container maps `cls` to; or nothing, when
        no container maps `cls` to its own class or to an existing class. */
    ghost predicate Possible(cls: string, a: Answer)
      reads this`Repr, Repr`classMappings
    {
      match a
      case Itself(h) => h in Repr && MapClass(h.classMappings, cls) == h.ownClass
      case Held(h, _) => h in Repr && MapClass(h.classMappings, cls) != h.ownClass
      case Builds(h, c) =>
        h in Repr && c == MapClass(h.classMappings, cls) && c != h.ownClass && c in h.classTable
      case NoAnswer =>
        forall h :: h in Repr ==>
          MapClass(h.classMappings, cls) != h.ownClass && MapClass(h.classMappings, cls) !in h.classTable
    }

    /** Whatever the slots hold, the answer to `make(cls)` with no values is a possible one. */
    lemma {:induction false} ExpectedPossible(cls: string)
      requires Valid()
      ensures Possible(cls, Expected(cls, ArrayValues([])))
      decreases Repr
    {
      if leader != null {
        leader.ExpectedPossible(cls);
      }
    }

    /** `made` is what the recursive `make` of the parameter's type gave: nothing when the
        container itself or the caller's values fill the parameter or no fuel is left, and
        otherwise what a possible answer of `make` for the type gives. */
    ghost predicate MadeFor(p: Param, position: nat, withValues: Provided, fuel: nat, made: Value, answer: Answer)
      reads this`Repr, Repr`classMappings
    {
      if fuel > 0 && SelfArg(p) == Null && MatchParamToValues(position, p.name, withValues) == Null then
        Possible(p.typeName, answer) && Gives(answer, made)
      else made == Null
    }

    /** `resolved` are the arguments for `params`, each built as `ArgumentFor` says from what
        `make` gave for its type, `make` having been tried only for a parameter that neither
        the container itself nor the caller's values could fill. */
    ghost predicate ArgumentsFor(params: seq<Param>, withValues: Provided, fuel: nat,
                                 resolved: seq<Value>, made: seq<Value>, answers: seq<Answer>)
      reads this`Repr, Repr`classMappings
    {
      |resolved| == |params| && |made| == |params| && |answers| == |params| &&
      forall i :: 0 <= i < |params| ==>
        resolved[i] == ArgumentFor(params[i], i, withValues, made[i]) &&
        MadeFor(params[i], i, withValues, fuel, made[i], answers[i])
    }

    /** One more parameter resolved: the earlier arguments stay as `ArgumentFor` says. */
    lemma ArgumentsStep(params: seq<Param>, i: nat, withValues: Provided, fuel: nat,
                        resolved: seq<Value>, made: seq<Value>, answers: seq<Answer>,
                        arg: Value, m: Value, a: Answer)
      requires i < |params|
      requires ArgumentsFor(params[..i], withValues, fuel, resolved, made, answers)
      requires arg == ArgumentFor(params[i], i, withValues, m)
      requires MadeFor(params[i], i, withValues, fuel, m, a)
      ensures ArgumentsFor(params[..i + 1], withValues, fuel, resolved + [arg], made + [m], answers + [a])
    {
      forall j | 0 <= j < i + 1
        ensures (resolved + [arg])[j] == ArgumentFor(params[..i + 1][j], j, withValues, (made + [m])[j])
        ensures MadeFor(params[..i + 1][j], j, withValues, fuel, (made + [m])[j], (answers + [a])[j])
      {
        if j < i {
          assert params[..i + 1][j] == params[..i][j];
        }
      }
    }

    /** A container with no provided values resolves a parameter typed as one of its own
        types to itself, and a legacy container never resolves a parameter to null. */
    lemma ArgumentForProperties(p: Param, position: nat, withValues: Provided, made: Value)
      ensures p.typeName in ownTypes ==> ArgumentFor(p, position, withValues, made) == Obj(this)
      ensures legacy ==> ArgumentFor(p, position, withValues, made) != Null
      ensures p.typeName !in ownTypes && MatchParamToValues(position, p.name, withValues) != Null ==>
                ArgumentFor(p, position, withValues, made) == MatchParamToValues(position, p.name, withValues)
    {
    }

    /** `makeArgumentForParameter`, with the position and the caller's values as parameters.
        `made` is what the recursive `make` of the parameter's type gave and `answer` is
        that `make`'s answer in the state the call started from; with no fuel left `make`
        is not tried. */
    method MakeArgumentForParameter(p: Param, position: nat, withValues: Provided, fuel: nat)
      returns (arg: Value, ghost made: Value, ghost answer: Answer)
      requires Valid()
      modifies Repr`singletons
      ensures singletons.Keys == old(singletons).Keys
      ensures arg == ArgumentFor(p, position, withValues, made)
      ensures MadeFor(p, position, withValues, fuel, made, answer)
      ensures fuel > 0 && SelfArg(p) == Null && MatchParamToValues(position, p.name, withValues) == Null ==>
                answer == old(Expected(p.typeName, ArrayValues([])))
      decreases fuel, Repr, 0
    {
      made, answer := Null, NoAnswer;
      arg := if p.typeName in ownTypes then Obj(this) else Null;
      if arg == Null {
        arg := MatchParamToValues(position, p.name, withValues);
      }
      if arg == Null && fuel > 0 {
        answer := Expected(p.typeName, ArrayValues([]));
        ExpectedPossible(p.typeName);
        var r: Option<object>;
        ghost var b: Instance?, res: seq<Value>, ms: seq<Value>, as_: seq<Answer>;
        r, b, res, ms, as_ := Make(p.typeName, ArrayValues([]), fuel - 1);
        arg := ValueOf(r);
        made := arg;
      }
      if arg == Null && p.optional {
        arg := p.default;
      }
      if !p.optional && arg == Null {
        arg := MakeArgumentFallback(p);
      }
      if legacy {
        arg := LegacyArgument(arg, p.typeName);
      }
    }

    /** `makeArgumentsForMethod`: resolve each parameter in order and keep it under its
        name unless it is optional and resolved to null. */
    method MakeArgumentsForMethod(params: seq<Param>, withValues: Provided, fuel: nat)
      returns (pass: Array<Value>, ghost resolved: seq<Value>, ghost made: seq<Value>, ghost answers: seq<Answer>)
      requires Valid()
      modifies Repr`singletons
      ensures singletons.Keys == old(singletons).Keys
      ensures ArgumentsFor(params, withValues, fuel, resolved, made, answers)
      ensures pass == PassArguments(params, resolved)
      decreases fuel, Repr, 1
    {
      pass := [];
      resolved, made, answers := [], [], [];
      var i := 0;
      while i < |params|
        invariant 0 <= i <= |params|
        invariant Valid()
        invariant singletons.Keys == old(singletons).Keys
        invariant ArgumentsFor(params[..i], withValues, fuel, resolved, made, answers)
        invariant pass == PassArguments(params[..i], resolved)
      {
        var arg, m, a := MakeArgumentForParameter(params[i], i, withValues, fuel);
        ArgumentsStep(params, i, withValues, fuel, resolved, made, answers, arg, m, a);
        PassArgumentsStep(params, i, resolved, arg);
        if arg != Null || !params[i].optional {
          pass := Put(pass, StrKey(params[i].name), arg);
        }
        resolved, made, answers := resolved + [arg], made + [m], answers + [a];
        i := i + 1;
      }
      assert params[..i] == params;
    }

    /** `makeNew`: a new object of an existing class, whose constructor gets the arguments
        resolved for its parameters. */
    method MakeNew(c: string, withValues: Provided, fuel: nat)
      returns (obj: Instance, ghost resolved: seq<Value>, ghost made: seq<Value>, ghost answers: seq<Answer>)
      requires Valid() && c in classTable
      modifies Repr`singletons
      ensures singletons.Keys == old(singletons).Keys
      ensures fresh(obj) && obj.cls == c
      ensures ArgumentsFor(classTable[c], withValues, fuel, resolved, made, answers)
      ensures obj.args == PassArguments(classTable[c], resolved)
      decreases fuel, Repr, 2
    {
      var pass: Array<Value>;
      pass, resolved, made, answers := MakeArgumentsForMethod(classTable[c], withValues, fuel);
      obj := new Instance(c, pass);
    }

    /** `postMakeNew`'s singleton write-back: a class that owns a slot keeps the object
        just built. (The logger wiring before it is not modelled.) */
    method PostMakeNew(cls: string, withValues: Provided, obj: object)
      modifies this`singletons
      ensures singletons == if cls in old(singletons) then old(singletons)[cls := Some(obj)] else old(singletons)
    {
      if cls in singletons {
        singletons := singletons[cls := Some(obj)];
      }
    }

    /** `make`: the result is what `Expected` answers in the state the call started from.
        When that answer is to build, `built` is the new object: its constructor got the
        arguments its builder resolved (`resolved`, from what the recursive `make`s gave,
        `made`, and their answers) and it is stored in the builder's slot for its class. */
    method Make(cls: string, withValues: Provided, fuel: nat)
      returns (r: Option<object>, ghost built: Instance?, ghost resolved: seq<Value>,
               ghost made: seq<Value>, ghost answers: seq<Answer>)
      requires Valid()
      modifies Repr`singletons
      ensures singletons.Keys == old(singletons).Keys
      ensures Gives(old(Expected(cls, withValues)), ValueOf(r))
      ensures !old(Expected(cls, withValues)).Builds? ==>
                built == null && forall h :: h in Repr ==> h.singletons == old(h.singletons)
      ensures old(Expected(cls, withValues)).Builds? ==>
                var h, c := old(Expected(cls, withValues)).builder, old(Expected(cls, withValues)).built;
                h in Repr && c in h.classTable &&
                built != null && fresh(built) && r == Some(built as object) && built.cls == c &&
                h.ArgumentsFor(h.classTable[c], withValues, fuel, resolved, made, answers) &&
                built.args == PassArguments(h.classTable[c], resolved) &&
                (c in h.singletons ==> SlotObject(h.singletons, c) == Some(built as object))
      decreases fuel, Repr, 3
    {
      built := null;
      resolved, made, answers := [], [], [];
      ghost var own := OwnAnswer(cls, withValues);
      if leader != null {
        r, built, resolved, made, answers := leader.Make(cls, withValues, fuel);
        if r.Some? {
          return;
        }
      }
      assert old(Expected(cls, withValues)) == own;
      var c := MapClass(classMappings, cls);
      if c == ownClass && withValues == ArrayValues([]) {
        return Some(this), null, [], [], [];
      }
      if c in singletons && singletons[c] != None {
        return singletons[c], null, [], [], [];
      }
      if c in classTable {
        var obj: Instance;
        obj, resolved, made, answers := MakeNew(c, withValues, fuel);
        PostMakeNew(c, withValues, obj);
        built := obj;
        return Some(obj), built, resolved, made, answers;
      }
      r, built := None, null;
    }

    /** `callMethod`: a container with a leader hands the whole call over to it; the last
        container of the chain resolves the callable's parameters and calls it with them.
        The result is none when reflection cannot find the callable. */
    method CallMethod(objectOrMethod: Target, methodName: Option<string>, withValues: Provided, fuel: nat,
                      invoke: (Callable, Array<Value>) -> Value)
      returns (r: Option<Value>, ghost resolver: Injection, ghost resolved: seq<Value>, ghost made: seq<Value>,
               ghost answers: seq<Answer>)
      requires Valid()
      modifies Repr`singletons
      ensures resolver == Head()
      ensures leader != null ==> singletons == old(singletons)
      ensures r.None? <==> ToCall(objectOrMethod, methodName) !in methodTable
      ensures r.Some? ==>
                var params := methodTable[ToCall(objectOrMethod, methodName)];
                resolver.ArgumentsFor(params, withValues, fuel, resolved, made, answers) &&
                r.value == invoke(ToCall(objectOrMethod, methodName), PassArguments(params, resolved))
      decreases fuel, Repr, 4
    {
      if leader != null {
        r, resolver, resolved, made, answers := leader.CallMethod(objectOrMethod, methodName, withValues, fuel, invoke);
        return;
      }
      resolver := this;
      resolved, made, answers := [], [], [];
      var toCall := ToCall(objectOrMethod, methodName);
      if toCall !in methodTable {
        return None, resolver, resolved, made, answers;
      }
      var arguments: Array<Value>;
      arguments, resolved, made, answers := MakeArgumentsForMethod(methodTable[toCall], withValues, fuel);
      r := Some(invoke(toCall, arguments));
    }
  }

  /** Asking a container without a leader twice for a class that owns a singleton slot
      gives the identical object both times: the first `make` stores what it builds and
      the second finds it in the slot. */
  method SingletonIdentity(inj: Injection, cls: string, withValues: Provided, fuel: nat)
    returns (first: Option<object>, second: Option<object>)
    requires inj.Valid() && inj.leader == null
    requires MapClass(inj.classMappings, cls) in inj.singletons
    modifies inj.Repr`singletons
    ensures second == first
  {
    ghost var b: Instance?, res: seq<Value>, ms: seq<Value>, as_: seq<Answer>;
    first, b, res, ms, as_ := inj.Make(cls, withValues, fuel);
    second, b, res, ms, as_ := inj.Make(cls, withValues, fuel);
  }
}
