/** The earlier dispatcher of App.php: it keeps the registered controllers and, for each,
    the parameter names of its visible methods; it dispatches a request's `action` to the
    first controller that has a method of that name, fills the method's parameters from
    the request, and renders the method's data over the data of the global fetchers. */
module EarlyApp {
  import opened Php
  import PhpStrings

  /** A controller object, as reflection sees it: its class name and its public methods
      in declaration order, each with its parameter names in order. */
  datatype Controller = Controller(className: string, methods: Assoc<string, seq<string>>)

  /** The object a handler is called on: a registered controller, or the App itself. */
  datatype Target = ControllerTarget(controller: Controller) | AppTarget

  /** What `findHandler` returns: the object, the controller's name, the method's name and
      its parameter names. */
  datatype Handler = Handler(target: Target, controllerName: string, action: string, arguments: seq<string>)

  /** The call `run` makes on the views: `render($controllerName, $methodName, $allData)`. */
  datatype RenderCall = RenderCall(controllerName: string, methodName: string, data: Array<Value>)

  /** `isHiddenControllerMethod`: a method whose name starts with `_` is never dispatched. */
  predicate IsHidden(methodName: string) {
    |methodName| > 0 && methodName[0] == '_'
  }

  /** What `mapMethods` builds: each visible method's name mapped to its parameter names,
      in declaration order. */
  function MethodMap(methods: Assoc<string, seq<string>>): Assoc<string, seq<string>> {
    if methods == [] then []
    else
      var init := MethodMap(methods[..|methods| - 1]);
      var (name, params) := methods[|methods| - 1];
      if IsHidden(name) then init else Put(init, name, params)
  }

  /** The method map has exactly the visible method names as keys. */
  lemma {:induction false} MethodMapKeys(methods: Assoc<string, seq<string>>)
    ensures forall name :: name in KeysOf(MethodMap(methods)) <==> name in KeysOf(methods) && !IsHidden(name)
  {
    if methods != [] {
      var init := methods[..|methods| - 1];
      var (name, params) := methods[|methods| - 1];
      MethodMapKeys(init);
      assert methods == init + [(name, params)];
      KeysOfAppend(init, [(name, params)]);
      if !IsHidden(name) {
        KeysOfPut(MethodMap(init), name, params);
      }
    }
  }

  /** A visible method maps to its own parameter names when method names are distinct;
      a hidden one is not there. */
  lemma {:induction false} MethodMapParams(methods: Assoc<string, seq<string>>, i: nat)
    requires DistinctKeys(methods) && i < |methods|
    ensures IsHidden(methods[i].0) ==> Get(MethodMap(methods), methods[i].0).None?
    ensures !IsHidden(methods[i].0) ==> Get(MethodMap(methods), methods[i].0) == Some(methods[i].1)
  {
    var init := methods[..|methods| - 1];
    var (name, params) := methods[|methods| - 1];
    assert methods == init + [(name, params)];
    KeysOfAppend(init, [(name, params)]);
    KeysOfAt(methods, i);
    MethodMapKeys(methods);
    if i < |methods| - 1 {
      assert init[i] == methods[i];
      KeysOfAt(methods, |methods| - 1);
      assert KeysOf(methods)[i] != KeysOf(methods)[|methods| - 1];
      forall a, b | 0 <= a < b < |KeysOf(init)| ensures KeysOf(init)[a] != KeysOf(init)[b] {
        assert KeysOf(init)[a] == KeysOf(methods)[a] && KeysOf(init)[b] == KeysOf(methods)[b];
      }
      MethodMapParams(init, i);
      if !IsHidden(name) {
        GetPut(MethodMap(init), name, params, methods[i].0);
      }
    } else if !IsHidden(name) {
      GetPut(MethodMap(init), name, params, name);
    }
  }

  /** The position of the first controller, in registration order, whose method map has
      the action. */
  function FirstWith(tree: Assoc<string, Assoc<string, seq<string>>>, action: string): (r: Option<nat>)
    ensures r.Some? ==> r.value < |tree| && action in KeysOf(tree[r.value].1)
    ensures r.Some? ==> forall j :: 0 <= j < r.value ==> action !in KeysOf(tree[j].1)
    ensures r.None? ==> forall j :: 0 <= j < |tree| ==> action !in KeysOf(tree[j].1)
  {
    if tree == [] then None
    else if action in KeysOf(tree[0].1) then Some(0)
    else match FirstWith(tree[1..], action)
      case Some(i) => Some(i + 1)
      case None => None
  }

  /** The handler `findHandler` picks for an action, given the registered controllers and
      their method maps (registered under the same names). */
  function HandlerFor(controllers: Assoc<string, Controller>, tree: Assoc<string, Assoc<string, seq<string>>>,
                      action: string): Handler
    requires KeysOf(controllers) == KeysOf(tree)
  {
    match FirstWith(tree, action)
    case Some(i) =>
      KeysOfAt(tree, i);
      var name := tree[i].0;
      Handler(ControllerTarget(Get(controllers, name).value), name, action, Get(tree[i].1, action).value)
    case None => Handler(AppTarget, "App", if action == "index" then "index" else "notFound", [])
  }

  /** The action a request asks for: its `action` entry, `index` without one. */
  function RequestedAction(request: Array<string>): (action: string)
    ensures StrKey("action") !in KeysOf(request) ==> action == "index"
    ensures StrKey("action") in KeysOf(request) ==> Some(action) == Get(request, StrKey("action"))
  {
    match Get(request, StrKey("action"))
    case Some(a) => a
    case None => "index"
  }

  /** The first controller with a method of the action's name handles it, with that
      method's parameter names. */
  lemma FirstControllerHandles(controllers: Assoc<string, Controller>, tree: Assoc<string, Assoc<string, seq<string>>>,
                               action: string, i: nat)
    requires KeysOf(controllers) == KeysOf(tree)
    requires i < |tree| && action in KeysOf(tree[i].1)
    requires forall j :: 0 <= j < i ==> action !in KeysOf(tree[j].1)
    ensures var h := HandlerFor(controllers, tree, action);
            h.target.ControllerTarget? && Some(h.target.controller) == Get(controllers, tree[i].0) &&
            h.controllerName == tree[i].0 && h.action == action && Some(h.arguments) == Get(tree[i].1, action)
  {
    assert FirstWith(tree, action) == Some(i);
    KeysOfAt(tree, i);
  }

  /** An action no controller has falls back to the App's own `index` for `index`, and to
      its `notFound` otherwise, with no arguments. */
  lemma UnmatchedFallsBack(controllers: Assoc<string, Controller>, tree: Assoc<string, Assoc<string, seq<string>>>,
                           action: string)
    requires KeysOf(controllers) == KeysOf(tree)
    requires forall j :: 0 <= j < |tree| ==> action !in KeysOf(tree[j].1)
    ensures HandlerFor(controllers, tree, action) ==
              Handler(AppTarget, "App", if action == "index" then "index" else "notFound", [])
  {
    assert FirstWith(tree, action).None?;
  }

  /** When every method map was built by `mapMethods`, a hidden method is never
      dispatched: the App handles the request. */
  lemma HiddenNeverDispatched(controllers: Assoc<string, Controller>, tree: Assoc<string, Assoc<string, seq<string>>>,
                              action: string)
    requires KeysOf(controllers) == KeysOf(tree)
    requires forall j :: 0 <= j < |tree| ==> exists ms :: tree[j].1 == MethodMap(ms)
    requires IsHidden(action)
    ensures HandlerFor(controllers, tree, action).target == AppTarget
  {
    forall j | 0 <= j < |tree| ensures action !in KeysOf(tree[j].1) {
      var ms :| tree[j].1 == MethodMap(ms);
      MethodMapKeys(ms);
    }
    UnmatchedFallsBack(controllers, tree, action);
  }

  /** A parameter's value: the request's entry of that name, or `''`. */
  function Argument(request: Array<string>, name: string): (v: string)
    ensures StrKey(name) !in KeysOf(request) ==> v == ""
    ensures StrKey(name) in KeysOf(request) ==> Some(v) == Get(request, StrKey(name))
  {
    match Get(request, StrKey(name))
    case Some(v) => v
    case None => ""
  }

  /** The arguments `callHandler` passes: one per parameter name, in order. */
  function Pass(arguments: seq<string>, request: Array<string>): (pass: seq<string>)
  {
    seq(|arguments|, i requires 0 <= i < |arguments| => Argument(request, arguments[i]))
  }

  /** The data the global fetchers produce: one entry per fetcher name, in order, each the
      fetcher's result for the request. */
  function Fetched(fetchers: Array<Callback>, request: Array<string>, fetch: (Callback, Array<string>) -> Value): Array<Value> {
    seq(|fetchers|, i requires 0 <= i < |fetchers| => (fetchers[i].0, fetch(fetchers[i].1, request)))
  }

  /** `processGlobalFetchers` has exactly the fetchers' names as keys, each with its
      fetcher's result. */
  lemma FetchedEntries(fetchers: Array<Callback>, request: Array<string>, fetch: (Callback, Array<string>) -> Value, i: nat)
    requires i < |fetchers|
    ensures KeysOf(Fetched(fetchers, request, fetch)) == KeysOf(fetchers)
    ensures Fetched(fetchers, request, fetch)[i] == (fetchers[i].0, fetch(fetchers[i].1, request))
  {
    var f := Fetched(fetchers, request, fetch);
    forall j | 0 <= j < |fetchers| ensures KeysOf(f)[j] == KeysOf(fetchers)[j] {
      KeysOfAt(f, j);
      KeysOfAt(fetchers, j);
    }
  }

  class App {
    var controllers: Assoc<string, Controller>
    var methodTree: Assoc<string, Assoc<string, seq<string>>>
    var globalFetchers: Array<Callback>
    const controllerPath: string
    const registerControllersOnRun: bool

    /** Controllers and their method maps are registered under the same names, and the
        fetchers have distinct names. */
    predicate Valid()
      reads this
    {
      KeysOf(controllers) == KeysOf(methodTree) && DistinctKeys(globalFetchers)
    }

    constructor(controllerPath: string, globalFetchers: Array<Callback>, registerControllersOnRun: bool)
      requires DistinctKeys(globalFetchers)
      ensures Valid()
      ensures controllers == [] && methodTree == [] && this.globalFetchers == globalFetchers
      ensures this.controllerPath == controllerPath && this.registerControllersOnRun == registerControllersOnRun
    {
      controllers := [];
      methodTree := [];
      this.globalFetchers := globalFetchers;
      this.controllerPath := controllerPath;
      this.registerControllersOnRun := registerControllersOnRun;
    }

    /** `mapMethods`: the visible methods of the controller with their parameter names. */
    method MapMethods(controller: Controller) returns (methods: Assoc<string, seq<string>>)
      ensures methods == MethodMap(controller.methods)
    {
      methods := [];
      var i := 0;
      while i < |controller.methods|
        invariant 0 <= i <= |controller.methods|
        invariant methods == MethodMap(controller.methods[..i])
      {
        var (methodName, params) := controller.methods[i];
        assert controller.methods[..i + 1][..i] == controller.methods[..i];
        if !IsHidden(methodName) {
          methods := Put(methods, methodName, params);
        }
        i := i + 1;
      }
      assert controller.methods[..i] == controller.methods;
    }

    /** `registerController`: under the given name, or the class name when the name is
        missing or falsy; a name registered before is replaced in place. */
    method RegisterController(controller: Controller, name: Option<string>)
      requires Valid()
      modifies this`controllers, this`methodTree
      ensures Valid()
      ensures var n := if name.None? || !PhpStrings.Truthy(name.value) then controller.className else name.value;
              && controllers == Put(old(controllers), n, controller)
              && methodTree == Put(old(methodTree), n, MethodMap(controller.methods))
    {
      var n := if name.None? || !PhpStrings.Truthy(name.value) then controller.className else name.value;
      KeysOfPut(controllers, n, controller);
      controllers := Put(controllers, n, controller);
      var methods := MapMethods(controller);
      KeysOfPut(methodTree, n, methods);
      methodTree := Put(methodTree, n, methods);
    }

    /** `addGlobalFetcher`: a fetcher registered under a name used before replaces it. */
    method AddGlobalFetcher(name: string, fetcher: Callback)
      requires Valid()
      modifies this`globalFetchers
      ensures Valid()
      ensures globalFetchers == Put(old(globalFetchers), StrKey(name), fetcher)
    {
      PutKeepsDistinct(globalFetchers, StrKey(name), fetcher);
      globalFetchers := Put(globalFetchers, StrKey(name), fetcher);
    }

    /** `findHandler`: scans the controllers in registration order for the requested
        action. */
    method FindHandler(request: Array<string>) returns (h: Handler)
      requires Valid()
      ensures h == HandlerFor(controllers, methodTree, RequestedAction(request))
    {
      var action := RequestedAction(request);
      var i := 0;
      while i < |methodTree|
        invariant 0 <= i <= |methodTree|
        invariant forall j :: 0 <= j < i ==> action !in KeysOf(methodTree[j].1)
      {
        var (controllerName, methods) := methodTree[i];
        if action in KeysOf(methods) {
          FirstControllerHandles(controllers, methodTree, action, i);
          KeysOfAt(methodTree, i);
          h := Handler(ControllerTarget(Get(controllers, controllerName).value), controllerName, action, Get(methods, action).value);
          return;
        }
        i := i + 1;
      }
      UnmatchedFallsBack(controllers, methodTree, action);
      action := if action == "index" then "index" else "notFound";
      h := Handler(AppTarget, "App", action, []);
    }

    /** `callHandler`: calls the method with one argument per parameter name, taken from
        the request or `''`. The call itself is `invoke`. */
    method CallHandler(target: Target, methodName: string, arguments: seq<string>, request: Array<string>,
                       invoke: (Target, string, seq<string>) -> Array<Value>)
      returns (data: Array<Value>)
      ensures data == invoke(target, methodName, Pass(arguments, request))
    {
      var pass := [];
      var i := 0;
      while i < |arguments|
        invariant 0 <= i <= |arguments|
        invariant pass == Pass(arguments[..i], request)
      {
        var argument := arguments[i];
        pass := pass + [Argument(request, argument)];
        i := i + 1;
      }
      assert arguments[..i] == arguments;
      data := invoke(target, methodName, pass);
    }

    /** `processGlobalFetchers`: each fetcher's result for the request, under its name.
        Calling a fetcher is `fetch`. */
    method ProcessGlobalFetchers(request: Array<string>, fetch: (Callback, Array<string>) -> Value)
      returns (ret: Array<Value>)
      requires Valid()
      ensures ret == Fetched(globalFetchers, request, fetch)
    {
      ret := [];
      var i := 0;
      while i < |globalFetchers|
        invariant 0 <= i <= |globalFetchers|
        invariant ret == Fetched(globalFetchers[..i], request, fetch)
      {
        var (name, fetcher) := globalFetchers[i];
        assert name !in KeysOf(ret) by {
          KeysOfAt(globalFetchers, i);
          forall j | 0 <= j < i ensures KeysOf(ret)[j] != name {
            KeysOfAt(ret, j);
            KeysOfAt(globalFetchers, j);
          }
        }
        PutAbsent(ret, name, fetch(fetcher, request));
        ret := Put(ret, name, fetch(fetcher, request));
        assert globalFetchers[..i + 1] == globalFetchers[..i] + [globalFetchers[i]];
        i := i + 1;
      }
      assert globalFetchers[..i] == globalFetchers;
    }

    /** `run`, once the controllers are registered: finds the handler, calls it (the App's
        own `index` and `notFound` return no data), and renders its data over the global
        fetchers' data. */
    method Run(request: Array<string>, fetch: (Callback, Array<string>) -> Value,
               invoke: (Target, string, seq<string>) -> Array<Value>)
      returns (render: RenderCall)
      requires Valid()
      ensures var h := HandlerFor(controllers, methodTree, RequestedAction(request));
              var methodData := if h.target.AppTarget? then [] else invoke(h.target, h.action, Pass(h.arguments, request));
              render == RenderCall(h.controllerName, h.action, Merge(Fetched(globalFetchers, request, fetch), methodData))
    {
      var h := FindHandler(request);
      var methodData: Array<Value>;
      if h.target.AppTarget? {
        methodData := [];
      } else {
        methodData := CallHandler(h.target, h.action, h.arguments, request, invoke);
      }
      var globalData := ProcessGlobalFetchers(request, fetch);
      render := RenderCall(h.controllerName, h.action, Merge(globalData, methodData));
    }
  }
}
