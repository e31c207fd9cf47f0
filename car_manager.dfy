/** command/example01.js: the `carManager` receiver and the dispatcher
    `carManager.execute(name, ...args)` attached to it. */
module CarManager {
  import opened Wrappers
  import opened TemplateLiteral
  import SalesControl

  /** The template of carManager's requestInfo (command/example01.js:3). */
  const RequestInfoTemplate: Template :=
    [Text("The information for "), Model, Text(" with ID "), Id, Text(" is foobar")]

  /** The template of carManager's buyVehicle (command/example01.js:6). */
  const BuyVehicleTemplate: Template :=
    [Text("You have successfully purchased Item "), Id, Text(" , a "), Model]

  /** The template of carManager's arrangeViewing (command/example01.js:9). */
  const ArrangeViewingTemplate: Template :=
    [Text("You have successfully booked a viewing of "), Model, Text(" ("), Id, Text(")")]

  /** The three operations the `carManager` object literal declares. */
  const Operations: SalesControl.Receiver := map[
    "requestInfo" := RequestInfoTemplate,
    "buyVehicle" := BuyVehicleTemplate,
    "arrangeViewing" := ArrangeViewingTemplate
  ]

  /** The key under which the dispatcher itself is stored on `carManager`. */
  const ExecuteKey: string := "execute"

  /** The requestInfo template evaluated piece by piece. */
  lemma RequestInfoRendered(model: string, id: string)
    ensures Render(RequestInfoTemplate, model, id)
      == "The information for " + model + " with ID " + id + " is foobar"
  {
    RenderCons(Text("The information for "), [Model, Text(" with ID "), Id, Text(" is foobar")], model, id);
    RenderCons(Model, [Text(" with ID "), Id, Text(" is foobar")], model, id);
    RenderCons(Text(" with ID "), [Id, Text(" is foobar")], model, id);
    RenderCons(Id, [Text(" is foobar")], model, id);
    RenderSingle(Text(" is foobar"), model, id);
  }

  /** The buyVehicle template evaluated piece by piece. */
  lemma BuyVehicleRendered(model: string, id: string)
    ensures Render(BuyVehicleTemplate, model, id)
      == "You have successfully purchased Item " + id + " , a " + model
  {
    RenderCons(Text("You have successfully purchased Item "), [Id, Text(" , a "), Model], model, id);
    RenderCons(Id, [Text(" , a "), Model], model, id);
    RenderCons(Text(" , a "), [Model], model, id);
    RenderSingle(Model, model, id);
  }

  /** Requests information about a car. */
  function RequestInfo(model: string, id: string): (r: string)
    ensures r == "The information for " + model + " with ID " + id + " is foobar"
  {
    RequestInfoRendered(model, id);
    Render(RequestInfoTemplate, model, id)
  }

  /** Buys a car; the id comes before the model in the message. */
  function BuyVehicle(model: string, id: string): (r: string)
    ensures r == "You have successfully purchased Item " + id + " , a " + model
  {
    BuyVehicleRendered(model, id);
    Render(BuyVehicleTemplate, model, id)
  }

  /** Arranges a viewing of a car. Its template is TeslaSalesControl's. */
  function ArrangeViewing(model: string, id: string): (r: string)
    ensures r == "You have successfully booked a viewing of " + model + " (" + id + ")"
  {
    SalesControl.ArrangeViewingRendered(model, id);
    Render(ArrangeViewingTemplate, model, id)
  }

  /** `carManager.execute(name, ...args)`. A declared operation is applied to
      the arguments in order. `execute` is itself a key of `carManager`, so
      naming it dispatches again on the remaining arguments; with no argument
      left the name is `undefined`, which is no key. Any other name yields
      `undefined` and raises nothing, for the own keys this model looks up;
      inherited names are outside it (for `__proto__` JavaScript would raise
      a TypeError, since the object it finds has no `apply`). */
  function Execute(name: string, args: seq<string>): (r: Option<string>)
    decreases |args|
    ensures name != ExecuteKey ==> r == SalesControl.Execute(Operations, SalesControl.Command(name, args))
  {
    if name in Operations then Some(Call(Operations[name], args))
    else if name == ExecuteKey then
      if args == [] then None else Execute(args[0], args[1..])
    else None
  }

  /** Dispatching on `carManager`, name by name: a declared operation is
      applied to the first two arguments (a missing one reads "undefined"),
      `execute` with nothing to dispatch yields `undefined`, and so does a name
      that is neither an operation nor `execute`. */
  lemma CarManagerDispatch(name: string, args: seq<string>)
    ensures name == "requestInfo" ==> Execute(name, args) == Some(RequestInfo(Arg(args, 0), Arg(args, 1)))
    ensures name == "buyVehicle" ==> Execute(name, args) == Some(BuyVehicle(Arg(args, 0), Arg(args, 1)))
    ensures name == "arrangeViewing" ==> Execute(name, args) == Some(ArrangeViewing(Arg(args, 0), Arg(args, 1)))
    ensures name == ExecuteKey && args == [] ==> Execute(name, args) == None
    ensures name !in {"requestInfo", "buyVehicle", "arrangeViewing", ExecuteKey} ==> Execute(name, args) == None
  {
  }

  /** The `n`-fold repetition of the dispatcher's own name. */
  function Repeat(n: nat): seq<string>
  {
    seq(n, _ => ExecuteKey)
  }

  /** However many times `execute` names itself, the call ends up in the same
      dispatch as the innermost name with the remaining arguments. */
  lemma {:induction false} ExecuteSelfTransparent(n: nat, name: string, args: seq<string>)
    ensures Execute(ExecuteKey, Repeat(n) + [name] + args) == Execute(name, args)
  {
    var all := Repeat(n) + [name] + args;
    assert all[0] == if n == 0 then name else ExecuteKey;
    if n == 0 {
      assert all[1..] == args;
    } else {
      assert all[1..] == Repeat(n - 1) + [name] + args;
      ExecuteSelfTransparent(n - 1, name, args);
    }
  }

  /** `carManager.arrangeViewing` and `TeslaSalesControl.arrangeViewing` are
      the same template, so they give the same string for every input. */
  lemma ArrangeViewingShared(model: string, id: string)
    ensures Operations["arrangeViewing"] == SalesControl.TeslaSalesControl["arrangeViewing"]
    ensures ArrangeViewing(model, id) == SalesControl.ArrangeViewing(model, id)
  {
  }

  /** `carManager.execute('arrangeViewing', 'Ferrari', '14523')` */
  lemma ExampleArrangeViewing()
    ensures Execute("arrangeViewing", ["Ferrari", "14523"])
      == Some("You have successfully booked a viewing of Ferrari (14523)")
  {
    var args := ["Ferrari", "14523"];
    assert Execute("arrangeViewing", args) == Some(ArrangeViewing("Ferrari", "14523")) by {
      CarManagerDispatch("arrangeViewing", args);
      assert Arg(args, 0) == "Ferrari" && Arg(args, 1) == "14523";
    }
    FerrariViewingMessage();
  }

  /** The viewing message for the Ferrari with id 14523, spelled out. */
  lemma FerrariViewingMessage()
    ensures ArrangeViewing("Ferrari", "14523") == "You have successfully booked a viewing of Ferrari (14523)"
  {
    var model, id := "Ferrari", "14523";
    assert ArrangeViewing(model, id) == "You have successfully booked a viewing of " + model + " (" + id + ")";
  }

  /** `carManager.execute('nonexistentAction', 'X', '1')` yields `undefined`. */
  lemma ExampleUnknownAction()
    ensures Execute("nonexistentAction", ["X", "1"]) == None
  {
    CarManagerDispatch("nonexistentAction", ["X", "1"]);
  }
}
