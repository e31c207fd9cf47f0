/** command/example02.js: the `TeslaSalesControl` receiver and the generic
    `execute(receiver, command)` dispatcher that takes a command record. */
module SalesControl {
  import opened Wrappers
  import opened TemplateLiteral

  /** A receiver: its operations keyed by name. Every operation is an arrow
      `(model, id) => `...``, so it is given by its template literal. */
  type Receiver = map<string, Template>

  /** A deferred invocation: the name of an action and its positional parameters. */
  datatype Command = Command(action: string, params: seq<string>)

  /** The template of TeslaSalesControl's requestInfo (command/example02.js:8). */
  const RequestInfoTemplate: Template := [Model, Text(" with id: "), Id]

  /** The template of TeslaSalesControl's buyVehicle (command/example02.js:15). */
  const BuyVehicleTemplate: Template := [Text("You purchased "), Model, Text(" with id: "), Id]

  /** The template of TeslaSalesControl's arrangeViewing (command/example02.js:22). */
  const ArrangeViewingTemplate: Template :=
    [Text("You have successfully booked a viewing of "), Model, Text(" ("), Id, Text(")")]

  /** The receiver object `TeslaSalesControl` and its three own operations. */
  const TeslaSalesControl: Receiver := map[
    "requestInfo" := RequestInfoTemplate,
    "buyVehicle" := BuyVehicleTemplate,
    "arrangeViewing" := ArrangeViewingTemplate
  ]

  /** The requestInfo template evaluated piece by piece. */
  lemma RequestInfoRendered(model: string, id: string)
    ensures Render(RequestInfoTemplate, model, id) == model + " with id: " + id
  {
    RenderCons(Model, [Text(" with id: "), Id], model, id);
    RenderCons(Text(" with id: "), [Id], model, id);
    RenderSingle(Id, model, id);
  }

  /** The buyVehicle template evaluated piece by piece; its tail is the requestInfo template. */
  lemma BuyVehicleRendered(model: string, id: string)
    ensures Render(BuyVehicleTemplate, model, id) == "You purchased " + model + " with id: " + id
  {
    RenderCons(Text("You purchased "), RequestInfoTemplate, model, id);
    RequestInfoRendered(model, id);
  }

  /** The arrangeViewing template evaluated piece by piece. */
  lemma ArrangeViewingRendered(model: string, id: string)
    ensures Render(ArrangeViewingTemplate, model, id)
      == "You have successfully booked a viewing of " + model + " (" + id + ")"
  {
    RenderCons(Text("You have successfully booked a viewing of "), [Model, Text(" ("), Id, Text(")")], model, id);
    RenderCons(Model, [Text(" ("), Id, Text(")")], model, id);
    RenderCons(Text(" ("), [Id, Text(")")], model, id);
    RenderCons(Id, [Text(")")], model, id);
    RenderSingle(Text(")"), model, id);
  }

  /** Requests information about a car. */
  function RequestInfo(model: string, id: string): (r: string)
    ensures r == model + " with id: " + id
  {
    RequestInfoRendered(model, id);
    Render(RequestInfoTemplate, model, id)
  }

  /** Buys a car. */
  function BuyVehicle(model: string, id: string): (r: string)
    ensures r == "You purchased " + model + " with id: " + id
  {
    BuyVehicleRendered(model, id);
    Render(BuyVehicleTemplate, model, id)
  }

  /** Arranges a viewing of a car. */
  function ArrangeViewing(model: string, id: string): (r: string)
    ensures r == "You have successfully booked a viewing of " + model + " (" + id + ")"
  {
    ArrangeViewingRendered(model, id);
    Render(ArrangeViewingTemplate, model, id)
  }

  /** The generic dispatcher: looks the action up among the receiver's own
      operations and, when it is there, applies it to the parameters in order;
      otherwise it yields `undefined` and raises nothing. Names inherited from
      the prototype chain are outside this model: JavaScript would call those
      (possibly getting a non-string back) or, for `__proto__`, raise a
      TypeError. */
  function Execute(receiver: Receiver, command: Command): (r: Option<string>)
    ensures r.Some? <==> command.action in receiver
    ensures command.action in receiver && |command.params| >= 2 ==>
      r.value == Render(receiver[command.action], command.params[0], command.params[1])
    ensures command.action in receiver && |command.params| < 2 ==>
      r.value == Render(receiver[command.action], Arg(command.params, 0), "undefined")
  {
    if command.action in receiver then Some(Call(receiver[command.action], command.params)) else None
  }

  /** Dispatching on `TeslaSalesControl`, action by action: a known action is
      the matching operation applied to the first two parameters (a missing
      one reads "undefined"), and any other name yields `undefined`. */
  lemma TeslaDispatch(command: Command)
    ensures command.action == "requestInfo" ==>
      Execute(TeslaSalesControl, command) == Some(RequestInfo(Arg(command.params, 0), Arg(command.params, 1)))
    ensures command.action == "buyVehicle" ==>
      Execute(TeslaSalesControl, command) == Some(BuyVehicle(Arg(command.params, 0), Arg(command.params, 1)))
    ensures command.action == "arrangeViewing" ==>
      Execute(TeslaSalesControl, command) == Some(ArrangeViewing(Arg(command.params, 0), Arg(command.params, 1)))
    ensures command.action !in {"requestInfo", "buyVehicle", "arrangeViewing"} ==>
      Execute(TeslaSalesControl, command) == None
  {
  }

  /** `execute(TeslaSalesControl, {action: 'requestInfo', params: ['Ferrari', '14523']})` */
  lemma ExampleRequestInfo()
    ensures Execute(TeslaSalesControl, Command("requestInfo", ["Ferrari", "14523"])) == Some("Ferrari with id: 14523")
  {
    TeslaDispatch(Command("requestInfo", ["Ferrari", "14523"]));
    var params := ["Ferrari", "14523"];
    assert Arg(params, 0) == "Ferrari" && Arg(params, 1) == "14523";
    assert RequestInfo("Ferrari", "14523") == "Ferrari" + " with id: " + "14523" == "Ferrari with id: 14523";
  }

  /** `execute(TeslaSalesControl, {action: 'buyVehicle', params: ['TOYOTA', '2213']})` */
  lemma ExampleBuyVehicle()
    ensures Execute(TeslaSalesControl, Command("buyVehicle", ["TOYOTA", "2213"])) == Some("You purchased TOYOTA with id: 2213")
  {
    TeslaDispatch(Command("buyVehicle", ["TOYOTA", "2213"]));
    var params := ["TOYOTA", "2213"];
    assert Arg(params, 0) == "TOYOTA" && Arg(params, 1) == "2213";
    assert BuyVehicle("TOYOTA", "2213") == "You purchased " + "TOYOTA" + " with id: " + "2213"
      == "You purchased TOYOTA with id: 2213";
  }
}
