# Command dispatch over car-sales receivers

A Dafny model of the two small JavaScript scripts that show the Command
pattern. Each script has a receiver, which is an object holding three
operations (`requestInfo`, `buyVehicle`, `arrangeViewing`), and a dispatcher
that looks up an operation by name and applies it to the arguments.

- `command/example02.js` has the receiver `TeslaSalesControl` and a generic
  `execute(receiver, command)`. It takes a command record `{action, params}`
  (module `SalesControl`, file `sales_control.dfy`).
- `command/example01.js` has the receiver `carManager` and
  `carManager.execute(name, ...args)`, which is attached to the receiver
  itself (module `CarManager`, file `car_manager.dfy`).

Every operation is an arrow `(model, id) => `...`` whose body is a single
template literal. The module `TemplateLiteral` (`template_literal.dfy`)
represents such a literal as a list of text pieces and `${model}` / `${id}`
substitutions, and evaluates it by concatenation. A receiver is a
`map<string, Template>` from operation names to operations. `Option`
(`wrappers.dfy`) is the dispatcher's result, and `None` plays the part of
`undefined`.

JavaScript's call semantics are modelled for string arguments:
- Arguments are bound in order.
- A missing argument is `undefined` and renders as the text "undefined".
- Extra arguments are ignored.

Dispatch is a function of values. It changes neither the receiver nor the
command, so the same command executed twice gives the same result by
construction.

In `example01.js`, the assignment on line 13 makes `execute` a key of
`carManager`. As a result, `execute('execute', n, ...rest)` dispatches again
as `execute(n, ...rest)`. With no argument left, the name is `undefined`,
which is not a key. The model includes this behaviour.

## Model

| member | source | states |
|---|---|---|
| `TemplateLiteral.RenderAppend` | command/example02.js:8-22 | evaluating a template literal distributes over concatenating its pieces, which turns each operation's template into its string |
| `SalesControl.RequestInfo` | command/example02.js:8 | the result is `model + " with id: " + id` |
| `SalesControl.BuyVehicle` | command/example02.js:15 | the result is `"You purchased " + model + " with id: " + id` |
| `SalesControl.ArrangeViewing` | command/example02.js:22 | the result is `"You have successfully booked a viewing of " + model + " (" + id + ")"` |
| `SalesControl.Execute` | command/example02.js:31-33 | there is a result exactly when the action is a key of the receiver; the result is that operation applied to `params[0]`, `params[1]` in order, and a missing second parameter reads "undefined"; an action that is not an own key gives `None` and raises nothing |
| `SalesControl.TeslaDispatch` | command/example02.js:2-33 | on `TeslaSalesControl`, each of the three action names gives its operation applied to the first two parameters, and every other name gives `None` |
| `SalesControl.ExampleRequestInfo` | command/example02.js:36-41 | `{action: 'requestInfo', params: ['Ferrari', '14523']}` gives "Ferrari with id: 14523" |
| `SalesControl.ExampleBuyVehicle` | command/example02.js:44-49 | `{action: 'buyVehicle', params: ['TOYOTA', '2213']}` gives "You purchased TOYOTA with id: 2213" |
| `CarManager.RequestInfo` | command/example01.js:3 | the result is `"The information for " + model + " with ID " + id + " is foobar"` |
| `CarManager.BuyVehicle` | command/example01.js:6 | the result is `"You have successfully purchased Item " + id + " , a " + model`, with the id before the model |
| `CarManager.ArrangeViewing` | command/example01.js:9 | the result is `"You have successfully booked a viewing of " + model + " (" + id + ")"` |
| `CarManager.ArrangeViewingShared` | command/example01.js:9 | `carManager.arrangeViewing` and `TeslaSalesControl.arrangeViewing` are the same template and give the same string for every model and id |
| `CarManager.Execute` | command/example01.js:13-14 | for every name other than `execute`, the result equals the generic command dispatcher of example02.js on the `carManager` operations with the same name and arguments |
| `CarManager.CarManagerDispatch` | command/example01.js:1-14 | each of the three operation names gives that operation applied to the first two arguments in order; `execute` with no arguments and every other name give `None` |
| `CarManager.ExecuteSelfTransparent` | command/example01.js:13-14 | `execute` naming itself any number of times dispatches to the innermost name with the remaining arguments |
| `CarManager.ExampleArrangeViewing` | command/example01.js:16-17 | `execute('arrangeViewing', 'Ferrari', '14523')` gives "You have successfully booked a viewing of Ferrari (14523)" |
| `CarManager.ExampleUnknownAction` | command/example01.js:13-14 | `execute('nonexistentAction', 'X', '1')` gives `None` |

## Left out

- Printing with `console.log` (command/example01.js:16) is output for demonstration only and is not modelled.
- Lookup along the prototype chain is not modelled; the dispatchers look up only the receiver's own keys, and inherited names count as absent. In JavaScript, an inherited name such as `toString`, `hasOwnProperty` or `valueOf` would be called and could return a value that is not a string (a boolean, the receiver object). The name `__proto__` would raise a TypeError: in command/example02.js:32 the object it finds is not callable, and in command/example01.js:14 that object has no `apply`.
- SalesControl.Execute: "raises nothing" holds only for the own-key lookup the model uses; the inherited names above are not covered.
- CarManager.Execute: "raises nothing" holds only for the own-key lookup the model uses; the inherited names above are not covered.
- Arguments are strings only. JavaScript would stringify values of other types inside the template, and a non-string `action` would be converted to a property key; neither is modelled.
- Receivers are limited to objects whose operations are two-parameter arrows returning one template literal, which covers every receiver in the scripts. Members that are not functions, or are functions of other shapes, are not modelled.
- The `this` binding given by `.apply(carManager, ...)` (command/example01.js:14) is left out because no operation reads `this`.
