# Coffee machine inventory model

A Dafny model of the state machine at the heart of `rusty-coffeemachine`, an
interactive coffee machine. The machine owns five ingredient containers (water,
coffee, milk, sugar, cacao), a waste bin for spent coffee grounds, and a fixed
catalog of five recipes. An order names a menu entry, counted from 1. The machine
checks the stock against the recipe field by field. If the stock covers it, each
container loses the recipe's amount and the bin gains the coffee used. If not,
nothing changes. A service refills every container to 100 and empties the bin.

Files, one module each:

- `containers.dfy` (`Containers`): the `Ingredients` and `Garbage` records, as
  value datatypes.
- `recipes.dfy` (`Recipes`): `Recipe`, `NewRecipe` and `GetRecipes`, the constant
  five-entry catalog.
- `coffeemachine.dfy` (`CoffeeMachine`): class `Machine`. Its fields are
  `ingredients`, `garbage` and `recipes`, and its methods update them in place,
  as the source's `&mut self` methods do. The value-level specification beside
  it has two parts. `AfterUse` is the state after consuming a recipe.
  `OrderStep` is one order, with its outcome.
- `session.dfy` (`Session`): a run of operator commands (order or service)
  folded over the machine state. It carries the lemmas that need induction:
  soundness is preserved, coffee is conserved, waste is counted per cup, a
  refusal persists, a service forgets history, and stock depletes under repeated
  orders.

Amounts are exact `real`s. The source stores `f32`, but every amount it uses is a
whole number, so nothing is rounded. In the source, `make_coffee` prints its
result. The model returns an `Outcome` instead: `Fulfilled(name)`,
`Insufficient` or `InvalidIndex`.

An out-of-range choice changes no state. The source panics on it. For choice 0,
`choice - 1` panics in a debug build; in a release build it wraps around and the
wrapped index then panics. For a choice above the number of recipes, the index
panics in either build. The model returns
`InvalidIndex` with the state untouched and does not end the session.

## Model

| member | source | states |
|---|---|---|
| `CoffeeMachine.Machine.constructor` | src/coffeemachine.rs:15-29 | a new machine has all five containers at 100, an empty waste bin (0 grounds), and the built-in catalog as its recipe list |
| `CoffeeMachine.Machine.CheckIngredients` | src/coffeemachine.rs:136-142 | the per-field `>=` test holds exactly when taking the recipe out would leave no container negative; it only reads the machine |
| `CoffeeMachine.Machine.UseIngredients` | src/coffeemachine.rs:144-154 | the new state is `AfterUse` of the old state; the recipe list is unchanged |
| `CoffeeMachine.AfterUse` | src/coffeemachine.rs:144-154 | each of the five containers drops by exactly the recipe's amount; the bin grows by the coffee amount when it is > 0 and is untouched otherwise, even when water, milk, sugar or cacao were used; with non-negative coffee, coffee stock plus grounds is conserved |
| `CoffeeMachine.Machine.MakeCoffee` | src/coffeemachine.rs:124-134 | new state and outcome are those of `OrderStep` on the old state; a refused or invalid order leaves stock and waste unchanged; a fulfilled one leaves no container negative; the recipe list is never modified |
| `CoffeeMachine.OrderStep` | src/coffeemachine.rs:124-134 | `InvalidIndex` exactly when the choice is outside 1..number of recipes; fulfilled exactly when the choice is valid and the stock covers recipe `choice - 1`, and then it names that recipe and the state is `AfterUse`; otherwise the state is unchanged (refusal is atomic); a sound state stays sound |
| `CoffeeMachine.Machine.TakeService` | src/coffeemachine.rs:156-163 | all five containers become 100 and the grounds 0 whatever the prior state, so servicing twice equals servicing once; the recipe list is unchanged |
| `Recipes.NewRecipe` | src/reciepes.rs:36-40 | always succeeds, and the recipe keeps the given name and amounts unchanged |
| `Recipes.GetRecipes` | src/reciepes.rs:57-111 | always succeeds with exactly five recipes, Espresso, Americano, Cappuccino, Latte and Mocha, in that order. All need 30 water and 30 coffee. Milk is 0, 0, 30, 50 and 30. Sugar and cacao are 0 except Mocha's 30 and 30 |
| `Recipes.Catalog` | src/reciepes.rs:57-111 | the catalog a machine holds is the value the catalog constructor succeeds with. It has five recipes, and the first is Espresso with 30 water and 30 coffee only. Every amount fits in a full container (0..100), and every recipe uses exactly 30 coffee, so none is free of coffee |
| `Session.Execute` | src/coffeemachine.rs:53-70 | one dispatch of the menu's "make coffee" or "service" entry: only a service gives the service reply, and it always leaves a new machine's state; either command keeps a sound state sound |
| `Session.Run` | src/coffeemachine.rs:48-81 | a run of order/service commands, as the menu loop dispatches them, gives one reply per command |
| `Session.RunKeepsSound` | src/coffeemachine.rs:124-134 | from a state with no negative container and non-negative waste, every run of orders and services ends in such a state (stock never goes negative) |
| `Session.CoffeeConserved` | src/coffeemachine.rs:144-154 | without a service, coffee stock plus grounds stays constant over any run of orders, when no recipe has a negative coffee amount |
| `Session.WastePerCup` | src/coffeemachine.rs:151-153 | without a service, when every recipe uses 30 coffee, the bin grows by exactly 30 per fulfilled order |
| `Session.CatalogWastePerCup` | src/reciepes.rs:57-111 | on the built-in catalog, each fulfilled order adds exactly 30 grounds |
| `Session.RefusalPersists` | src/coffeemachine.rs:126-133 | once an order is refused for lack of stock, repeating it any number of times is refused every time and changes nothing |
| `Session.ServiceForgetsHistory` | src/coffeemachine.rs:156-163 | whatever commands came before a service, the run after it ends as on a new machine |
| `Session.EspressoStep` | src/coffeemachine.rs:124-134 | on a menu whose entry 1 is the catalog's Espresso, from any state with at least 30 water and 30 coffee and no negative milk, sugar or cacao, entry 1 is a fulfilled Espresso. It takes 30 water and 30 coffee, adds 30 grounds and touches nothing else |
| `Session.EspressoRefused` | src/coffeemachine.rs:124-134 | on a menu whose entry 1 is the catalog's Espresso, with less than 30 coffee, entry 1 is refused and the state is unchanged |
| `Session.EspressoFromFresh` | src/coffeemachine.rs:124-134 | from full containers, one Espresso leaves stock 70/70/100/100/100 and adds 30 grounds |
| `Session.EspressoDepletion` | src/coffeemachine.rs:124-134 | take a menu whose entry 1 is the catalog's Espresso, and a state with no negative milk, sugar or cacao, where the coffee container holds enough for exactly n cups and the water container at least as much. Then n+1 Espresso orders give n fulfilled cups followed by one refusal. Water and coffee drop by 30n and the grounds rise by 30n |
| `Session.RepeatedEspresso` | src/coffeemachine.rs:124-134 | from full containers, four Espresso orders are fulfilled three times and then refused. Stock ends at 10/10/100/100/100 and the grounds rise by 90 |

## Left out

- Terminal I/O is not modelled: `run`'s reading and parsing of input, the menu printers (`print_main_menu`, `print_menu`, `print_ingredients`, `print_garbage`, `print_line`), `start_up`, and the messages printed by `make_coffee`. `Session.Run` models only the state effect of the menu's "make coffee" and "service" entries. The inspect entries and the exit entry change no state.
- `draw_progress` and the progress bar are not modelled. They are a timed animation with no state.
- The panics are not modelled. The source panics on an out-of-range choice (on `choice - 1` for choice 0 in a debug build, otherwise on the vector index) and on unparsable input (`unwrap`). The model returns `InvalidIndex` for the first, with no state change. Parsing is outside the model.
- `f32` rounding and non-finite values are not modelled. Amounts are exact reals.
- The type mismatch at `src/coffeemachine.rs:27` is not modelled. `get_reciepes` returns a `Result`, but the machine's field holds the recipe list itself. The catalog is always built successfully, and the machine holds its value.
- The `?` that `src/main.rs:15` applies to `CoffeeMachine::new()` is not modelled. `new` returns the machine itself, not a `Result`, and `src/main.rs` is outside this model.
- `src/main.rs` and `src/lib.rs` are not part of this model. They hold only the entry point and re-exports.
