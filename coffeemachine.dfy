/** The coffee machine: its stock, its waste bin and its recipe list, and the
    operations that check, consume and refill them. */
module CoffeeMachine {
  import opened Containers
  import opened Recipes

  /** What an order comes to. The source prints the first two and panics on a
      choice outside the menu; the model returns `InvalidIndex` there instead. */
  datatype Outcome = Fulfilled(name: string) | Insufficient | InvalidIndex

  /** The machine's mutable part as a value: stock and waste. */
  datatype State = State(stock: Ingredients, waste: Garbage)

  /** One order: the state after it and what it came to. */
  datatype Step = Step(next: State, outcome: Outcome)

  /** A new or freshly serviced machine: every container full, the waste bin empty. */
  function Fresh(): State {
    State(Full(), Empty())
  }

  /** The rest-point invariant: no container negative, no negative waste. */
  predicate Sound(s: State) {
    NonNegative(s.stock) && s.waste.coffeeGrounds >= 0.0
  }

  /** The state after taking `need` out of the stock: each of the five containers
      loses exactly its amount, and the waste bin gains the coffee used, if any. */
  function AfterUse(s: State, need: Ingredients): (r: State)
    ensures Subtract(s.stock, r.stock) == need
    ensures need.coffee > 0.0 ==> r.waste.coffeeGrounds == s.waste.coffeeGrounds + need.coffee
    ensures need.coffee <= 0.0 ==> r.waste == s.waste
    ensures need.coffee >= 0.0 ==>
      r.stock.coffee + r.waste.coffeeGrounds == s.stock.coffee + s.waste.coffeeGrounds
  {
    State(Subtract(s.stock, need),
          if need.coffee > 0.0 then Garbage(s.waste.coffeeGrounds + need.coffee) else s.waste)
  }

  /** An order for menu entry `choice` (counted from 1) against state `s`. It is
      fulfilled exactly when the entry exists and taking its amounts out leaves no
      container negative; otherwise nothing changes. */
  function OrderStep(s: State, recipes: seq<Recipe>, choice: nat): (r: Step)
    ensures r.outcome == InvalidIndex <==> !(1 <= choice <= |recipes|)
    ensures r.outcome.Fulfilled? <==>
      1 <= choice <= |recipes| && NonNegative(Subtract(s.stock, recipes[choice - 1].ingredients))
    ensures r.outcome.Fulfilled? ==>
      1 <= choice <= |recipes| && r.outcome.name == recipes[choice - 1].name &&
      r.next == AfterUse(s, recipes[choice - 1].ingredients)
    ensures !r.outcome.Fulfilled? ==> r.next == s
    ensures r.outcome.Fulfilled? ==> NonNegative(r.next.stock)
    ensures Sound(s) ==> Sound(r.next)
  {
    if !(1 <= choice <= |recipes|) then
      Step(s, InvalidIndex)
    else
      var recipe := recipes[choice - 1];
      if NonNegative(Subtract(s.stock, recipe.ingredients)) then
        Step(AfterUse(s, recipe.ingredients), Fulfilled(recipe.name))
      else
        Step(s, Insufficient)
  }

  /** The machine object. It alone owns its stock and waste and updates them in place. */
  class Machine {
    var ingredients: Ingredients
    var garbage: Garbage
    var recipes: seq<Recipe>

    /** The mutable part of the machine as a value. */
    function Snapshot(): State
      reads this
    {
      State(ingredients, garbage)
    }

    /** A new machine: full containers, empty waste bin, the built-in catalog. */
    constructor ()
      ensures ingredients == Full() && garbage == Empty()
      ensures Sound(Snapshot())
      ensures recipes == Catalog()
    {
      ingredients := Ingredients(100.0, 100.0, 100.0, 100.0, 100.0);
      garbage := Garbage(0.0);
      recipes := GetRecipes().value;
    }

    /** Whether the stock covers `need`: exactly when taking `need` out would leave
        no container negative. Reads the state and changes nothing. */
    function CheckIngredients(need: Ingredients): (ok: bool)
      reads this
      ensures ok <==> NonNegative(Subtract(ingredients, need))
    {
      ingredients.water >= need.water
        && ingredients.coffee >= need.coffee
        && ingredients.milk >= need.milk
        && ingredients.sugar >= need.sugar
        && ingredients.cacao >= need.cacao
    }

    /** Takes `need` out of the stock; the waste bin gains the coffee used, if any. */
    method UseIngredients(need: Ingredients)
      modifies this
      ensures Snapshot() == AfterUse(old(Snapshot()), need)
      ensures recipes == old(recipes)
    {
      ingredients := ingredients.(water := ingredients.water - need.water);
      ingredients := ingredients.(coffee := ingredients.coffee - need.coffee);
      ingredients := ingredients.(milk := ingredients.milk - need.milk);
      ingredients := ingredients.(sugar := ingredients.sugar - need.sugar);
      ingredients := ingredients.(cacao := ingredients.cacao - need.cacao);

      if need.coffee > 0.0 {
        garbage := garbage.(coffeeGrounds := garbage.coffeeGrounds + need.coffee);
      }
    }

    /** Makes menu entry `choice` (counted from 1) if the stock covers it. The check
        comes before any change, so a refused order changes nothing. */
    method MakeCoffee(choice: nat) returns (outcome: Outcome)
      modifies this
      ensures Step(Snapshot(), outcome) == OrderStep(old(Snapshot()), old(recipes), choice)
      ensures !outcome.Fulfilled? ==> ingredients == old(ingredients) && garbage == old(garbage)
      ensures outcome.Fulfilled? ==> NonNegative(ingredients)
      ensures recipes == old(recipes)
    {
      if choice < 1 || choice > |recipes| {
        return InvalidIndex;
      }
      var recipe := recipes[choice - 1];
      if CheckIngredients(recipe.ingredients) {
        UseIngredients(recipe.ingredients);
        outcome := Fulfilled(recipe.name);
      } else {
        outcome := Insufficient;
      }
    }

    /** Refills every container and empties the waste bin, whatever the state was;
        so servicing twice leaves the same state as servicing once. */
    method TakeService()
      modifies this
      ensures ingredients == Full() && garbage == Empty()
      ensures Snapshot() == Fresh()
      ensures recipes == old(recipes)
    {
      ingredients := ingredients.(water := 100.0);
      ingredients := ingredients.(coffee := 100.0);
      ingredients := ingredients.(milk := 100.0);
      ingredients := ingredients.(sugar := 100.0);
      ingredients := ingredients.(cacao := 100.0);
      garbage := garbage.(coffeeGrounds := 0.0);
    }
  }
}
