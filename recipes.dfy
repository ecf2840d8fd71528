/** The fixed catalog of drinks the machine can make. */
module Recipes {
  import opened Containers

  /** A drink: its display name and the amounts one cup takes. */
  datatype Recipe = Recipe(name: string, ingredients: Ingredients)

  /** The fallible return type of the catalog constructors (an I/O error in the
      source, never produced by them). */
  datatype Result<T> = Ok(value: T) | Err(error: string)

  /** Builds one recipe; it keeps the name and the amounts as given and never fails. */
  function NewRecipe(name: string, ingredients: Ingredients): (r: Result<Recipe>)
    ensures r.Ok?
    ensures r.value.name == name && r.value.ingredients == ingredients
  {
    Ok(Recipe(name, ingredients))
  }

  /** The five built-in recipes, in menu order. Every one takes 30 water and 30 coffee;
      only the milk drinks take milk and only Mocha takes sugar and cacao. */
  function GetRecipes(): (r: Result<seq<Recipe>>)
    ensures r.Ok? && |r.value| == 5
    ensures [r.value[0].name, r.value[1].name, r.value[2].name, r.value[3].name, r.value[4].name]
         == ["Espresso", "Americano", "Cappuccino", "Latte", "Mocha"]
    ensures forall i | 0 <= i < 5 :: r.value[i].ingredients.water == 30.0 && r.value[i].ingredients.coffee == 30.0
    ensures [r.value[0].ingredients.milk, r.value[1].ingredients.milk, r.value[2].ingredients.milk,
             r.value[3].ingredients.milk, r.value[4].ingredients.milk] == [0.0, 0.0, 30.0, 50.0, 30.0]
    ensures forall i | 0 <= i < 4 :: r.value[i].ingredients.sugar == 0.0 && r.value[i].ingredients.cacao == 0.0
    ensures r.value[4].ingredients.sugar == 30.0 && r.value[4].ingredients.cacao == 30.0
  {
    var espresso := NewRecipe("Espresso", Ingredients(30.0, 30.0, 0.0, 0.0, 0.0));
    var americano := NewRecipe("Americano", Ingredients(30.0, 30.0, 0.0, 0.0, 0.0));
    var cappuccino := NewRecipe("Cappuccino", Ingredients(30.0, 30.0, 30.0, 0.0, 0.0));
    var latte := NewRecipe("Latte", Ingredients(30.0, 30.0, 50.0, 0.0, 0.0));
    var mocha := NewRecipe("Mocha", Ingredients(30.0, 30.0, 30.0, 30.0, 30.0));
    // Each `?` of the source propagates an error that NewRecipe never returns.
    Ok([espresso.value, americano.value, cappuccino.value, latte.value, mocha.value])
  }

  /** The catalog a machine is built with: the value `GetRecipes` always succeeds
      with. It has five recipes, Espresso first; every amount fits in a full
      container, and every recipe uses exactly 30 coffee. */
  function Catalog(): (c: seq<Recipe>)
    ensures GetRecipes() == Ok(c)
    ensures |c| == 5 && c[0] == Recipe("Espresso", Ingredients(30.0, 30.0, 0.0, 0.0, 0.0))
    ensures Sensible(c)
    ensures forall r | r in c :: r.ingredients.coffee == 30.0
  {
    var c := GetRecipes().value;
    assert Sensible(c) && forall r | r in c :: r.ingredients.coffee == 30.0 by {
      forall r | r in c
        ensures 0.0 <= r.ingredients.milk <= Capacity && r.ingredients.coffee == 30.0
        ensures r.ingredients.sugar == r.ingredients.cacao == 0.0 || r.ingredients.sugar == r.ingredients.cacao == 30.0
      {
        var i :| 0 <= i < 5 && c[i] == r;
        assert c[i].ingredients.milk in [0.0, 0.0, 30.0, 50.0, 30.0];
      }
    }
    c
  }

  /** Every amount of every recipe fits in a full container and every recipe uses coffee. */
  predicate Sensible(rs: seq<Recipe>) {
    forall r | r in rs ::
      0.0 <= r.ingredients.water <= Capacity && 0.0 <= r.ingredients.milk <= Capacity &&
      0.0 <= r.ingredients.sugar <= Capacity && 0.0 <= r.ingredients.cacao <= Capacity &&
      0.0 < r.ingredients.coffee <= Capacity
  }
}
