/** The two record shapes the machine keeps: ingredient amounts and the waste bin. */
module Containers {

  /** Five ingredient amounts. The same shape is the machine's live stock and a
      recipe's requirement. The source stores f32; every amount it ever uses is a
      whole number, so exact reals model it without rounding. */
  datatype Ingredients = Ingredients(water: real, coffee: real, milk: real, sugar: real, cacao: real)

  /** The waste bin: spent coffee grounds collected since the last service. */
  datatype Garbage = Garbage(coffeeGrounds: real)

  /** What every ingredient container holds when it is full. */
  const Capacity: real := 100.0

  /** All five containers full. */
  function Full(): Ingredients {
    Ingredients(Capacity, Capacity, Capacity, Capacity, Capacity)
  }

  /** An emptied waste bin. */
  function Empty(): Garbage {
    Garbage(0.0)
  }

  /** No container holds a negative amount. */
  predicate NonNegative(i: Ingredients) {
    i.water >= 0.0 && i.coffee >= 0.0 && i.milk >= 0.0 && i.sugar >= 0.0 && i.cacao >= 0.0
  }

  /** Field-by-field difference `a - b`. */
  function Subtract(a: Ingredients, b: Ingredients): Ingredients {
    Ingredients(a.water - b.water, a.coffee - b.coffee, a.milk - b.milk, a.sugar - b.sugar, a.cacao - b.cacao)
  }
}
