/** A session: the machine's state across a sequence of operator commands, as the
    interactive menu issues them (order a drink, or service the machine). The
    read-only menu entries and the exit entry change no state and are not commands here. */
module Session {
  import opened Containers
  import opened Recipes
  import opened CoffeeMachine

  /** An operator command that changes state. */
  datatype Command = Make(choice: nat) | Service

  /** What a command came to. */
  datatype Reply = Made(outcome: Outcome) | Serviced

  /** The state after a run of commands and the reply to each command. */
  datatype Trace = Trace(final: State, replies: seq<Reply>)

  /** One command against state `s`. */
  function Execute(s: State, recipes: seq<Recipe>, cmd: Command): (r: (State, Reply))
    ensures r.1.Serviced? <==> cmd.Service?
    ensures cmd.Service? ==> r.0 == Fresh()
    ensures Sound(s) ==> Sound(r.0)
  {
    match cmd
    case Make(choice) =>
      var step := OrderStep(s, recipes, choice);
      (step.next, Made(step.outcome))
    case Service => (Fresh(), Serviced)
  }

  /** Commands `cmds` run one after the other from state `s`. */
  function Run(s: State, recipes: seq<Recipe>, cmds: seq<Command>): (t: Trace)
    ensures |t.replies| == |cmds|
    decreases |cmds|
  {
    if cmds == [] then
      Trace(s, [])
    else
      var first := Execute(s, recipes, cmds[0]);
      var rest := Run(first.0, recipes, cmds[1..]);
      Trace(rest.final, [first.1] + rest.replies)
  }

  /** How many replies are fulfilled orders. */
  function Cups(replies: seq<Reply>): nat {
    if replies == [] then 0
    else (if replies[0].Made? && replies[0].outcome.Fulfilled? then 1 else 0) + Cups(replies[1..])
  }

  /** True when no command is a service. */
  predicate OrdersOnly(cmds: seq<Command>) {
    forall i | 0 <= i < |cmds| :: cmds[i].Make?
  }

  /** Running `a` then `b` is running `a + b`. */
  lemma {:induction false} RunAppend(s: State, recipes: seq<Recipe>, a: seq<Command>, b: seq<Command>)
    ensures Run(s, recipes, a + b).final == Run(Run(s, recipes, a).final, recipes, b).final
    ensures Run(s, recipes, a + b).replies == Run(s, recipes, a).replies + Run(Run(s, recipes, a).final, recipes, b).replies
    decreases |a|
  {
    if a == [] {
      assert a + b == b;
    } else {
      var first := Execute(s, recipes, a[0]);
      assert (a + b)[0] == a[0];
      assert (a + b)[1..] == a[1..] + b;
      RunAppend(first.0, recipes, a[1..], b);
      var mid := Run(s, recipes, a).final;
      assert Run(s, recipes, a + b).replies
          == [first.1] + Run(first.0, recipes, a[1..] + b).replies
          == [first.1] + (Run(first.0, recipes, a[1..]).replies + Run(mid, recipes, b).replies);
    }
  }

  /** A run is its first command followed by the rest. */
  lemma RunCons(s: State, recipes: seq<Recipe>, cmd: Command, rest: seq<Command>)
    ensures Run(s, recipes, [cmd] + rest)
         == Trace(Run(Execute(s, recipes, cmd).0, recipes, rest).final,
                  [Execute(s, recipes, cmd).1] + Run(Execute(s, recipes, cmd).0, recipes, rest).replies)
  {
    assert ([cmd] + rest)[1..] == rest;
  }

  /** Every run from a sound state ends in a sound state: stock never goes
      negative and the waste bin never holds a negative amount. */
  lemma {:induction false} RunKeepsSound(s: State, recipes: seq<Recipe>, cmds: seq<Command>)
    requires Sound(s)
    ensures Sound(Run(s, recipes, cmds).final)
    decreases |cmds|
  {
    if cmds != [] {
      RunKeepsSound(Execute(s, recipes, cmds[0]).0, recipes, cmds[1..]);
    }
  }

  /** Without a service, coffee only moves from the coffee container to the waste
      bin: their sum stays the same, given no recipe has a negative coffee amount. */
  lemma {:induction false} CoffeeConserved(s: State, recipes: seq<Recipe>, cmds: seq<Command>)
    requires forall r | r in recipes :: r.ingredients.coffee >= 0.0
    requires OrdersOnly(cmds)
    ensures Run(s, recipes, cmds).final.stock.coffee + Run(s, recipes, cmds).final.waste.coffeeGrounds
         == s.stock.coffee + s.waste.coffeeGrounds
    decreases |cmds|
  {
    if cmds != [] {
      var step := OrderStep(s, recipes, cmds[0].choice);
      if step.outcome.Fulfilled? {
        assert recipes[cmds[0].choice - 1] in recipes;
      }
      CoffeeConserved(step.next, recipes, cmds[1..]);
    }
  }

  /** Counting cups over a reply followed by more replies. */
  lemma CupsCons(reply: Reply, rest: seq<Reply>)
    ensures Cups([reply] + rest) == (if reply.Made? && reply.outcome.Fulfilled? then 1 else 0) + Cups(rest)
  {
    assert ([reply] + rest)[1..] == rest;
  }

  /** Without a service, on a catalog whose recipes each use 30 coffee (as the
      built-in one does), the waste bin grows by exactly 30 per fulfilled order. */
  lemma {:induction false} WastePerCup(s: State, recipes: seq<Recipe>, cmds: seq<Command>)
    requires forall r | r in recipes :: r.ingredients.coffee == 30.0
    requires OrdersOnly(cmds)
    ensures Run(s, recipes, cmds).final.waste.coffeeGrounds
         == s.waste.coffeeGrounds + 30.0 * (Cups(Run(s, recipes, cmds).replies) as real)
    decreases |cmds|
  {
    if cmds != [] {
      var step := OrderStep(s, recipes, cmds[0].choice);
      var rest := Run(step.next, recipes, cmds[1..]);
      WastePerCup(step.next, recipes, cmds[1..]);
      CupsCons(Made(step.outcome), rest.replies);
      if step.outcome.Fulfilled? {
        assert recipes[cmds[0].choice - 1] in recipes;
      }
    }
  }

  /** The built-in catalog: each fulfilled order adds exactly 30 to the waste bin. */
  lemma CatalogWastePerCup(s: State, cmds: seq<Command>)
    requires OrdersOnly(cmds)
    ensures Run(s, Catalog(), cmds).final.waste.coffeeGrounds
         == s.waste.coffeeGrounds + 30.0 * (Cups(Run(s, Catalog(), cmds).replies) as real)
  {
    WastePerCup(s, Catalog(), cmds);
  }

  /** Once an order is refused for want of stock, repeating it keeps being refused
      and changes nothing, however often it is repeated. */
  lemma {:induction false} RefusalPersists(s: State, recipes: seq<Recipe>, choice: nat, n: nat)
    requires OrderStep(s, recipes, choice).outcome == Insufficient
    ensures Run(s, recipes, seq(n, _ => Make(choice))) == Trace(s, seq(n, _ => Made(Insufficient)))
    decreases n
  {
    if n > 0 {
      var cmds := seq(n, _ => Make(choice));
      assert cmds[0] == Make(choice);
      assert cmds[1..] == seq(n - 1, _ => Make(choice));
      RefusalPersists(s, recipes, choice, n - 1);
      assert [Made(Insufficient)] + seq(n - 1, _ => Made(Insufficient)) == seq(n, _ => Made(Insufficient));
    }
  }

  /** A service forgets everything before it: what follows runs as on a new machine. */
  lemma ServiceForgetsHistory(s: State, recipes: seq<Recipe>, before: seq<Command>, after: seq<Command>)
    ensures Run(s, recipes, before + [Service] + after).final == Run(Fresh(), recipes, after).final
  {
    RunAppend(s, recipes, before + [Service], after);
    RunAppend(s, recipes, before, [Service]);
  }

  /** A menu whose entry 1 is the catalog's Espresso: 30 water and 30 coffee, nothing else. */
  predicate EspressoFirst(recipes: seq<Recipe>) {
    |recipes| >= 1 && recipes[0] == Recipe("Espresso", Ingredients(30.0, 30.0, 0.0, 0.0, 0.0))
  }

  /** An espresso (menu entry 1) from any state holding at least 30 water and 30
      coffee and no negative milk, sugar or cacao: fulfilled, 30 water and 30 coffee
      used, 30 grounds added, nothing else touched. */
  lemma EspressoStep(s: State, recipes: seq<Recipe>)
    requires EspressoFirst(recipes)
    requires s.stock.water >= 30.0 && s.stock.coffee >= 30.0
    requires s.stock.milk >= 0.0 && s.stock.sugar >= 0.0 && s.stock.cacao >= 0.0
    ensures OrderStep(s, recipes, 1)
         == Step(State(s.stock.(water := s.stock.water - 30.0, coffee := s.stock.coffee - 30.0),
                       Garbage(s.waste.coffeeGrounds + 30.0)),
                 Fulfilled("Espresso"))
  {
    assert NonNegative(Subtract(s.stock, recipes[0].ingredients));
  }

  /** An espresso cannot be made while less than 30 coffee is left; nothing changes. */
  lemma EspressoRefused(s: State, recipes: seq<Recipe>)
    requires EspressoFirst(recipes)
    requires s.stock.coffee < 30.0
    ensures OrderStep(s, recipes, 1) == Step(s, Insufficient)
  {
    assert !NonNegative(Subtract(s.stock, recipes[0].ingredients));
  }

  /** One espresso from full containers: 30 water and 30 coffee used, 30 more grounds in the bin. */
  lemma EspressoFromFresh(s: State)
    requires s.stock == Full()
    ensures OrderStep(s, Catalog(), 1)
         == Step(State(Ingredients(70.0, 70.0, 100.0, 100.0, 100.0), Garbage(s.waste.coffeeGrounds + 30.0)),
                 Fulfilled("Espresso"))
  {
    EspressoStep(s, Catalog());
  }

  /** Repeated espresso orders: from a state whose coffee container holds enough for
      exactly `n` cups (the water container at least as much, and no negative milk,
      sugar or cacao), the first `n` of `n + 1` Espresso orders on a menu led by
      Espresso are fulfilled and the last is refused. */
  lemma {:induction false} EspressoDepletion(s: State, recipes: seq<Recipe>, n: nat)
    requires EspressoFirst(recipes)
    requires s.stock.milk >= 0.0 && s.stock.sugar >= 0.0 && s.stock.cacao >= 0.0
    requires s.stock.water >= 30.0 * (n as real)
    requires 30.0 * (n as real) <= s.stock.coffee < 30.0 * (n as real) + 30.0
    ensures Run(s, recipes, seq(n + 1, _ => Make(1)))
         == Trace(State(s.stock.(water := s.stock.water - 30.0 * (n as real),
                                 coffee := s.stock.coffee - 30.0 * (n as real)),
                        Garbage(s.waste.coffeeGrounds + 30.0 * (n as real))),
                  seq(n, _ => Made(Fulfilled("Espresso"))) + [Made(Insufficient)])
    decreases n
  {
    var cmds := seq(n + 1, _ => Make(1));
    assert cmds == [Make(1)] + seq(n, _ => Make(1));
    if n == 0 {
      EspressoRefused(s, recipes);
      RunCons(s, recipes, Make(1), []);
    } else {
      EspressoStep(s, recipes);
      var next := OrderStep(s, recipes, 1).next;
      EspressoDepletion(next, recipes, n - 1);
      RunCons(s, recipes, Make(1), seq(n, _ => Make(1)));
      assert seq(n, _ => Made(Fulfilled("Espresso")))
          == [Made(Fulfilled("Espresso"))] + seq(n - 1, _ => Made(Fulfilled("Espresso")));
    }
  }

  /** Espresso after espresso from full containers: three cups, then the coffee
      container (10 left) no longer covers a fourth. */
  lemma RepeatedEspresso(s: State)
    requires s.stock == Full()
    ensures Run(s, Catalog(), [Make(1), Make(1), Make(1), Make(1)])
         == Trace(State(Ingredients(10.0, 10.0, 100.0, 100.0, 100.0), Garbage(s.waste.coffeeGrounds + 90.0)),
                  [Made(Fulfilled("Espresso")), Made(Fulfilled("Espresso")), Made(Fulfilled("Espresso")),
                   Made(Insufficient)])
  {
    FourCups();
    EspressoDepletion(s, Catalog(), 3);
  }

  /** The command and reply sequences of `RepeatedEspresso`, written out. */
  lemma FourCups()
    ensures seq(4, _ => Make(1)) == [Make(1), Make(1), Make(1), Make(1)]
    ensures seq(3, _ => Made(Fulfilled("Espresso"))) + [Made(Insufficient)]
         == [Made(Fulfilled("Espresso")), Made(Fulfilled("Espresso")), Made(Fulfilled("Espresso")),
             Made(Insufficient)]
  {
  }
}
