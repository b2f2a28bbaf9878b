/**
 `BurgerRecipe`: six validated fields and a constructor that assigns them in
 declaration order.
 */
module Burger {
  import opened Values
  import opened Validators
  import opened Descriptor
  import opened Construction

  const Sauces: seq<string> := ["ketchup", "mayo", "burger"]

  const BunsField: Field := Bind(Number(2, 3), "buns")
  const CheeseField: Field := Bind(Number(0, 2), "cheese")
  const TomatoesField: Field := Bind(Number(0, 3), "tomatoes")
  const CutletsField: Field := Bind(Number(1, 3), "cutlets")
  const EggsField: Field := Bind(Number(0, 2), "eggs")
  const SauceField: Field := Bind(OneOf(Sauces), "sauce")

  /** The fields in declaration order, which is also the constructor's
      assignment order. */
  const Schema: seq<Field> :=
    [BunsField, CheeseField, TomatoesField, CutletsField, EggsField, SauceField]

  /** The constructor's arguments in parameter order. */
  function Args(buns: Value, cheese: Value, tomatoes: Value, cutlets: Value, eggs: Value, sauce: Value): seq<Value> {
    [buns, cheese, tomatoes, cutlets, eggs, sauce]
  }

  /** The arguments a recipe accepts, stated with the configured bounds and
      sauces rather than through the validators. */
  predicate ValidRecipe(buns: Value, cheese: Value, tomatoes: Value, cutlets: Value, eggs: Value, sauce: Value) {
    && IsInt(buns) && 2 <= AsInt(buns) <= 3
    && IsInt(cheese) && 0 <= AsInt(cheese) <= 2
    && IsInt(tomatoes) && 0 <= AsInt(tomatoes) <= 3
    && IsInt(cutlets) && 1 <= AsInt(cutlets) <= 3
    && IsInt(eggs) && 0 <= AsInt(eggs) <= 2
    && (sauce == Str("ketchup") || sauce == Str("mayo") || sauce == Str("burger"))
  }

  /** The six public names map to six distinct slots, none of which is
      itself a validated attribute name. */
  lemma SchemaKeysDistinct()
    ensures DistinctKeys(Schema)
    ensures Unshadowed(Schema)
    ensures KeysUpTo(Schema, 6) == {"_buns", "_cheese", "_tomatoes", "_cutlets", "_eggs", "_sauce"}
  {
    assert Schema[0].key == "_buns";
    assert Schema[1].key == "_cheese";
    assert Schema[2].key == "_tomatoes";
    assert Schema[3].key == "_cutlets";
    assert Schema[4].key == "_eggs";
    assert Schema[5].key == "_sauce";
  }

  /** Every argument passing its own field's validator is the same as the
      recipe being valid. */
  lemma AllAcceptedIffValid(buns: Value, cheese: Value, tomatoes: Value, cutlets: Value, eggs: Value, sauce: Value)
    ensures FirstRejected(Schema, Args(buns, cheese, tomatoes, cutlets, eggs, sauce)) == |Schema|
        <==> ValidRecipe(buns, cheese, tomatoes, cutlets, eggs, sauce)
  {
    var args := Args(buns, cheese, tomatoes, cutlets, eggs, sauce);
    var k := FirstRejected(Schema, args);
    if k == |Schema| {
      assert Accepts(Schema[0].rule, args[0]);
      assert Accepts(Schema[1].rule, args[1]);
      assert Accepts(Schema[2].rule, args[2]);
      assert Accepts(Schema[3].rule, args[3]);
      assert Accepts(Schema[4].rule, args[4]);
      assert Accepts(Schema[5].rule, args[5]);
    }
  }

  /** `BurgerRecipe.__init__(self, ...)`: the six assignments on `self`, in
      declaration order. The partially assigned state is part of the result. */
  function Init(self: Instance, buns: Value, cheese: Value, tomatoes: Value, cutlets: Value, eggs: Value, sauce: Value): (r: Outcome<Instance>)
    ensures r.raised.None? <==> ValidRecipe(buns, cheese, tomatoes, cutlets, eggs, sauce)
  {
    AllAcceptedIffValid(buns, cheese, tomatoes, cutlets, eggs, sauce);
    Construct(Schema, Args(buns, cheese, tomatoes, cutlets, eggs, sauce), self)
  }

  /** Every slot the constructor leaves set, even when it raises, holds a
      value its validator admits, provided `self` was conforming before. */
  lemma InitConforms(self: Instance, buns: Value, cheese: Value, tomatoes: Value, cutlets: Value, eggs: Value, sauce: Value)
    requires Conforms(Schema, self)
    ensures Conforms(Schema, Init(self, buns, cheese, tomatoes, cutlets, eggs, sauce).state)
  {
    SchemaKeysDistinct();
    ConstructConforms(Schema, Args(buns, cheese, tomatoes, cutlets, eggs, sauce), self);
  }

  /** `BurgerRecipe(buns, cheese, tomatoes, cutlets, eggs, sauce)`: a fresh
      instance, returned only when every assignment succeeded. */
  function New(buns: Value, cheese: Value, tomatoes: Value, cutlets: Value, eggs: Value, sauce: Value): (r: Result<Instance>)
    ensures r.Ok? <==> ValidRecipe(buns, cheese, tomatoes, cutlets, eggs, sauce)
    // each field reads back its argument, and nothing else is stored
    ensures var args := Args(buns, cheese, tomatoes, cutlets, eggs, sauce);
      r.Ok? ==>
        && (forall i :: 0 <= i < |Schema| ==> Read(Schema[i], r.value) == Ok(args[i]))
        && r.value.Keys == KeysUpTo(Schema, |Schema|)
    // the error is the one of the first field, in declaration order, that rejects its argument
    ensures var args := Args(buns, cheese, tomatoes, cutlets, eggs, sauce);
      r.Err? ==> exists k :: (0 <= k < |Schema| && FirstRejected(Schema, args) == k
        && !Accepts(Schema[k].rule, args[k]) && r.error == Rejection(Schema[k].rule, args[k]))
  {
    var o := Init(map[], buns, cheese, tomatoes, cutlets, eggs, sauce);
    var args := Args(buns, cheese, tomatoes, cutlets, eggs, sauce);
    InitState(map[], args, FirstRejected(Schema, args));
    if o.raised.Some? then Err(o.raised.value) else Ok(o.state)
  }

  /** The state the constructor leaves on an empty `self` after `k`
      assignments: exactly the first `k` slots, each holding its argument. */
  lemma InitState(self: Instance, args: seq<Value>, k: nat)
    requires self == map[]
    requires |args| == |Schema| && k <= |Schema|
    ensures Assign(self, Schema, args, k).Keys == KeysUpTo(Schema, k)
    ensures forall i :: 0 <= i < k ==> Read(Schema[i], Assign(self, Schema, args, k)) == Ok(args[i])
  {
    SchemaKeysDistinct();
    AssignKeys(self, Schema, args, k);
    forall i | 0 <= i < k
      ensures Read(Schema[i], Assign(self, Schema, args, k)) == Ok(args[i])
    {
      AssignStores(self, Schema, args, k, i);
    }
  }

  /** A constructor that raises at the `k`-th field leaves exactly the first
      `k` fields set (earlier writes are not rolled back), each holding its
      argument, and raises that field's error. */
  lemma PartialInit(buns: Value, cheese: Value, tomatoes: Value, cutlets: Value, eggs: Value, sauce: Value)
    requires !ValidRecipe(buns, cheese, tomatoes, cutlets, eggs, sauce)
    ensures var args := Args(buns, cheese, tomatoes, cutlets, eggs, sauce);
      var r := Init(map[], buns, cheese, tomatoes, cutlets, eggs, sauce);
      exists k :: 0 <= k < |Schema| && !Accepts(Schema[k].rule, args[k])
        && r.raised == Some(Rejection(Schema[k].rule, args[k]))
        && r.state.Keys == KeysUpTo(Schema, k)
        && (forall i :: 0 <= i < k ==> Read(Schema[i], r.state) == Ok(args[i]))
  {
    var args := Args(buns, cheese, tomatoes, cutlets, eggs, sauce);
    var k := FirstRejected(Schema, args);
    AllAcceptedIffValid(buns, cheese, tomatoes, cutlets, eggs, sauce);
    InitState(map[], args, k);
    assert 0 <= k < |Schema| && !Accepts(Schema[k].rule, args[k]);
  }

  /** Assigning an out-of-range amount of cheese to a built recipe raises the
      range error and leaves the recipe unchanged. */
  lemma ReassignCheeseOutOfRange(recipe: Instance)
    ensures Write(CheeseField, recipe, Int(5)) == Outcome(recipe, Some(RangeError(0, 2)))
  {
  }

  /** Assigning a string to `cutlets` raises the type error and leaves the
      recipe unchanged. */
  lemma ReassignCutletsWrongType(recipe: Instance)
    ensures Write(CutletsField, recipe, Str("two")) == Outcome(recipe, Some(TypeError))
  {
  }

  /** A well-formed recipe builds, and its fields read back. */
  lemma ExampleRecipe()
    ensures var r := New(Int(2), Int(1), Int(2), Int(1), Int(1), Str("ketchup"));
      r.Ok? && Read(BunsField, r.value) == Ok(Int(2)) && Read(SauceField, r.value) == Ok(Str("ketchup"))
  {
    assert Schema[0] == BunsField && Schema[5] == SauceField;
  }

  /** Five buns is outside `[2, 3]`. */
  lemma ExampleTooManyBuns()
    ensures New(Int(5), Int(1), Int(2), Int(1), Int(1), Str("ketchup")) == Err(RangeError(2, 3))
  {
  }

  /** "ranch" is not one of the sauces. */
  lemma ExampleUnknownSauce()
    ensures New(Int(2), Int(1), Int(2), Int(1), Int(1), Str("ranch"))
      == Err(MembershipError(Str("ranch"), Sauces))
  {
  }

  /** Booleans count as integers: `True` is accepted as one slice of cheese
      and reads back as `True`, while `True` buns (1) is below the minimum. */
  lemma ExampleBooleans()
    ensures var r := New(Int(2), Bool(true), Int(2), Int(1), Int(1), Str("mayo"));
      r.Ok? && Read(CheeseField, r.value) == Ok(Bool(true))
    ensures New(Bool(true), Int(1), Int(2), Int(1), Int(1), Str("mayo")) == Err(RangeError(2, 3))
  {
  }
}
