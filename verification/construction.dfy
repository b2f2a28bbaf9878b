/**
 Sequential construction of an owner instance: the constructor assigns each
 field through its validator, in declaration order, with no rollback, so the
 first rejected argument raises and every earlier assignment stays committed.
 */
module Construction {
  import opened Values
  import opened Validators
  import opened Descriptor

  /** No two fields of the schema share a storage key (an owner type's class
      body cannot declare one attribute name twice). */
  predicate DistinctKeys(schema: seq<Field>) {
    forall i, j :: 0 <= i < j < |schema| ==> schema[i].key != schema[j].key
  }

  /** No field's storage key is itself the public name of a validated field.
      `Write` stores straight into the key; when the key is another field's
      name, the owner would instead route the store through that field's
      validator, which this model does not do. */
  predicate Unshadowed(schema: seq<Field>) {
    forall i, j :: 0 <= i < |schema| && 0 <= j < |schema| ==>
      PublicName(schema[j].key) != Some(schema[i].key)
  }

  /** Every slot of the schema that is present holds a value its rule admits. */
  predicate Conforms(schema: seq<Field>, inst: Instance) {
    forall i :: 0 <= i < |schema| && schema[i].key in inst ==>
      Accepts(schema[i].rule, inst[schema[i].key])
  }

  /** The storage keys of the first `n` fields. */
  function KeysUpTo(schema: seq<Field>, n: nat): set<string>
    requires n <= |schema|
  {
    set i | 0 <= i < n :: schema[i].key
  }

  /** The position of the first argument its field rejects, or `|schema|`
      when every argument passes. */
  function FirstRejected(schema: seq<Field>, args: seq<Value>): (k: nat)
    requires |schema| == |args|
    ensures k <= |schema|
    ensures forall i :: 0 <= i < k ==> Accepts(schema[i].rule, args[i])
    ensures k < |schema| ==> !Accepts(schema[k].rule, args[k])
    decreases |schema|
  {
    if |schema| == 0 || !Accepts(schema[0].rule, args[0]) then 0
    else 1 + FirstRejected(schema[1..], args[1..])
  }

  /** Reference semantics with no validation: the instance after the first `n`
      assignments, in order, have all been stored. */
  function Assign(inst: Instance, schema: seq<Field>, args: seq<Value>, n: nat): Instance
    requires |schema| == |args| && n <= |schema|
    decreases n
  {
    if n == 0 then inst
    else Assign(inst[schema[0].key := args[0]], schema[1..], args[1..], n - 1)
  }

  /** The constructor body: assign `args` to the fields of `schema` one after
      the other through `Write`, stopping at the first raised error. */
  function Construct(schema: seq<Field>, args: seq<Value>, inst: Instance): (r: Outcome<Instance>)
    requires |schema| == |args|
    // it raises exactly when some argument is rejected ...
    ensures r.raised.None? <==> FirstRejected(schema, args) == |schema|
    // ... with the error of the first rejected argument ...
    ensures var k := FirstRejected(schema, args);
      r.raised.Some? ==> k < |schema| && r.raised.value == Rejection(schema[k].rule, args[k])
    // ... and exactly the assignments before it committed
    ensures r.state == Assign(inst, schema, args, FirstRejected(schema, args))
    decreases |schema|
  {
    if |schema| == 0 then Outcome(inst, None)
    else
      var step := Write(schema[0], inst, args[0]);
      if step.raised.Some? then step
      else Construct(schema[1..], args[1..], step.state)
  }

  /** After `n` assignments, the present keys are the old ones plus the keys
      of the first `n` fields. */
  lemma {:induction false} AssignKeys(inst: Instance, schema: seq<Field>, args: seq<Value>, n: nat)
    requires |schema| == |args| && n <= |schema|
    ensures Assign(inst, schema, args, n).Keys == inst.Keys + KeysUpTo(schema, n)
    decreases n
  {
    if n > 0 {
      var inst' := inst[schema[0].key := args[0]];
      AssignKeys(inst', schema[1..], args[1..], n - 1);
      assert KeysUpTo(schema, n) == {schema[0].key} + KeysUpTo(schema[1..], n - 1) by {
        forall k | k in KeysUpTo(schema, n)
          ensures k in {schema[0].key} + KeysUpTo(schema[1..], n - 1)
        {
          var i :| 0 <= i < n && schema[i].key == k;
          if i > 0 {
            assert schema[1..][i - 1].key == k;
          }
        }
        forall k | k in KeysUpTo(schema[1..], n - 1)
          ensures k in KeysUpTo(schema, n)
        {
          var i :| 0 <= i < n - 1 && schema[1..][i].key == k;
          assert schema[i + 1].key == k;
        }
      }
    }
  }

  /** A key none of the first `n` fields uses keeps its presence and value. */
  lemma {:induction false} AssignUntouched(inst: Instance, schema: seq<Field>, args: seq<Value>, n: nat, key: string)
    requires |schema| == |args| && n <= |schema|
    requires forall i :: 0 <= i < n ==> schema[i].key != key
    ensures key in Assign(inst, schema, args, n) <==> key in inst
    ensures key in inst ==> Assign(inst, schema, args, n)[key] == inst[key]
    decreases n
  {
    if n > 0 {
      var inst' := inst[schema[0].key := args[0]];
      assert forall i :: 0 <= i < n - 1 ==> schema[1..][i].key == schema[i + 1].key;
      AssignUntouched(inst', schema[1..], args[1..], n - 1, key);
    }
  }

  /** With distinct keys, each of the first `n` fields holds its argument. */
  lemma {:induction false} AssignStores(inst: Instance, schema: seq<Field>, args: seq<Value>, n: nat, i: nat)
    requires |schema| == |args| && n <= |schema|
    requires DistinctKeys(schema)
    requires i < n
    ensures schema[i].key in Assign(inst, schema, args, n)
    ensures Assign(inst, schema, args, n)[schema[i].key] == args[i]
    decreases n
  {
    var inst' := inst[schema[0].key := args[0]];
    assert forall j :: 0 <= j < n - 1 ==> schema[1..][j].key == schema[j + 1].key;
    if i == 0 {
      AssignUntouched(inst', schema[1..], args[1..], n - 1, schema[0].key);
    } else {
      assert DistinctKeys(schema[1..]) by {
        forall a, b | 0 <= a < b < |schema[1..]|
          ensures schema[1..][a].key != schema[1..][b].key
        {
          assert schema[1..][a] == schema[a + 1] && schema[1..][b] == schema[b + 1];
        }
      }
      AssignStores(inst', schema[1..], args[1..], n - 1, i - 1);
    }
  }

  /** Construction keeps every validated slot conforming: what was admitted
      stays admitted, and each newly stored value passed its rule. */
  lemma ConstructConforms(schema: seq<Field>, args: seq<Value>, inst: Instance)
    requires |schema| == |args|
    requires DistinctKeys(schema)
    requires Conforms(schema, inst)
    ensures Conforms(schema, Construct(schema, args, inst).state)
  {
    var k := FirstRejected(schema, args);
    var s := Construct(schema, args, inst).state;
    forall i | 0 <= i < |schema| && schema[i].key in s
      ensures Accepts(schema[i].rule, s[schema[i].key])
    {
      if i < k {
        AssignStores(inst, schema, args, k, i);
      } else {
        AssignUntouched(inst, schema, args, k, schema[i].key);
      }
    }
  }

  /** A single write through one of the schema's fields keeps the instance
      conforming. */
  lemma WriteConforms(schema: seq<Field>, j: nat, inst: Instance, x: Value)
    requires j < |schema|
    requires DistinctKeys(schema)
    requires Conforms(schema, inst)
    ensures Conforms(schema, Write(schema[j], inst, x).state)
  {
  }
}
