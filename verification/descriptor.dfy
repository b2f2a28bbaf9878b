/**
 The attribute-binding protocol every validator shares: binding to a public
 name derives a private storage key; a read fetches the value stored under
 that key; a write validates first and stores only if validation passes.
 An owner instance is modelled as the map from storage keys to values.
 */
module Descriptor {
  import opened Values
  import opened Validators

  /** The private slot a public attribute name is stored under. */
  function StorageKey(name: string): (key: string)
    ensures PublicName(key) == Some(name)
  {
    "_" + name
  }

  /** The inverse of `StorageKey`: the public name a key was derived from,
      or `None` for a key no attribute name produces. */
  function PublicName(key: string): Option<string> {
    if |key| > 0 && key[0] == '_' then Some(key[1..]) else None
  }

  /** Distinct public names never share a storage key. */
  lemma StorageKeyInjective(a: string, b: string)
    ensures StorageKey(a) == StorageKey(b) <==> a == b
  {
  }

  /** A validator bound to one attribute of the owner type. */
  datatype Field = Field(key: string, rule: Validator)

  /** Binding a rule to the public attribute `name` (done once, when the owner
      type is defined). */
  function Bind(rule: Validator, name: string): (f: Field)
    ensures f.rule == rule
    ensures PublicName(f.key) == Some(name)
  {
    Field(StorageKey(name), rule)
  }

  /** The attribute storage of one owner instance. */
  type Instance = map<string, Value>

  /** Reading the attribute: the stored value, or `AttributeNotFound` when the
      slot has never been written. */
  function Read(f: Field, inst: Instance): (r: Result<Value>)
    ensures r.Ok? <==> f.key in inst
    ensures r.Ok? ==> r.value == inst[f.key]
    ensures r.Err? ==> r.error == AttributeNotFound(f.key)
  {
    if f.key in inst then Ok(inst[f.key]) else Err(AttributeNotFound(f.key))
  }

  /** Assigning the attribute: validate, then store under the field's key only
      if validation answered `True`. A raised validation error leaves the
      instance as it was. */
  function Write(f: Field, inst: Instance, x: Value): (r: Outcome<Instance>)
    ensures r.raised.None? <==> Accepts(f.rule, x)
    ensures r.raised.Some? ==> r.raised.value == Rejection(f.rule, x) && r.state == inst
    ensures r.raised.None? ==>
      && r.state.Keys == inst.Keys + {f.key}
      && r.state[f.key] == x
      && forall k :: k in inst && k != f.key ==> r.state[k] == inst[k]
  {
    match Validate(f.rule, x)
    case Err(e) => Outcome(inst, Some(e))
    case Ok(passed) => if passed then Outcome(inst[f.key := x], None) else Outcome(inst, None)
  }

  /** After a successful write, reading the field returns exactly the value
      written. */
  lemma WriteThenRead(f: Field, inst: Instance, x: Value)
    requires Accepts(f.rule, x)
    ensures Read(f, Write(f, inst, x).state) == Ok(x)
  {
  }

  /** A write whose validation fails changes no read: the slot keeps its
      previous value, or stays absent. */
  lemma FailedWriteKeepsRead(f: Field, g: Field, inst: Instance, x: Value)
    requires !Accepts(f.rule, x)
    ensures Read(g, Write(f, inst, x).state) == Read(g, inst)
  {
  }

  /** A write touches only its own storage key: every other field reads as
      before. */
  lemma WriteFrame(f: Field, g: Field, inst: Instance, x: Value)
    requires g.key != f.key
    ensures Read(g, Write(f, inst, x).state) == Read(g, inst)
  {
  }

  /** Several owner instances, each with its own storage, by identity. */
  type Heap = map<nat, Instance>

  /** Assigning the attribute on the instance `obj` among several. */
  function WriteOn(heap: Heap, obj: nat, f: Field, x: Value): (r: Outcome<Heap>)
    requires obj in heap
    ensures r.state.Keys == heap.Keys
    ensures r.raised == Write(f, heap[obj], x).raised
    ensures r.state[obj] == Write(f, heap[obj], x).state
    // no other instance is affected
    ensures forall o :: o in heap && o != obj ==> r.state[o] == heap[o]
  {
    var step := Write(f, heap[obj], x);
    Outcome(heap[obj := step.state], step.raised)
  }

  /** Two instances of the owner type have independent storage: writing a
      field on one never changes any read on the other. */
  lemma InstancesIndependent(heap: Heap, obj: nat, other: nat, f: Field, g: Field, x: Value)
    requires obj in heap && other in heap && other != obj
    ensures Read(g, WriteOn(heap, obj, f, x).state[other]) == Read(g, heap[other])
  {
  }
}
