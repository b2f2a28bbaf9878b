# Validated attributes for a burger recipe

This project models a declarative field-validation mechanism. Reusable validator
descriptors (`Number`, `OneOf`) are attached to named attributes of a record
(`BurgerRecipe`). Each descriptor binds to a public attribute name and derives a
private storage key (`"_" + name`). A read returns the value stored under that
key. A write first runs the rule's `validate` and stores the value only if it
passes. A failed validation raises before anything is stored.

The model is functional:

- `Values`: the assigned values (`Int`, `Bool`, `Str`, `Other`), the error kinds,
  `Result`, and `Outcome` (the state a statement leaves behind plus the error it
  raised, if any).
- `Validators`: the rule datatype `Number(minValue, maxValue) | OneOf(options)`
  and `Validate`. `Admitted` is an independent set-valued description of what
  each rule admits.
- `Descriptor`: storage keys, binding, `Read`, and `Write` over one instance,
  a `map<string, Value>`. `WriteOn` writes one instance inside a heap of several.
- `Construction`: the constructor body as a sequential fold of `Write` over a
  field schema. `Assign` is the reference semantics in which every write commits,
  and `FirstRejected` is the position of the first rejected argument.
- `Burger`: the six configured fields, `__init__` (`Init`, which keeps the
  partially assigned state) and the constructor call (`New`).

Booleans are accepted as integers, because `isinstance(True, int)` holds
(app/main.py:28), and they compare as 0 and 1. `Bool(true)` passes
`Number(0, 2)` and reads back as `Bool(true)`. `OneOf` applies `in` to any value
(app/main.py:45), so a non-string is never a member.

## Model

| member | source | states |
|---|---|---|
| Validators.Validate | app/main.py:27-48 | never answers `False`; an integer (or bool) passes `Number` iff `minValue <= v <= maxValue`, otherwise it is a range error carrying the bounds; a non-integer is a type error whatever the bounds; `OneOf` passes iff the value is a string listed in the options, otherwise it is a membership error carrying value and options |
| Validators.AcceptsIffAdmitted | app/main.py:27-48 | a value passes a rule iff it is in the rule's admitted set: the interval's integers, the booleans whose 0/1 value lies in it, or the listed strings |
| Validators.EmptyIntervalRejectsAll | app/main.py:27-37 | with unchecked bounds `minValue > maxValue`, `Number` rejects everything: integers with the range error and all else with the type error |
| Descriptor.StorageKey | app/main.py:6-7 | the key derived from a public name gives that name back through `PublicName` |
| Descriptor.StorageKeyInjective | app/main.py:6-7 | two public names share a storage key iff they are equal |
| Descriptor.Bind | app/main.py:6-7 | a bound field keeps its rule, and its key is derived from the public name it was bound to |
| Descriptor.Read | app/main.py:9-11 | a read succeeds iff the slot is present and then returns the stored value; otherwise it fails with attribute-not-found naming the key |
| Descriptor.Write | app/main.py:13-15 | a write raises iff validation rejects, with the rule's error and the instance unchanged; otherwise the instance gains the field's key holding the value and keeps every other key and value |
| Descriptor.WriteThenRead | app/main.py:9-15 | after an accepted write, reading the field returns exactly the written value |
| Descriptor.FailedWriteKeepsRead | app/main.py:13-15 | after a rejected write, every field reads as before: the previous value, or attribute-not-found |
| Descriptor.WriteFrame | app/main.py:13-15 | a write leaves the reads of every field with a different key unchanged |
| Descriptor.WriteOn | app/main.py:13-15 | writing a field on one instance in a heap leaves the heap's identities and every other instance unchanged |
| Descriptor.InstancesIndependent | app/main.py:13-15 | writing a field on one instance never changes any read on another instance |
| Construction.FirstRejected | app/main.py:68-73 | the index returned is at most the schema length; every earlier argument passes its field and the argument at that index, if any, fails |
| Construction.Construct | app/main.py:68-73 | the assignment sequence raises iff some argument is rejected, with the error of the first rejected one; the state is exactly the original instance after the writes before that point (no rollback); this matches the source for owner types whose storage keys are not themselves validated attribute names (`Unshadowed`) |
| Construction.AssignKeys | app/main.py:68-73 | after the first n writes, the instance's keys are the old keys plus the first n fields' keys |
| Construction.AssignUntouched | app/main.py:68-73 | a key none of the first n fields uses keeps its presence and value |
| Construction.AssignStores | app/main.py:68-73 | with distinct keys, each of the first n fields holds its own argument |
| Construction.ConstructConforms | app/main.py:13-15 | if every slot present holds a value its rule admits, the assignment sequence keeps that true, also when it raises partway |
| Construction.WriteConforms | app/main.py:13-15 | a single write through a schema field keeps every slot holding an admitted value |
| Burger.SchemaKeysDistinct | app/main.py:52-57 | the six fields have six distinct storage keys, `_buns` through `_sauce`, and no key is itself one of the six attribute names |
| Burger.AllAcceptedIffValid | app/main.py:52-57 | all six arguments pass their validators iff they meet the bounds 2-3, 0-2, 0-3, 1-3 and 0-2 and the sauce is ketchup, mayo or burger |
| Burger.Init | app/main.py:59-73 | `__init__` completes without raising iff the six arguments form a valid recipe |
| Burger.InitConforms | app/main.py:68-73 | every slot `__init__` leaves set, even after raising, holds a value its validator admits |
| Burger.New | app/main.py:51-73 | construction succeeds iff the recipe is valid; on success each field reads back its argument and only the six slots exist; on failure the error is that of the first field, in declaration order, that rejects its argument |
| Burger.InitState | app/main.py:68-73 | on a fresh instance, after k assignments exactly the first k slots exist, each holding its argument |
| Burger.PartialInit | app/main.py:68-73 | if construction fails at field k, it raises that field's error, and exactly the first k fields are set, each holding its argument |
| Burger.ReassignCheeseOutOfRange | app/main.py:27-35 | assigning 5 to `cheese` raises the range error for [0, 2] and leaves the recipe unchanged |
| Burger.ReassignCutletsWrongType | app/main.py:27-37 | assigning `"two"` to `cutlets` raises the type error and leaves the recipe unchanged |
| Burger.ExampleRecipe | app/main.py:52-73 | `BurgerRecipe(2, 1, 2, 1, 1, "ketchup")` builds, with buns 2 and sauce ketchup |
| Burger.ExampleTooManyBuns | app/main.py:27-35 | five buns raises the range error for [2, 3] |
| Burger.ExampleUnknownSauce | app/main.py:44-48 | `"ranch"` raises the membership error naming the three sauces |
| Burger.ExampleBooleans | app/main.py:27-30 | `True` passes as one slice of cheese and reads back as `True`; `True` buns (value 1) is a range error |

## Left out

- Python's descriptor machinery is not modelled. Binding is the explicit function `Bind`, called once per field. Because `__set_name__` stores the key on the descriptor object itself, one object bound to two names would keep only the last key. The model gives each binding its own `Field`.
- Class-level access (`__get__` with no instance) is not modelled. In the source it fails with attribute-not-found.
- `ABC` and `@abstractmethod` enforcement are not modelled. The rule variants are a datatype, so there is no abstract `validate` to instantiate.
- Error message text and its formatting are not modelled. Only the error kind is kept, with the bounds, or with the value and options.
- The type annotations are not modelled, because nothing enforces them.
- Objects with a custom `__eq__` that compare equal to a string are not modelled. Neither are `int` subclasses other than `bool`. The model's `Other` values are never integers and never equal to a string.
- Direct assignment to a private slot (`recipe._buns = ...`) bypasses validation in the source. It is not an operation here. `Conforms` is therefore proved preserved by the validated paths, not asserted of every instance.
- The `validate` answer `False` is kept in `Write` (no store and no error), but neither concrete rule can produce it.
- Construction.Construct: an owner type whose storage key is another validated attribute's name (fields `x` and `_x`) is not modelled faithfully. In Python, the store into `_x` at app/main.py:15 goes through the `_x` descriptor and its validator. `Write` stores into the key directly. The model's results hold only for schemas satisfying `Unshadowed`; `BurgerRecipe`'s schema does (`Burger.SchemaKeysDistinct`).
- `RangeError` and `MembershipError` are one exception class in the source, `ValueError` (app/main.py:32, 48). A caller catching `ValueError` sees both as the same class. The model keeps them apart only to say which check failed.
