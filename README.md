# SimpleReflection metadata graph, in Dafny

SimpleReflection is a C++ runtime-reflection library. At start-up each reflected type runs a
registration routine. The routine fills a `Type` node with named `Function`, `Property` and
`Field` descriptors and enters the type into a process-wide name → `Type` table. Other code
then looks types up by name, asks `IsA` questions along the base-type chain, and strips
pointer/reference/const layers to reach the most basic type.

This project models that core:

- `collections.dfy` (module `Collections`): the per-type descriptor collections. A collection
  is a sequence of (name, descriptor) entries. `Emplace` appends an entry and `FindFirst`
  returns the earliest entry with a given name.
- `reflection.dfy` (module `Reflection`): the `Type` class, which follows
  `SimpleReflection/Type.cpp`, and the `Function`, `Property` and `Field` descriptors.
  - A `Type` has fixed links: `base`, `pointerTo`, `referenceTo` and `constOf`.
  - Its three collections are updated in place.
  - A ghost `rank` strictly decreases along every link (`Acyclic()`). This stands for the
    invariant that following links always ends. The `IsA` walks and `GetMostBasicType` are
    loops that decrease this rank.
  - `Property` follows `SimpleReflection/Property.hpp`. Its constructor derives the owning
    type and value type from the optional getter and setter.
  - The accessors `GetOwningType`, `GetPropertyType`, `GetName`, `GetGetter` and `GetSetter`
    are plain field reads. `GetGetter` and `GetSetter` may return null. The constructor
    contract (`DerivedFromAccessors`) and `SetPropertyType` state what these accessors report.
  - `name`, `getter` and `setter` are `const`, so only the value type and the owning type can
    ever change.
- `registry.dfy` (module `Registry`): the global type table as an explicit object with
  `AddGlobalType` (the first registration wins) and `GetGlobalType` (null on a miss). It
  also has a fold over a whole sequence of registrations.
- `meta.dfy` (module `Meta`): the builders from `SimpleReflection/Meta.hpp`. `TypeBuilder`
  has `Function`, `Property`, `Enum` and `Field`. `FunctionBuilder` has `SetParameterNames`,
  `SetDocumentation` and `AddAttribute`. It also holds `RegisterType` and the widening of
  enum constants to i64/u64.
- `scenarios.dfy` (module `Scenarios`): small client methods. They build concrete graphs (a
  base chain D → C → B → A, the chain const-int-pointer-reference, a duplicate registration,
  a record with a `GetSet` field) and check what the contracts then imply.

Some results come from template metaprogramming in headers outside this model:

- the return type, the parameter types (receiver first) and the argument count of a bound
  callable;
- the owning type a binding reports;
- the `Type` of a C++ type (`TypeId`);
- a member's offset.

They enter as inputs: the `BoundCallable` datatype, plus `Type` and `nat` parameters.

Three points of the source's own text shape the model:

- `IsA(t, stop)` (`SimpleReflection/Type.cpp:59-77`) carries a commented-out assertion that
  `stop` is a base type of the receiver (lines 61-62). Nothing is enforced, so the model has
  no such precondition. `ChainSplit` covers a `stop` on the chain and `ChainUntilUnreached`
  covers one off it.
- `SetParameterNames` (`SimpleReflection/Meta.hpp:53-66`) has two `static_assert`s. The
  function must have at least one argument, and exactly one name per argument is required.
  The message at line 61 also allows zero names, which means not calling the method at all.
  The model's preconditions are these two assertions.
- The containers behind `AddFunction`, `AddProperty` and `AddField` are declared in
  `Type.hpp`, which is not part of this model. The model assumes they append and keep
  duplicates, and that lookup finds the earliest entry (see "## Left out").

## Model

| member | source | states |
|---|---|---|
| `Collections.FindFirst` | SimpleReflection/Type.cpp:130 | the index of the earliest entry with the name; None exactly when no entry has it |
| `Collections.FindFirstAfterEmplace` | SimpleReflection/Type.cpp:41-57 | emplacing an entry never changes what an existing name finds; an absent name finds the new entry iff it carries that name |
| `Reflection.Type.IsA` | SimpleReflection/Type.cpp:79-99 | true iff `t` is on the base chain starting at the receiver (receiver included); true at once when `t` is the receiver |
| `Reflection.Type.IsAUntil` | SimpleReflection/Type.cpp:59-77 | true iff `t` occurs on the base chain strictly before the first node equal to `stop`; always false when `stop` is the receiver |
| `Reflection.Type.ChainUntilUnreached` | SimpleReflection/Type.cpp:59-77 | when `stop` is not on the chain, the bounded walk covers the whole chain, so `IsAUntil` agrees with `IsA` |
| `Reflection.Type.ChainUntilNull` | SimpleReflection/Type.cpp:59-77 | with a null `stop`, `IsAUntil(t, null)` agrees with `IsA(t)` |
| `Reflection.Type.ChainSplit` | SimpleReflection/Type.cpp:59-77 | when `stop` is an ancestor, the chain is what the bounded walk sees, then `stop`'s own chain, and `stop` itself is not tested |
| `Reflection.Type.ChainUntilPrefix` | SimpleReflection/Type.cpp:59-99 | the bounded walk sees a prefix of the base chain, so `IsAUntil(t, s)` implies `IsA(t)` |
| `Reflection.Type.IsATransitive` | SimpleReflection/Type.cpp:79-99 | an ancestor of an ancestor is an ancestor |
| `Reflection.Type.ModifierStep` | SimpleReflection/Type.cpp:105-120 | a stripping step follows the pointer-to link if present, else the reference-to link, else the const-of link; there is a step iff some link is present |
| `Reflection.Type.GetMostBasicType` | SimpleReflection/Type.cpp:101-124 | the loop returns the type reached by repeated `ModifierStep`s, and that type has no pointer-to, reference-to or const-of link |
| `Reflection.Type.MostBasicUnqualified` | SimpleReflection/Type.cpp:101-124 | the most basic type is unqualified and lies no higher in the graph than the start |
| `Reflection.Type.MostBasicFixedPoint` | SimpleReflection/Type.cpp:101-124 | a type is its own most basic type iff it carries no modifier link |
| `Reflection.Type.MostBasicIdempotent` | SimpleReflection/Type.cpp:101-124 | stripping the most basic type again changes nothing |
| `Reflection.Type.AddFunction` | SimpleReflection/Type.cpp:41-45 | appends the descriptor under its own name to the function collection, returns that same descriptor, and leaves the other two collections unchanged |
| `Reflection.Type.AddProperty` | SimpleReflection/Type.cpp:47-51 | appends the descriptor under its own name to the property collection, returns that same descriptor, and leaves the other two collections unchanged |
| `Reflection.Type.AddField` | SimpleReflection/Type.cpp:53-57 | appends the field under its own name to the field collection, returns that same field, and leaves the other two collections unchanged |
| `Reflection.Type.GetFirstField` | SimpleReflection/Type.cpp:126-138 | null iff no field has the name; otherwise the field of the earliest entry with that name |
| `Reflection.Property.constructor` | SimpleReflection/Type.cpp:189-217 | keeps name, getter and setter; with a setter, owning type = setter's owning type and value type = most basic setter parameter 1; getter only: the getter's owning type and most basic return type |
| `Reflection.Property.GetOwningType` | SimpleReflection/Property.hpp:21 | on a property as constructed, the setter's owning type when there is a setter, else the getter's |
| `Reflection.Property.GetPropertyType` | SimpleReflection/Property.hpp:22 | on a property as constructed, the most basic type of setter parameter 1 when there is a setter, else the most basic getter return type |
| `Reflection.Property.GetName` | SimpleReflection/Property.hpp:23 | the name given at construction; it is `const`, so no operation changes it |
| `Reflection.Property.GetGetter` | SimpleReflection/Property.hpp:24 | the getter given at construction, which may be null only when there is a setter |
| `Reflection.Property.GetSetter` | SimpleReflection/Property.hpp:25 | the setter given at construction; when it is null there is a getter, and the getter decides the owning type |
| `Reflection.Field.SetOffset` | SimpleReflection/Meta.hpp:170 | sets the byte offset of the field and nothing else |
| `Reflection.Property.SetPropertyType` | SimpleReflection/Property.hpp:26 | sets the value type only; the owning type is unchanged and the name, getter and setter are immutable |
| `Registry.Added` | SimpleReflection/Type.cpp:140-151 | registering adds the name; an existing entry is never changed, and the new one maps to `t` only when the name was absent |
| `Registry.RegisterAllFirstWins` | SimpleReflection/Type.cpp:140-170 | after any sequence of registrations a name looks up its earlier entry, else the type of its first registration, else null |
| `Registry.GlobalTypes.constructor` | SimpleReflection/Type.cpp:7 | the table starts empty |
| `Registry.GlobalTypes.AddGlobalType` | SimpleReflection/Type.cpp:140-151 | the table becomes `Added(old table, name, t)`; a taken name leaves it completely unchanged |
| `Registry.GlobalTypes.GetGlobalType` | SimpleReflection/Type.cpp:153-170 | returns the registered type, or null when the name is absent; changes nothing |
| `Meta.ToI64` | SimpleReflection/Meta.hpp:128 | the cast to i64 lands in the i64 range and keeps every value already in it |
| `Meta.ToU64` | SimpleReflection/Meta.hpp:134 | the cast to u64 lands in the u64 range, keeps values in it, and adds 2^64 to a negative value |
| `Meta.WidenAsWritten` | SimpleReflection/Meta.hpp:122-137 | the widening as written: i64 exactly when `std::is_signed_v` holds of the constant's type, so every enumerator is widened to u64 modulo 2^64 |
| `Meta.WidenAsWrittenDiffers` | SimpleReflection/Meta.hpp:122-137 | the widening as written agrees with the intended one exactly when the constant is not of an enumeration with a signed underlying type; for those it differs on every value, zero included |
| `Meta.Widen` | SimpleReflection/Meta.hpp:118-144 | the corrected widening: i64 exactly when the constant's values are signed (an enumeration's underlying type included), u64 otherwise, and a value representable in its own type is kept |
| `Meta.WidenPreservesValue` | SimpleReflection/Meta.hpp:118-144 | the intended widening keeps the constant's value and chooses i64 exactly when the values are signed |
| `Meta.AsWrittenWrapsNegativeEnumerators` | SimpleReflection/Meta.hpp:121-137 | as written, a negative enumerator of a signed enumeration is exposed as that value plus 2^64, as u64 |
| `Meta.AsWrittenMinusOne` | SimpleReflection/Meta.hpp:122-134 | as written, the enumerator -1 becomes u64 2^64-1, where the intended widening gives i64 -1 |
| `Meta.FunctionBuilder.constructor` | SimpleReflection/Meta.hpp:42-46 | wraps the given descriptor |
| `Meta.FunctionBuilder.SetParameterNames` | SimpleReflection/Meta.hpp:53-66 | legal only for a function with at least one argument and exactly one name per argument; sets only the names and returns the same builder |
| `Meta.FunctionBuilder.SetDocumentation` | SimpleReflection/Meta.hpp:68-73 | sets only the documentation and returns the same builder |
| `Meta.FunctionBuilder.AddAttribute` | SimpleReflection/Meta.hpp:75-81 | appends the attribute, changes nothing else and returns the same builder |
| `Meta.TypeBuilder.constructor` | SimpleReflection/Meta.hpp:27-31 | the builder targets the given type |
| `Meta.TypeBuilder.Function` | SimpleReflection/Meta.hpp:87-97 | a fresh descriptor with the bound signature, its owning type set to the builder's type, appended to that type's function collection only |
| `Meta.TypeBuilder.Property` | SimpleReflection/Meta.hpp:99-116 | one fresh property named `aName`, with a getter named "Getter" or a setter named "Setter" exactly when one is bound, types derived as the Property constructor does, appended to the property collection only |
| `Meta.TypeBuilder.Enum` | SimpleReflection/Meta.hpp:118-144 | one getter-only property named `aName`, whose getter (also named `aName`) returns the constant under the corrected widening (`Widen`), with an i64 return type for signed values and u64 otherwise; appended to the property collection only. The source's own widening is `WidenAsWritten` (see Findings) |
| `Meta.TypeBuilder.Field` | SimpleReflection/Meta.hpp:146-174 | getter iff binding Get/GetSet, setter iff Set/GetSet; value type = the member's declared type (overriding the derived one); offset set; appended to the field collection only |
| `Meta.RegisterType` | SimpleReflection/Meta.hpp:181-189 | registers the type under its own name (no-op if the name is taken), then in every case appends a fresh "GetStaticType" function owned by the type |

## Findings

| source | as written | input that shows it | evidently intended | confidence | as-written member | corrected member |
|---|---|---|---|---|---|---|
| SimpleReflection/Meta.hpp:122 | `std::is_signed_v<tEnumType>` picks the branch. This trait is true only for signed arithmetic types and is false for every enumeration type, so every enumerator takes the u64 branch. | an enumerator `-1` of an enumeration whose underlying type is `int`: the getter returns u64 18446744073709551615 | widen to i64 when the enumeration's underlying type is signed, to u64 otherwise | high; not executed | `Meta.AsWrittenWrapsNegativeEnumerators` | `Meta.Widen` |

`Meta.WidenAsWritten` is the widening as written. `Meta.AsWrittenWrapsNegativeEnumerators`,
`Meta.AsWrittenMinusOne` and `Meta.WidenAsWrittenDiffers` show how it goes wrong. `Meta.Widen`
is the corrected widening, and `Meta.TypeBuilder.Enum` uses it. `Meta.WidenPreservesValue`
proves the intended property of `Widen`: it keeps every representable value.

## Left out

- Type sizes, hash and documentation: they come from code outside this model (`Type.hpp`).
- The creation of `Type` nodes (`TypeId`, `Type.hpp`) is not part of this model. The
  `Type` constructor is an assumed entry point whose links are fixed at creation and point
  to existing types.
- `Function.hpp` and `Field.hpp` are not part of this model. The builders create
  descriptors through the `Reflection.Function` and `Reflection.Field` constructors. These
  stand in for `BindFunction` / `BindPassedFunction` and the `Field` constructor. The
  builders then assign the remaining descriptor fields directly. A `Field` is modelled as a `Property` plus an offset
  (composition, not inheritance). Its offset is 0 until `SetOffset`.
- Invocation thunks and type-erased values (`Any`): native calls. A descriptor records only
  which kind of callable it binds (`Invocation`).
- The console messages of `AddGlobalType` and `GetGlobalType`: I/O. Only the returned
  values and the table state are modelled.
- The `sreflDefineType` / `sreflDefineExternalType` bodies and `InitializeReflection`: lists
  of registration calls with no logic of their own.
- `Attribute.cpp` / `Attribute.hpp`: every check in `PropertyChecked` is commented out.
  Attributes are plain tags here.
- Reflection.Property.constructor: requires a getter or a setter, and a setter with at
  least two parameters. The source checks neither. Without a getter or setter it leaves
  the owning type and value type uninitialised, and with a shorter setter it reads past the
  end of the parameter list.
- Reflection.Type.IsA, Reflection.Type.IsAUntil, Reflection.Type.GetMostBasicType: they
  require acyclic links. On a cyclic chain the source may loop forever. `IsA` still returns
  true when it meets `t` before the cycle closes, and `IsAUntil` also stops when `stop` lies
  on the cycle.
- Reflection.Property.SetPropertyType: it takes a non-null type. Its only caller passes
  `TypeId<FieldType>()` (`SimpleReflection/Meta.hpp:167-169`), and the model assumes `TypeId`
  never returns null.
- Exclusive ownership of getter and setter, and the deleted copy constructor: captured only
  as "getter and setter are distinct" and "the builders create fresh accessors". Later
  aliasing is not tracked.
- Meta.ToI64: converting an unsigned value of 2^63 or more wraps in two's complement. This
  is the C++20 rule; earlier standards leave it implementation-defined.
- Meta.TypeBuilder.Enum: follows the corrected widening (`Widen`) and chooses the return
  type by the signedness of the values. As written, the source widens every enumerator
  through u64 (`WidenAsWritten`), so for an enumeration with a signed underlying type its
  getter returns U64 with a u64 return type. `WidenAsWrittenDiffers` states exactly where
  the two differ.
- Reflection.Type.AddFunction, Reflection.Type.AddProperty, Reflection.Type.AddField,
  Collections.FindFirst: the containers are declared in `Type.hpp`, which is not part of
  this model. The model assumes that emplacing appends and keeps duplicates, and that
  lookup returns the earliest entry. A container that refused duplicates would make the
  `Add*` methods return the older descriptor.
- Threading: the source has none.
