// The builder layer: TypeBuilder creates Function, Property and Field
// descriptors for one type and inserts them into that type's collections;
// FunctionBuilder configures a function descriptor after insertion;
// RegisterType enters a type into the global table.
//
// Everything the source deduces from template arguments (return and
// parameter types, argument counts, the owning type a binding reports,
// member offsets, the Type of a C++ type) arrives here as an input.
module Meta {
  import opened Collections
  import R = Reflection
  import Registry

  /** Which accessors a field binding creates. */
  datatype PropertyBinding = Get | Set | GetSet

  predicate BindsGetter(b: PropertyBinding)
  {
    b == Get || b == GetSet
  }

  predicate BindsSetter(b: PropertyBinding)
  {
    b == Set || b == GetSet
  }

  // ------------------------------------------------------- enum constant widening

  const TWO_63: int := 0x8000_0000_0000_0000
  const TWO_64: int := 0x1_0000_0000_0000_0000

  /** The C++ type of a constant given to TypeBuilder::Enum: an enumeration
      whose underlying integer type is signed or not, or a plain integer type. */
  datatype ConstantType = Enumeration(underlyingSigned: bool) | Integer(signed: bool)

  /** std::is_signed_v: true only for signed arithmetic types, so false for every enumeration. */
  function IsSignedTrait(k: ConstantType): bool
  {
    match k
    case Enumeration(_) => false
    case Integer(s) => s
  }

  /** The signedness of the integer type that holds the constant's value. */
  function HasSignedValues(k: ConstantType): bool
  {
    match k
    case Enumeration(s) => s
    case Integer(s) => s
  }

  /** The value fits the (at most 64-bit) integer type that holds it. */
  predicate Representable(value: int, k: ConstantType)
  {
    if HasSignedValues(k) then -TWO_63 <= value < TWO_63 else 0 <= value < TWO_64
  }

  /** Conversion to i64: two's-complement wrap-around. */
  function ToI64(v: int): (r: int)
    ensures -TWO_63 <= r < TWO_63
    ensures -TWO_63 <= v < TWO_63 ==> r == v
  {
    (v + TWO_63) % TWO_64 - TWO_63
  }

  /** Conversion to u64: reduction modulo 2^64. */
  function ToU64(v: int): (r: int)
    ensures 0 <= r < TWO_64
    ensures 0 <= v < TWO_64 ==> r == v
    ensures -TWO_64 <= v < 0 ==> r == v + TWO_64
  {
    v % TWO_64
  }

  function WidenTo(value: int, signed: bool): R.IntegerConstant
  {
    if signed then R.I64(ToI64(value)) else R.U64(ToU64(value))
  }

  /** The widening Meta.hpp:122-137 performs, branching on std::is_signed_v of the constant's type. */
  function WidenAsWritten(value: int, k: ConstantType): (r: R.IntegerConstant)
    ensures r.I64? <==> IsSignedTrait(k)
    ensures k.Enumeration? ==> r == R.U64(ToU64(value))
  {
    WidenTo(value, IsSignedTrait(k))
  }

  /** The widening the builder is evidently meant to perform: to i64 when the
      constant's values are signed, to u64 otherwise. The builder uses this one. */
  function Widen(value: int, k: ConstantType): (r: R.IntegerConstant)
    ensures r.I64? <==> HasSignedValues(k)
    ensures Representable(value, k) ==> r.value == value
  {
    WidenTo(value, HasSignedValues(k))
  }

  /** The corrected widening never changes the value and picks i64 exactly for signed values. */
  lemma WidenPreservesValue(value: int, k: ConstantType)
    requires Representable(value, k)
    ensures Widen(value, k).value == value
    ensures Widen(value, k).I64? <==> HasSignedValues(k)
  {
  }

  /** The two widenings give the same constant exactly when std::is_signed_v
      agrees with the signedness of the values: they differ on every constant,
      zero and positive ones included, of an enumeration with a signed
      underlying type, and on no other. */
  lemma WidenAsWrittenDiffers(value: int, k: ConstantType)
    ensures WidenAsWritten(value, k) == Widen(value, k) <==> !(k.Enumeration? && k.underlyingSigned)
  {
  }

  /** As written, a negative enumerator of an enumeration with a signed
      underlying type comes out as a large unsigned constant. */
  lemma AsWrittenWrapsNegativeEnumerators(value: int)
    requires Representable(value, Enumeration(true)) && value < 0
    ensures WidenAsWritten(value, Enumeration(true)) == R.U64(value + TWO_64)
    ensures WidenAsWritten(value, Enumeration(true)).value != value
  {
  }

  /** Concretely: the enumerator -1 is exposed as 2^64 - 1. */
  lemma AsWrittenMinusOne()
    ensures WidenAsWritten(-1, Enumeration(true)) == R.U64(0xFFFF_FFFF_FFFF_FFFF)
    ensures Widen(-1, Enumeration(true)) == R.I64(-1)
  {
  }

  // ------------------------------------------------------ accessor signatures

  /** The binding of the synthesized getter `FieldType (T::*)()` of a data member. */
  function FieldGetterBinding(owner: R.Type?, receiverType: R.Type, fieldType: R.Type, member: nat): R.BoundCallable
  {
    R.BoundCallable(owner, fieldType, [receiverType], 0, R.FieldGetter(member))
  }

  /** The binding of the synthesized setter `void (T::*)(FieldType)` of a data member. */
  function FieldSetterBinding(owner: R.Type?, receiverType: R.Type, fieldType: R.Type, voidType: R.Type, member: nat): R.BoundCallable
  {
    R.BoundCallable(owner, voidType, [receiverType, fieldType], 1, R.FieldSetter(member))
  }

  /** `f` is the accessor built from `bound` under `name`, or null when nothing was bound. */
  ghost predicate BuiltFrom(f: R.Function?, name: string, bound: Option<R.BoundCallable>)
    reads f
  {
    (f == null <==> bound.None?) &&
    (f != null ==> f.HasSignature(name, bound.value) && f.owningType == bound.value.owningType && f.Unconfigured())
  }

  // ---------------------------------------------------------- FunctionBuilder

  /** Fluent configuration of one function descriptor. `argumentCount` is the
      number of declared arguments of the bound signature. */
  class FunctionBuilder {
    const descriptor: R.Function
    const argumentCount: nat

    constructor (descriptor: R.Function, argumentCount: nat)
      ensures this.descriptor == descriptor && this.argumentCount == argumentCount
    {
      this.descriptor := descriptor;
      this.argumentCount := argumentCount;
    }

    /** Legal only for a function with arguments, with exactly one name per argument. */
    method SetParameterNames(names: seq<string>) returns (b: FunctionBuilder)
      requires argumentCount != 0
      requires |names| == argumentCount
      modifies descriptor`parameterNames
      ensures b == this
      ensures descriptor.parameterNames == names
      ensures descriptor.documentation == old(descriptor.documentation)
      ensures descriptor.attributes == old(descriptor.attributes)
      ensures descriptor.owningType == old(descriptor.owningType)
    {
      descriptor.parameterNames := names;
      b := this;
    }

    method SetDocumentation(text: string) returns (b: FunctionBuilder)
      modifies descriptor`documentation
      ensures b == this
      ensures descriptor.documentation == text
      ensures descriptor.parameterNames == old(descriptor.parameterNames)
      ensures descriptor.attributes == old(descriptor.attributes)
      ensures descriptor.owningType == old(descriptor.owningType)
    {
      descriptor.documentation := text;
      b := this;
    }

    method AddAttribute(a: R.Attribute) returns (b: FunctionBuilder)
      modifies descriptor`attributes
      ensures b == this
      ensures descriptor.attributes == old(descriptor.attributes) + [a]
      ensures descriptor.parameterNames == old(descriptor.parameterNames)
      ensures descriptor.documentation == old(descriptor.documentation)
      ensures descriptor.owningType == old(descriptor.owningType)
    {
      descriptor.attributes := descriptor.attributes + [a];
      b := this;
    }
  }

  // -------------------------------------------------------------- TypeBuilder

  /** Builds the descriptors of one type, `target`. */
  class TypeBuilder {
    const target: R.Type

    constructor (target: R.Type)
      ensures this.target == target
    {
      this.target := target;
    }

    /** Binds a callable as a function of the target type and inserts it there. */
    method Function(name: string, bound: R.BoundCallable) returns (b: FunctionBuilder)
      modifies target`functions
      ensures fresh(b) && fresh(b.descriptor)
      ensures b.descriptor.HasSignature(name, bound) && b.descriptor.Unconfigured()
      ensures b.descriptor.owningType == target
      ensures b.argumentCount == bound.argumentCount
      ensures target.functions == old(target.functions) + [(name, b.descriptor)]
      ensures target.properties == old(target.properties) && target.fields == old(target.fields)
    {
      var f := new R.Function(name, bound);
      f.owningType := target;
      var added := target.AddFunction(f);
      b := new FunctionBuilder(added, bound.argumentCount);
    }

    /** Binds a getter and/or setter (None stands for NoGetter / NoSetter) as a
        property of the target type and inserts it there. */
    method Property(name: string, getter: Option<R.BoundCallable>, setter: Option<R.BoundCallable>)
      returns (p: R.Property)
      requires getter.Some? || setter.Some?
      requires getter.Some? ==> getter.value.returnType.Acyclic()
      requires setter.Some? ==> |setter.value.parameterTypes| >= 2 && setter.value.parameterTypes[1].Acyclic()
      modifies target`properties
      ensures fresh(p) && p.name == name
      ensures p.getter != null ==> fresh(p.getter)
      ensures p.setter != null ==> fresh(p.setter)
      ensures BuiltFrom(p.getter, "Getter", getter) && BuiltFrom(p.setter, "Setter", setter)
      ensures p.DerivedFromAccessors()
      ensures target.properties == old(target.properties) + [(name, p)]
      ensures target.functions == old(target.functions) && target.fields == old(target.fields)
    {
      var g: R.Function? := null;
      var s: R.Function? := null;
      if getter.Some? {
        g := new R.Function("Getter", getter.value);
      }
      if setter.Some? {
        s := new R.Function("Setter", setter.value);
      }
      var property := new R.Property(name, g, s);
      p := target.AddProperty(property);
    }

    /** Exposes the constant `value` as a getter-only property named `name`.
        The getter returns the constant widened to i64 or u64; `owner` is the
        owning type the binding reports for that getter. */
    method Enum(name: string, value: int, k: ConstantType, i64Type: R.Type, u64Type: R.Type, owner: R.Type?)
      returns (p: R.Property)
      requires i64Type.Acyclic() && u64Type.Acyclic()
      modifies target`properties
      ensures fresh(p) && p.name == name
      ensures p.setter == null && p.getter != null && fresh(p.getter)
      ensures p.getter.name == name && p.getter.parameterTypes == []
      ensures p.getter.invocation == R.ReturnConstant(Widen(value, k))
      ensures p.getter.returnType == if HasSignedValues(k) then i64Type else u64Type
      ensures p.owningType == owner
      ensures p.DerivedFromAccessors()
      ensures target.properties == old(target.properties) + [(name, p)]
      ensures target.functions == old(target.functions) && target.fields == old(target.fields)
    {
      var returnType := if HasSignedValues(k) then i64Type else u64Type;
      var getter := new R.Function(name, R.BoundCallable(owner, returnType, [], 0, R.ReturnConstant(Widen(value, k))));
      var property := new R.Property(name, getter, null);
      p := target.AddProperty(property);
    }

    /** Binds the data member `member` of type `fieldType` as a field named
        `name`, with the accessors `binding` asks for, at byte offset `offset`. */
    method Field(name: string, binding: PropertyBinding, fieldType: R.Type, receiverType: R.Type,
                 voidType: R.Type, owner: R.Type?, member: nat, offset: nat)
      returns (f: R.Field)
      requires fieldType.Acyclic()
      modifies target`fields
      ensures fresh(f) && fresh(f.property) && f.property.name == name
      ensures (f.property.getter != null) == BindsGetter(binding)
      ensures (f.property.setter != null) == BindsSetter(binding)
      ensures f.property.getter != null ==>
        fresh(f.property.getter) && f.property.getter.HasSignature("Getter", FieldGetterBinding(owner, receiverType, fieldType, member))
      ensures f.property.setter != null ==>
        fresh(f.property.setter) && f.property.setter.HasSignature("Setter", FieldSetterBinding(owner, receiverType, fieldType, voidType, member))
      ensures f.property.owningType == owner
      ensures f.property.propertyType == fieldType
      ensures f.offset == offset
      ensures target.fields == old(target.fields) + [(name, f)]
      ensures target.functions == old(target.functions) && target.properties == old(target.properties)
    {
      var getter: R.Function? := null;
      var setter: R.Function? := null;
      if BindsGetter(binding) {
        getter := new R.Function("Getter", FieldGetterBinding(owner, receiverType, fieldType, member));
      }
      if BindsSetter(binding) {
        setter := new R.Function("Setter", FieldSetterBinding(owner, receiverType, fieldType, voidType, member));
      }
      var field := new R.Field(name, getter, setter);
      field.property.SetPropertyType(fieldType);
      field.SetOffset(offset);
      f := target.AddField(field);
    }
  }

  /** Enters `t` into the global table under its own name (a no-op when the
      name is taken) and then, in every case, adds its "GetStaticType" function. */
  method RegisterType(registry: Registry.GlobalTypes, t: R.Type, staticType: R.BoundCallable)
    modifies registry`types, t`functions
    ensures registry.types == Registry.Added(old(registry.types), t.name, t)
    ensures |t.functions| == |old(t.functions)| + 1
    ensures t.functions[..|old(t.functions)|] == old(t.functions)
    ensures t.functions[|old(t.functions)|].0 == "GetStaticType"
    ensures fresh(t.functions[|old(t.functions)|].1)
    ensures t.functions[|old(t.functions)|].1.HasSignature("GetStaticType", staticType)
    ensures t.functions[|old(t.functions)|].1.owningType == t
    ensures t.properties == old(t.properties) && t.fields == old(t.fields)
  {
    registry.AddGlobalType(t.name, t);
    var builder := new TypeBuilder(t);
    var _ := builder.Function("GetStaticType", staticType);
  }
}
