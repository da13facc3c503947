// The metadata graph of SimpleReflection: Type nodes with their base and
// modifier links and their named descriptor collections, and the Function,
// Property and Field descriptors stored in those collections.
//
// Every pointer between metadata objects is a Dafny reference: Type? where
// the source allows a null Type*, Type where it never is null. The links of
// a Type are fixed when it is created; a ghost rank that strictly decreases
// along every link stands for "following links always terminates".
module Reflection {
  import opened Collections

  /** A tag attached to a function descriptor. */
  datatype Attribute = PlainAttribute | Serializable

  /** An integer constant as an enum getter returns it: widened to i64 or to u64. */
  datatype IntegerConstant = I64(value: int) | U64(value: int)

  /** What a bound callable does when it is invoked, as far as the model needs it. */
  datatype Invocation =
    | NativeCallable(id: nat)                 // a native function or member function
    | ReturnConstant(constant: IntegerConstant) // the getter of an enum constant
    | FieldGetter(member: nat)                // reads the bound data member
    | FieldSetter(member: nat)                // writes the bound data member

  /** What binding a callable yields: its owning type, return type, parameter
      types with the receiver of a member function as parameter 0, and the
      argument count the builder checks parameter names against. Deducing
      these from a signature happens in code outside this model. */
  datatype BoundCallable = BoundCallable(
    owningType: Type?,
    returnType: Type,
    parameterTypes: seq<Type>,
    argumentCount: nat,
    invocation: Invocation)

  ghost function RankOf(t: Type?): nat
  {
    if t == null then 0 else t.rank
  }

  function Max(a: nat, b: nat): nat
  {
    if a < b then b else a
  }

  class Type {
    const name: string
    const base: Type?
    const pointerTo: Type?
    const referenceTo: Type?
    const constOf: Type?
    ghost const rank: nat
    var functions: seq<(string, Function)>
    var properties: seq<(string, Property)>
    var fields: seq<(string, Field)>

    /** Every link leads to a node of smaller rank, and so on down the graph. */
    ghost predicate Acyclic()
      decreases rank
    {
      && (base != null ==> base.rank < rank && base.Acyclic())
      && (pointerTo != null ==> pointerTo.rank < rank && pointerTo.Acyclic())
      && (referenceTo != null ==> referenceTo.rank < rank && referenceTo.Acyclic())
      && (constOf != null ==> constOf.rank < rank && constOf.Acyclic())
    }

    constructor (name: string, base: Type?, pointerTo: Type?, referenceTo: Type?, constOf: Type?)
      requires base != null ==> base.Acyclic()
      requires pointerTo != null ==> pointerTo.Acyclic()
      requires referenceTo != null ==> referenceTo.Acyclic()
      requires constOf != null ==> constOf.Acyclic()
      ensures Acyclic()
      ensures this.name == name && this.base == base
      ensures this.pointerTo == pointerTo && this.referenceTo == referenceTo && this.constOf == constOf
      ensures functions == [] && properties == [] && fields == []
    {
      this.name := name;
      this.base := base;
      this.pointerTo := pointerTo;
      this.referenceTo := referenceTo;
      this.constOf := constOf;
      this.rank := 1 + Max(Max(RankOf(base), RankOf(pointerTo)), Max(RankOf(referenceTo), RankOf(constOf)));
      functions, properties, fields := [], [], [];
    }

    // ---------------------------------------------------------------- base chain

    /** This type followed by its base, its base's base, and so on to the root. */
    ghost function BaseChain(): (s: seq<Type>)
      requires Acyclic()
      ensures |s| > 0 && s[0] == this
      ensures forall i :: 0 <= i < |s| ==> s[i].Acyclic() && s[i].rank <= rank
      decreases rank
    {
      [this] + (if base == null then [] else base.BaseChain())
    }

    /** The base chain cut just before the first node equal to `stop`. */
    ghost function ChainUntil(stop: Type?): seq<Type>
      requires Acyclic()
      decreases rank
    {
      if this == stop then []
      else [this] + (if base == null then [] else base.ChainUntil(stop))
    }

    /** Whether `t` is this type or one of its ancestors. */
    method IsA(t: Type?) returns (r: bool)
      requires Acyclic()
      ensures r <==> t in BaseChain()
      ensures t == this ==> r
    {
      var cur: Type := this;
      if cur == t {
        return true;
      }
      ghost var seen: seq<Type> := [cur];
      while cur.base != null
        invariant cur.Acyclic()
        invariant cur.base != null ==> BaseChain() == seen + cur.base.BaseChain()
        invariant cur.base == null ==> BaseChain() == seen
        invariant t !in seen
        decreases cur.rank
      {
        cur := cur.base;
        if cur == t {
          return true;
        }
        if cur.base == null {
          assert cur.BaseChain() == [cur];
        } else {
          assert cur.BaseChain() == [cur] + cur.base.BaseChain();
        }
        seen := seen + [cur];
      }
      return false;
    }

    /** Whether `t` occurs on the base chain strictly before the first node equal to `stop`. */
    method IsAUntil(t: Type?, stop: Type?) returns (r: bool)
      requires Acyclic()
      ensures r <==> t in ChainUntil(stop)
      ensures stop == this ==> !r
    {
      var cur: Type? := this;
      ghost var seen: seq<Type> := [];
      while cur != null && cur != stop
        invariant cur != null ==> cur.Acyclic()
        invariant cur != null ==> ChainUntil(stop) == seen + cur.ChainUntil(stop)
        invariant cur == null ==> ChainUntil(stop) == seen
        invariant t !in seen
        decreases if cur == null then 0 else cur.rank + 1
      {
        if cur == t {
          return true;
        }
        ghost var next := cur.base;
        if next == null {
          assert cur.ChainUntil(stop) == [cur];
        } else {
          assert cur.ChainUntil(stop) == [cur] + next.ChainUntil(stop);
        }
        seen := seen + [cur];
        cur := cur.base;
      }
      return false;
    }

    /** When `stop` is not on the chain (null included) the bounded walk sees the whole chain. */
    lemma {:induction false} ChainUntilUnreached(stop: Type?)
      requires Acyclic()
      requires stop !in BaseChain()
      ensures ChainUntil(stop) == BaseChain()
      decreases rank
    {
      if base != null {
        base.ChainUntilUnreached(stop);
      }
    }

    /** With no stop type, IsAUntil agrees with IsA. */
    lemma ChainUntilNull()
      requires Acyclic()
      ensures ChainUntil(null) == BaseChain()
    {
      ChainUntilUnreached(null);
    }

    /** When `stop` is an ancestor, the chain splits at its first occurrence:
        what the bounded walk sees, then the chain of `stop` itself. */
    lemma {:induction false} ChainSplit(stop: Type)
      requires Acyclic()
      requires stop in BaseChain()
      ensures stop.Acyclic()
      ensures stop !in ChainUntil(stop)
      ensures BaseChain() == ChainUntil(stop) + stop.BaseChain()
      decreases rank
    {
      if this != stop {
        assert base != null && BaseChain() == [this] + base.BaseChain();
        base.ChainSplit(stop);
        assert ChainUntil(stop) == [this] + base.ChainUntil(stop);
      }
    }

    /** The bounded walk only sees a prefix of the chain, so a bounded IsA implies IsA. */
    lemma {:induction false} ChainUntilPrefix(stop: Type?)
      requires Acyclic()
      ensures ChainUntil(stop) <= BaseChain()
      decreases rank
    {
      if this != stop && base != null {
        base.ChainUntilPrefix(stop);
      }
    }

    /** IsA is transitive: an ancestor of an ancestor is an ancestor. */
    lemma IsATransitive(b: Type, c: Type)
      requires Acyclic()
      requires b in BaseChain() && c in b.BaseChain()
      ensures c in BaseChain()
    {
      ChainSplit(b);
    }

    // ---------------------------------------------------------- modifier links

    predicate Unqualified()
    {
      pointerTo == null && referenceTo == null && constOf == null
    }

    /** The one link a stripping step follows: pointer-to, else reference-to, else const-of. */
    function ModifierStep(): (next: Type?)
      ensures next == null <==> Unqualified()
      ensures pointerTo != null ==> next == pointerTo
      ensures pointerTo == null && referenceTo != null ==> next == referenceTo
      ensures pointerTo == null && referenceTo == null ==> next == constOf
    {
      if pointerTo != null then pointerTo
      else if referenceTo != null then referenceTo
      else constOf
    }

    /** The type reached by stripping one modifier at a time until none is left. */
    ghost function MostBasic(): Type
      requires Acyclic()
      decreases rank
    {
      if Unqualified() then this else ModifierStep().MostBasic()
    }

    method GetMostBasicType() returns (r: Type)
      requires Acyclic()
      ensures r == MostBasic() && r.Unqualified()
    {
      var cur: Type := this;
      while cur.pointerTo != null || cur.referenceTo != null || cur.constOf != null
        invariant cur.Acyclic() && cur.MostBasic() == MostBasic()
        decreases cur.rank
      {
        if cur.pointerTo != null {
          cur := cur.pointerTo;
        } else if cur.referenceTo != null {
          cur := cur.referenceTo;
        } else if cur.constOf != null {
          cur := cur.constOf;
        }
      }
      return cur;
    }

    /** The most basic type has no modifier link left and is no higher in the graph. */
    lemma {:induction false} MostBasicUnqualified()
      requires Acyclic()
      ensures MostBasic().Unqualified() && MostBasic().Acyclic()
      ensures MostBasic().rank <= rank
      decreases rank
    {
      if !Unqualified() {
        ModifierStep().MostBasicUnqualified();
      }
    }

    /** A type is its own most basic type exactly when it carries no modifier. */
    lemma MostBasicFixedPoint()
      requires Acyclic()
      ensures MostBasic() == this <==> Unqualified()
    {
      if !Unqualified() {
        ModifierStep().MostBasicUnqualified();
      }
    }

    /** Stripping twice gives what stripping once gives. */
    lemma MostBasicIdempotent()
      requires Acyclic()
      ensures MostBasic().Acyclic() && MostBasic().MostBasic() == MostBasic()
    {
      MostBasicUnqualified();
      MostBasic().MostBasicFixedPoint();
    }

    // ---------------------------------------------------- descriptor collections

    method AddFunction(f: Function) returns (r: Function)
      modifies this`functions
      ensures r == f
      ensures functions == old(functions) + [(f.name, f)]
      ensures properties == old(properties) && fields == old(fields)
    {
      functions := functions + [(f.name, f)];
      r := f;
    }

    method AddProperty(p: Property) returns (r: Property)
      modifies this`properties
      ensures r == p
      ensures properties == old(properties) + [(p.name, p)]
      ensures functions == old(functions) && fields == old(fields)
    {
      properties := properties + [(p.name, p)];
      r := p;
    }

    method AddField(f: Field) returns (r: Field)
      modifies this`fields
      ensures r == f
      ensures fields == old(fields) + [(f.property.name, f)]
      ensures functions == old(functions) && properties == old(properties)
    {
      fields := fields + [(f.property.name, f)];
      r := f;
    }

    /** The earliest field called `name`, or null when there is none. */
    function GetFirstField(name: string): (r: Field?)
      reads this
      ensures r == null <==> forall i :: 0 <= i < |fields| ==> fields[i].0 != name
      ensures r != null ==>
        exists i :: 0 <= i < |fields| && fields[i] == (name, r) && forall j :: 0 <= j < i ==> fields[j].0 != name
    {
      match FindFirst(fields, name)
      case None => null
      case Some(i) => fields[i].1
    }
  }

  // ------------------------------------------------------------------ Function

  /** A callable bound to a type. The signature is fixed at construction;
      parameter names, documentation, attributes and the owning type are set later. */
  class Function {
    const name: string
    var owningType: Type?
    const returnType: Type
    const parameterTypes: seq<Type>
    var parameterNames: seq<string>
    var documentation: string
    var attributes: seq<Attribute>
    const invocation: Invocation

    /** The descriptor carries the signature `bound` under `name`. */
    predicate HasSignature(name: string, bound: BoundCallable)
    {
      && this.name == name
      && returnType == bound.returnType
      && parameterTypes == bound.parameterTypes
      && invocation == bound.invocation
    }

    /** Nothing has been configured on the descriptor yet. */
    predicate Unconfigured()
      reads this
    {
      parameterNames == [] && documentation == "" && attributes == []
    }

    constructor (name: string, bound: BoundCallable)
      ensures HasSignature(name, bound) && owningType == bound.owningType && Unconfigured()
    {
      this.name := name;
      this.owningType := bound.owningType;
      this.returnType := bound.returnType;
      this.parameterTypes := bound.parameterTypes;
      this.invocation := bound.invocation;
      this.parameterNames := [];
      this.documentation := "";
      this.attributes := [];
    }
  }

  // ------------------------------------------------------------------ Property

  /** A named get/set pair. It owns its getter and setter, either of which may be null. */
  class Property {
    var owningType: Type?
    var propertyType: Type
    const name: string
    const getter: Function?
    const setter: Function?

    /** The owning type and value type follow from the accessors: the setter's
        owning type and most basic parameter 1 when there is a setter, otherwise
        the getter's owning type and most basic return type. */
    ghost predicate DerivedFromAccessors()
      reads this, getter, setter
    {
      if setter != null then
        && owningType == setter.owningType
        && |setter.parameterTypes| >= 2 && setter.parameterTypes[1].Acyclic()
        && propertyType == setter.parameterTypes[1].MostBasic()
      else
        && getter != null
        && owningType == getter.owningType
        && getter.returnType.Acyclic()
        && propertyType == getter.returnType.MostBasic()
    }

    constructor (name: string, getter: Function?, setter: Function?)
      requires getter != null || setter != null
      requires getter != null && setter != null ==> getter != setter
      requires getter != null ==> getter.returnType.Acyclic()
      requires setter != null ==> |setter.parameterTypes| >= 2 && setter.parameterTypes[1].Acyclic()
      ensures this.name == name && this.getter == getter && this.setter == setter
      ensures DerivedFromAccessors()
    {
      this.name := name;
      this.getter := getter;
      this.setter := setter;
      var valueType;
      if setter != null {
        owningType := setter.owningType;
        valueType := setter.parameterTypes[1].GetMostBasicType();
      } else {
        owningType := getter.owningType;
        valueType := getter.returnType.GetMostBasicType();
      }
      propertyType := valueType;
    }

    /** The owning type: the setter's when there is one, else the getter's. */
    function GetOwningType(): (t: Type?)
      reads this, getter, setter
      ensures DerivedFromAccessors() ==>
        t == if setter != null then setter.owningType else getter.owningType
    {
      owningType
    }

    /** The value type: the most basic setter parameter 1 when there is a
        setter, else the most basic getter return type, unless reset since. */
    function GetPropertyType(): (t: Type)
      reads this, getter, setter
      ensures DerivedFromAccessors() && setter != null ==> t == setter.parameterTypes[1].MostBasic()
      ensures DerivedFromAccessors() && setter == null ==> t == getter.returnType.MostBasic()
    {
      propertyType
    }

    /** The name fixed at construction; no operation changes it. */
    function GetName(): (r: string)
      ensures r == name
    {
      name
    }

    /** The getter, which may be null, but only when there is a setter. */
    function GetGetter(): (g: Function?)
      reads this, getter, setter
      ensures g == getter
      ensures DerivedFromAccessors() && g == null ==> setter != null
    {
      getter
    }

    /** The setter, which may be null; without one, the getter decides the types. */
    function GetSetter(): (s: Function?)
      reads this, getter, setter
      ensures s == setter
      ensures DerivedFromAccessors() && s == null ==> getter != null && owningType == getter.owningType
    {
      setter
    }

    method SetPropertyType(t: Type)
      modifies this`propertyType
      ensures GetPropertyType() == t
      ensures GetOwningType() == old(GetOwningType())
    {
      propertyType := t;
    }
  }

  // --------------------------------------------------------------------- Field

  /** A Property bound to a data member at a byte offset. */
  class Field {
    const property: Property
    var offset: nat

    constructor (name: string, getter: Function?, setter: Function?)
      requires getter != null || setter != null
      requires getter != null && setter != null ==> getter != setter
      requires getter != null ==> getter.returnType.Acyclic()
      requires setter != null ==> |setter.parameterTypes| >= 2 && setter.parameterTypes[1].Acyclic()
      ensures fresh(property) && offset == 0
      ensures property.name == name && property.getter == getter && property.setter == setter
      ensures property.DerivedFromAccessors()
    {
      property := new Property(name, getter, setter);
      offset := 0;
    }

    method SetOffset(o: nat)
      modifies this`offset
      ensures offset == o
    {
      offset := o;
    }
  }
}
