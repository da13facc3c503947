// Small clients of the model that replay concrete registrations and check,
// from the contracts alone, what the reflection graph then answers.
module Scenarios {
  import opened Collections
  import R = Reflection
  import Registry
  import Meta

  /** The base chain D -> C -> B -> A. */
  method BaseChainQueries()
  {
    var a := new R.Type("A", null, null, null, null);
    var b := new R.Type("B", a, null, null, null);
    var c := new R.Type("C", b, null, null, null);
    var d := new R.Type("D", c, null, null, null);
    assert a.BaseChain() == [a];
    assert b.BaseChain() == [b, a];
    assert c.BaseChain() == [c, b, a];
    assert d.BaseChain() == [d, c, b, a];

    var r := d.IsA(d);
    assert r;
    r := d.IsA(b);
    assert r;
    r := b.IsA(d);
    assert !r;

    // The walk stops before it tests the stop type.
    assert d.ChainUntil(c) == [d];
    r := d.IsAUntil(b, c);
    assert !r;
    r := d.IsAUntil(c, c);
    assert !r;
    r := d.IsAUntil(d, c);
    assert r;
    r := d.IsAUntil(b, null);
    d.ChainUntilNull();
    assert r;
  }

  /** int, const int, const int *, and a reference to that pointer all strip to int. */
  method StrippingModifiers()
  {
    var int32 := new R.Type("int", null, null, null, null);
    var constInt := new R.Type("const int", null, null, null, int32);
    var ptr := new R.Type("const int*", null, constInt, null, null);
    var ref := new R.Type("const int*&", null, null, ptr, null);
    var m := int32.GetMostBasicType();
    assert m == int32;
    m := constInt.GetMostBasicType();
    assert m == int32;
    m := ptr.GetMostBasicType();
    assert m == int32;
    m := ref.GetMostBasicType();
    assert m == int32;
  }

  /** A second registration under a taken name changes nothing; an unknown name misses. */
  method RegistryFirstWins()
  {
    var registry := new Registry.GlobalTypes();
    var first := new R.Type("Widget", null, null, null, null);
    var second := new R.Type("Widget", null, null, null, null);
    registry.AddGlobalType("Widget", first);
    registry.AddGlobalType("Widget", second);
    var found := registry.GetGlobalType("Widget");
    assert found == first;
    var missing := registry.GetGlobalType("Gadget");
    assert missing == null;
  }

  /** Register a record type: its name then finds it, and a second type under the same name is ignored. */
  method RecordRegistration()
  {
    var registry := new Registry.GlobalTypes();
    var record := new R.Type("Record", null, null, null, null);
    var recordPtr := new R.Type("Record*", null, record, null, null);
    Meta.RegisterType(registry, record, R.BoundCallable(null, recordPtr, [], 0, R.NativeCallable(0)));
    var found := registry.GetGlobalType("Record");
    assert found == record;
    assert |record.functions| == 1 && record.functions[0].0 == "GetStaticType";
  }

  /** Give a record type one integer field bound GetSet, then find it by name. */
  method RecordWithField()
  {
    var voidType := new R.Type("void", null, null, null, null);
    var i32 := new R.Type("i32", null, null, null, null);
    var record := new R.Type("Record", null, null, null, null);
    var builder := new Meta.TypeBuilder(record);
    var field := builder.Field("Value", Meta.GetSet, i32, record, voidType, record, 0, 8);
    assert field.property.getter != null && field.property.setter != null;
    assert field.property.propertyType == i32 && field.offset == 8;
    assert record.fields == [("Value", field)];
    assert record.GetFirstField("Value") == field;
    assert record.GetFirstField("Other") == null;
  }

  /** Getter-only and setter-only properties take their value type from the accessor. */
  method PropertyValueTypes()
  {
    var owner := new R.Type("Shape", null, null, null, null);
    var voidType := new R.Type("void", null, null, null, null);
    var float := new R.Type("float", null, null, null, null);
    var double := new R.Type("double", null, null, null, null);
    var constDouble := new R.Type("const double", null, null, null, double);
    var builder := new Meta.TypeBuilder(owner);
    assert float.MostBasic() == float;
    assert constDouble.MostBasic() == double.MostBasic() == double;

    var area := builder.Property("Area", Some(R.BoundCallable(owner, float, [owner], 0, R.NativeCallable(1))), None);
    assert area.propertyType == float && area.owningType == owner && area.setter == null;

    var scale := builder.Property("Scale", None, Some(R.BoundCallable(owner, voidType, [owner, constDouble], 1, R.NativeCallable(2))));
    assert scale.propertyType == double && scale.getter == null;
  }
}
