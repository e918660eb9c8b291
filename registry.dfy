/** The registry that maps each document to the object type generated for
    it, and the module-level registry shared by types that name none. */
module Registry {
  import opened Wrappers
  import opened Dicts
  import opened Converter

  /** An object type as the registry sees it: its name, whether it is an
      `ElasticsearchObjectType` subclass, its document class and the
      registry named in its options. */
  datatype ObjectType = ObjectType(name: string, isObjectType: bool, document: string, registry: Registry?)

  /** Field objects are hashed by identity; `FieldId` stands for that id. */
  type FieldId = nat

  class Registry {
    /** `_registry`: document class name to object type. */
    var types: Dict<string, ObjectType>
    /** `_field_registry`. */
    var fieldRegistry: Dict<FieldId, Converted>
    /** The documents whose types were asked to `rescan_fields`, in order. */
    var rescans: seq<string>

    constructor()
      ensures types == [] && fieldRegistry == [] && rescans == []
    {
      types := [];
      fieldRegistry := [];
      rescans := [];
    }

    /** `register(cls)`: only an object type that names this registry is
        accepted; it is filed under its document (replacing an earlier
        type for that document) and every registered type is rescanned. */
    method Register(cls: ObjectType) returns (r: Result<()>)
      modifies this
      ensures !cls.isObjectType || cls.registry != this ==>
        r == Err(AssertionError) && types == old(types) && rescans == old(rescans) && fieldRegistry == old(fieldRegistry)
      ensures cls.isObjectType && cls.registry == this ==>
        && r == Ok(())
        && types == Put(old(types), cls.document, cls)
        && rescans == old(rescans) + Keys(types)
        && fieldRegistry == old(fieldRegistry)
      ensures r.Ok? ==> GetTypeForDocument(cls.document) == Some(cls)
    {
      if !cls.isObjectType || cls.registry != this {
        return Err(AssertionError);
      }
      types := Put(types, cls.document, cls);
      PutGet(old(types), cls.document, cls, cls.document);
      var i := 0;
      while i < |types|
        invariant 0 <= i <= |types|
        invariant rescans == old(rescans) + Keys(types)[..i]
        invariant types == Put(old(types), cls.document, cls) && fieldRegistry == old(fieldRegistry)
      {
        assert Keys(types)[..i + 1] == Keys(types)[..i] + [types[i].0];
        rescans := rescans + [types[i].0];
        i := i + 1;
      }
      assert Keys(types)[..|types|] == Keys(types);
      r := Ok(());
    }

    /** `get_type_for_document(document)`: None when nothing is registered
        for it. */
    function GetTypeForDocument(document: string): (r: Option<ObjectType>)
      reads this
      ensures r.None? <==> !HasKey(types, document)
      ensures r.Some? ==> Some(r.value) == Get(types, document)
    {
      Get(types, document)
    }

    method RegisterConvertedField(field: FieldId, converted: Converted)
      modifies this
      ensures fieldRegistry == Put(old(fieldRegistry), field, converted)
      ensures GetConvertedField(field) == Some(converted)
      ensures forall f :: f != field ==> GetConvertedField(f) == old(GetConvertedField(f))
      ensures types == old(types) && rescans == old(rescans)
    {
      fieldRegistry := Put(fieldRegistry, field, converted);
      PutProperties(old(fieldRegistry), field, converted);
    }

    /** `get_converted_field(field)`: None for a field never registered. */
    function GetConvertedField(field: FieldId): (r: Option<Converted>)
      reads this
      ensures r.None? <==> !HasKey(fieldRegistry, field)
      ensures r.Some? ==> Some(r.value) == Get(fieldRegistry, field)
    {
      Get(fieldRegistry, field)
    }
  }

  /** Registering two types for one document keeps the later; the earlier
      is no longer found. */
  method Reregister(reg: Registry, a: ObjectType, b: ObjectType) returns (found: Option<ObjectType>)
    requires a.isObjectType && b.isObjectType && a.registry == reg && b.registry == reg
    requires a.document == b.document
    modifies reg
    ensures found == Some(b)
  {
    var _ := reg.Register(a);
    var _ := reg.Register(b);
    found := reg.GetTypeForDocument(a.document);
  }

  /** The module-level `registry` variable behind `get_global_registry` and
      `reset_global_registry`. */
  class GlobalRegistry {
    var registry: Registry?

    constructor()
      ensures registry == null
    {
      registry := null;
    }

    /** `get_global_registry()`: a new, empty registry when there is none,
        and otherwise the same instance. */
    method Get() returns (r: Registry)
      modifies this
      ensures old(registry) != null ==> r == old(registry)
      ensures old(registry) == null ==> fresh(r) && r.types == [] && r.fieldRegistry == [] && r.rescans == []
      ensures registry == r
    {
      if registry == null {
        registry := new Registry();
      }
      r := registry;
    }

    /** `reset_global_registry()`. */
    method Reset()
      modifies this
      ensures registry == null
    {
      registry := null;
    }
  }

  /** Two lookups with no reset between them give the same registry; after a
      reset the next lookup gives a fresh one. */
  method SameUntilReset(g: GlobalRegistry) returns (a: Registry, b: Registry, c: Registry)
    modifies g
    ensures a == b && fresh(c) && c != a
  {
    a := g.Get();
    b := g.Get();
    g.Reset();
    c := g.Get();
  }
}
