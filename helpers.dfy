/**
 * The operations of the serializer shape resolver that read and update the
 * host's metadata store: the two metadata accessors, the model-field type
 * lookup and the record synthesis. Each is proved against the matching
 * function of `DrfMetadata`, `FieldTypes` or `ShapeSpec`; the only change
 * any of them makes to the store is the empty "drf" bag that
 * `setdefault('drf', {})` creates on a class that had none.
 */
module Helpers {
  import opened Wrappers
  import opened Host
  import opened DrfMetadata
  import opened FieldTypes
  import opened ShapeSpec

  /** Adding empty bags keeps every `types` entry well formed. */
  lemma ExtendsKeepsTypes(before: Bags, after: Bags)
    requires Extends(before, after) && TypesWellFormed(before)
    ensures TypesWellFormed(after)
  {
  }

  /** Bags created by `setdefault` do not change how a declared model field is typed. */
  lemma ModelStepAfterBags(classes: ClassTable, drf: Bags, cs: seq<string>, deserializers: Deserializers,
                           model: string, items: Items, f: string)
    requires WellFormedTable(classes) && model in classes && MappingResolves(classes) && TypesWellFormed(drf)
    ensures TypesWellFormed(EnsureBags(drf, cs))
    ensures ModelStep(classes, EnsureBags(drf, cs), deserializers, model, items, f)
         == ModelStep(classes, drf, deserializers, model, items, f)
    ensures ModelValueTouched(classes, EnsureBags(drf, cs), model, f) == ModelValueTouched(classes, drf, model, f)
  {
    EnsureBagsExtends(drf, cs);
    ExtendsKeepsTypes(drf, EnsureBags(drf, cs));
    ExtendsSameBags(drf, EnsureBags(drf, cs));
    ModelValueSeesOnlyBags(classes, drf, EnsureBags(drf, cs), deserializers, model, f);
  }

  /** Bags created by `setdefault` do not change the second phase. */
  lemma ModelPhaseAfterBags(classes: ClassTable, drf: Bags, cs: seq<string>, deserializers: Deserializers,
                            model: string, fs: seq<string>, items0: Items)
    requires WellFormedTable(classes) && model in classes && MappingResolves(classes) && TypesWellFormed(drf)
    ensures TypesWellFormed(EnsureBags(drf, cs))
    ensures ModelPhase(classes, EnsureBags(drf, cs), deserializers, model, fs, items0)
         == ModelPhase(classes, drf, deserializers, model, fs, items0)
    ensures ModelPhaseTouched(classes, EnsureBags(drf, cs), deserializers, model, fs, items0)
         == ModelPhaseTouched(classes, drf, deserializers, model, fs, items0)
  {
    EnsureBagsExtends(drf, cs);
    ExtendsKeepsTypes(drf, EnsureBags(drf, cs));
    ExtendsSameBags(drf, EnsureBags(drf, cs));
    ModelPhaseSeesOnlyBags(classes, drf, EnsureBags(drf, cs), deserializers, model, fs, items0);
  }

  /** The host's classes and, for each class that has one, its "drf" metadata bag. */
  class Store {
    const classes: ClassTable
    var drf: Bags

    ghost predicate Valid()
      reads this
    {
      && drf.Keys <= classes.Keys
      && TypesWellFormed(drf)
    }

    constructor (classes: ClassTable, drf: Bags)
      requires drf.Keys <= classes.Keys && TypesWellFormed(drf)
      ensures Valid()
      ensures this.classes == classes && this.drf == drf
    {
      this.classes := classes;
      this.drf := drf;
    }

    /**
     * `get_drf_metadata`: the class's bag, created empty if it has none;
     * an existing bag is handed back unchanged.
     */
    method GetDrfMetadata(c: string) returns (bag: Bag)
      requires Valid() && c in classes
      modifies this
      ensures Valid()
      ensures bag == BagOf(old(drf), c)
      ensures drf == EnsureBag(old(drf), c)
    {
      if c !in drf {
        drf := drf[c := map[]];
      }
      bag := drf[c];
      EnsureBagExtends(old(drf), c);
      ExtendsKeepsTypes(old(drf), drf);
    }

    /**
     * `get_drf_metadata_key`: the value under `key` in the first bag that
     * has it, along the MRO or in the class's own bag only; every class
     * visited gets a bag if it had none.
     */
    method GetDrfMetadataKey(c: string, key: string, traverse: bool) returns (v: Json)
      requires Valid() && c in classes
      requires forall k :: 0 <= k < |Infos(classes, c, traverse)| ==> Infos(classes, c, traverse)[k] in classes
      modifies this
      ensures Valid()
      ensures v == MetadataKey(classes, old(drf), c, key, traverse)
      ensures drf == EnsureBags(old(drf), Visited(old(drf), Infos(classes, c, traverse), key))
    {
      var infos := if traverse then classes[c].mro else [c];
      assert infos == Infos(classes, c, traverse);
      var i := 0;
      while i < |infos|
        invariant 0 <= i <= |infos|
        invariant Valid()
        invariant drf == EnsureBags(old(drf), infos[..i])
        invariant forall j :: 0 <= j < i ==> key !in BagOf(old(drf), infos[j])
      {
        var metadata := GetDrfMetadata(infos[i]);
        assert drf == EnsureBags(old(drf), infos[..i + 1]) by {
          EnsureBagsStep(old(drf), infos, i);
        }
        assert metadata == BagOf(old(drf), infos[i]) by {
          EnsureBagsBagOf(old(drf), infos[..i], infos[i]);
        }
        if key in metadata {
          v := metadata[key];
          assert v == MetadataKey(classes, old(drf), c, key, traverse)
              && Visited(old(drf), infos, key) == infos[..i + 1] by {
            FirstWithKeyAt(old(drf), infos, key, i);
          }
          return;
        }
        i := i + 1;
      }
      v := JNull;
      assert infos[..i] == infos;
    }

    /**
     * `get_type_for_model_field`: the type a model field of the given type
     * gets, read from the `types` metadata of the serializer field mapped
     * to it.
     */
    method TypeForModelField(modelFieldType: Type, deserializers: Deserializers, usePrimitive: bool)
      returns (r: Type)
      requires Valid() && WellFormedTable(classes) && MappingResolves(classes) && modelFieldType.Named?
      modifies this
      ensures Valid()
      ensures r == ModelFieldType(classes, old(drf), deserializers, modelFieldType.fullname, usePrimitive)
      ensures drf == EnsureBags(old(drf), ModelFieldTouched(classes, old(drf), modelFieldType.fullname))
    {
      var fieldTypeFullname := SerializerFieldFor(modelFieldType.fullname);
      if fieldTypeFullname.None? {
        return AnyExplicit;
      }
      var fieldType := fieldTypeFullname.value;
      assert fieldType in SERIALIZER_FIELD_MAPPING.Values;
      var types := GetDrfMetadataKey(fieldType, "types", true);
      assert types == FieldTypesEntry(classes, old(drf), fieldType);
      if Truthy(types) {
        var typData := if usePrimitive then types.fields["primitive"] else types.fields["actual"];
        r := DeserializeType(deserializers, typData);
        return;
      }
      r := AnyExplicit;
    }

    /**
     * `get_corresponding_typeddict`: the record type of the serializer
     * `serializerType`: its Field-typed members along the reversed MRO, then,
     * for a model serializer linked to a model, the declared model fields.
     */
    method CorrespondingTypedDict(serializerType: Type, deserializers: Deserializers, usePrimitive: bool)
      returns (r: Type)
      requires Valid() && serializerType.Named?
      requires ShapeOk(classes, drf, serializerType.fullname, usePrimitive)
      modifies this
      ensures Valid()
      ensures r == Shape(classes, old(drf), deserializers, serializerType.fullname, usePrimitive)
      ensures drf == EnsureBags(old(drf), ShapeTouched(classes, old(drf), deserializers, serializerType.fullname, usePrimitive))
    {
      var c := serializerType.fullname;
      var items := FieldMembers(classes, c, usePrimitive);
      ghost var phase1 := items;
      if HasBase(classes, c, MODEL_SERIALIZER_FULLNAME) {
        var bag := GetDrfMetadata(c);
        var baseModelFullname := if "base_model" in bag then bag["base_model"] else JNull;
        assert EnsureBags(old(drf), [c]) == EnsureBag(old(drf), c) by {
          assert [c][..0] == [];
        }
        if !baseModelFullname.JNull? {
          assert ModelLinked(classes, old(drf), c);
          var baseModel := baseModelFullname.s;
          var bag2 := GetDrfMetadata(c);
          var definedModelFields := DeclaredFields(bag2);
          assert EnsureBags(old(drf), [c, c]) == drf by {
            assert [c, c][..1] == [c];
          }
          items := AddModelFields(baseModel, definedModelFields, items, deserializers);
          ModelPhaseAfterBags(classes, old(drf), [c, c], deserializers, baseModel, definedModelFields, phase1);
          EnsureBagsAppend(old(drf), [c, c],
                           ModelPhaseTouched(classes, old(drf), deserializers, baseModel, definedModelFields, phase1));
        }
      }
      r := TypedDict(items, KeySet(items), Named("builtins.dict", [Named("builtins.str", []), AnyExplicit]));
    }

    /** One iteration of the second phase: the declared name `f`, unless already in the record. */
    method AddModelField(model: string, items0: Items, f: string, deserializers: Deserializers)
      returns (items: Items)
      requires Valid() && WellFormedTable(classes) && MappingResolves(classes) && model in classes
      modifies this
      ensures Valid()
      ensures items == ModelStep(classes, old(drf), deserializers, model, items0, f)
      ensures drf == EnsureBags(old(drf), if f in Keys(items0) then [] else ModelValueTouched(classes, old(drf), model, f))
    {
      items := items0;
      if f !in Keys(items) {
        var sym := ClassGet(classes, model, f);
        if f == "id" && IsAutogeneratedPrimaryKey(sym) {
          items := items + [(f, Named("builtins.int", []))];
        } else if sym.Some? && sym.value.typ.Some? && IsInstanceOf(classes, sym.value.typ.value, DJANGO_FIELD_FULLNAME) {
          var t := TypeForModelField(sym.value.typ.value, deserializers, false);
          items := items + [(f, t)];
        }
      }
    }

    /** The second phase's loop over the declared names `fs`. */
    method AddModelFields(model: string, fs: seq<string>, items0: Items, deserializers: Deserializers)
      returns (items: Items)
      requires Valid() && WellFormedTable(classes) && MappingResolves(classes) && model in classes
      modifies this
      ensures Valid()
      ensures items == ModelPhase(classes, old(drf), deserializers, model, fs, items0)
      ensures drf == EnsureBags(old(drf), ModelPhaseTouched(classes, old(drf), deserializers, model, fs, items0))
    {
      items := items0;
      var k := 0;
      while k < |fs|
        invariant 0 <= k <= |fs|
        invariant Valid()
        invariant items == ModelPhase(classes, old(drf), deserializers, model, fs[..k], items0)
        invariant drf == EnsureBags(old(drf), ModelPhaseTouched(classes, old(drf), deserializers, model, fs[..k], items0))
      {
        ghost var done := ModelPhaseTouched(classes, old(drf), deserializers, model, fs[..k], items0);
        ghost var stepTouched := if fs[k] in Keys(items) then [] else ModelValueTouched(classes, old(drf), model, fs[k]);
        ModelStepAfterBags(classes, old(drf), done, deserializers, model, items, fs[k]);
        items := AddModelField(model, items, fs[k], deserializers);
        EnsureBagsAppend(old(drf), done, stepTouched);
        assert fs[..k + 1][..k] == fs[..k];
        k := k + 1;
      }
      assert fs[..k] == fs;
    }
  }
}
