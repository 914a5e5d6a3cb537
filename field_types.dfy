/**
 * From declared types to the types of serialized values: the field-type
 * mapping table, the selection of a Field instance's type argument, the
 * adapter to the host's type deserializer, and the type a Django model field
 * gets in a serializer's record.
 */
module FieldTypes {
  import opened Wrappers
  import opened Host
  import opened DrfMetadata

  const FIELD_FULLNAME := "rest_framework.fields.Field"
  const MODEL_SERIALIZER_FULLNAME := "rest_framework.serializers.ModelSerializer"
  /** The Django model-field base class, as the companion Django plugin names it. */
  const DJANGO_FIELD_FULLNAME := "django.db.models.fields.Field"
  /** The placeholder type of a model's not yet resolved automatic primary key. */
  const ID_TYPE := "builtins.object"

  /** Django model-field class -> the serializer field class that represents it. */
  const SERIALIZER_FIELD_MAPPING: map<string, string> := map[
    "django.db.models.fields.AutoField" := "rest_framework.serializers.IntegerField",
    "django.db.models.fields.BigIntegerField" := "rest_framework.serializers.IntegerField",
    "django.db.models.fields.BooleanField" := "rest_framework.serializers.BooleanField",
    "django.db.models.fields.CharField" := "rest_framework.serializers.CharField",
    "django.db.models.fields.CommaSeparatedIntegerField" := "rest_framework.serializers.CharField",
    "django.db.models.fields.DateField" := "rest_framework.serializers.DateField",
    "django.db.models.fields.DateTimeField" := "rest_framework.serializers.DateTimeField",
    "django.db.models.fields.DecimalField" := "rest_framework.serializers.DecimalField"
  ]

  /**
   * `SERIALIZER_FIELD_MAPPING.get(name)`: an exact match on the fully
   * qualified name; a subclass of a listed model field is not found.
   */
  function SerializerFieldFor(modelField: string): (r: Option<string>)
    ensures r.Some? <==> modelField in {
      "django.db.models.fields.AutoField", "django.db.models.fields.BigIntegerField",
      "django.db.models.fields.BooleanField", "django.db.models.fields.CharField",
      "django.db.models.fields.CommaSeparatedIntegerField", "django.db.models.fields.DateField",
      "django.db.models.fields.DateTimeField", "django.db.models.fields.DecimalField"}
    ensures r.Some? ==> r.value in {
      "rest_framework.serializers.IntegerField", "rest_framework.serializers.BooleanField",
      "rest_framework.serializers.CharField", "rest_framework.serializers.DateField",
      "rest_framework.serializers.DateTimeField", "rest_framework.serializers.DecimalField"}
  {
    if modelField in SERIALIZER_FIELD_MAPPING then Some(SERIALIZER_FIELD_MAPPING[modelField]) else None
  }

  /** Both integer model fields are represented by the same serializer field. */
  lemma IntegerFieldsShareSerializerField()
    ensures SerializerFieldFor("django.db.models.fields.AutoField")
         == SerializerFieldFor("django.db.models.fields.BigIntegerField")
         == Some("rest_framework.serializers.IntegerField")
  {
  }

  /** Every serializer field class the table names is known to the host. */
  predicate MappingResolves(classes: ClassTable) {
    forall t :: t in SERIALIZER_FIELD_MAPPING.Values ==> t in classes
  }

  /** `get_field_type` indexes a type argument, so the instance must have it. */
  predicate HasFieldArgs(typ: Type, primitive: bool) {
    typ.Named? && |typ.args| > (if primitive then 1 else 0)
  }

  /**
   * `get_field_type`: a Field instance carries its actual value type as its
   * first type argument and its primitive (wire) type as its second.
   */
  function GetFieldType(typ: Type, primitive: bool): (r: Type)
    requires HasFieldArgs(typ, primitive)
    ensures r in typ.args
    ensures primitive ==> r == typ.args[1]
    ensures !primitive ==> r == typ.args[0]
  {
    if primitive then typ.args[1] else typ.args[0]
  }

  /** The host's deserialization routines, by the `.class` tag they handle. */
  type Deserializers = map<string, Json -> Type>

  /**
   * What `deserialize_type` accepts without raising: a type name, or a
   * record with a `.class` tag that can be looked up (a list or an object
   * as tag is unhashable).
   */
  predicate DescriptorOk(d: Json) {
    || d.JStr?
    || (d.JObject? && ".class" in d.fields && !d.fields[".class"].JList? && !d.fields[".class"].JObject?)
  }

  /** The descriptor is a record whose `.class` tag names a known routine. */
  predicate KnownTag(deserializers: Deserializers, d: Json) {
    d.JObject? && ".class" in d.fields && d.fields[".class"].JStr? && d.fields[".class"].s in deserializers
  }

  /**
   * `deserialize_type`: a bare name is that class with no type arguments; a
   * record is handed to the routine its tag names, and becomes the
   * error-flavoured `Any` when no routine has that tag.
   */
  function DeserializeType(deserializers: Deserializers, d: Json): (r: Type)
    requires DescriptorOk(d)
    ensures d.JStr? ==> r == Named(d.s, [])
    ensures KnownTag(deserializers, d) ==> r == deserializers[d.fields[".class"].s](d)
    ensures !d.JStr? && !KnownTag(deserializers, d) ==> r == AnyFromError
  {
    if d.JStr? then Named(d.s, [])
    else
      match d.fields[".class"]
      case JStr(tag) => if tag in deserializers then deserializers[tag](d) else AnyFromError
      case _ => AnyFromError
  }

  /**
   * What a `types` entry must look like for `get_type_for_model_field` not
   * to raise: either falsy, or an object with both descriptors.
   */
  predicate TypesEntryOk(j: Json) {
    Truthy(j) ==>
      && j.JObject?
      && "actual" in j.fields && DescriptorOk(j.fields["actual"])
      && "primitive" in j.fields && DescriptorOk(j.fields["primitive"])
  }

  /** Every `types` entry in every bag is well formed. */
  predicate TypesWellFormed(drf: Bags) {
    forall c :: c in drf && "types" in drf[c] ==> TypesEntryOk(drf[c]["types"])
  }

  /** The `types` entry read for the serializer field `target`, along its MRO. */
  function FieldTypesEntry(classes: ClassTable, drf: Bags, target: string): (j: Json)
    requires target in classes
    requires TypesWellFormed(drf)
    ensures TypesEntryOk(j)
  {
    MetadataKey(classes, drf, target, "types", true)
  }

  /**
   * `get_type_for_model_field`: the type a model field of class `modelField`
   * gets. Unmapped fields and serializer fields without (truthy) `types`
   * metadata give the explicit `Any`.
   */
  function ModelFieldType(classes: ClassTable, drf: Bags, deserializers: Deserializers,
                          modelField: string, usePrimitive: bool): Type
    requires MappingResolves(classes) && TypesWellFormed(drf)
  {
    match SerializerFieldFor(modelField)
    case None => AnyExplicit
    case Some(target) =>
      var types := FieldTypesEntry(classes, drf, target);
      if Truthy(types) then
        DeserializeType(deserializers, types.fields[if usePrimitive then "primitive" else "actual"])
      else AnyExplicit
  }

  /** The classes whose bags `get_type_for_model_field` consults (and creates if absent). */
  function ModelFieldTouched(classes: ClassTable, drf: Bags, modelField: string): seq<string>
    requires MappingResolves(classes)
  {
    match SerializerFieldFor(modelField)
    case None => []
    case Some(target) => Visited(drf, Infos(classes, target, true), "types")
  }

  /** A model field missing from the table gets the explicit `Any`, never the error marker. */
  lemma UnmappedFieldIsAnyExplicit(classes: ClassTable, drf: Bags, deserializers: Deserializers,
                                   modelField: string, usePrimitive: bool)
    requires MappingResolves(classes) && TypesWellFormed(drf)
    requires modelField !in SERIALIZER_FIELD_MAPPING
    ensures ModelFieldType(classes, drf, deserializers, modelField, usePrimitive) == AnyExplicit
    ensures ModelFieldTouched(classes, drf, modelField) == []
  {
  }

  /**
   * A mapped model field whose serializer field's nearest `types` entry
   * (at MRO position `i`) is truthy gets that entry's primitive descriptor
   * when `usePrimitive` holds and its actual descriptor otherwise; a falsy
   * nearest entry gives the explicit `Any`.
   */
  lemma MappedFieldSelectsVariant(classes: ClassTable, drf: Bags, deserializers: Deserializers,
                                  modelField: string, usePrimitive: bool, i: nat)
    requires MappingResolves(classes) && TypesWellFormed(drf)
    requires modelField in SERIALIZER_FIELD_MAPPING
    requires var mro := classes[SERIALIZER_FIELD_MAPPING[modelField]].mro;
      && i < |mro| && "types" in BagOf(drf, mro[i])
      && forall j :: 0 <= j < i ==> "types" !in BagOf(drf, mro[j])
    ensures var mro := classes[SERIALIZER_FIELD_MAPPING[modelField]].mro;
      var types := BagOf(drf, mro[i])["types"];
      && TypesEntryOk(types)
      && ModelFieldType(classes, drf, deserializers, modelField, usePrimitive)
         == if !Truthy(types) then AnyExplicit
            else if usePrimitive then DeserializeType(deserializers, types.fields["primitive"])
            else DeserializeType(deserializers, types.fields["actual"])
  {
    var target := SERIALIZER_FIELD_MAPPING[modelField];
    MetadataKeyAlongMro(classes, drf, target, "types", i);
  }

  /** With no `types` entry anywhere on the serializer field's MRO the result is the explicit `Any`. */
  lemma MappedFieldWithoutTypes(classes: ClassTable, drf: Bags, deserializers: Deserializers,
                                modelField: string, usePrimitive: bool)
    requires MappingResolves(classes) && TypesWellFormed(drf)
    requires modelField in SERIALIZER_FIELD_MAPPING
    requires var mro := classes[SERIALIZER_FIELD_MAPPING[modelField]].mro;
      forall j :: 0 <= j < |mro| ==> "types" !in BagOf(drf, mro[j])
    ensures ModelFieldType(classes, drf, deserializers, modelField, usePrimitive) == AnyExplicit
  {
  }

  /** The model-field type sees the bags only, not which classes happen to have one. */
  lemma ModelFieldTypeSeesOnlyBags(classes: ClassTable, d1: Bags, d2: Bags, deserializers: Deserializers,
                                   modelField: string, usePrimitive: bool)
    requires MappingResolves(classes) && TypesWellFormed(d1) && TypesWellFormed(d2)
    requires SameBags(d1, d2)
    ensures ModelFieldType(classes, d1, deserializers, modelField, usePrimitive)
         == ModelFieldType(classes, d2, deserializers, modelField, usePrimitive)
    ensures ModelFieldTouched(classes, d1, modelField) == ModelFieldTouched(classes, d2, modelField)
  {
    if modelField in SERIALIZER_FIELD_MAPPING {
      LookupsSeeOnlyBags(d1, d2, classes[SERIALIZER_FIELD_MAPPING[modelField]].mro, "types");
    }
  }

  /**
   * `is_autogenerated_primary_key`: the symbol exists and its declared type
   * is an instance of the identity placeholder class.
   */
  function IsAutogeneratedPrimaryKey(sym: Option<Symbol>): (r: bool)
    ensures r <==> sym.Some? && sym.value.typ.Some? && sym.value.typ.value.Named?
                   && sym.value.typ.value.fullname == ID_TYPE
  {
    match sym
    case None => false
    case Some(s) =>
      match s.typ
      case Some(Named(name, _)) => name == ID_TYPE
      case _ => false
  }
}
