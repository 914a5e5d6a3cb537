/**
 * Two worked instances of the record synthesis: a plain serializer whose
 * members are Fields, and a model serializer whose record comes entirely
 * from its linked model.
 */
module ShapeExamples {
  import opened Wrappers
  import opened Host
  import opened DrfMetadata
  import opened FieldTypes
  import opened ShapeSpec

  const OBJECT := "builtins.object"
  const INT := Named("builtins.int", [])
  const STR := Named("builtins.str", [])
  const DECIMAL := Named("decimal.Decimal", [])

  /** A class with no members of its own whose MRO is `mro`. */
  function Plain(mro: seq<string>): ClassInfo {
    ClassInfo(mro, [])
  }

  /** The members of `app.S`: `id: Field[int, int]` and `name: Field[str, str]`. */
  function PlainMembers(): seq<(string, Symbol)> {
    [("id", Symbol(Some(Named(FIELD_FULLNAME, [INT, INT])))),
     ("name", Symbol(Some(Named(FIELD_FULLNAME, [STR, STR]))))]
  }

  /** The plain serializer `app.S`, deriving from nothing but `object`. */
  function PlainClasses(): ClassTable {
    map[
      OBJECT := Plain([OBJECT]),
      FIELD_FULLNAME := Plain([FIELD_FULLNAME, OBJECT]),
      "app.S" := ClassInfo(["app.S", OBJECT], PlainMembers())
    ]
  }

  /** The first phase of `app.S` visits exactly its own two members. */
  lemma PlainDecls()
    ensures WellFormedTable(PlainClasses())
    ensures FieldDecls(PlainClasses(), "app.S") == PlainMembers()
  {
    var classes := PlainClasses();
    assert RevDecls(classes, [OBJECT]) == [];
    assert ["app.S", OBJECT][1..] == [OBJECT];
  }

  /** Both members are Fields, so both are recorded with their actual type. */
  lemma PlainCollect()
    ensures CanCollect(PlainClasses(), PlainMembers(), false)
    ensures Collect(PlainClasses(), PlainMembers(), false) == [("id", INT), ("name", STR)]
  {
    var classes := PlainClasses();
    var decls := PlainMembers();
    var first := [decls[0]];
    assert first[..0] == [];
    assert CanCollect(classes, first, false);
    assert Collect(classes, first, false) == [("id", INT)];
    assert decls[..1] == first;
  }

  /** `app.S`, with no metadata at all, gives the record `{id: int, name: str}`, both keys required. */
  lemma PlainSerializerShape(deserializers: Deserializers)
    ensures ShapeOk(PlainClasses(), map[], "app.S", false)
    ensures Shape(PlainClasses(), map[], deserializers, "app.S", false)
         == TypedDict([("id", INT), ("name", STR)], {"id", "name"}, DICT_FALLBACK)
    ensures ShapeTouched(PlainClasses(), map[], deserializers, "app.S", false) == []
  {
    PlainDecls();
    PlainCollect();
    var items := [("id", INT), ("name", STR)];
    assert Keys(items) == ["id", "name"];
    assert KeySet(items) == {"id", "name"};
  }

  /** The members of the model `app.Thing`: the automatic `id` and a decimal `price`. */
  function ThingMembers(): seq<(string, Symbol)> {
    [("id", Symbol(Some(Named(ID_TYPE, [])))),
     ("price", Symbol(Some(Named("django.db.models.fields.DecimalField", []))))]
  }

  /**
   * The model serializer `app.MS` linked to the model `app.Thing`; the
   * serializer field classes of the mapping table are plain `Field`
   * subclasses.
   */
  function ModelClasses(): ClassTable {
    map[
      OBJECT := Plain([OBJECT]),
      FIELD_FULLNAME := Plain([FIELD_FULLNAME, OBJECT]),
      "rest_framework.serializers.IntegerField" := Plain(["rest_framework.serializers.IntegerField", FIELD_FULLNAME, OBJECT]),
      "rest_framework.serializers.BooleanField" := Plain(["rest_framework.serializers.BooleanField", FIELD_FULLNAME, OBJECT]),
      "rest_framework.serializers.CharField" := Plain(["rest_framework.serializers.CharField", FIELD_FULLNAME, OBJECT]),
      "rest_framework.serializers.DateField" := Plain(["rest_framework.serializers.DateField", FIELD_FULLNAME, OBJECT]),
      "rest_framework.serializers.DateTimeField" := Plain(["rest_framework.serializers.DateTimeField", FIELD_FULLNAME, OBJECT]),
      "rest_framework.serializers.DecimalField" := Plain(["rest_framework.serializers.DecimalField", FIELD_FULLNAME, OBJECT]),
      MODEL_SERIALIZER_FULLNAME := Plain([MODEL_SERIALIZER_FULLNAME, OBJECT]),
      "app.MS" := Plain(["app.MS", MODEL_SERIALIZER_FULLNAME, OBJECT]),
      DJANGO_FIELD_FULLNAME := Plain([DJANGO_FIELD_FULLNAME, OBJECT]),
      "django.db.models.fields.DecimalField" :=
        Plain(["django.db.models.fields.DecimalField", DJANGO_FIELD_FULLNAME, OBJECT]),
      "app.Thing" := ClassInfo(["app.Thing", OBJECT], ThingMembers())
    ]
  }

  /** `base_model` and `fields` on `app.MS`; `types` on the serializer `DecimalField`. */
  function ModelBags(): Bags {
    map[
      "app.MS" := map["base_model" := JStr("app.Thing"), "fields" := JList([JStr("id"), JStr("price")])],
      "rest_framework.serializers.DecimalField" :=
        map["types" := JObject(map["actual" := JStr("decimal.Decimal"), "primitive" := JStr("builtins.str")])]
    ]
  }

  /** The table is well formed, every mapped serializer field is known, and `app.MS` declares no Field. */
  lemma ModelTable()
    ensures WellFormedTable(ModelClasses()) && MappingResolves(ModelClasses())
    ensures FieldDecls(ModelClasses(), "app.MS") == []
  {
    var classes := ModelClasses();
    assert RevDecls(classes, [OBJECT]) == [];
    assert ["app.MS", MODEL_SERIALIZER_FULLNAME, OBJECT][1..] == [MODEL_SERIALIZER_FULLNAME, OBJECT];
    assert [MODEL_SERIALIZER_FULLNAME, OBJECT][1..] == [OBJECT];
    assert RevDecls(classes, [MODEL_SERIALIZER_FULLNAME, OBJECT]) == [];
  }

  /** `app.MS` is linked to `app.Thing` and declares the names `id` and `price`. */
  lemma ModelLink()
    ensures TypesWellFormed(ModelBags())
    ensures ModelLinked(ModelClasses(), ModelBags(), "app.MS") && ModelLinkOk(ModelClasses(), ModelBags(), "app.MS")
    ensures LinkedModel(ModelClasses(), ModelBags(), "app.MS") == "app.Thing"
    ensures DeclaredFields(BagOf(ModelBags(), "app.MS")) == ["id", "price"]
  {
  }

  /** `app.Thing`'s own members are found directly on it. */
  lemma ThingLookups()
    ensures WellFormedTable(ModelClasses())
    ensures ClassGet(ModelClasses(), "app.Thing", "id") == Some(ThingMembers()[0].1)
    ensures ClassGet(ModelClasses(), "app.Thing", "price") == Some(ThingMembers()[1].1)
  {
    ModelTable();
    assert ThingMembers()[1..][0].0 == "price";
  }

  /** The Django `DecimalField` is typed by the `actual` descriptor of the serializer `DecimalField`. */
  lemma PriceType(deserializers: Deserializers)
    ensures MappingResolves(ModelClasses()) && TypesWellFormed(ModelBags())
    ensures ModelFieldType(ModelClasses(), ModelBags(), deserializers, "django.db.models.fields.DecimalField", false)
         == DECIMAL
  {
    ModelTable();
    ModelLink();
    MetadataKeyAlongMro(ModelClasses(), ModelBags(), "rest_framework.serializers.DecimalField", "types", 0);
  }

  /** The model types `id` as `int` and `price` as `Decimal`. */
  lemma ThingValues(deserializers: Deserializers)
    ensures WellFormedTable(ModelClasses()) && MappingResolves(ModelClasses()) && TypesWellFormed(ModelBags())
    ensures ModelValue(ModelClasses(), ModelBags(), deserializers, "app.Thing", "id") == Some(INT)
    ensures ModelValue(ModelClasses(), ModelBags(), deserializers, "app.Thing", "price") == Some(DECIMAL)
  {
    ThingLookups();
    PriceType(deserializers);
    assert IsInstanceOf(ModelClasses(), Named("django.db.models.fields.DecimalField", []), DJANGO_FIELD_FULLNAME);
  }

  /** The second phase over `id` and `price`, starting from the empty record. */
  lemma ThingPhase(deserializers: Deserializers)
    ensures WellFormedTable(ModelClasses()) && MappingResolves(ModelClasses()) && TypesWellFormed(ModelBags())
    ensures ModelPhase(ModelClasses(), ModelBags(), deserializers, "app.Thing", ["id", "price"], [])
         == [("id", INT), ("price", DECIMAL)]
  {
    ThingValues(deserializers);
    var classes, drf := ModelClasses(), ModelBags();
    var fs := ["id", "price"];
    assert fs[..1] == ["id"] && fs[..1][..0] == [];
    assert ModelStep(classes, drf, deserializers, "app.Thing", [], "id") == [("id", INT)];
    assert ModelPhase(classes, drf, deserializers, "app.Thing", fs[..1], []) == [("id", INT)];
    assert Keys([("id", INT)]) == ["id"];
    assert ModelStep(classes, drf, deserializers, "app.Thing", [("id", INT)], "price") == [("id", INT), ("price", DECIMAL)];
    assert fs[..|fs| - 1] == fs[..1];
  }

  /** `app.MS` gives the record `{id: int, price: Decimal}`. */
  lemma ModelSerializerShape(deserializers: Deserializers)
    ensures ShapeOk(ModelClasses(), ModelBags(), "app.MS", false)
    ensures Shape(ModelClasses(), ModelBags(), deserializers, "app.MS", false).items
         == [("id", INT), ("price", DECIMAL)]
  {
    ModelTable();
    ModelLink();
    ThingPhase(deserializers);
  }
}
