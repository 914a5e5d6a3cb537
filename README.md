# Serializer shape resolver of the DRF type-checker plugin

This project is a Dafny model of the helpers the Django REST framework plugin
for mypy uses to work out the output record of a serializer class. Given a
serializer, the plugin computes an ordered record, a `TypedDict`, of the
serializer's fields and their types. It does this in two phases:

- It walks the serializer's method resolution order (MRO) in reverse and
  collects every member typed as a `rest_framework.fields.Field` instance.
  It takes the first or the second type argument, depending on whether the
  actual or the primitive (wire) representation was asked for. A name is
  recorded only once.
- For a `ModelSerializer` linked to a model through its own `base_model`
  metadata, it adds the names listed in the serializer's own `fields`
  metadata, typed from the model. The automatic primary key `id` becomes
  `int`. A Django model field is typed through a fixed table that maps it
  to a serializer field class, and then through that class's `types`
  metadata.

The record's required keys are exactly its keys, and its fallback is
`dict[str, Any]`.

The plugin keeps per-class facts in a `drf` metadata bag. It reads them with
two accessors:

- `get_drf_metadata` is a `setdefault`: it creates an empty bag when a class
  has none.
- `get_drf_metadata_key` looks a key up in the class's own bag, or along its
  MRO, creating empty bags on the classes it visits.

Structure:

- `host.dfy` (`Host`): the host checker's objects. It has JSON values,
  types, symbols, and the class table: MRO and own members per class, keyed
  by full name. It also has `TypeInfo.get` along the MRO, and `has_base`.
- `drf_metadata.dfy` (`DrfMetadata`): the `drf` bags as values. It defines
  `setdefault` on them, the keyed lookup, and the list of classes a lookup
  visits.
- `field_types.dfy` (`FieldTypes`): the mapping table, `get_field_type`,
  `deserialize_type`, `is_autogenerated_primary_key`, and the type a model
  field gets (`get_type_for_model_field`) as a function of the store.
- `shape_spec.dfy` (`ShapeSpec`): the record as functions of the class table
  and the store, with its properties.
  - `FieldMembers` and `VisitMembers` are the first phase's nested loops,
    proved against those functions.
- `helpers.dfy` (`Helpers`): class `Store`, which holds the class table and
  the mutable `drf` bags. It has the four operations that read or update the
  bags, each proved against the matching function. Each method also states
  which bags it creates.
- `shape_examples.dfy` (`ShapeExamples`): two worked records.
  - A plain serializer with `id: Field[int, int]` and `name: Field[str, str]`
    gives `{id: int, name: str}`.
  - A model serializer with `fields = ["id", "price"]`, linked to a model
    whose `id` is the identity placeholder and whose `price` is a
    `DecimalField`, gives `{id: int, price: Decimal}`.

Where the plugin would raise, the model has a precondition:

- `KeyError` on a record descriptor without `.class`, `TypeError` on an
  unhashable tag, or `TypeError` on a descriptor that is neither a string
  nor an object (null, a number, a boolean or a list), which cannot be
  indexed by `'.class'`: `DescriptorOk`.
- `TypeError` on a truthy `types` entry that is not a mapping:
  `TypesEntryOk`. Its stronger demands are listed under "Left out".
- `IndexError` on a Field instance with too few type arguments:
  `HasFieldArgs`, `CanCollect`.
- A `base_model` or a mapped serializer field that the host cannot resolve:
  `ModelLinkOk`, `MappingResolves`.

- `TypeError` on a `fields` entry that cannot be iterated (null, a number
  or a boolean), or on a `fields` list with a list or object element,
  which is unhashable and fails the membership test:
  `FieldsOk`. It also excludes some inputs that do not raise, listed
  under "Left out".

A name is recorded once. The reversed MRO is walked and a name is never
re-inserted, so the most basic declaration wins and a derived class's
redeclaration is ignored (`BaseDeclarationWins`).

## Model

| member | source | states |
|---|---|---|
| Host.NamesGet | mypy_drf_plugin/helpers.py:95 | a member table lookup finds a symbol exactly when some entry has that name, and the symbol found is one declared under it |
| Host.MroGet | mypy_drf_plugin/helpers.py:95 | the lookup along the MRO finds a symbol exactly when some class on the MRO declares the name |
| Host.MroGetFirst | mypy_drf_plugin/helpers.py:95 | the symbol found is the one declared by the first class on the MRO that declares the name, so a derived declaration hides a base one |
| Host.ClassGet | mypy_drf_plugin/helpers.py:95 | `TypeInfo.get`: the lookup along the class's own MRO, the class itself first; what it finds is stated by `MroGet` and `MroGetFirst` |
| Host.HasBase | mypy_drf_plugin/helpers.py:85 | `has_base`: some class on the MRO of the named class is the base; a class unknown to the host has no bases |
| FieldTypes.SerializerFieldFor | mypy_drf_plugin/helpers.py:21-30 | the table lookup succeeds exactly for the eight listed Django model fields (exact name match, no subclass fallback), and always gives one of the six listed serializer fields |
| FieldTypes.IntegerFieldsShareSerializerField | mypy_drf_plugin/helpers.py:22-23 | `AutoField` and `BigIntegerField` both map to the serializer `IntegerField` |
| FieldTypes.GetFieldType | mypy_drf_plugin/helpers.py:34-38 | the primitive type is type argument 1 and the actual type is argument 0 |
| FieldTypes.DeserializeType | mypy_drf_plugin/helpers.py:41-49 | a name gives that class with no arguments; a record whose tag has a routine gives exactly what that routine returns; any other record gives the error-flavoured `Any` |
| FieldTypes.FieldTypesEntry | mypy_drf_plugin/helpers.py:60 | the `types` entry read along the serializer field's MRO is falsy or has both descriptors |
| FieldTypes.UnmappedFieldIsAnyExplicit | mypy_drf_plugin/helpers.py:55-57 | a model field missing from the table gets the explicit `Any` and consults no bag |
| FieldTypes.MappedFieldSelectsVariant | mypy_drf_plugin/helpers.py:59-69 | for a mapped field whose nearest `types` entry along the target's MRO is at position i, the result is the deserialized `primitive` or `actual` descriptor by the flag when that entry is truthy, and the explicit `Any` when it is falsy |
| FieldTypes.MappedFieldWithoutTypes | mypy_drf_plugin/helpers.py:60-69 | with no `types` entry anywhere on the target's MRO the result is the explicit `Any` |
| FieldTypes.ModelFieldType | mypy_drf_plugin/helpers.py:52-69 | `get_type_for_model_field` over an unchanging store. The method `Store.TypeForModelField` is proved against it, and its outcomes are stated by `UnmappedFieldIsAnyExplicit`, `MappedFieldSelectsVariant` and `MappedFieldWithoutTypes` |
| FieldTypes.IsAutogeneratedPrimaryKey | mypy_drf_plugin/helpers.py:72-73 | true exactly when the symbol exists and its type is an instance of `builtins.object` |
| DrfMetadata.EnsureBag | mypy_drf_plugin/helpers.py:110 | after `setdefault` the class has a bag, the very bag it had before (empty if none), and an existing bag leaves the store unchanged |
| DrfMetadata.EnsureBags | mypy_drf_plugin/helpers.py:120-121 | the store after `setdefault` on each visited class in turn; what it keeps and adds is stated by `EnsureBagsExtends` and `EnsureBagsKeys` |
| DrfMetadata.Infos | mypy_drf_plugin/helpers.py:116-118 | the classes to check: the class alone, or its whole MRO when traversing |
| DrfMetadata.EnsureBagIdempotent | mypy_drf_plugin/helpers.py:110 | `setdefault` twice equals `setdefault` once and hands back the same bag |
| DrfMetadata.EnsureBagsExtends | mypy_drf_plugin/helpers.py:110 | any series of `setdefault` calls keeps every existing bag and adds only empty ones |
| DrfMetadata.EnsureBagsKeys | mypy_drf_plugin/helpers.py:120-121 | after visiting classes, exactly those classes have gained a bag |
| DrfMetadata.FirstWithKey | mypy_drf_plugin/helpers.py:120-125 | the lookup returns `None` or the value under the key in some visited bag, and `None` when no visited bag has the key |
| DrfMetadata.Visited | mypy_drf_plugin/helpers.py:120-123 | the classes visited are a prefix of those to check, all of them when no bag has the key |
| DrfMetadata.FirstWithKeyAt | mypy_drf_plugin/helpers.py:120-123 | when entry i is the first whose bag has the key, the lookup returns that bag's value and visits exactly entries 0..i |
| DrfMetadata.MetadataKey | mypy_drf_plugin/helpers.py:113-125 | without traversal only the class's own bag is consulted: its value under the key, or `None` |
| DrfMetadata.MetadataKeyAlongMro | mypy_drf_plugin/helpers.py:116-125 | with traversal the value comes from the first class on the MRO whose bag has the key |
| DrfMetadata.OwnBagFirst | mypy_drf_plugin/helpers.py:116-123 | since the MRO starts with the class itself, a key in the class's own bag is found there with or without traversal, and only that bag is visited |
| Helpers.Store.GetDrfMetadata | mypy_drf_plugin/helpers.py:109-110 | returns the class's bag as it was (empty if none) and creates an empty bag only if the class had none |
| Helpers.Store.GetDrfMetadataKey | mypy_drf_plugin/helpers.py:113-125 | the loop with early return yields the lookup's value and creates bags exactly on the classes it visited |
| Helpers.Store.TypeForModelField | mypy_drf_plugin/helpers.py:52-69 | returns the type a model field gets from the store as it was, and creates bags exactly on the serializer-field classes the `types` lookup visited |
| Helpers.Store.AddModelField | mypy_drf_plugin/helpers.py:94-101 | one iteration of the model loop: the record after one declared name, and the bags that typing it creates |
| Helpers.Store.AddModelFields | mypy_drf_plugin/helpers.py:93-101 | the model loop yields the second phase's record and creates exactly the bags its lookups visit |
| Helpers.Store.CorrespondingTypedDict | mypy_drf_plugin/helpers.py:76-106 | the method returns the record `Shape` of the store as it was, and the store afterwards has exactly the bags the synthesis touched added |
| ShapeSpec.FieldMembers | mypy_drf_plugin/helpers.py:79-86 | the nested loops over the reversed MRO and each class's members build exactly the first phase's record |
| ShapeSpec.VisitMembers | mypy_drf_plugin/helpers.py:81-86 | the inner loop over one class's members extends the record as the first phase does over those members |
| ShapeSpec.CollectStep | mypy_drf_plugin/helpers.py:82-86 | one visited member: a name already recorded is skipped, a Field-typed member is recorded with the selected type argument, any other member is ignored |
| ShapeSpec.Collect | mypy_drf_plugin/helpers.py:80-86 | the first phase over a sequence of members; its properties are `CollectGrows`, `CollectHasKey`, `CollectDistinct`, `CollectFirstWins` and `CollectKeysIgnoreFlag` |
| ShapeSpec.FieldPhase | mypy_drf_plugin/helpers.py:79-86 | the first phase for a class: `Collect` over its members along the reversed MRO; `FieldMembers` is proved equal to it |
| ShapeSpec.CollectGrows | mypy_drf_plugin/helpers.py:80-86 | visiting more members only appends to the record: what a prefix recorded stays, in place |
| ShapeSpec.CollectHasKey | mypy_drf_plugin/helpers.py:80-86 | a name is recorded exactly when some visited member of that name is Field-typed |
| ShapeSpec.CollectDistinct | mypy_drf_plugin/helpers.py:82-83 | no name is recorded twice |
| ShapeSpec.CollectFirstWins | mypy_drf_plugin/helpers.py:82-86 | the first Field-typed member of a name determines its entry, with the selected type argument |
| ShapeSpec.CollectKeysIgnoreFlag | mypy_drf_plugin/helpers.py:85-86 | the recorded names are the same for both representations |
| ShapeSpec.BaseDeclarationWins | mypy_drf_plugin/helpers.py:80-86 | the Field declaration on the most basic declaring class is the one recorded, whatever more derived classes redeclare |
| ShapeSpec.DeclaredFields | mypy_drf_plugin/helpers.py:92 | the declared names are the `fields` list, element by element, and empty when the bag has no `fields` |
| ShapeSpec.LinkedModel | mypy_drf_plugin/helpers.py:89-91 | the linked model named by `base_model` is a known class |
| ShapeSpec.ModelValue | mypy_drf_plugin/helpers.py:95-101 | the type the model gives a declared name: `int` for the automatic `id`, the mapped type for a Django-field-typed member (always the actual representation), nothing otherwise; its use is stated by `ModelPhaseValue` and `AutogeneratedIdIsInt` |
| ShapeSpec.ModelStep | mypy_drf_plugin/helpers.py:94-101 | one declared name: skipped when already recorded, recorded with `ModelValue`'s type when there is one, dropped otherwise |
| ShapeSpec.ModelPhase | mypy_drf_plugin/helpers.py:93-101 | the model phase over the declared names; its properties are `ModelPhaseGrows`, `ModelPhaseHasKey` and `ModelPhaseValue`, and `Store.AddModelFields` is proved equal to it |
| ShapeSpec.ModelPhaseGrows | mypy_drf_plugin/helpers.py:93-101 | the model phase keeps the first phase's record as a prefix |
| ShapeSpec.ModelPhaseHasKey | mypy_drf_plugin/helpers.py:93-101 | after the model phase a name is present exactly when it was before, or is declared and typable from the model; names stay distinct |
| ShapeSpec.ModelPhaseValue | mypy_drf_plugin/helpers.py:94-101 | a declared name not yet present that the model can type is recorded with the model's type |
| ShapeSpec.ModelFieldsIgnoreFlag | mypy_drf_plugin/helpers.py:100-101 | a model-derived entry has the same type whichever representation was asked for |
| ShapeSpec.AutogeneratedIdIsInt | mypy_drf_plugin/helpers.py:96-98 | a declared `id` whose model symbol has the identity placeholder type is recorded as `int` |
| ShapeSpec.ShapeItems | mypy_drf_plugin/helpers.py:79-101 | the record's entries: the first phase, followed by the model phase when the class is linked to a model |
| ShapeSpec.Shape | mypy_drf_plugin/helpers.py:76-106 | `get_corresponding_typeddict` over an unchanging store. `Store.CorrespondingTypedDict` is proved against it, and its properties are `ShapeIsRecord`, `ShapeKeys` and `EmptyShape` |
| ShapeSpec.ShapeIsRecord | mypy_drf_plugin/helpers.py:103-106 | the result is a record with distinct keys, required keys equal to its keys, and `dict[str, Any]` as fallback |
| ShapeSpec.ShapeKeys | mypy_drf_plugin/helpers.py:79-101 | a name is in the record exactly when a visited member of that name is Field-typed, or the serializer is linked, declares the name and its model can type it |
| ShapeSpec.EmptyShape | mypy_drf_plugin/helpers.py:79-106 | no Field-typed member along the MRO and no model link give the empty record |
| ShapeExamples.PlainSerializerShape | mypy_drf_plugin/helpers.py:76-106 | the plain serializer gives `{id: int, name: str}`, both required, and creates no bag |
| ShapeExamples.ModelSerializerShape | mypy_drf_plugin/helpers.py:76-106 | the linked model serializer gives `{id: int, price: Decimal}` |

## Left out

- `get_meta_attribute_value` (helpers.py:128-133): it is a thin wrapper over helpers of the Django plugin, which is not part of this model.
- The re-exported imports (helpers.py:7-11) and the constants `BASE_SERIALIZER_FULLNAME`, `SERIALIZER_FULLNAME` and `LIST_SERIALIZER_FULLNAME` (helpers.py:15-17), unused in this file: they carry no logic here.
- The Django plugin's `FIELD_FULLNAME` is taken to be `django.db.models.fields.Field`, because that plugin is not part of this model.
- Host internals are not modelled as real mypy type semantics:
  - `named_generic_type` is a lookup in the class table;
  - `deserialize_map` is a map from tags to routines, passed in as a parameter;
  - the `TypedDictType` and `AnyType` constructors are datatype constructors.
- Types other than instances, the two kinds of `Any`, and records are one opaque case `OtherType`, since the resolver never inspects them.
- Only the `drf` namespace of a class's metadata is modelled, because the resolver touches no other.
- FieldTypes.DeserializeType: a bare name becomes `Named(name, [])` even when the host could not resolve it; the failure of `named_generic_type` on an unknown name is not modelled.
- FieldTypes.MappingResolves: it demands that all six serializer field classes of the table be known, while the plugin fails only on the one it looks up.
- Helpers.Store.Valid: it requires every `types` entry in every bag to be well formed, while the plugin fails only on an entry it actually reads. Every operation of `Store` therefore requires this of the whole store.
- FieldTypes.TypesEntryOk: a truthy `types` entry must be an object carrying both the `actual` and the `primitive` descriptor, as the metadata writers store it. `get_type_for_model_field` reads only the descriptor its flag selects (helpers.py:62-65), so an entry with only `actual` is accepted by the plugin on the model path but excluded here.
- ShapeSpec.FieldsOk: `fields` is restricted to a list of names, as the metadata writers store it. It also excludes these inputs, on which the plugin's loop (helpers.py:93-95) does not raise:
  - a string `fields`, whose characters are iterated;
  - an object `fields`, whose keys are iterated;
  - a list element that is null, a number or a boolean, which is looked up, found on no class, and skipped.
  The model does not cover these inputs.
- Helpers.Store.GetDrfMetadata: it returns the bag as a value. Later in-place changes that callers outside this file make through the returned mapping are not modelled.
- Exceptions are not modelled: each raising path is a precondition, as listed above.
- Plugin registration, the host's scheduling and the cross-plugin dependency on the Django plugin's metadata being ready are host machinery, outside the file.
