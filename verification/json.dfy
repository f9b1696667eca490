/**
 * The field codec of slumber: how one model attribute is turned into its JSON
 * form on the server (`to_json_data`) and turned back on the client
 * (`from_json_data`).
 *
 * Collaborators the codec calls but does not define are parameters:
 * `reverse('slumber.server.views.get_applications')` is `root`, and `urljoin`,
 * `get_model` and `get_instance` are functions passed in by the caller.
 */
module SlumberJson {
  import opened Wrappers
  import opened Decimal
  import opened PyValues

  const OBJECT_KIND: string := "object"
  const AUTO_FIELD: string := "django.db.models.fields.AutoField"
  const BOOLEAN_FIELD: string := "django.db.models.fields.BooleanField"
  const FOREIGN_KEY: string := "django.db.models.fields.related.ForeignKey"

  /** The `fieldmeta` dictionary: the field's kind and its field class name. */
  datatype FieldMeta = FieldMeta(kind: string, fieldType: string)

  /** The process-wide model registry: model class -> remote resource path. */
  type Registry = map<TypeTag, string>

  /** The keys of `DATA_MAPPING`. */
  datatype Mapping = AutoField | BooleanField | ForeignKey

  function MappingKey(m: Mapping): string {
    match m
    case AutoField => AUTO_FIELD
    case BooleanField => BOOLEAN_FIELD
    case ForeignKey => FOREIGN_KEY
  }

  /** `DATA_MAPPING.has_key(typeName)` together with the entry it finds. */
  function LookupMapping(typeName: string): (r: Option<Mapping>)
    ensures r.Some? ==> MappingKey(r.value) == typeName
    ensures r.None? <==> forall m: Mapping :: MappingKey(m) != typeName
  {
    if typeName == AUTO_FIELD then Some(AutoField)
    else if typeName == BOOLEAN_FIELD then Some(BooleanField)
    else if typeName == FOREIGN_KEY then Some(ForeignKey)
    else None
  }

  /** The `DATA_MAPPING` entries applied to the attribute value. */
  function ApplyMapping(m: Mapping, v: Value): (r: Result<Data, Error>)
    ensures r.Success? ==> r.value.Plain?
    ensures r.Failure? <==> m == ForeignKey && Truthy(v) && !v.ModelInstance?
  {
    match m
    case AutoField => Success(Plain(v))
    case BooleanField => Success(Plain(v))
    case ForeignKey =>
      if !Truthy(v) then Success(Plain(NoneValue))
      else if v.ModelInstance? then Success(Plain(Int(v.pk)))
      else Failure(AttributeError("pk"))
  }

  /** The URL of a related object's data: `typeUrl + 'data/%s/' % pk`. */
  function DataUrl(typeUrl: string, pk: int): (url: string)
    ensures |url| > |typeUrl| + 5 && url[..|typeUrl|] == typeUrl && url[|url| - 1] == '/'
  {
    typeUrl + "data/" + IntToText(pk) + "/"
  }

  /** The reference record `dict(type=..., display=..., data=...)`. */
  function ReferenceRecord(typeUrl: string, display: string, dataUrl: string): (d: Data)
    ensures d.Dict? && d.entries.Keys == {"type", "display", "data"} && IsReference(d)
  {
    Dict(map["type" := Plain(Str(typeUrl)), "display" := Plain(Str(display)), "data" := Plain(Str(dataUrl))])
  }

  /** Encoding of the value of a field (the body of `to_json_data` after the attribute read). */
  function EncodeValue(registry: Registry, root: string, meta: FieldMeta, v: Value): (r: Result<Data, Error>)
    // the only failures: a relation that is not a registered instance, or a truthy foreign key without a `pk`
    ensures r.Failure? <==>
      || (meta.kind == OBJECT_KIND && !v.NoneValue? && !(v.ModelInstance? && v.model in registry))
      || (meta.kind != OBJECT_KIND && LookupMapping(meta.fieldType) == Some(ForeignKey)
          && Truthy(v) && !v.ModelInstance?)
    ensures r.Failure? ==>
      r.error == if meta.kind == OBJECT_KIND && TypeName(v) !in registry then UnmappedType(TypeName(v))
                 else AttributeError("pk")
    // `None` comes out for a `None` value, and for a falsy foreign key value
    ensures r == Success(Plain(NoneValue)) <==>
      || v.NoneValue?
      || (meta.kind != OBJECT_KIND && LookupMapping(meta.fieldType) == Some(ForeignKey) && !Truthy(v))
    // a reference record comes out exactly for a registered related instance
    ensures (r.Success? && r.value.Dict?) <==>
      meta.kind == OBJECT_KIND && v.ModelInstance? && v.model in registry
  {
    if meta.kind == OBJECT_KIND then
      if v.NoneValue? then Success(Plain(NoneValue))
      else if TypeName(v) !in registry then Failure(UnmappedType(TypeName(v)))
      else if v.ModelInstance? then
        var typeUrl := root + registry[v.model];
        Success(ReferenceRecord(typeUrl, Unicode(v), DataUrl(typeUrl, v.pk)))
      // an entry keyed by a class that is not a model: `value.pk` raises
      else Failure(AttributeError("pk"))
    else
      match LookupMapping(meta.fieldType)
      case Some(m) => ApplyMapping(m, v)
      case None => if v.NoneValue? then Success(Plain(NoneValue)) else Success(Plain(Str(Unicode(v))))
  }

  /** `to_json_data`: read the attribute `fieldname` of the instance, then encode it. */
  function ToJsonData(registry: Registry, root: string, instance: map<string, Value>,
                      fieldname: string, meta: FieldMeta): (r: Result<Data, Error>)
    ensures fieldname !in instance ==> r == Failure(AttributeError(fieldname))
    ensures fieldname in instance ==> r == EncodeValue(registry, root, meta, instance[fieldname])
  {
    if fieldname !in instance then Failure(AttributeError(fieldname))
    else EncodeValue(registry, root, meta, instance[fieldname])
  }

  /** What `from_json_data` returns: the payload itself, or the resolved instance. */
  datatype Decoded<I> = Verbatim(payload: Data) | Resolved(instance: I)

  /** A well-formed reference record: a dictionary with text `type` and `data` and some `display`. */
  predicate IsReference(d: Data) {
    && d.Dict?
    && "type" in d.entries && d.entries["type"].Plain? && d.entries["type"].v.Str?
    && "data" in d.entries && d.entries["data"].Plain? && d.entries["data"].v.Str?
    && "display" in d.entries
  }

  /**
   * `from_json_data`: `json` is the `{kind, data}` dictionary of one field.
   * The entries of a reference are read in the order `type`, `data`, `display`.
   */
  function FromJsonData<M, I>(baseUrl: string, json: map<string, Data>,
                              urljoin: (string, string) -> string,
                              getModel: string -> M,
                              getInstance: (M, string, Data) -> I): (r: Result<Decoded<I>, Error>)
    ensures "kind" !in json ==> r == Failure(KeyError("kind"))
    ensures "kind" in json && "data" !in json ==> r == Failure(KeyError("data"))
    // a non-object kind hands back its payload untouched
    ensures "kind" in json && "data" in json && json["kind"] != Plain(Str(OBJECT_KIND)) ==>
      r == Success(Verbatim(json["data"]))
    // a null relation decodes to None
    ensures ("kind" in json && "data" in json && json["kind"] == Plain(Str(OBJECT_KIND))
             && json["data"] == Plain(NoneValue)) ==> r == Success(Verbatim(Plain(NoneValue)))
    ensures r.Success? && r.value.Verbatim? ==> "data" in json && r.value.payload == json["data"]
    // a non-null object payload that is not a well-formed reference raises
    ensures ("kind" in json && "data" in json && json["kind"] == Plain(Str(OBJECT_KIND))
             && json["data"] != Plain(NoneValue) && !IsReference(json["data"])) ==>
      && r.Failure?
      && r.error in {NotSubscriptable, KeyError("type"), KeyError("data"), KeyError("display"), UrlNotText}
      && (!json["data"].Dict? ==> r.error == NotSubscriptable)
      && (json["data"].Dict? && "type" !in json["data"].entries ==> r.error == KeyError("type"))
    // the entries of a reference dictionary are checked in the order type, data, display
    ensures ("kind" in json && "data" in json && json["kind"] == Plain(Str(OBJECT_KIND))
             && json["data"].Dict?) ==>
      var ref := json["data"].entries;
      && ("type" in ref && !(ref["type"].Plain? && ref["type"].v.Str?) ==> r == Failure(UrlNotText))
      && ("type" in ref && ref["type"].Plain? && ref["type"].v.Str? ==>
          && ("data" !in ref ==> r == Failure(KeyError("data")))
          && ("data" in ref && !(ref["data"].Plain? && ref["data"].v.Str?) ==> r == Failure(UrlNotText))
          && ("data" in ref && ref["data"].Plain? && ref["data"].v.Str? && "display" !in ref ==>
              r == Failure(KeyError("display"))))
    // the resolver is used exactly for a well-formed reference, with the joined URLs
    ensures r.Success? && r.value.Resolved? <==>
      "kind" in json && "data" in json && json["kind"] == Plain(Str(OBJECT_KIND)) && IsReference(json["data"])
    ensures r.Success? && r.value.Resolved? ==>
      var ref := json["data"].entries;
      r.value.instance == getInstance(getModel(urljoin(baseUrl, ref["type"].v.s)),
                                      urljoin(baseUrl, ref["data"].v.s), ref["display"])
  {
    if "kind" !in json then Failure(KeyError("kind"))
    else if json["kind"] == Plain(Str(OBJECT_KIND)) then
      if "data" !in json then Failure(KeyError("data"))
      else if json["data"] == Plain(NoneValue) then Success(Verbatim(Plain(NoneValue)))
      else
        var typeEntry :- Subscript(json["data"], "type");
        var typeUrl :- UrlText(typeEntry);
        var modelUrl := urljoin(baseUrl, typeUrl);
        var dataEntry :- Subscript(json["data"], "data");
        var dataPath :- UrlText(dataEntry);
        var dataUrl := urljoin(baseUrl, dataPath);
        var display :- Subscript(json["data"], "display");
        Success(Resolved(getInstance(getModel(modelUrl), dataUrl, display)))
    else if "data" !in json then Failure(KeyError("data"))
    else Success(Verbatim(json["data"]))
  }
}
