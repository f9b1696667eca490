/**
 * What the field codec promises: the dispatch order of `to_json_data`, the
 * shape of reference records, and the round trips through `from_json_data`.
 */
module CodecProperties {
  import opened Wrappers
  import opened Decimal
  import opened PyValues
  import opened SlumberJson

  /** The `{kind, data}` dictionary the server sends for one field. */
  function Envelope(kind: string, data: Data): map<string, Data> {
    map["kind" := Plain(Str(kind)), "data" := data]
  }

  /** The primary key a data URL under `typeUrl` names, if it is one. */
  ghost function PkOfDataUrl(typeUrl: string, url: string): Option<int> {
    var prefix := typeUrl + "data/";
    if |url| > |prefix| && url[..|prefix|] == prefix && url[|url| - 1] == '/'
    then ParseInt(url[|prefix|..|url| - 1])
    else None
  }

  /** The meaning of a reference record: its type URL, its label and the primary key its data URL names. */
  datatype Reference = Reference(typeUrl: string, display: Data, pk: int)

  ghost function ReadReference(d: Data): Option<Reference> {
    if IsReference(d) then
      var typeUrl := d.entries["type"].v.s;
      match PkOfDataUrl(typeUrl, d.entries["data"].v.s)
      case Some(pk) => Some(Reference(typeUrl, d.entries["display"], pk))
      case None => None
    else None
  }

  lemma DataUrlRoundTrip(typeUrl: string, pk: int)
    ensures PkOfDataUrl(typeUrl, DataUrl(typeUrl, pk)) == Some(pk)
  {
    var url := DataUrl(typeUrl, pk);
    var prefix := typeUrl + "data/";
    assert url == prefix + IntToText(pk) + "/";
    assert url[..|prefix|] == prefix;
    assert url[|prefix|..|url| - 1] == IntToText(pk);
    IntRoundTrip(pk);
  }

  /** Two objects of one model with distinct primary keys get distinct data URLs. */
  lemma DataUrlInjective(typeUrl: string, a: int, b: int)
    ensures DataUrl(typeUrl, a) == DataUrl(typeUrl, b) <==> a == b
  {
    DataUrlRoundTrip(typeUrl, a);
    DataUrlRoundTrip(typeUrl, b);
  }

  /**
   * A registered related instance encodes to a record whose `type` is the root
   * plus the registered path, whose `display` is `unicode(value)`, and whose
   * `data` is `type` followed by `data/<pk>/`.
   */
  lemma EncodedReference(registry: Registry, root: string, fieldType: string,
                         model: TypeTag, pk: int, display: string)
    requires model in registry
    ensures var r := EncodeValue(registry, root, FieldMeta(OBJECT_KIND, fieldType), ModelInstance(model, pk, display));
      && r.Success?
      && ReadReference(r.value) == Some(Reference(root + registry[model], Plain(Str(display)), pk))
      && r.value == ReferenceRecord(root + registry[model], display,
                                    root + registry[model] + "data/" + IntToText(pk) + "/")
  {
    var typeUrl := root + registry[model];
    RecordReadsBack(typeUrl, display, pk);
  }

  /** A reference record built from a type URL and a primary key reads back as both. */
  lemma RecordReadsBack(typeUrl: string, display: string, pk: int)
    ensures ReadReference(ReferenceRecord(typeUrl, display, DataUrl(typeUrl, pk)))
         == Some(Reference(typeUrl, Plain(Str(display)), pk))
  {
    var d := ReferenceRecord(typeUrl, display, DataUrl(typeUrl, pk));
    assert d.entries["type"] == Plain(Str(typeUrl));
    assert d.entries["data"] == Plain(Str(DataUrl(typeUrl, pk)));
    assert d.entries["display"] == Plain(Str(display));
    DataUrlRoundTrip(typeUrl, pk);
  }

  /** Whatever the field type, an object kind is encoded as a relation. */
  lemma ObjectKindTakesPriority(registry: Registry, root: string, t1: string, t2: string, v: Value)
    ensures EncodeValue(registry, root, FieldMeta(OBJECT_KIND, t1), v)
         == EncodeValue(registry, root, FieldMeta(OBJECT_KIND, t2), v)
  {
  }

  /** The `DATA_MAPPING` entry is used exactly for a non-object kind whose type is one of its keys. */
  lemma MappingOnlyForScalarKinds(registry: Registry, root: string, meta: FieldMeta, m: Mapping, v: Value)
    requires meta.kind != OBJECT_KIND && meta.fieldType == MappingKey(m)
    ensures EncodeValue(registry, root, meta, v) == ApplyMapping(m, v)
  {
  }

  lemma IdentityFieldsEncodeUnchanged(registry: Registry, root: string, kind: string, m: Mapping, v: Value)
    requires kind != OBJECT_KIND && m != ForeignKey
    ensures EncodeValue(registry, root, FieldMeta(kind, MappingKey(m)), v) == Success(Plain(v))
  {
  }

  /** A foreign key encodes to the related primary key when truthy, else to None. */
  lemma ForeignKeyEncodesPk(registry: Registry, root: string, kind: string, v: Value)
    requires kind != OBJECT_KIND
    ensures var r := EncodeValue(registry, root, FieldMeta(kind, FOREIGN_KEY), v);
      && (!Truthy(v) ==> r == Success(Plain(NoneValue)))
      && (v.ModelInstance? ==> r == Success(Plain(Int(v.pk))))
      && (Truthy(v) && !v.ModelInstance? ==> r == Failure(AttributeError("pk")))
  {
  }

  /** Any other non-object field encodes None to None and everything else to its unicode text. */
  lemma OtherFieldsEncodeText(registry: Registry, root: string, meta: FieldMeta, v: Value)
    requires meta.kind != OBJECT_KIND && LookupMapping(meta.fieldType).None?
    ensures EncodeValue(registry, root, meta, v)
         == if v.NoneValue? then Success(Plain(NoneValue)) else Success(Plain(Str(Unicode(v))))
  {
  }

  /** Auto-increment and boolean values survive encoding and decoding unchanged. */
  lemma ScalarRoundTrip<M, I>(registry: Registry, root: string, kind: string, m: Mapping, v: Value,
                              baseUrl: string, urljoin: (string, string) -> string,
                              getModel: string -> M, getInstance: (M, string, Data) -> I)
    requires kind != OBJECT_KIND && m != ForeignKey
    ensures var sent := EncodeValue(registry, root, FieldMeta(kind, MappingKey(m)), v);
      && sent.Success?
      && FromJsonData(baseUrl, Envelope(kind, sent.value), urljoin, getModel, getInstance)
         == Success(Verbatim(Plain(v)))
  {
  }

  /**
   * Whatever encodes to None (a None relation, a falsy foreign key, any None)
   * decodes to None, and the resolver plays no part.
   */
  lemma NoneRoundTrip<M, I>(registry: Registry, root: string, meta: FieldMeta, v: Value,
                            baseUrl: string, urljoin: (string, string) -> string,
                            getModel: string -> M, getInstance: (M, string, Data) -> I)
    requires v.NoneValue? || (meta.kind != OBJECT_KIND && meta.fieldType == FOREIGN_KEY && !Truthy(v))
    ensures EncodeValue(registry, root, meta, v) == Success(Plain(NoneValue))
    ensures FromJsonData(baseUrl, Envelope(meta.kind, Plain(NoneValue)), urljoin, getModel, getInstance)
         == Success(Verbatim(Plain(NoneValue)))
  {
  }

  /**
   * A registered related instance comes back as the instance the resolver gives
   * for the model at the joined type URL and the joined data URL, which is
   * derived from the registry entry and the primary key alone.
   */
  lemma RelationRoundTrip<M, I>(registry: Registry, root: string, fieldType: string,
                                model: TypeTag, pk: int, display: string,
                                baseUrl: string, urljoin: (string, string) -> string,
                                getModel: string -> M, getInstance: (M, string, Data) -> I)
    requires model in registry
    ensures var sent := EncodeValue(registry, root, FieldMeta(OBJECT_KIND, fieldType), ModelInstance(model, pk, display));
      var typeUrl := root + registry[model];
      && sent.Success?
      && FromJsonData(baseUrl, Envelope(OBJECT_KIND, sent.value), urljoin, getModel, getInstance)
         == Success(Resolved(getInstance(getModel(urljoin(baseUrl, typeUrl)),
                                         urljoin(baseUrl, DataUrl(typeUrl, pk)),
                                         Plain(Str(display)))))
  {
  }

  /** Two instances of one model with distinct primary keys are sent with distinct data URLs. */
  lemma ReferencesDistinguishPks(registry: Registry, root: string, fieldType: string,
                                 model: TypeTag, a: int, b: int, da: string, db: string)
    requires model in registry && a != b
    ensures var meta := FieldMeta(OBJECT_KIND, fieldType);
      var ra := EncodeValue(registry, root, meta, ModelInstance(model, a, da));
      var rb := EncodeValue(registry, root, meta, ModelInstance(model, b, db));
      ra.Success? && rb.Success? && ra.value.entries["data"] != rb.value.entries["data"]
  {
    DataUrlInjective(root + registry[model], a, b);
  }

  /**
   * A plain absolute path, as `reverse()` returns: it starts with a single `/`
   * and has no parameters, query or fragment. `urljoin` keeps such a path as it
   * is, under the scheme and host of the base URL.
   */
  predicate PlainPath(u: string) {
    && |u| > 0 && u[0] == '/'
    && !(|u| > 1 && u[1] == '/')
    && forall i | 0 <= i < |u| :: u[i] != ';' && u[i] != '?' && u[i] != '#'
  }

  /** The data URL under a plain type path is itself a plain path. */
  lemma DataUrlPlain(typeUrl: string, pk: int)
    requires PlainPath(typeUrl)
    ensures PlainPath(DataUrl(typeUrl, pk))
  {
  }

  /**
   * When joining onto the base URL keeps distinct plain paths distinct, two instances
   * of one model with distinct primary keys reach the resolver with distinct
   * data URLs, so its `(model, data_url)` key tells them apart.
   */
  lemma ResolverKeysDiffer<M, I>(registry: Registry, root: string, fieldType: string,
                                 model: TypeTag, a: int, b: int, da: string, db: string,
                                 baseUrl: string, urljoin: (string, string) -> string,
                                 getModel: string -> M, getInstance: (M, string, Data) -> I)
    requires model in registry && a != b
    requires PlainPath(root + registry[model])
    requires forall u1, u2 | PlainPath(u1) && PlainPath(u2) ::
      urljoin(baseUrl, u1) == urljoin(baseUrl, u2) ==> u1 == u2
    ensures var meta := FieldMeta(OBJECT_KIND, fieldType);
      var typeUrl := root + registry[model];
      var ra := EncodeValue(registry, root, meta, ModelInstance(model, a, da));
      var rb := EncodeValue(registry, root, meta, ModelInstance(model, b, db));
      && ra.Success? && rb.Success?
      && FromJsonData(baseUrl, Envelope(OBJECT_KIND, ra.value), urljoin, getModel, getInstance)
         == Success(Resolved(getInstance(getModel(urljoin(baseUrl, typeUrl)),
                                         urljoin(baseUrl, DataUrl(typeUrl, a)), Plain(Str(da)))))
      && FromJsonData(baseUrl, Envelope(OBJECT_KIND, rb.value), urljoin, getModel, getInstance)
         == Success(Resolved(getInstance(getModel(urljoin(baseUrl, typeUrl)),
                                         urljoin(baseUrl, DataUrl(typeUrl, b)), Plain(Str(db)))))
      && urljoin(baseUrl, DataUrl(typeUrl, a)) != urljoin(baseUrl, DataUrl(typeUrl, b))
  {
    var typeUrl := root + registry[model];
    RelationRoundTrip(registry, root, fieldType, model, a, da, baseUrl, urljoin, getModel, getInstance);
    RelationRoundTrip(registry, root, fieldType, model, b, db, baseUrl, urljoin, getModel, getInstance);
    DataUrlInjective(typeUrl, a, b);
    DataUrlPlain(typeUrl, a);
    DataUrlPlain(typeUrl, b);
  }
}
