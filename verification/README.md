# slumber field codec, modelled in Dafny

slumber exposes Django models over HTTP as JSON resources and rebuilds remote
model instances on the client. This project models its field codec,
`slumber/json.py`: how one model attribute becomes its JSON form on the server
(`to_json_data`) and how the client turns that form back into a Python value or
a remote instance (`from_json_data`).

Files:

- `wrappers.dfy` (`Wrappers`): `Option` and `Result`. A Python exception is a
  `Failure`.
- `values.dfy` (`PyValues`): the Python values the codec handles.
  - `Value` covers `None`, `bool`, `int`, `unicode`, Django model instances, and
    `Opaque` for any other object. An opaque value carries its class name, its
    `unicode()` text and its truth value.
  - `Data` is what crosses the wire: a plain value or a dictionary.
  - `Error` lists the exceptions the codec can raise.
  - `Truthy` is Python truthiness, which is kept separate from `is None`.
  - `TypeName` gives `type(v)` and `Unicode` gives `unicode(v)`.
- `decimal.dfy` (`Decimal`): `str()` of an integer, which the `'data/%s/' % value.pk`
  formatting uses. It comes with a parser that inverts it.
- `json.dfy` (`SlumberJson`): `DATA_MAPPING`, `to_json_data` and `from_json_data`.
- `properties.dfy` (`CodecProperties`): the dispatch order, the shape of reference
  records, and the round trips from server encoding to client decoding.

Collaborators are parameters:

- `root` stands for `reverse('slumber.server.views.get_applications')`.
- The model registry `DJANGO_MODEL_TO_SLUMBER_MODEL` is a `map` from model class
  name to resource path.
- `urljoin`, `get_model` and `get_instance` are functions the caller passes in.
  The model says nothing about what they compute.
- The instance is a map from attribute name to value, so `getattr` of a missing
  attribute raises `AttributeError`.

Behaviour of the code that the model keeps:

- The registry lookup at `slumber/json.py:27` raises `KeyError` for an unregistered
  runtime type. This is modelled as `UnmappedType`. If the registry does hold an
  entry for the value's class but the value is not a model instance, the entry is
  found and `value.pk` raises `AttributeError`.
- Indexing the payload at `slumber/json.py:53-55` raises `KeyError` for a missing key
  and `TypeError` for a value that is not a dictionary. These are modelled as
  `KeyError` and `NotSubscriptable`.
- The foreign-key entry tests truthiness (`slumber/json.py:15`), not `is None`. So a
  falsy non-`None` value such as `0`, `False` or `''` encodes to `None`, and a
  truthy value without a `pk` attribute raises `AttributeError`.
- A `None` relation encodes to `None` itself (`slumber/json.py:24-25`). `null`
  appears only as the `data` of the enclosing `{kind, data}` dictionary, which
  `CodecProperties.Envelope` builds.
- The relational branch is chosen on `kind == 'object'` before `DATA_MAPPING` is
  consulted. A field of kind `'object'` is therefore never transformed by its
  `DATA_MAPPING` entry, even when its type is `ForeignKey`.

## Model

| member | source | states |
|---|---|---|
| Decimal.NatToText | slumber/json.py:31 | the digits printed for a primary key are a non-empty string of decimal digits, with a leading `0` only for zero |
| Decimal.IntToText | slumber/json.py:31 | `str(pk)` is non-empty and starts with `-` exactly when the key is negative; non-negative keys print as digits only |
| Decimal.NatRoundTrip | slumber/json.py:31 | reading the printed digits back yields the number printed |
| Decimal.IntRoundTrip | slumber/json.py:31 | parsing `str(pk)` yields `pk` for every integer |
| Decimal.IntToTextInjective | slumber/json.py:31 | two integers print the same exactly when they are equal |
| SlumberJson.LookupMapping | slumber/json.py:11-16 | `DATA_MAPPING` has an entry exactly for the three field class names, and the entry found is the one keyed by that name |
| SlumberJson.ApplyMapping | slumber/json.py:12-15 | the `DATA_MAPPING` entries give a plain value and fail only for a truthy foreign-key value without `pk`; their results are stated by `IdentityFieldsEncodeUnchanged` and `ForeignKeyEncodesPk` |
| SlumberJson.DataUrl | slumber/json.py:31 | the data URL starts with the type URL and ends with `/`; the key in between is stated by `DataUrlRoundTrip` and `DataUrlInjective` |
| SlumberJson.ReferenceRecord | slumber/json.py:29-31 | the reference is a dictionary with exactly the keys `type`, `display` and `data`, the two URLs as text; its contents are stated by `EncodedReference` |
| SlumberJson.EncodeValue | slumber/json.py:23-39 | encoding fails exactly for a non-null relation that is not a registered model instance (raising the unmapped-type error when its runtime type is not registered, else `AttributeError` for `pk`), or for a truthy foreign-key value without `pk` (raising `AttributeError`); it yields `None` exactly for a `None` value or a falsy foreign-key value; it yields a reference record exactly for a registered related instance of an `'object'` field |
| SlumberJson.ToJsonData | slumber/json.py:19-39 | a missing attribute raises `AttributeError`; otherwise the attribute's value is encoded as above |
| SlumberJson.FromJsonData | slumber/json.py:42-58 | missing `kind` or `data` raise `KeyError`; a non-object kind returns its payload verbatim; an object kind with null data returns `None`; a non-null object payload that is not a well-formed reference raises, checking in the order `type`, `data`, `display`: `TypeError` for a non-dictionary, `KeyError` for the first missing entry, and the URL error for a `type` or `data` entry that is not text; the result is the resolver's instance exactly for a well-formed reference record, for the model at `urljoin(base, type)`, the URL `urljoin(base, data)` and the `display` entry |
| CodecProperties.DataUrlRoundTrip | slumber/json.py:31 | the primary key can be read back from the data URL built under a type URL |
| CodecProperties.DataUrlInjective | slumber/json.py:29-31 | under one type URL, distinct primary keys give distinct data URLs |
| CodecProperties.EncodedReference | slumber/json.py:27-31 | a registered related instance encodes to exactly the three-entry record with `type` equal to root plus registered path, `display` equal to `unicode(value)`, and `data` equal to `type` followed by `data/`, `str(pk)` and `/`; the record reads back as that type URL, label and key |
| CodecProperties.RecordReadsBack | slumber/json.py:29-31 | a `dict(type, display, data)` record built from a type URL and a primary key reads back as that type URL, label and key |
| CodecProperties.ObjectKindTakesPriority | slumber/json.py:23-34 | for an `'object'` field the encoding does not depend on the field's type, so `DATA_MAPPING` is never consulted |
| CodecProperties.MappingOnlyForScalarKinds | slumber/json.py:32-34 | for a non-object kind whose type is a `DATA_MAPPING` key, the encoding is that entry applied to the value |
| CodecProperties.IdentityFieldsEncodeUnchanged | slumber/json.py:12-13 | AutoField and BooleanField values encode to themselves |
| CodecProperties.ForeignKeyEncodesPk | slumber/json.py:14-15 | a foreign key encodes to `None` when falsy and to the related `pk` for a model instance; a truthy value without `pk` raises `AttributeError` |
| CodecProperties.OtherFieldsEncodeText | slumber/json.py:35-39 | any other non-object field encodes `None` to `None` and any other value to its `unicode()` text |
| CodecProperties.ScalarRoundTrip | slumber/json.py:57-58 | an AutoField or BooleanField value, wrapped as `{kind, data}` and decoded, comes back unchanged, whatever the collaborators |
| CodecProperties.NoneRoundTrip | slumber/json.py:46-48 | a `None` relation or a falsy foreign key encodes to `None` and decodes to `None` for every resolver, so no remote lookup takes part |
| CodecProperties.RelationRoundTrip | slumber/json.py:46-56 | a registered related instance decodes to the resolver's instance for the model at `urljoin(base, root + path)` and the data URL `urljoin(base, root + path + 'data/<pk>/')`, with its `unicode()` label |
| CodecProperties.ReferencesDistinguishPks | slumber/json.py:31 | two instances of one model with distinct primary keys are sent with distinct `data` URLs |
| CodecProperties.DataUrlPlain | slumber/json.py:31 | the data URL under a plain absolute type path (one `/` at the start, no `;`, `?` or `#`, as `reverse()` returns) is itself such a path |
| CodecProperties.ResolverKeysDiffer | slumber/json.py:53-56 | for a plain absolute type path, and when joining onto the base URL keeps distinct plain paths distinct (as `urljoin` does, by keeping them under the base's scheme and host), two instances of one model with distinct primary keys decode through the resolver with distinct data URLs, so its `(model, data_url)` key tells them apart |

## Left out

- The accept handler (`slumber/server/default_accept_handler.py`) is not part of this model. It only calls `simplejson.dumps` and builds a Django `HttpResponse`, and JSON text rendering is library behaviour.
- The authentication backend is not part of this model. Its source is not available; only its Django tests are, and they depend on the ORM and HTTP test clients.
- How the model registry is filled (`slumber._caches`) is not part of this model. Only the lookup by exact runtime type is modelled. Registration and duplicate detection are therefore absent.
- `reverse`, `urljoin`, `get_model` and `get_instance` are parameters, and their results are not specified.
- Lazy loading and caching of remote instances are not modelled. Neither is any concurrency around them.
- FromJsonData: a reference whose `type` or `data` entry is not a string fails with `UrlNotText`. The model does not follow what Python's `urljoin` would do with such a value (it can return it unchanged when the base is empty).
- The missing-key behaviour of `fieldmeta`: the descriptor is a record with `kind` and `fieldType`, so a missing key cannot be represented. The unused `model` and `instance` arguments of the `DATA_MAPPING` lambdas are dropped.
- Primary keys are integers, printed in decimal. Non-integer primary keys are not modelled. Neither is Python 2's `int`/`long` split in `type()` names.
- `Opaque` values are assumed to have no `pk` attribute. A truthy one given to a foreign-key field therefore raises `AttributeError`.
- Model instances are always truthy, as for a Django model that defines neither `__nonzero__` nor `__len__`.
- FromJsonData: the model states the call to the resolver and its arguments, not how many times it is made; a function value cannot record its calls.
- The JSON text layer between server and client (`simplejson` on each side) is taken as the identity on `Data`. So `ScalarRoundTrip` also covers values such as a model instance or a date stored in an AutoField, which real JSON could not carry unchanged.
