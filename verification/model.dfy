/** The serving wrapper: construction from keyword configuration, the
    placeholder `load`, and `predict`, which builds two inventory records
    from the request, swaps their prices and returns both flattened back to
    mappings under the keys they came from. */
module ServingModel {
  import opened Wrappers
  import opened Values
  import opened Items
  import opened Methods

  const DataDirKey: string := "data_dir"
  const ConfigKey: string := "config"
  const SecretsKey: string := "secrets"

  /** The name of the receiver parameter of `__init__`: a keyword argument
      of that name collides with it. */
  const SelfKey: string := "self"

  const Obj1: string := "obj1"
  const Obj2: string := "obj2"

  /** The exceptions that escape the wrapper, with the key involved:
      `KeyError` for a missing key, `TypeError` for a request entry that is
      not a mapping or does not bind to the record's fields, and for a
      keyword argument that collides with `self`. */
  datatype Error = KeyError(key: string) | TypeError(key: string)

  /** The wrapper's state: three opaque configuration handles and the
      loaded model, which nothing ever sets. */
  datatype Model = Model(dataDir: Value, config: Value, secrets: Value, loaded: Option<Value>)

  /** `load` is a placeholder: all state stays as it was. */
  function Load(m: Model): (r: Model)
    ensures r == m
  {
    m
  }

  /** `Model(**kwargs)`: a `self` keyword is refused by argument binding
      with a `TypeError`; then the three configuration keys are read in
      order, raising `KeyError` on the first that is missing; other keys are
      ignored. */
  function Init(kwargs: map<string, Value>): (r: Result<Model, Error>)
    ensures r.Success? <==>
      SelfKey !in kwargs && DataDirKey in kwargs && ConfigKey in kwargs && SecretsKey in kwargs
    ensures SelfKey in kwargs ==> r == Failure(TypeError(SelfKey))
    ensures SelfKey !in kwargs && DataDirKey !in kwargs ==> r == Failure(KeyError(DataDirKey))
    ensures SelfKey !in kwargs && DataDirKey in kwargs && ConfigKey !in kwargs ==> r == Failure(KeyError(ConfigKey))
    ensures SelfKey !in kwargs && DataDirKey in kwargs && ConfigKey in kwargs && SecretsKey !in kwargs ==>
      r == Failure(KeyError(SecretsKey))
    ensures r.Success? ==> r.value.dataDir == kwargs[DataDirKey]
    ensures r.Success? ==> r.value.config == kwargs[ConfigKey]
    ensures r.Success? ==> r.value.secrets == kwargs[SecretsKey]
    ensures r.Success? ==> r.value.loaded == None
  {
    if SelfKey in kwargs then Failure(TypeError(SelfKey)) else
    var dataDir :- Lookup(kwargs, DataDirKey);
    var config :- Lookup(kwargs, ConfigKey);
    var secrets :- Lookup(kwargs, SecretsKey);
    Success(Model(dataDir, config, secrets, None))
  }

  /** `m[key]` on a Python dict. */
  function Lookup(m: map<string, Value>, key: string): Result<Value, Error>
  {
    if key in m then Success(m[key]) else Failure(KeyError(key))
  }

  /** A freshly constructed wrapper has no model, and loading it leaves
      the configuration it stored and the unset model as they were. */
  lemma LoadKeepsModelUnset(kwargs: map<string, Value>)
    requires Init(kwargs).Success?
    ensures Load(Init(kwargs).value).loaded == None
    ensures Load(Init(kwargs).value).dataDir == kwargs[DataDirKey]
    ensures Load(Init(kwargs).value).config == kwargs[ConfigKey]
    ensures Load(Init(kwargs).value).secrets == kwargs[SecretsKey]
  {
  }

  /** Only the three configuration keys and the presence of a `self` key
      matter to construction. */
  lemma InitIgnoresOtherKeys(k1: map<string, Value>, k2: map<string, Value>)
    requires SelfKey in k1 <==> SelfKey in k2
    requires forall key :: key in {DataDirKey, ConfigKey, SecretsKey} ==>
               (key in k1 <==> key in k2) && (key in k1 ==> k1[key] == k2[key])
    ensures Init(k1) == Init(k2)
  {
  }

  /** The request entry under `key` is a mapping that binds to the record. */
  predicate Accepts(s: Schema, request: map<string, Value>, key: string) {
    && key in request
    && request[key].Dict?
    && Binds(s, request[key].entries)
  }

  /** The exception raised for a request entry that is not accepted. */
  function Rejection(request: map<string, Value>, key: string): Error {
    if key in request then TypeError(key) else KeyError(key)
  }

  /** The record's field values as bound from the request entry under `key`. */
  function Entry(s: Schema, request: map<string, Value>, key: string): map<string, Value>
    requires Accepts(s, request, key)
  {
    Bound(s, request[key].entries)
  }

  /** `InventoryItem(**request[key])`. */
  function Build(s: Schema, request: map<string, Value>, key: string): (r: Result<Item, Error>)
    requires ValidSchema(s)
    ensures r.Success? <==> Accepts(s, request, key)
    ensures r.Failure? ==> r.error == Rejection(request, key)
    ensures r.Success? ==> Fits(s, r.value) && Fields(r.value) == Entry(s, request, key)
  {
    var v :- Lookup(request, key);
    if v.Dict? then
      match Construct(s, v.entries)
      case Some(item) => Success(item)
      case None => Failure(TypeError(key))
    else
      Failure(TypeError(key))
  }

  /** What `predict` computes, stated on values: the response has exactly the
      keys `obj1` and `obj2`; each entry keeps every field of the same-keyed
      request entry except `unit_price`, which it takes from the other entry.
      A request that lacks either key, or whose entry is not a mapping of the
      record's fields, fails, `obj1` being examined first. */
  function Respond(s: Schema, request: map<string, Value>): (r: Result<map<string, Value>, Error>)
    requires ValidSchema(s)
    ensures r.Success? <==> Accepts(s, request, Obj1) && Accepts(s, request, Obj2)
    ensures !Accepts(s, request, Obj1) ==> r == Failure(Rejection(request, Obj1))
    ensures Accepts(s, request, Obj1) && !Accepts(s, request, Obj2) ==> r == Failure(Rejection(request, Obj2))
    ensures r.Success? ==> r.value.Keys == {Obj1, Obj2}
    ensures r.Success? ==>
      r.value[Obj1] == Dict(Entry(s, request, Obj1)[PriceField := Entry(s, request, Obj2)[PriceField]])
    ensures r.Success? ==>
      r.value[Obj2] == Dict(Entry(s, request, Obj2)[PriceField := Entry(s, request, Obj1)[PriceField]])
  {
    var item1 :- Build(s, request, Obj1);
    var item2 :- Build(s, request, Obj2);
    var swapped := Exchange(item1, item2);
    ExchangeFields(s, item1, item2);
    Success(map[Obj1 := Dict(Fields(swapped.0)), Obj2 := Dict(Fields(swapped.1))])
  }

  /** `Model.predict`, step by step: build two objects, swap their prices in
      place, flatten each with `asdict`. It computes exactly `Respond`. */
  method Predict(s: Schema, request: map<string, Value>) returns (r: Result<map<string, Value>, Error>)
    requires ValidSchema(s)
    ensures r == Respond(s, request)
  {
    var item1 :- Build(s, request, Obj1);
    var item2 :- Build(s, request, Obj2);
    var obj1 := new InventoryItem(item1);
    var obj2 := new InventoryItem(item2);
    SwapPrices(obj1, obj2);
    var d1 := AsDict(s, obj1.Snapshot());
    var d2 := AsDict(s, obj2.Snapshot());
    r := Success(map[Obj1 := Dict(d1), Obj2 := Dict(d2)]);
  }

  /** With equal prices the response repeats the bound request entries; when
      each entry names every field, that is the request itself, restricted to
      the two keys. */
  lemma {:induction false} RespondEqualPrices(s: Schema, request: map<string, Value>)
    requires ValidSchema(s)
    requires Accepts(s, request, Obj1) && Accepts(s, request, Obj2)
    requires Entry(s, request, Obj1)[PriceField] == Entry(s, request, Obj2)[PriceField]
    ensures Respond(s, request) == Success(map[Obj1 := Dict(Entry(s, request, Obj1)), Obj2 := Dict(Entry(s, request, Obj2))])
    ensures request[Obj1].entries.Keys == FieldSet(s) && request[Obj2].entries.Keys == FieldSet(s) ==>
      Respond(s, request) == Success(map[Obj1 := request[Obj1], Obj2 := request[Obj2]])
  {
    var e1, e2 := Entry(s, request, Obj1), Entry(s, request, Obj2);
    assert PriceField in e1 by {
      assert Build(s, request, Obj1).Success?;
    }
    assert PriceField in e2 by {
      assert Build(s, request, Obj2).Success?;
    }
    assert e1[PriceField := e2[PriceField]] == e1;
    assert e2[PriceField := e1[PriceField]] == e2;
    if request[Obj1].entries.Keys == FieldSet(s) && request[Obj2].entries.Keys == FieldSet(s) {
      BoundComplete(s, request[Obj1].entries);
      BoundComplete(s, request[Obj2].entries);
    }
  }

  /** Feeding a response back to `Respond` swaps the prices back: the result
      is the request's two entries with every field bound. */
  lemma {:induction false} RespondInvolutive(s: Schema, request: map<string, Value>)
    requires ValidSchema(s)
    requires Respond(s, request).Success?
    ensures Respond(s, Respond(s, request).value)
         == Success(map[Obj1 := Dict(Entry(s, request, Obj1)), Obj2 := Dict(Entry(s, request, Obj2))])
  {
    var e1, e2 := Entry(s, request, Obj1), Entry(s, request, Obj2);
    var item1, item2 := Build(s, request, Obj1).value, Build(s, request, Obj2).value;
    var response := Respond(s, request).value;
    var out1 := e1[PriceField := e2[PriceField]];
    var out2 := e2[PriceField := e1[PriceField]];
    assert out1.Keys == FieldSet(s) && out2.Keys == FieldSet(s);
    BoundComplete(s, out1);
    BoundComplete(s, out2);
    assert Entry(s, response, Obj1) == out1;
    assert Entry(s, response, Obj2) == out2;
    assert out1[PriceField := out2[PriceField]] == e1;
    assert out2[PriceField := out1[PriceField]] == e2;
  }
}
