/** The inventory record the swap and the serving model operate on.

    Its concrete dataclass lives in a package that is not part of this model,
    so its shape is a parameter: a `Schema` lists the declared field names in
    declaration order and the defaults some of them carry. The only field the
    code relies on is `unit_price`. A record's value is an `Item`; the
    mutable Python object holding it is the class `InventoryItem`.

    Constructing a record from keyword arguments (`InventoryItem(**d)`) and
    flattening it back to a mapping (`dataclasses.asdict`) are modelled here. */
module Items {
  import opened Wrappers
  import opened Values

  /** The one field name the code touches. */
  const PriceField: string := "unit_price"

  /** Declared field names, in declaration order, and the default values of
      the fields that have one. */
  datatype Schema = Schema(names: seq<string>, defaults: map<string, Value>)

  function FieldSet(s: Schema): set<string> {
    set f | f in s.names
  }

  /** Fields the caller must supply: those without a default. */
  function Required(s: Schema): set<string> {
    FieldSet(s) - s.defaults.Keys
  }

  /** A well-formed record type: it declares `unit_price`, and defaults are
      given only for declared fields. */
  predicate ValidSchema(s: Schema) {
    && PriceField in s.names
    && s.defaults.Keys <= FieldSet(s)
  }

  /** The value of one record: its price and every other field by name. */
  datatype Item = Item(unitPrice: Value, others: map<string, Value>)

  /** `item` has exactly the fields `s` declares. */
  predicate Fits(s: Schema, item: Item) {
    && PriceField !in item.others
    && item.others.Keys + {PriceField} == FieldSet(s)
  }

  /** The record as a field-name-to-value mapping: what `asdict` returns. */
  function Fields(item: Item): map<string, Value> {
    item.others[PriceField := item.unitPrice]
  }

  /** Reading one attribute of the record by name. */
  function Attribute(item: Item, f: string): Value
    requires f == PriceField || f in item.others
  {
    if f == PriceField then item.unitPrice else item.others[f]
  }

  /** Python's keyword binding accepts `kwargs`: no key names an undeclared
      field, and every field without a default is supplied. */
  predicate Binds(s: Schema, kwargs: map<string, Value>) {
    && kwargs.Keys <= FieldSet(s)
    && Required(s) <= kwargs.Keys
  }

  /** The field values after binding: supplied arguments override defaults. */
  function Bound(s: Schema, kwargs: map<string, Value>): map<string, Value> {
    s.defaults + kwargs
  }

  /** `InventoryItem(**kwargs)`: `None` stands for the TypeError Python raises
      for an unexpected or a missing keyword argument. */
  function Construct(s: Schema, kwargs: map<string, Value>): (r: Option<Item>)
    requires ValidSchema(s)
    ensures r.Some? <==> Binds(s, kwargs)
    ensures r.Some? ==> Fits(s, r.value)
    ensures r.Some? ==> Fields(r.value) == Bound(s, kwargs)
    ensures r.Some? ==> forall f :: f in kwargs ==> Fields(r.value)[f] == kwargs[f]
  {
    if Binds(s, kwargs) then
      var bound := Bound(s, kwargs);
      var item := Item(bound[PriceField], bound - {PriceField});
      assert Fields(item) == bound;
      Some(item)
    else
      None
  }

  /** A supplied argument set that names every declared field binds to
      exactly itself: no default is used. */
  lemma BoundComplete(s: Schema, kwargs: map<string, Value>)
    requires ValidSchema(s)
    requires kwargs.Keys == FieldSet(s)
    ensures Binds(s, kwargs)
    ensures Bound(s, kwargs) == kwargs
  {
  }

  /** Round trip: constructing a record from its own `asdict` mapping gives
      back the same record. */
  lemma {:induction false} ConstructFields(s: Schema, item: Item)
    requires ValidSchema(s)
    requires Fits(s, item)
    ensures Construct(s, Fields(item)) == Some(item)
  {
    var d := Fields(item);
    assert d.Keys == FieldSet(s);
    BoundComplete(s, d);
    var back := Construct(s, d).value;
    assert back.unitPrice == item.unitPrice;
    assert back.others == item.others by {
      assert back.others.Keys == item.others.Keys;
      forall f | f in item.others
        ensures back.others[f] == item.others[f]
      {
        assert Fields(back)[f] == d[f];
      }
    }
  }

  /** `dataclasses.asdict`: walks the declared fields in declaration order
      and records each one's value under its name. */
  method AsDict(s: Schema, item: Item) returns (d: map<string, Value>)
    requires Fits(s, item)
    ensures d.Keys == FieldSet(s)
    ensures d[PriceField] == item.unitPrice
    ensures forall f :: f in item.others ==> d[f] == item.others[f]
    ensures d == Fields(item)
  {
    d := map[];
    var i := 0;
    while i < |s.names|
      invariant 0 <= i <= |s.names|
      invariant forall j :: 0 <= j < i ==> s.names[j] in d
      invariant d.Keys <= FieldSet(s)
      invariant forall f :: f in d ==> d[f] == Fields(item)[f]
    {
      var f := s.names[i];
      d := d[f := Attribute(item, f)];
      i := i + 1;
    }
    assert d.Keys == Fields(item).Keys;
  }

  /** The mutable Python object. */
  class InventoryItem {
    var unitPrice: Value
    var others: map<string, Value>

    constructor (item: Item)
      ensures Snapshot() == item
    {
      unitPrice := item.unitPrice;
      others := item.others;
    }

    /** The object's current value. */
    function Snapshot(): Item
      reads this
    {
      Item(unitPrice, others)
    }
  }
}
