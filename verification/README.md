# Inventory price swap and its serving wrapper, in Dafny

This project models the working core of a model-serving template: the helper
`swap_prices`, which exchanges the `unit_price` field of two inventory records
in place, and the wrapper class `Model`, whose `predict` builds two records from
the `obj1` and `obj2` entries of a request, swaps their prices and returns both
flattened back to mappings under the same keys. Construction of the wrapper
(three required configuration keys, no model loaded) and the placeholder
`load` are modelled too.

Modules, one per source concept:

- `Wrappers` (`wrappers.dfy`): `Option` and `Result`. A `Result` failure
  propagates with `:-`, as an uncaught exception does.
- `Values` (`values.dfy`): the JSON-like values a request carries.
- `Items` (`items.dfy`): the inventory record. Its dataclass is defined in a
  package that is not part of this model (`pkg1.types`), so the record's shape
  is a parameter `Schema`. A schema gives the declared field names in order
  and the defaults some fields carry. The one field the code relies on is
  `unit_price`. This module models keyword construction `InventoryItem(**d)`
  (`Construct`) and `dataclasses.asdict` (`Fields`, `AsDict`). It also holds
  the mutable object `InventoryItem`.
- `Methods` (`methods.dfy`): `swap_prices` as a method on objects
  (`SwapPrices`, framed to the two `unit_price` fields) and as a function
  on record values (`Exchange`).
- `ServingModel` (`model.dfy`): `Model.__init__` (`Init`), `load` (`Load`),
  and `predict`. The pure reference is `Respond`. `Predict` performs the same
  steps on objects and is proved to compute exactly `Respond`.

Errors are the exceptions Python raises. A missing `obj1`, `obj2` or
configuration key gives `KeyError`. A request entry that is not a mapping, or
whose keys do not bind to the record's fields, gives `TypeError`. `obj1` is
examined before `obj2`.

## Model

| member | source | states |
|---|---|---|
| `Items.Construct` | reuse_truss/model/model.py:19-20 | keyword construction succeeds exactly when no key is an undeclared field and every field without a default is supplied; the record then has exactly the declared fields, supplied values override defaults, and every supplied value is kept |
| `Items.BoundComplete` | reuse_truss/model/model.py:19-20 | arguments naming every declared field always bind, and no default replaces any of them |
| `Items.AsDict` | reuse_truss/model/model.py:23-24 | flattening a record by walking its declared fields in order yields a mapping with exactly the declared field names, the price under `unit_price` and every other field under its own name |
| `Items.ConstructFields` | reuse_truss/model/model.py:19-24 | round trip: constructing a record from its own flattened mapping gives back the same record |
| `Methods.SwapPrices` | shared/pkg2/methods.py:3-6 | `a` ends with the old price of `b` and `b` with the old price of `a`; only the two `unit_price` fields may be written, other fields are unchanged; if `a` and `b` are one object its price is unchanged; no object is allocated; the object states agree with `Exchange` |
| `Methods.SwapPricesTwice` | shared/pkg2/methods.py:3-6 | swapping twice restores both objects to their original state |
| `Methods.ExchangeInvolutive` | shared/pkg2/methods.py:4-6 | the swap on record values is its own inverse |
| `Methods.ExchangeEqualPrices` | shared/pkg2/methods.py:4-6 | with equal prices, including a record swapped with itself, the swap changes nothing |
| `Methods.ExchangeFields` | shared/pkg2/methods.py:4-6 | the swap keeps both records well-formed and changes only the `unit_price` entry of each flattened mapping, to the other record's price |
| `ServingModel.Init` | reuse_truss/model/model.py:7-11 | construction succeeds exactly when there is no `self` keyword and `data_dir`, `config` and `secrets` are all present; a `self` keyword raises `TypeError`; otherwise a `KeyError` names the first missing configuration key in that order; on success the three values are stored unchanged and no model is set |
| `ServingModel.InitIgnoresOtherKeys` | reuse_truss/model/model.py:7-11 | two keyword sets that agree on the three configuration keys construct the same wrapper, provided both or neither carry a `self` keyword; every other key is ignored |
| `ServingModel.Load` | reuse_truss/model/model.py:13-15 | `load` leaves the whole wrapper state as it was |
| `ServingModel.LoadKeepsModelUnset` | reuse_truss/model/model.py:8-15 | after construction and `load`, no model is set and the stored configuration is the one passed in |
| `ServingModel.Build` | reuse_truss/model/model.py:19-20 | building a record from a request entry succeeds exactly when the key is present and its value is a mapping that binds to the record's fields; otherwise it raises `KeyError` for a missing key and `TypeError` for anything else |
| `ServingModel.Respond` | reuse_truss/model/model.py:17-25 | succeeds exactly when both `obj1` and `obj2` entries are accepted; otherwise fails with the error for `obj1` if that entry is rejected, else with the error for `obj2`; on success the response has exactly the keys `obj1` and `obj2`, each entry keeps every field of the same-keyed request entry except `unit_price`, which it takes from the other entry |
| `ServingModel.Predict` | reuse_truss/model/model.py:17-25 | building two objects, swapping their prices in place and flattening each computes exactly `Respond`, error cases included |
| `ServingModel.RespondEqualPrices` | reuse_truss/model/model.py:19-25 | with equal prices the response repeats the two bound request entries; when each request entry names every field, the response equals the request restricted to `obj1` and `obj2` |
| `ServingModel.RespondInvolutive` | reuse_truss/model/model.py:19-25 | feeding a response back through `predict` swaps the prices back, giving the two request entries with every field bound |

## Left out

- Serving harness and model inference: `load` has an empty body in the source, so no loading is modelled.
- The concrete `InventoryItem` dataclass is not part of this model. Its field list and defaults are the parameter `Schema`. The only requirement on it is that it declares `unit_price`, which `swap_prices` reads.
- Field types: dataclasses do not check types at construction, so a price is any `Value`, not a number. Floating-point values are not modelled.
- The schema's field names are at once the keyword parameters of the record's constructor and the fields `asdict` emits. This assumes the dataclass has no `field(init=False)`, which Python refuses as a keyword but `asdict` still emits. It also assumes no `InitVar`, which is accepted as a keyword but never emitted.
- The dataclass is assumed not to be `frozen=True`. A frozen record would make `swap_prices` raise `FrozenInstanceError` at its first assignment.
- A `__post_init__` hook or any other validation the dataclass might add is not modelled.
- `dataclasses.asdict` is modelled only as "each declared field name maps to its value". Its deep copy and its recursion into nested dataclasses are left out. Values here are immutable, so a copy is equal to the original.
- The content of `data_dir`, `config` and `secrets` is opaque. They are stored as arbitrary `Value`s.
- Python exception messages are not modelled. `TypeError` carries only the key involved: the request key whose record could not be built, or `self`. It does not name the offending record field.
- `Predict` takes no wrapper state, because `predict` reads none.
- The return annotation `Dict[str, List]` does not match the dict-of-dicts result; the model follows the code. The unused `response = {}` is dropped.
- `preprocess` and `postprocess`: the source defines neither, so neither is modelled.
- Key order in the returned mappings is not modelled, since Dafny maps are unordered.
