/**
 * The write methods of `Mite` exactly as the source spells them.  The
 * helper `_wrap_entry` returns `{key: kwargs}` although it has no variable
 * `kwargs`, and the write methods call a `_wrap_dict` that is defined
 * nowhere: as a bare name in `create_entry` and `edit_entry`, as a method
 * in `start_tracker`, `create_customer` and `edit_customer`.  Python looks
 * these names up only when the line runs, so each call raises.  The
 * corrected behaviour, `MiteClient.Wrap` and the write methods built on it,
 * is what the rest of the model uses.
 */
module MiteAsWritten {
  import opened Wrappers
  import Decimal
  import opened MiteClient

  /** The exception Python raises for a name it cannot resolve. */
  datatype Fault =
    | NameError(name: string)        // an unbound local or global name
    | AttributeError(name: string)   // a missing attribute of the `Mite` instance

  /** `_wrap_entry(key, data)`: `kwargs` is unbound in its body. */
  function WrapEntryAsWritten(key: string, data: Fields): Result<Fields, Fault> {
    Failure(NameError("kwargs"))
  }

  /** `create_entry`: the global `_wrap_dict` does not exist. */
  function CreateEntryAsWritten(kwargs: Fields): Result<Call, Fault> {
    Failure(NameError("_wrap_dict"))
  }

  /** `edit_entry`: the global `_wrap_dict` does not exist. */
  function EditEntryAsWritten(id: int, kwargs: Fields): Result<Call, Fault> {
    Failure(NameError("_wrap_dict"))
  }

  /** `start_tracker`: `self._wrap_dict` is reached only when there are fields. */
  function StartTrackerAsWritten(id: int, kwargs: Fields): Result<Call, Fault> {
    if kwargs == map[] then Success(Patch(FormatId("/tracker/{}.json", "/tracker/", ".json", id), None, None))
    else Failure(AttributeError("_wrap_dict"))
  }

  /** `create_customer`: `self._wrap_dict` does not exist. */
  function CreateCustomerAsWritten(name: Json, kwargs: Fields): Result<Call, Fault>
    requires "name" !in kwargs
  {
    Failure(AttributeError("_wrap_dict"))
  }

  /** `edit_customer`: `self._wrap_dict` does not exist. */
  function EditCustomerAsWritten(id: int, kwargs: Fields): Result<Call, Fault> {
    Failure(AttributeError("_wrap_dict"))
  }

  /** `_wrap_entry` raises for every input, where `{key: data}` was meant. */
  lemma WrapEntryDiscrepancy(key: string, data: Fields)
    ensures WrapEntryAsWritten(key, data).Failure?
    ensures Unwrap(key, JObject(Wrap(key, data))) == Some(data)
  {
    UnwrapWrap(key, data);
  }

  /** The time-entry writes raise `NameError` for every input; the corrected ones send the wrapped fields. */
  lemma EntryWritesDiscrepancy(id: int, kwargs: Fields)
    ensures CreateEntryAsWritten(kwargs) == Failure(NameError("_wrap_dict"))
    ensures EditEntryAsWritten(id, kwargs) == Failure(NameError("_wrap_dict"))
    ensures Unwrap("time_entry", CreateEntry(kwargs).data.value) == Some(kwargs)
    ensures Unwrap("time_entry", EditEntry(id, kwargs).data.value) == Some(kwargs)
  {
  }

  /**
   * The customer writes raise `AttributeError` for every input; starting a
   * tracker works only without fields, and then agrees with the corrected method.
   */
  lemma SelfWrapDiscrepancy(id: int, name: Json, kwargs: Fields)
    ensures "name" !in kwargs ==> CreateCustomerAsWritten(name, kwargs) == Failure(AttributeError("_wrap_dict"))
    ensures EditCustomerAsWritten(id, kwargs) == Failure(AttributeError("_wrap_dict"))
    ensures StartTrackerAsWritten(id, kwargs).Success? <==> kwargs == map[]
    ensures StartTrackerAsWritten(id, kwargs).Success? ==> StartTrackerAsWritten(id, kwargs).value == StartTracker(id, kwargs)
    ensures kwargs != map[] ==> StartTracker(id, kwargs).data.Some?
  {
  }

  /** A concrete input on which the as-written `start_tracker` raises. */
  lemma StartTrackerWithNoteRaises()
    ensures StartTrackerAsWritten(7, map["note" := JString("x")]) == Failure(AttributeError("_wrap_dict"))
    ensures StartTracker(7, map["note" := JString("x")]).data
         == Some(JObject(map["tracker" := JObject(map["tracking_time_entry" := JObject(map["note" := JString("x")])])]))
  {
    var kwargs := map["note" := JString("x")];
    assert "note" in kwargs;
    assert TrackerBody(kwargs) == Some(JObject(Wrap("tracker", Wrap("tracking_time_entry", kwargs))));
  }
}
