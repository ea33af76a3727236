/**
 * The beach registry `PLAYAS`: a dictionary from beach id to its record,
 * kept here as the sequence of its items in insertion order.
 */
module Registry {
  import opened Wrappers

  /** A record of the registry file: `lat`, `long`, `nombre`, `pais`. */
  datatype Beach = Beach(lat: real, long: real, nombre: string, pais: string)

  /** One item of the dictionary: the id and its record. */
  datatype Entry = Entry(id: string, info: Beach)

  /** A dictionary has no two items with the same key. */
  predicate UniqueIds(reg: seq<Entry>)
  {
    forall i, j :: 0 <= i < j < |reg| ==> reg[i].id != reg[j].id
  }

  /** `PLAYAS[playa_id]` guarded by `playa_id in PLAYAS`: None when the key is absent. */
  function Lookup(reg: seq<Entry>, id: string): (r: Option<Beach>)
    ensures r.None? <==> forall i :: 0 <= i < |reg| ==> reg[i].id != id
    ensures r.Some? ==> Entry(id, r.value) in reg
  {
    if |reg| == 0 then None
    else if reg[0].id == id then Some(reg[0].info)
    else Lookup(reg[1..], id)
  }

  /** In a dictionary, a lookup finds a record exactly when that item is in it. */
  lemma LookupFindsItem(reg: seq<Entry>, id: string, b: Beach)
    requires UniqueIds(reg)
    ensures Lookup(reg, id) == Some(b) <==> Entry(id, b) in reg
  {
    if Entry(id, b) in reg {
      var j :| 0 <= j < |reg| && reg[j] == Entry(id, b);
      var r := Lookup(reg, id);
      var i :| 0 <= i < |reg| && reg[i] == Entry(id, r.value);
      assert i == j;
    }
  }
}
