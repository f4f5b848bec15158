/** The state every strategy starts from: the last known record of each
    position, keyed by instrument, and of each order, keyed by order id.
    A record is the exchange's JSON object, a map from field names to
    values. */
module BaseStrategy {
  import opened Wrappers

  type Record = map<string, string>

  /** record.get(key), taken as an id only when it is a non-empty string. */
  function IdOf(rec: Record, key: string): (r: Option<string>)
    ensures r.Some? <==> key in rec && rec[key] != ""
    ensures r.Some? ==> r.value == rec[key]
  {
    if key in rec && rec[key] != "" then Some(rec[key]) else None
  }

  /** Store a record under its id, or leave the table alone when the record
      carries no id. */
  function Stored(table: map<string, Record>, rec: Record, key: string): map<string, Record>
  {
    match IdOf(rec, key)
    case Some(id) => table[id := rec]
    case None => table
  }

  /** dict.get(id). */
  function Get(table: map<string, Record>, id: string): (r: Option<Record>)
    ensures r.Some? <==> id in table
  {
    if id in table then Some(table[id]) else None
  }

  /** After storing, the record is found under its id and every other id
      finds what it found before; a record without an id changes nothing. */
  lemma GetAfterStored(table: map<string, Record>, rec: Record, key: string, other: string)
    ensures IdOf(rec, key).None? ==> Stored(table, rec, key) == table
    ensures IdOf(rec, key).Some? ==> Get(Stored(table, rec, key), rec[key]) == Some(rec)
    ensures IdOf(rec, key) != Some(other) ==> Get(Stored(table, rec, key), other) == Get(table, other)
  {
  }

  /** The later of two records with the same id wins. */
  lemma StoredOverwrites(table: map<string, Record>, first: Record, second: Record, key: string)
    requires IdOf(first, key).Some? && IdOf(first, key) == IdOf(second, key)
    ensures Stored(Stored(table, first, key), second, key) == Stored(table, second, key)
  {
  }

  class BaseStrategy {
    var positions: map<string, Record>
    var pendingOrders: map<string, Record>

    constructor ()
      ensures positions == map[] && pendingOrders == map[]
    {
      positions := map[];
      pendingOrders := map[];
    }

    /** `update_position`: keyed by "instId". */
    method UpdatePosition(positionData: Record)
      modifies this`positions
      ensures positions == Stored(old(positions), positionData, "instId")
    {
      var instId := IdOf(positionData, "instId");
      if instId.Some? {
        positions := positions[instId.value := positionData];
      }
    }

    /** `update_order`: keyed by "ordId". */
    method UpdateOrder(orderData: Record)
      modifies this`pendingOrders
      ensures pendingOrders == Stored(old(pendingOrders), orderData, "ordId")
    {
      var ordId := IdOf(orderData, "ordId");
      if ordId.Some? {
        pendingOrders := pendingOrders[ordId.value := orderData];
      }
    }

    /** `get_position`. */
    function GetPosition(instId: string): Option<Record>
      reads this
    {
      Get(positions, instId)
    }

    /** `get_order`. */
    function GetOrder(ordId: string): Option<Record>
      reads this
    {
      Get(pendingOrders, ordId)
    }
  }
}
