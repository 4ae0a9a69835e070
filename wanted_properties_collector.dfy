/**
 * The wanted-properties listing of the SQL store: properties that are used
 * in the property-value table of the default type but have no declaration
 * page, with their number of uses, most used first. When that table is a
 * fixed-property table there can be no such property, and the listing is
 * empty without any query.
 */
module WantedPropertiesCollector {
  import opened Wrappers
  import opened Sql
  import opened Smw

  /** A result entry: the wanted property and its number of uses. */
  type Wanted = (DIProperty, int)

  /** Ids up to this bound belong to predefined properties. */
  const PredefinedIdBound := 50

  const CountOrder := Str("count DESC")

  /** Only user-defined ids, only titles without a page, one group per title. */
  const WantedConditions: seq<Condition> :=
    [FieldAbove("smw_id", PredefinedIdBound), FieldIsNull("page_id"), GroupBy("smw_title")]

  /** The store's options with the ordering forced to descending count. */
  function WantedOptions(base: Options): (o: Options)
    ensures OrderBy in o && o[OrderBy] == CountOrder
    ensures o.Keys == base.Keys + {OrderBy}
    ensures forall k :: k in base && k != OrderBy ==> o[k] == base[k]
  {
    base[OrderBy := CountOrder]
  }

  /** The one `select` the listing issues, on the table `table` of the default type. */
  function WantedQuery(store: Store, table: PropertyTable, ro: Option<RequestOptions>): Select
  {
    Select(WantedJoin(table.name, store.idTable, "page", PropertyNamespace),
           ["smw_title", "COUNT(*) as count"],
           WantedConditions,
           WantedOptions(store.sqlOptions(ro, "title")))
  }

  /**
   * The rows as (property, count) pairs, in row order; the first row whose
   * title the DIProperty constructor rejects ends it with that exception.
   */
  function ToPairs(rows: seq<CountRow>, validKey: string -> bool): (r: Result<seq<Wanted>, InvalidProperty>)
    ensures r.Success? <==> forall k :: 0 <= k < |rows| ==> validKey(rows[k].smwTitle)
    ensures r.Success? ==> |r.value| == |rows|
    ensures r.Success? ==> forall k :: 0 <= k < |rows| ==>
      r.value[k] == (DIProperty(rows[k].smwTitle), rows[k].count)
    ensures r.Failure? ==>
      exists k :: 0 <= k < |rows| && FirstInvalid(rows, validKey, k) && r.error == InvalidProperty(rows[k].smwTitle)
  {
    if rows == [] then Success([])
    else
      var n := |rows| - 1;
      match ToPairs(rows[..n], validKey)
      case Failure(e) =>
        assert forall k :: 0 <= k < n ==> rows[..n][k] == rows[k];
        Failure(e)
      case Success(pairs) =>
        if validKey(rows[n].smwTitle) then Success(pairs + [(DIProperty(rows[n].smwTitle), rows[n].count)])
        else
          assert FirstInvalid(rows, validKey, n);
          Failure(InvalidProperty(rows[n].smwTitle))
  }

  /** Row `k` is the first whose title is not a valid property key. */
  ghost predicate FirstInvalid(rows: seq<CountRow>, validKey: string -> bool, k: int)
    requires 0 <= k < |rows|
  {
    !validKey(rows[k].smwTitle) && forall j :: 0 <= j < k ==> validKey(rows[j].smwTitle)
  }

  /** The collector of wanted properties (WantedPropertiesCollector). */
  class WantedPropertiesCollector {
    const store: Store
    const db: Connection
    const settings: Settings
    /** Whether a title is a key the DIProperty constructor accepts. */
    const validKey: string -> bool
    var requestOptions: Option<RequestOptions>
    /** The property-value table of the default type, set by DoCollect. */
    var propertyTables: Option<PropertyTable>

    constructor (store: Store, db: Connection, settings: Settings, validKey: string -> bool)
      ensures this.store == store && this.db == db && this.settings == settings && this.validKey == validKey
      ensures requestOptions == None && propertyTables == None
    {
      this.store := store;
      this.db := db;
      this.settings := settings;
      this.validKey := validKey;
      requestOptions := None;
      propertyTables := None;
    }

    /** Sets the request options used by the next collection. */
    method SetRequestOptions(ro: Option<RequestOptions>)
      modifies this`requestOptions
      ensures requestOptions == ro
    {
      requestOptions := ro;
    }

    /** The cache descriptor: keyed by the default type and the request options, configured by the wanted-properties settings. */
    function CacheSetup(): (d: CacheDescriptor)
      reads this
      ensures |d.id| == 3 && d.id[0] == Text("smwgWantedPropertiesCache")
      ensures d.id[1] == Text(settings.smwgPDefaultType) && d.id[2] == Request(requestOptions)
      ensures d.cacheType == settings.smwgCacheType
      ensures d.enabled == settings.smwgWantedPropertiesCache
      ensures d.expiry == settings.smwgWantedPropertiesCacheExpiry
    {
      CacheDescriptor([Text("smwgWantedPropertiesCache"), Text(settings.smwgPDefaultType), Request(requestOptions)],
                      settings.smwgCacheType, settings.smwgWantedPropertiesCache, settings.smwgWantedPropertiesCacheExpiry)
    }

    /**
     * Collects the listing: looks up the table of the default type and, unless
     * it is a fixed-property table, runs the query.
     */
    method DoCollect() returns (result: Result<seq<Wanted>, InvalidProperty>)
      modifies this`propertyTables, db
      ensures propertyTables == Some(store.propertyTables(settings.smwgPDefaultType))
      ensures propertyTables.value.isFixed ==> result == Success([]) && db.queries == old(db.queries)
      ensures !propertyTables.value.isFixed ==>
        var q := WantedQuery(store, propertyTables.value, requestOptions);
        db.queries == old(db.queries) + [q] && result == ToPairs(db.countRows(q), validKey)
    {
      result := Success([]);

      propertyTables := Some(store.propertyTables(settings.smwgPDefaultType));

      if !propertyTables.value.isFixed {
        result := DoQuery();
      }
    }

    /** Runs the wanted-properties query and maps its rows to (property, count) pairs. */
    method DoQuery() returns (result: Result<seq<Wanted>, InvalidProperty>)
      requires propertyTables.Some?
      modifies db
      ensures var q := WantedQuery(store, propertyTables.value, requestOptions);
              db.queries == old(db.queries) + [q] && result == ToPairs(db.countRows(q), validKey)
    {
      var options := store.sqlOptions(requestOptions, "title");
      options := options[OrderBy := CountOrder];

      var rows := db.SelectCounts(
        Select(WantedJoin(propertyTables.value.name, store.idTable, "page", PropertyNamespace),
               ["smw_title", "COUNT(*) as count"],
               [FieldAbove("smw_id", PredefinedIdBound), FieldIsNull("page_id"), GroupBy("smw_title")],
               options));

      var pairs: seq<Wanted> := [];
      var i := 0;
      while i < |rows|
        invariant 0 <= i <= |rows|
        invariant ToPairs(rows[..i], validKey) == Success(pairs)
      {
        assert rows[..i + 1][..i] == rows[..i];
        if !validKey(rows[i].smwTitle) {
          return Failure(InvalidProperty(rows[i].smwTitle));
        }
        pairs := pairs + [(DIProperty(rows[i].smwTitle), rows[i].count)];
        i := i + 1;
      }
      assert rows[..|rows|] == rows;
      result := Success(pairs);
    }
  }
}
