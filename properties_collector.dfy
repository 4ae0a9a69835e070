/**
 * The declared-properties listing of the SQL store: every entry of the ID
 * table that lies in the property namespace and is not imported, in sort-key
 * order and paged by the request options, each with its usage count from the
 * property statistics table (0 when it has none). A title that is not a valid
 * property key becomes an error item carrying that title; the listing goes on.
 */
module PropertiesCollector {
  import opened Wrappers
  import opened Sql
  import opened Smw

  /** A listed property, or the error item that stands in for an invalid one. */
  datatype Item = Prop(property: DIProperty) | ErrorItem(msgKey: string, title: string)

  /** A result entry: the property (or its error item) and its usage count. */
  type Usage = (Item, int)

  /** The message key of the error item for an invalid property title. */
  const NoPropertyMessage := "smw_noproperty"

  const SortKeyOrder := Str("smw_sortkey")

  /** Restrict to the property namespace and to local entries (no interwiki prefix). */
  const BaseConditions: seq<Condition> :=
    [FieldEquals("smw_namespace", Int(PropertyNamespace)), FieldEquals("smw_iw", Str(""))]

  /** The `select` options for the request options `ro` (`null` is None). */
  function QueryOptions(ro: Option<RequestOptions>): (o: Options)
    ensures OrderBy in o && o[OrderBy] == SortKeyOrder
    ensures ro.None? ==> o == map[OrderBy := SortKeyOrder]
    ensures Limit in o <==> ro.Some? && ro.value.limit > 0
    ensures Offset in o <==> Limit in o
    ensures o.Keys <= {OrderBy, Limit, Offset}
    ensures Limit in o ==> o[Limit] == Int(ro.value.limit)
    ensures Offset in o ==> o[Offset].Int? && o[Offset].i >= 0 && o[Offset].i >= ro.value.offset
    ensures Offset in o && ro.value.offset >= 0 ==> o[Offset] == Int(ro.value.offset)
    ensures Offset in o && ro.value.offset < 0 ==> o[Offset] == Int(0)
  {
    var sorted := map[OrderBy := SortKeyOrder];
    if ro.Some? && ro.value.limit > 0 then
      sorted[Limit := Int(ro.value.limit)][Offset := Int(if ro.value.offset > 0 then ro.value.offset else 0)]
    else
      sorted
  }

  /** The `select` conditions for the request options `ro`. */
  function QueryConditions(store: Store, ro: Option<RequestOptions>): (c: seq<Condition>)
    ensures |c| >= 2 && c[..2] == BaseConditions
    ensures c[0] == FieldEquals("smw_namespace", Int(PropertyNamespace)) && c[1] == FieldEquals("smw_iw", Str(""))
    ensures |c| == 2 <==> ro.None? || ro.value.stringConditions == []
    ensures |c| != 2 ==> c == BaseConditions + [Fragment(store.sqlConditions(ro.value, "", "smw_title", false))]
  {
    if ro.Some? && ro.value.stringConditions != [] then
      BaseConditions + [Fragment(store.sqlConditions(ro.value, "", "smw_title", false))]
    else
      BaseConditions
  }

  /** The one `select` the listing issues on the ID table. */
  function PropertiesQuery(store: Store, ro: Option<RequestOptions>): Select
  {
    Select(Named(store.idTable), ["smw_id", "smw_title"], QueryConditions(store, ro), QueryOptions(ro))
  }

  /** The ids of the rows, in row order. */
  function RowIds(rows: seq<IdRow>): seq<int>
  {
    if rows == [] then [] else RowIds(rows[..|rows| - 1]) + [rows[|rows| - 1].smwId]
  }

  /** The collected ids match the rows one to one, in row order. */
  lemma {:induction false} RowIdsMatchRows(rows: seq<IdRow>)
    ensures |RowIds(rows)| == |rows|
    ensures forall k :: 0 <= k < |rows| ==> RowIds(rows)[k] == rows[k].smwId
  {
    if rows != [] {
      var n := |rows| - 1;
      RowIdsMatchRows(rows[..n]);
      assert forall k :: 0 <= k < n ==> rows[..n][k] == rows[k];
    }
  }

  /** The item for a title: the property, or the error item for an invalid key. */
  function ItemFor(validKey: string -> bool, title: string): Item
  {
    if validKey(title) then Prop(DIProperty(title)) else ErrorItem(NoPropertyMessage, title)
  }

  /** The usage count of an id: its entry in `counts`, or 0 when it has none. */
  function CountFor(counts: map<int, int>, id: int): int
  {
    if id in counts then counts[id] else 0
  }

  /** The listing built from the rows and the usage counts of their ids. */
  function Merge(rows: seq<IdRow>, counts: map<int, int>, validKey: string -> bool): seq<Usage>
  {
    if rows == [] then []
    else
      var last := rows[|rows| - 1];
      Merge(rows[..|rows| - 1], counts, validKey) + [(ItemFor(validKey, last.smwTitle), CountFor(counts, last.smwId))]
  }

  /**
   * One entry per row, in row order: the row's usage count, 0 when the
   * statistics have no entry for its id (an unused property is listed, not
   * dropped), and the property itself or, for an invalid title, the error
   * item carrying that title.
   */
  lemma {:induction false} MergeEntries(rows: seq<IdRow>, counts: map<int, int>, validKey: string -> bool)
    ensures |Merge(rows, counts, validKey)| == |rows|
    ensures forall k :: 0 <= k < |rows| ==>
      Merge(rows, counts, validKey)[k].1 == (if rows[k].smwId in counts then counts[rows[k].smwId] else 0)
    ensures forall k :: 0 <= k < |rows| ==>
      (validKey(rows[k].smwTitle) <==> Merge(rows, counts, validKey)[k].0 == Prop(DIProperty(rows[k].smwTitle)))
    ensures forall k :: 0 <= k < |rows| ==>
      (!validKey(rows[k].smwTitle) <==> Merge(rows, counts, validKey)[k].0 == ErrorItem(NoPropertyMessage, rows[k].smwTitle))
  {
    if rows != [] {
      var n := |rows| - 1;
      MergeEntries(rows[..n], counts, validKey);
      assert forall k :: 0 <= k < n ==> rows[..n][k] == rows[k];
    }
  }

  /**
   * Each row is turned into its entry independently of the others: the
   * listing of two consecutive batches of rows is the concatenation of the
   * two listings, so an invalid row never affects the rows after it.
   */
  lemma {:induction false} MergeAppend(a: seq<IdRow>, b: seq<IdRow>, counts: map<int, int>, validKey: string -> bool)
    ensures Merge(a + b, counts, validKey) == Merge(a, counts, validKey) + Merge(b, counts, validKey)
    decreases |b|
  {
    if b == [] {
      assert a + b == a;
    } else {
      var b' := b[..|b| - 1];
      assert (a + b)[..|a + b| - 1] == a + b';
      MergeAppend(a, b', counts, validKey);
    }
  }

  /** The collector of declared properties (PropertiesCollector). */
  class PropertiesCollector {
    const store: Store
    const db: Connection
    const settings: Settings
    /** Whether a title is a key the DIProperty constructor accepts. */
    const validKey: string -> bool
    var requestOptions: Option<RequestOptions>

    constructor (store: Store, db: Connection, settings: Settings, validKey: string -> bool)
      ensures this.store == store && this.db == db && this.settings == settings && this.validKey == validKey
      ensures requestOptions == None
    {
      this.store := store;
      this.db := db;
      this.settings := settings;
      this.validKey := validKey;
      requestOptions := None;
    }

    /** Sets the request options used by the next collection. */
    method SetRequestOptions(ro: Option<RequestOptions>)
      modifies this`requestOptions
      ensures requestOptions == ro
    {
      requestOptions := ro;
    }

    /** The cache descriptor: keyed by the request options, configured by the properties-cache settings. */
    function CacheSetup(): (d: CacheDescriptor)
      reads this
      ensures |d.id| == 2 && d.id[0] == Text("smwgPropertiesCache")
      ensures d.id[1] == Request(requestOptions)
      ensures d.cacheType == settings.smwgCacheType
      ensures d.enabled == settings.smwgPropertiesCache
      ensures d.expiry == settings.smwgPropertiesCacheExpiry
    {
      CacheDescriptor([Text("smwgPropertiesCache"), Request(requestOptions)],
                      settings.smwgCacheType, settings.smwgPropertiesCache, settings.smwgPropertiesCacheExpiry)
    }

    /**
     * Collects the listing: issues the ID-table query for the current
     * request options and merges its rows with the rows' usage counts.
     */
    method DoCollect() returns (result: seq<Usage>)
      modifies db
      ensures db.queries == old(db.queries) + [PropertiesQuery(store, requestOptions)]
      ensures var rows := db.idRows(PropertiesQuery(store, requestOptions));
              result == Merge(rows, store.usageCounts(RowIds(rows)), validKey)
    {
      result := [];
      var propertyIds: seq<int> := [];

      var options: Options := map[OrderBy := SortKeyOrder];
      var conditions := [FieldEquals("smw_namespace", Int(PropertyNamespace)), FieldEquals("smw_iw", Str(""))];

      if requestOptions.Some? {
        var ro := requestOptions.value;
        if ro.limit > 0 {
          options := options[Limit := Int(ro.limit)];
          options := options[Offset := Int(if ro.offset > 0 then ro.offset else 0)];
        }
        if ro.stringConditions != [] {
          conditions := conditions + [Fragment(store.sqlConditions(ro, "", "smw_title", false))];
        }
      }

      assert options == QueryOptions(requestOptions);
      assert conditions == QueryConditions(store, requestOptions);
      var rows := db.SelectIds(Select(Named(store.idTable), ["smw_id", "smw_title"], conditions, options));

      var i := 0;
      while i < |rows|
        invariant 0 <= i <= |rows|
        invariant propertyIds == RowIds(rows[..i])
      {
        assert rows[..i + 1][..i] == rows[..i];
        propertyIds := propertyIds + [rows[i].smwId];
        i := i + 1;
      }
      assert rows[..|rows|] == rows;

      var usageCounts := store.usageCounts(propertyIds);

      i := 0;
      while i < |rows|
        invariant 0 <= i <= |rows|
        invariant result == Merge(rows[..i], usageCounts, validKey)
      {
        assert rows[..i + 1][..i] == rows[..i];
        var property := if validKey(rows[i].smwTitle) then Prop(DIProperty(rows[i].smwTitle))
                        else ErrorItem(NoPropertyMessage, rows[i].smwTitle);
        var count := if rows[i].smwId in usageCounts then usageCounts[rows[i].smwId] else 0;
        result := result + [(property, count)];
        i := i + 1;
      }
    }
  }
}
