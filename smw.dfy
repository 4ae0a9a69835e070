/**
 * Entities shared by the SQLStore collectors: property data items, request
 * options, the settings they read, the store's query helpers and the cache
 * descriptor that each collector's `cacheSetup` builds.
 */
module Smw {
  import opened Wrappers
  import opened Sql

  /** SMW_NS_PROPERTY, the namespace number of property pages, with the default namespace index of 100. */
  const PropertyNamespace: int := 102

  /** A property data item, identified by its key (DIProperty). */
  datatype DIProperty = DIProperty(key: string)

  /** An `InvalidPropertyException` raised by the DIProperty constructor. */
  datatype InvalidProperty = InvalidProperty(key: string)

  /** A string filter of the request options (SMWStringCondition). */
  datatype StringMatch = Prefix | Suffix | Contains
  datatype StringCondition = StringCondition(text: string, kind: StringMatch)

  /**
   * Request options (SMWRequestOptions): a limit (not positive means "no
   * limit"), an offset, sorting flags and string filters.
   */
  datatype RequestOptions = RequestOptions(
    limit: int,
    offset: int,
    sort: bool,
    ascending: bool,
    stringConditions: seq<StringCondition>)

  /** The settings the collectors read, passed explicitly. */
  datatype Settings = Settings(
    smwgCacheType: string,
    smwgPropertiesCache: bool,
    smwgPropertiesCacheExpiry: int,
    smwgWantedPropertiesCache: bool,
    smwgWantedPropertiesCacheExpiry: int,
    smwgPDefaultType: string)

  /** A property-value table; a fixed one holds exactly one property. */
  datatype PropertyTable = PropertyTable(name: string, isFixed: bool)

  /**
   * The store as the collectors see it. Its helpers are not part of this
   * model and appear as given functions:
   * - `sqlConditions` is `getSQLConditions(requestOptions, valueCol, labelCol, addAnd)`;
   * - `sqlOptions` is `getSQLOptions(requestOptions, valueCol)`;
   * - `usageCounts` is the property statistics table's `getUsageCounts(ids)`;
   * - `propertyTables` is the collector's inherited `getPropertyTables(typeId)`,
   *   kept here with the other given lookups.
   */
  datatype Store = Store(
    idTable: string,
    sqlConditions: (RequestOptions, string, string, bool) -> string,
    sqlOptions: (Option<RequestOptions>, string) -> Options,
    usageCounts: seq<int> -> map<int, int>,
    propertyTables: string -> PropertyTable)

  /** One component of a cache key (the PHP array given as 'id'). */
  datatype KeyPart = Text(text: string) | Request(options: Option<RequestOptions>)

  /** What `cacheSetup` returns: the key components, the backend, whether caching is on, the expiry. */
  datatype CacheDescriptor = CacheDescriptor(id: seq<KeyPart>, cacheType: string, enabled: bool, expiry: int)
}
