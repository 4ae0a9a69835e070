# SQLStore property collectors and multi-value index lookup

A Dafny model of three pieces of Semantic MediaWiki's storage and data-value
layer:

- **PropertiesCollector** lists the declared properties of the SQL store. It
  selects every ID-table entry in the property namespace (102) with an empty
  interwiki prefix, ordered by sort key. `LIMIT`/`OFFSET` are added when the
  request options carry a positive limit, and a string filter when they carry
  string conditions. Each row is then paired with its usage count from the
  property statistics table, 0 when the table has no entry for the id. A
  title that is not a valid property key becomes an error item
  (`smw_noproperty`, title), and the listing goes on with the next row.
- **WantedPropertiesCollector** lists properties that are used but
  undeclared, with their use counts. It looks up the property table of the
  default type. If that is a fixed-property table, the result is empty and no
  query runs. Otherwise it runs one join query. The store's option builder
  supplies the options, and `ORDER BY` is then forced to `count DESC`. It
  keeps only ids above 50 (ids up to 50 belong to predefined properties) with no property page,
  grouped by title, and maps each row to `(property, count)`.
- **AbstractMultiValue** looks up one field of a record value by index. A
  numeric index (an integer, or a string of decimal digits) is a 1-based
  position, and anything outside the list is `null`. Any other string selects
  the first field property whose label equals it. The data item for a label
  is the first value the record's semantic data holds for that property. When
  there is no such value, the result is PHP `reset`'s `false`, kept distinct
  from `null`.

Both collectors build a cache descriptor `{id, type, enabled, expiry}`. Its
id holds the request options, and for wanted properties also the default
type. The id determines both, so distinct options never share a descriptor
id.

Modules: `Wrappers` (Option, Result), `Sql` (select conditions and options,
and a `Connection` that answers each select from a fixed snapshot and logs
it), `Smw` (shared entities: DIProperty, RequestOptions, Settings, the store
view, the cache descriptor), `PropertiesCollector`,
`WantedPropertiesCollector`, `CacheKeys`, `AbstractMultiValue`. The
collectors are classes. Their `DoCollect`/`DoQuery` methods build the query
step by step and loop over the rows as the PHP does. Each is proved equal to
a specification function whose properties are proved separately.

Two points about invalid titles and ordering:

- `PropertiesCollector::doCollect` catches `InvalidPropertyException`
  (includes/storage/SQLStore/PropertiesCollector.php:159-163), so an invalid
  title becomes an error item. `WantedPropertiesCollector::doQuery` builds
  each `DIProperty` without a `try`
  (includes/storage/SQLStore/WantedPropertiesCollector.php:151), so the
  exception escapes, and `ToPairs` returns `Failure` with the first invalid
  title.
- `doQuery` only asks the database for `count DESC`
  (includes/storage/SQLStore/WantedPropertiesCollector.php:136). The model
  proves that the query requests that order and that the rows are kept in
  the order returned. It does not prove that the rows are sorted by count.

## Model

| member | source | states |
|---|---|---|
| PropertiesCollector.QueryOptions | includes/storage/SQLStore/PropertiesCollector.php:119-131 | `ORDER BY smw_sortkey` is always present, and with no request options it is the whole map. `LIMIT` is present iff there are request options with limit > 0, and then equals the limit. `OFFSET` is present iff `LIMIT` is, and equals max(offset, 0) ≥ 0. No other key appears. |
| PropertiesCollector.QueryConditions | includes/storage/SQLStore/PropertiesCollector.php:121-135 | The first two conditions are always namespace = 102 and interwiki = ''. There are exactly these two unless the request options carry string conditions. Then one more follows: the store's SQL condition for the options on `smw_title`. |
| PropertiesCollector.RowIdsMatchRows | includes/storage/SQLStore/PropertiesCollector.php:150-152 | The collected ids match the rows one-to-one and in row order: id k is row k's `smw_id`. |
| PropertiesCollector.MergeEntries | includes/storage/SQLStore/PropertiesCollector.php:157-169 | One entry per row, in row order. Entry k's count is `counts[id]` when the id is a key and 0 otherwise. Its item is `Prop(title)` iff the title is valid, and `ErrorItem("smw_noproperty", title)` iff it is not. |
| PropertiesCollector.MergeAppend | includes/storage/SQLStore/PropertiesCollector.php:157-169 | The listing of `a + b` is the listing of `a` followed by the listing of `b`. Rows are handled independently, so an error row does not disturb the rows after it. |
| PropertiesCollector.PropertiesCollector.constructor | includes/storage/SQLStore/PropertiesCollector.php:55-59 | Stores the store, the connection and the settings. No request options are set. |
| PropertiesCollector.PropertiesCollector.CacheSetup | includes/storage/SQLStore/PropertiesCollector.php:93-100 | The id is `('smwgPropertiesCache', requestOptions)`. The type, enabled flag and expiry are the settings `smwgCacheType`, `smwgPropertiesCache` and `smwgPropertiesCacheExpiry`. |
| PropertiesCollector.PropertiesCollector.DoCollect | includes/storage/SQLStore/PropertiesCollector.php:112-173 | Issues exactly one select on the ID table, with columns `smw_id, smw_title` and with `QueryConditions` and `QueryOptions` of the current request options. Returns `Merge` of the returned rows with the usage counts fetched for `RowIds` of those rows. |
| CacheKeys.PropertiesKeySeparatesOptions | includes/storage/SQLStore/PropertiesCollector.php:95 | Two properties collectors have the same descriptor id iff their request options are equal. |
| CacheKeys.WantedKeySeparatesOptions | includes/storage/SQLStore/WantedPropertiesCollector.php:91 | Two wanted-properties collectors have the same descriptor id iff their request options and default types are equal. |
| CacheKeys.KeysOfCollectorsDiffer | includes/storage/SQLStore/WantedPropertiesCollector.php:91 | A properties descriptor id and a wanted-properties descriptor id never coincide. |
| WantedPropertiesCollector.WantedOptions | includes/storage/SQLStore/WantedPropertiesCollector.php:135-136 | Whatever the store's options are, the result has `ORDER BY = 'count DESC'`. Its keys are the store's keys plus `ORDER BY`, and every other option keeps its value. |
| WantedPropertiesCollector.ToPairs | includes/storage/SQLStore/WantedPropertiesCollector.php:150-152 | Succeeds iff every row title is a valid key. On success there is one pair per row, in row order: `(DIProperty(title), count)`. On failure the error names the title of the first invalid row. |
| WantedPropertiesCollector.WantedPropertiesCollector.constructor | includes/storage/SQLStore/WantedPropertiesCollector.php:51-55 | Stores the store, the connection and the settings. No request options and no property table are set yet. |
| WantedPropertiesCollector.WantedPropertiesCollector.CacheSetup | includes/storage/SQLStore/WantedPropertiesCollector.php:89-96 | The id is `('smwgWantedPropertiesCache', smwgPDefaultType, requestOptions)`. The type, enabled flag and expiry are `smwgCacheType`, `smwgWantedPropertiesCache` and `smwgWantedPropertiesCacheExpiry`. |
| WantedPropertiesCollector.WantedPropertiesCollector.DoCollect | includes/storage/SQLStore/WantedPropertiesCollector.php:105-118 | Sets the property-table field to the table of the default type. If that table is fixed, the result is empty and no query is issued. Otherwise the result is exactly that of `DoQuery`. |
| WantedPropertiesCollector.WantedPropertiesCollector.DoQuery | includes/storage/SQLStore/WantedPropertiesCollector.php:130-156 | Issues exactly one select. It reads the join of the default-type table, the ID table and the page table (namespace 102) with columns `smw_title, COUNT(*) as count`. The conditions are id > 50, `page_id IS NULL` and group by title. The options are `WantedOptions` of the store's options. Returns `ToPairs` of the rows. |
| AbstractMultiValue.FirstWithLabel | src/DataValues/AbstractMultiValue.php:111-117 | Returns a position whose property has the label and before which no property has it. Returns none iff no property has the label. |
| AbstractMultiValue.PropertyDataItemByIndex | src/DataValues/AbstractMultiValue.php:102-118 | For a numeric index i the result is present iff the list exists and 1 ≤ i ≤ its length, and is then `properties[i-1]`, so 0 and out-of-range indices give null. For a label it is null iff no property has that label (or the list is null), and otherwise the first property with that label. |
| AbstractMultiValue.DataItemByIndex | src/DataValues/AbstractMultiValue.php:76-90 | For a numeric index i, a data item is returned iff position i-1 exists and is not null, and is that item. A numeric index never gives `false`. For a label the result is null iff the label resolves to no property. Otherwise it is the first value of that property, or `false` when it has no values. |
| AbstractMultiValue.IntegerStringRoundTrip | src/DataValues/AbstractMultiValue.php:78-79 | The decimal text of any integer is numeric, and converting it back gives the integer. |
| AbstractMultiValue.TextIndexMeansPosition | src/DataValues/AbstractMultiValue.php:106-108 | An index given as the decimal text of an integer selects the same property and the same data item as the integer itself. |

## Left out

- Database access is not modelled. `select`, `tableName`, `addQuotes` and the JOIN text are replaced by `Sql.Connection`, which answers each structured query from a fixed snapshot and records it. The wanted query's raw SQL text appears as a structured join and condition list.
- `Store::getSQLConditions`, `Store::getSQLOptions`, `PropertyStatisticsTable::getUsageCounts` and the base class's `getPropertyTables` lie outside the modelled classes. They are given functions in `Smw.Store`.
- The usage-count lookup (includes/storage/SQLStore/PropertiesCollector.php:154-155) goes through the same database connection in the source. The model neither logs it in `Connection.queries` nor passes it the statistics table name from `getStatisticsTable()`: `store.usageCounts` is a given function of the ids alone.
- The step from a descriptor id to an actual cache key happens in the base class `CacheableObjectCollector`, which is not modelled; the model proves only that descriptor ids are distinct.
- The `(array)` cast of the request options in the properties key (includes/storage/SQLStore/PropertiesCollector.php:95) is not modelled. The wanted-properties key passes the options object itself (includes/storage/SQLStore/WantedPropertiesCollector.php:91). Both appear as `Request(requestOptions)`.
- The key check in the `DIProperty` constructor is not modelled. It is the given predicate `validKey` of each collector.
- The base class `CacheableObjectCollector` (the cache lookup and store in `getResults`) is not modelled. Only the descriptor built by `cacheSetup` is modelled, plus the inherited `requestOptions` field and its setter (`SetRequestOptions`), so that collectors can carry options.
- `newFromStore` is not modelled, because it reads global settings and a global database handle. Settings and connection are passed to the constructors instead.
- `Profiler::In`/`Out` have no effect on results and are not modelled. `Message` is also left out: the error item carries the message key and the title, not a rendered message.
- SMW_NS_PROPERTY is not defined in the files modelled. Semantic MediaWiki sets it to `$smwgNamespaceIndex + 2`; the model takes it as 102, its value with the default `$smwgNamespaceIndex` of 100.
- AbstractMultiValue.Position: indices outside PHP's 64-bit integer range are not modelled. For a digit string beyond `PHP_INT_MAX`, `$index - 1` is a float, and using it as an array key converts it back to an integer in a platform-dependent way (src/DataValues/AbstractMultiValue.php:79, 107); the model's unbounded `Position` treats such an index as out of range and gives `null`.
- AbstractMultiValue.PropertyDataItemByIndex: when `getPropertyDataItems` returns `null` and the index is a label, the `foreach` at src/DataValues/AbstractMultiValue.php:111 raises a PHP warning before returning `null`. The model returns `None` and does not model the warning.
- AbstractMultiValue.IsNumeric: it recognises integers and strings made of an optional sign and decimal digits only. Other strings that PHP's `is_numeric` accepts are treated as labels here: surrounding whitespace, fractions like "1.5", exponents.
- The abstract accessors of AbstractMultiValue are inputs to the lookups rather than members: `getDataItems`, `getPropertyDataItems`, `getLabel`, and `getSemanticData()->getPropertyValues`. `getValuesFromString`, `setFieldProperties` and `getProperties` have no body in the source.
- The database returns `smw_id` and `count` as strings. The model takes them as integers, which is the effect of the `(int)` cast for ids. For counts it is a simplification.
- The other files of the repository are not part of this model: the extension bootstrap, hook and observer plumbing, resource bundles and tests.
