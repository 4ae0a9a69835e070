/**
 * The relational boundary the collectors talk to: the condition and option
 * maps handed to the database layer's `select`, and a connection that
 * answers each `select` from a fixed snapshot and records every one it is
 * given, in order, so that "this query is (not) issued" can be stated.
 */
module Sql {

  /** A literal value in a condition or an option. */
  datatype Value = Int(i: int) | Str(s: string)

  /** One entry of a `select` condition list. */
  datatype Condition =
    | FieldEquals(field: string, value: Value)  // 'field' => value
    | FieldAbove(field: string, bound: int)     // field > bound
    | FieldIsNull(field: string)                // field IS NULL
    | GroupBy(field: string)                    // GROUP BY field
    | Fragment(sql: string)                     // an SQL fragment built elsewhere

  /** The option map of a `select` ('ORDER BY', 'LIMIT', 'OFFSET', ...). */
  type Options = map<string, Value>

  const OrderBy := "ORDER BY"
  const Limit := "LIMIT"
  const Offset := "OFFSET"

  /** What a `select` reads from. */
  datatype Table =
    | Named(name: string)
      /** `propertyTable INNER JOIN idTable ON p_id=smw_id
           LEFT JOIN page ON (page_namespace=pageNamespace AND page_title=smw_title)` */
    | WantedJoin(propertyTable: string, idTable: string, pageTable: string, pageNamespace: int)

  datatype Select = Select(table: Table, columns: seq<string>, conditions: seq<Condition>, options: Options)

  /** A row of `smw_id, smw_title`. */
  datatype IdRow = IdRow(smwId: int, smwTitle: string)

  /** A row of `smw_title, COUNT(*) as count`. */
  datatype CountRow = CountRow(smwTitle: string, count: int)

  /**
   * A database connection over a fixed snapshot: the rows a `select`
   * returns are a function of the query; `queries` lists every `select`
   * issued through this connection.
   */
  class Connection {
    var queries: seq<Select>
    const idRows: Select -> seq<IdRow>
    const countRows: Select -> seq<CountRow>

    constructor (idRows: Select -> seq<IdRow>, countRows: Select -> seq<CountRow>)
      ensures queries == [] && this.idRows == idRows && this.countRows == countRows
    {
      this.idRows := idRows;
      this.countRows := countRows;
      queries := [];
    }

    /** A `select` whose rows carry `smw_id` and `smw_title`. */
    method SelectIds(q: Select) returns (rows: seq<IdRow>)
      modifies this
      ensures rows == idRows(q)
      ensures queries == old(queries) + [q]
    {
      rows := idRows(q);
      queries := queries + [q];
    }

    /** A `select` whose rows carry `smw_title` and `count`. */
    method SelectCounts(q: Select) returns (rows: seq<CountRow>)
      modifies this
      ensures rows == countRows(q)
      ensures queries == old(queries) + [q]
    {
      rows := countRows(q);
      queries := queries + [q];
    }
  }
}
