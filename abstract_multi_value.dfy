/**
 * Index lookup on a multi-valued data value (a record of several fields,
 * each with its own property). An index such as `|+index=2` or
 * `|+index=Bar` selects one field: a numeric index is a 1-based position,
 * any other string is matched against the field properties' labels, the
 * first match winning.
 */
module AbstractMultiValue {
  import opened Wrappers
  import opened Smw

  /** An index as the caller passes it: an integer or a string. */
  datatype Index = IntIndex(n: int) | StringIndex(s: string)

  /** What `getDataItemByIndex` returns: `null`, a data item, or the `false` of `reset` on an empty array. */
  datatype Lookup<D> = Null | Item(item: D) | False

  predicate IsDigit(c: char)
  {
    '0' <= c <= '9'
  }

  predicate AllDigits(s: string)
  {
    forall i :: 0 <= i < |s| ==> IsDigit(s[i])
  }

  /** A decimal integer literal: an optional sign followed by at least one digit. */
  predicate IsIntegerString(s: string)
  {
    (|s| > 0 && AllDigits(s)) || (|s| > 1 && (s[0] == '-' || s[0] == '+') && AllDigits(s[1..]))
  }

  /** The value of a string of decimal digits. */
  function DigitsValue(s: string): nat
    requires AllDigits(s)
  {
    if s == [] then 0 else DigitsValue(s[..|s| - 1]) * 10 + (s[|s| - 1] as int - '0' as int)
  }

  /** The value of a decimal integer literal (PHP's numeric conversion of it). */
  function IntegerValue(s: string): int
    requires IsIntegerString(s)
  {
    if s[0] == '-' then -(DigitsValue(s[1..]) as int)
    else if s[0] == '+' then DigitsValue(s[1..])
    else DigitsValue(s)
  }

  /** `is_numeric($index)`, for integers and decimal integer strings. */
  predicate IsNumeric(index: Index)
  {
    index.IntIndex? || IsIntegerString(index.s)
  }

  /** `$index - 1`: the 0-based position a numeric index denotes. */
  function Position(index: Index): int
    requires IsNumeric(index)
  {
    (if index.IntIndex? then index.n else IntegerValue(index.s)) - 1
  }

  /** The position of the first property whose label is `s`, if any. */
  function FirstWithLabel(properties: seq<DIProperty>, labelOf: DIProperty -> string, s: string): (r: Option<nat>)
    ensures r.Some? ==> r.value < |properties| && labelOf(properties[r.value]) == s
    ensures r.Some? ==> forall j :: 0 <= j < r.value ==> labelOf(properties[j]) != s
    ensures r.None? <==> forall j :: 0 <= j < |properties| ==> labelOf(properties[j]) != s
  {
    if properties == [] then None
    else if labelOf(properties[0]) == s then Some(0)
    else
      match FirstWithLabel(properties[1..], labelOf, s)
      case None => None
      case Some(k) => Some(k + 1)
  }

  /**
   * `getPropertyDataItemByIndex`: the field property an index selects, or
   * `null`. `properties` is what `getPropertyDataItems` returns (possibly
   * `null`); `labelOf` is `getLabel`.
   */
  function PropertyDataItemByIndex(properties: Option<seq<DIProperty>>, labelOf: DIProperty -> string, index: Index): (r: Option<DIProperty>)
    ensures IsNumeric(index) ==>
      (r.Some? <==> properties.Some? && 1 <= Position(index) + 1 <= |properties.value|)
    ensures IsNumeric(index) && r.Some? ==> r.value == properties.value[Position(index)]
    ensures !IsNumeric(index) ==>
      (r.None? <==> properties.None? || forall j :: 0 <= j < |properties.value| ==> labelOf(properties.value[j]) != index.s)
    ensures !IsNumeric(index) && r.Some? ==>
      exists k :: 0 <= k < |properties.value| && properties.value[k] == r.value && labelOf(r.value) == index.s &&
        forall j :: 0 <= j < k ==> labelOf(properties.value[j]) != index.s
  {
    if IsNumeric(index) then
      var pos := Position(index);
      if properties.Some? && 0 <= pos < |properties.value| then Some(properties.value[pos]) else None
    else if properties.None? then None
    else
      match FirstWithLabel(properties.value, labelOf, index.s)
      case None => None
      case Some(k) => Some(properties.value[k])
  }

  /**
   * `getDataItemByIndex`: the data item an index selects. `dataItems` is
   * what `getDataItems` returns (absent fields are `null`, the whole list
   * may be `null`); `propertyValues` gives the values the record's semantic
   * data holds for a property.
   */
  function DataItemByIndex<D>(dataItems: Option<seq<Option<D>>>, properties: Option<seq<DIProperty>>,
                              labelOf: DIProperty -> string, propertyValues: DIProperty -> seq<D>, index: Index): (r: Lookup<D>)
    ensures IsNumeric(index) ==>
      (r.Item? <==> dataItems.Some? && 0 <= Position(index) < |dataItems.value| && dataItems.value[Position(index)].Some?)
    ensures IsNumeric(index) && r.Item? ==> r.item == dataItems.value[Position(index)].value
    ensures IsNumeric(index) ==> !r.False?
    ensures !IsNumeric(index) ==>
      (r.Null? <==> PropertyDataItemByIndex(properties, labelOf, index).None?)
    ensures !IsNumeric(index) && r.False? ==>
      |propertyValues(PropertyDataItemByIndex(properties, labelOf, index).value)| == 0
    ensures !IsNumeric(index) && r.Item? ==>
      var values := propertyValues(PropertyDataItemByIndex(properties, labelOf, index).value);
      |values| > 0 && r.item == values[0]
  {
    if IsNumeric(index) then
      var pos := Position(index);
      if dataItems.Some? && 0 <= pos < |dataItems.value| && dataItems.value[pos].Some? then
        Item(dataItems.value[pos].value)
      else Null
    else
      match PropertyDataItemByIndex(properties, labelOf, index)
      case None => Null
      case Some(property) =>
        var values := propertyValues(property);
        if |values| == 0 then False else Item(values[0])
  }

  /** The decimal digits of `n`, without leading zeros. */
  function Decimal(n: nat): string
  {
    var digit := [('0' as int + n % 10) as char];
    if n < 10 then digit else Decimal(n / 10) + digit
  }

  /** An integer written as a decimal literal, with a minus sign when negative. */
  function IntegerString(i: int): string
  {
    if i < 0 then "-" + Decimal(-i) else Decimal(i)
  }

  lemma {:induction false} DecimalValue(n: nat)
    ensures |Decimal(n)| > 0 && AllDigits(Decimal(n)) && DigitsValue(Decimal(n)) == n
  {
    var d := Decimal(n);
    if n >= 10 {
      DecimalValue(n / 10);
      assert d[..|d| - 1] == Decimal(n / 10);
    }
  }

  /** Reading back an integer written in decimal gives the integer. */
  lemma {:induction false} IntegerStringRoundTrip(i: int)
    ensures IsIntegerString(IntegerString(i)) && IntegerValue(IntegerString(i)) == i
  {
    if i < 0 {
      DecimalValue(-i);
      assert IntegerString(i)[1..] == Decimal(-i);
    } else {
      DecimalValue(i);
    }
  }

  /**
   * An index given as the decimal text of an integer (as it comes from
   * query text) selects the same field as the integer itself.
   */
  lemma TextIndexMeansPosition<D>(dataItems: Option<seq<Option<D>>>, properties: Option<seq<DIProperty>>,
                                  labelOf: DIProperty -> string, propertyValues: DIProperty -> seq<D>, i: int)
    ensures PropertyDataItemByIndex(properties, labelOf, StringIndex(IntegerString(i)))
         == PropertyDataItemByIndex(properties, labelOf, IntIndex(i))
    ensures DataItemByIndex(dataItems, properties, labelOf, propertyValues, StringIndex(IntegerString(i)))
         == DataItemByIndex(dataItems, properties, labelOf, propertyValues, IntIndex(i))
  {
    IntegerStringRoundTrip(i);
  }
}
