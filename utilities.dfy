/**
 * The helper functions of the trading bot: the time-unit conversion table used to turn
 * timeframes such as "1h" into minutes, and the joining of a list into one delimited string.
 */
module Utilities {
  import opened Wrappers

  // ---------------------------------------------------------------------------
  // Time-unit conversion
  // ---------------------------------------------------------------------------

  /** The four units the conversion table knows: minutes, hours, days and weeks. */
  datatype TimeUnit = Minute | Hour | Day | Week

  /** The key under which a unit appears in the table. */
  function Key(u: TimeUnit): char
  {
    match u
    case Minute => 'm'
    case Hour => 'h'
    case Day => 'd'
    case Week => 'w'
  }

  /**
   * The conversion table, entry by entry: an amount expressed in `source` units is
   * multiplied by `TableFactor(source, target)` to express it in `target` units.
   */
  function TableFactor(source: TimeUnit, target: TimeUnit): (f: real)
    ensures f > 0.0
    ensures f == 1.0 <==> source == target
  {
    match source
    case Minute =>
      (match target
       case Minute => 1.0
       case Hour => 1.0 / 60.0
       case Day => 1.0 / 1440.0
       case Week => 1.0 / 10080.0)
    case Hour =>
      (match target
       case Minute => 60.0
       case Hour => 1.0
       case Day => 1.0 / 24.0
       case Week => 1.0 / 168.0)
    case Day =>
      (match target
       case Minute => 1440.0
       case Hour => 24.0
       case Day => 1.0
       case Week => 1.0 / 7.0)
    case Week =>
      (match target
       case Minute => 10080.0
       case Hour => 168.0
       case Day => 7.0
       case Week => 1.0)
  }

  /** Reference definition, independent of the table: how many minutes one unit lasts. */
  function MinutesIn(u: TimeUnit): (m: real)
    ensures m == TableFactor(u, Minute)
    ensures m >= 1.0
  {
    match u
    case Minute => 1.0
    case Hour => 60.0
    case Day => 1440.0
    case Week => 10080.0
  }

  /** Every table entry is the ratio of the two units' lengths in minutes. */
  lemma {:induction false} TableIsRatioOfLengths(source: TimeUnit, target: TimeUnit)
    ensures TableFactor(source, target) == MinutesIn(source) / MinutesIn(target)
  {
    match source
    case Minute =>
    case Hour =>
    case Day =>
    case Week =>
  }

  /** The diagonal of the table is 1. */
  lemma TableDiagonal(u: TimeUnit)
    ensures TableFactor(u, u) == 1.0
  {
    TableIsRatioOfLengths(u, u);
  }

  /** Converting there and back multiplies by 1: the factors are reciprocal. */
  lemma {:induction false} TableReciprocal(a: TimeUnit, b: TimeUnit)
    ensures TableFactor(a, b) * TableFactor(b, a) == 1.0
  {
    TableIsRatioOfLengths(a, b);
    TableIsRatioOfLengths(b, a);
    var ma, mb := MinutesIn(a), MinutesIn(b);
    assert (ma / mb) * (mb / ma) == (ma * mb) / (mb * ma);
  }

  /** Converting through an intermediate unit equals converting directly. */
  lemma {:induction false} TableComposes(a: TimeUnit, b: TimeUnit, c: TimeUnit)
    ensures TableFactor(a, b) * TableFactor(b, c) == TableFactor(a, c)
  {
    TableIsRatioOfLengths(a, b);
    TableIsRatioOfLengths(b, c);
    TableIsRatioOfLengths(a, c);
    var ma, mb, mc := MinutesIn(a), MinutesIn(b), MinutesIn(c);
    assert (ma / mb) * (mb / mc) == (ma * mb) / (mb * mc);
    assert (ma * mb) / (mb * mc) == ma / mc;
  }

  /** Python's `str.lower()` on one ASCII character. */
  function LowerChar(c: char): (l: char)
    ensures 'A' <= c <= 'Z' ==> l as int == c as int + 32
    ensures !('A' <= c <= 'Z') ==> l == c
  {
    if 'A' <= c <= 'Z' then (c as int + 32) as char else c
  }

  /** Python's `str.lower()` on an ASCII string. */
  function Lower(s: string): (l: string)
    ensures |l| == |s|
    ensures forall i :: 0 <= i < |s| ==> l[i] == LowerChar(s[i])
  {
    seq(|s|, i requires 0 <= i < |s| => LowerChar(s[i]))
  }

  /** Looking a key up in the table: only the exact one-letter keys are present. */
  function UnitForKey(key: string): (u: Option<TimeUnit>)
    ensures u.Some? ==> key == [Key(u.value)]
    ensures u.None? ==> forall v: TimeUnit :: key != [Key(v)]
  {
    if key == "m" then Some(Minute)
    else if key == "h" then Some(Hour)
    else if key == "d" then Some(Day)
    else if key == "w" then Some(Week)
    else None
  }

  /** The unit a spelling names once lower-cased, as `convert_time_from_str` reads it. */
  function UnitNamed(spelling: string): Option<TimeUnit>
  {
    UnitForKey(Lower(spelling))
  }

  /**
   * A spelling names a unit exactly when it is that unit's one-letter key in lower or
   * upper case: the lookup is case-insensitive and accepts nothing else.
   */
  lemma {:induction false} UnitNamedIsCaseInsensitive(spelling: string, u: TimeUnit)
    ensures UnitNamed(spelling) == Some(u)
            <==> spelling == [Key(u)] || spelling == [(Key(u) as int - 32) as char]
  {
    if UnitNamed(spelling) == Some(u) {
      assert Lower(spelling) == [Key(u)];
      assert |spelling| == 1 && LowerChar(spelling[0]) == Key(u);
      assert spelling == [spelling[0]];
    }
    if spelling == [Key(u)] || spelling == [(Key(u) as int - 32) as char] {
      assert Lower(spelling) == [LowerChar(spelling[0])];
      assert LowerChar(spelling[0]) == Key(u);
    }
  }

  /** Why `convert_time_from_str` raises instead of returning. */
  datatype ConversionError =
    | EmptyTime       // `time[-1]` on an empty string
    | InvalidNumber   // `float(time[:-1])` rejects the number part
    | UnknownUnit     // the unit suffix is not in the table, so `.get` is called on None

  /**
   * `convert_time_from_str(time, convert_to)`. Parsing the number part `time[:-1]` as a
   * float is not modelled: `parsed` is its outcome, None when `float` raises. A target unit
   * missing from the table gives the sentinel -1.
   */
  function ConvertTimeFromStr(time: string, parsed: Option<real>, convertTo: string)
    : (r: Result<real, ConversionError>)
    ensures r.Err? <==> |time| == 0 || parsed.None? || UnitNamed([time[|time| - 1]]).None?
    ensures r.Ok? && UnitNamed(convertTo).None? ==> r.value == -1.0
    ensures r.Ok? && UnitNamed(convertTo).Some? ==>
              r.value == parsed.value * TableFactor(UnitNamed([time[|time| - 1]]).value,
                                                    UnitNamed(convertTo).value)
  {
    if |time| == 0 then Err(EmptyTime)
    else
      var unit := Lower([time[|time| - 1]]);
      var target := Lower(convertTo);
      if parsed.None? then Err(InvalidNumber)
      else
        match UnitForKey(unit)
        case None => Err(UnknownUnit)
        case Some(source) =>
          match UnitForKey(target)
          case None => Ok(-1.0)
          case Some(dest) => Ok(parsed.value * TableFactor(source, dest))
  }

  /** Converting to the unit the time is already in returns the number unchanged. */
  lemma SameUnitIsIdentity(time: string, x: real, convertTo: string)
    requires |time| > 0
    requires UnitNamed([time[|time| - 1]]).Some?
    requires UnitNamed(convertTo) == UnitNamed([time[|time| - 1]])
    ensures ConvertTimeFromStr(time, Some(x), convertTo) == Ok(x)
  {
    TableDiagonal(UnitNamed(convertTo).value);
  }

  /**
   * Converting a time to another unit and the result back again returns the original
   * number: a `time` in unit `u` whose number part reads as `x`, converted to a spelling of
   * `v`, gives `y`; a `back` in unit `v` whose number part reads as `y`, converted to a
   * spelling of `u`, gives `x` again.
   */
  lemma {:induction false} ConversionRoundTrip(time: string, toV: string, back: string, toU: string,
                                               x: real, u: TimeUnit, v: TimeUnit)
    requires |time| > 0 && UnitNamed([time[|time| - 1]]) == Some(u) && UnitNamed(toV) == Some(v)
    requires |back| > 0 && UnitNamed([back[|back| - 1]]) == Some(v) && UnitNamed(toU) == Some(u)
    ensures var y := ConvertTimeFromStr(time, Some(x), toV);
            y.Ok? && ConvertTimeFromStr(back, Some(y.value), toU) == Ok(x)
  {
    TableReciprocal(u, v);
    var f, g := TableFactor(u, v), TableFactor(v, u);
    assert (x * f) * g == x * (f * g);
  }

  // ---------------------------------------------------------------------------
  // list_to_string
  // ---------------------------------------------------------------------------

  /**
   * The argument of `list_to_string`: a Python list, given by the `str()` of each of its
   * elements, or any other object, given by its own value.
   */
  datatype PyValue = ListValue(items: seq<string>) | OtherValue(text: string)

  /** `delimiter.join(items)`: every element, with the delimiter between neighbours and nowhere else. */
  function Join(items: seq<string>, delimiter: string): (joined: string)
    ensures |items| == 0 ==> joined == ""
    ensures |items| > 0 ==> |joined| == TotalLength(items) + (|items| - 1) * |delimiter|
  {
    if |items| == 0 then ""
    else if |items| == 1 then items[0]
    else items[0] + delimiter + Join(items[1..], delimiter)
  }

  /** `list_to_string(list_from, delimiter)`: a list is joined, anything else comes back as is. */
  function ListToString(listFrom: PyValue, delimiter: string): (r: PyValue)
    ensures listFrom.OtherValue? ==> r == listFrom
    ensures listFrom.ListValue? ==> r.OtherValue? && r.text == Join(listFrom.items, delimiter)
  {
    match listFrom
    case ListValue(items) => OtherValue(Join(items, delimiter))
    case OtherValue(_) => listFrom
  }

  /** Total length of a list of strings. */
  function TotalLength(items: seq<string>): nat
  {
    if |items| == 0 then 0 else |items[0]| + TotalLength(items[1..])
  }

  /** The joined string starts with the first element, followed by the delimiter when more come. */
  lemma {:induction false} JoinStartsWithFirst(items: seq<string>, delimiter: string)
    requires |items| > 0
    ensures Join(items, delimiter)[..|items[0]|] == items[0]
    ensures |items| > 1 ==>
              Join(items, delimiter)[|items[0]|..|items[0]| + |delimiter|] == delimiter
  {
  }

  /** `s.split(c)` for a one-character separator `c`. */
  function Split(s: string, c: char): (parts: seq<string>)
    ensures |parts| > 0
    ensures forall i :: 0 <= i < |parts| ==> c !in parts[i]
  {
    if |s| == 0 then [""]
    else
      var rest := Split(s[1..], c);
      if s[0] == c then [""] + rest else [[s[0]] + rest[0]] + rest[1..]
  }

  /** Splitting a piece with no separator, followed by the separator, peels that piece off. */
  lemma {:induction false} SplitPeelsPiece(piece: string, c: char, rest: string)
    requires c !in piece
    ensures Split(piece + [c] + rest, c) == [piece] + Split(rest, c)
  {
    var s := piece + [c] + rest;
    if |piece| == 0 {
      assert s[1..] == rest;
    } else {
      assert s[1..] == piece[1..] + [c] + rest;
      SplitPeelsPiece(piece[1..], c, rest);
      assert [piece[0]] + piece[1..] == piece;
    }
  }

  /** A string with no separator splits into itself. */
  lemma {:induction false} SplitWithoutSeparator(s: string, c: char)
    requires c !in s
    ensures Split(s, c) == [s]
  {
    if |s| > 0 {
      SplitWithoutSeparator(s[1..], c);
      assert [s[0]] + s[1..] == s;
    }
  }

  /**
   * Joining with a one-character delimiter and splitting on it returns the elements, as long
   * as no element contains the delimiter.
   */
  lemma {:induction false} SplitAfterJoin(items: seq<string>, c: char)
    requires |items| > 0
    requires forall i :: 0 <= i < |items| ==> c !in items[i]
    ensures Split(Join(items, [c]), c) == items
  {
    if |items| == 1 {
      SplitWithoutSeparator(items[0], c);
    } else {
      SplitAfterJoin(items[1..], c);
      SplitPeelsPiece(items[0], c, Join(items[1..], [c]));
      assert [items[0]] + items[1..] == items;
    }
  }

  /** Splitting and joining back on the same character gives the original string. */
  lemma {:induction false} JoinAfterSplit(s: string, c: char)
    ensures Join(Split(s, c), [c]) == s
  {
    if |s| > 0 {
      JoinAfterSplit(s[1..], c);
      var rest := Split(s[1..], c);
      if s[0] == c {
        assert Split(s, c) == [""] + rest;
        assert Join([""] + rest, [c]) == "" + [c] + Join(rest, [c]);
      } else {
        var parts := Split(s, c);
        assert parts == [[s[0]] + rest[0]] + rest[1..];
        if |rest| == 1 {
          assert Join(parts, [c]) == [s[0]] + rest[0];
        } else {
          assert Join(rest, [c]) == rest[0] + [c] + Join(rest[1..], [c]);
          assert parts[1..] == rest[1..];
          assert Join(parts, [c]) == ([s[0]] + rest[0]) + [c] + Join(rest[1..], [c]);
        }
      }
    }
  }
}
