/**
 * Numbers and their text form: Kotlin's `Long` and `Int` ranges, `Long.toString()`,
 * `String.toLongOrNull()`, `split(",")`, `joinToString(",")`, and the two stored
 * forms of an id list: comma-joined (favourites, recents) and a JSON array (the queues).
 */
module Codec {
  import opened Wrappers
  import opened Seqs
  import Text

  /** Kotlin's 64-bit `Long`. */
  type Long = x: int | -0x8000_0000_0000_0000 <= x < 0x8000_0000_0000_0000

  /** Kotlin's 32-bit `Int`. */
  type Int32 = x: int | -0x8000_0000 <= x < 0x8000_0000

  const TWO_TO_THE_64: int := 0x1_0000_0000_0000_0000

  /** Two's-complement wrap-around of 64-bit `Long` arithmetic. */
  function WrapLong(x: int): (r: Long)
    ensures (x - r) % TWO_TO_THE_64 == 0
    ensures -0x8000_0000_0000_0000 <= x < 0x8000_0000_0000_0000 ==> r == x
  {
    var m := x % TWO_TO_THE_64;
    if m >= 0x8000_0000_0000_0000 then m - TWO_TO_THE_64 else m
  }

  /** Java's `long` division by a positive divisor: the quotient truncated toward zero. */
  function TruncDiv(a: int, b: int): (r: int)
    requires b > 0
    ensures a >= 0 ==> r * b <= a < (r + 1) * b
    ensures a < 0 ==> (r - 1) * b < a <= r * b
  {
    if a >= 0 then a / b else -((-a) / b)
  }

  function DigitChar(d: int): char
    requires 0 <= d < 10
  {
    ('0' as int + d) as char
  }

  predicate IsDigit(c: char) {
    '0' <= c <= '9'
  }

  function DigitValue(c: char): int
    requires IsDigit(c)
  {
    c as int - '0' as int
  }

  /** The decimal digits of `n`, without leading zeros. */
  function NatToString(n: nat): (r: string)
    ensures r != []
    ensures forall i :: 0 <= i < |r| ==> IsDigit(r[i])
  {
    if n < 10 then [DigitChar(n)] else NatToString(n / 10) + [DigitChar(n % 10)]
  }

  /** `Long.toString()`: an optional minus sign and the decimal digits. */
  function LongToString(x: Long): (r: string)
    ensures r != [] && ',' !in r
  {
    if x < 0 then "-" + NatToString(-(x as int)) else NatToString(x)
  }

  predicate AllDigits(s: string) {
    forall i :: 0 <= i < |s| ==> IsDigit(s[i])
  }

  /** The number a string of decimal digits denotes. */
  function DigitsValue(s: string): nat
    requires AllDigits(s)
  {
    if s == [] then 0 else DigitsValue(s[..|s| - 1]) * 10 + DigitValue(s[|s| - 1])
  }

  lemma {:induction false} DigitsOfNat(n: nat)
    ensures DigitsValue(NatToString(n)) == n
  {
    if n >= 10 {
      var s := NatToString(n);
      DigitsOfNat(n / 10);
      assert s[..|s| - 1] == NatToString(n / 10);
    }
  }

  /**
   * `String.toLongOrNull()`: an optional `+` or `-` sign followed by at least one decimal
   * digit, with a value in the `Long` range; anything else is `None`.
   */
  function ParseLong(s: string): (r: Option<Long>)
    ensures r.Some? ==> s != [] && ',' !in s
  {
    if s == [] then None
    else
      var neg := s[0] == '-';
      var digits := if s[0] == '-' || s[0] == '+' then s[1..] else s;
      if digits == [] || !AllDigits(digits) then None
      else
        var v: int := if neg then -(DigitsValue(digits) as int) else DigitsValue(digits);
        if -0x8000_0000_0000_0000 <= v < 0x8000_0000_0000_0000 then
          assert forall c :: c in digits ==> IsDigit(c);
          Some(v)
        else None
  }

  /** Parsing the text form of any `Long` gives the number back. */
  lemma ParseShowLong(x: Long)
    ensures ParseLong(LongToString(x)) == Some(x)
  {
    var s := LongToString(x);
    if x < 0 {
      var d := NatToString(-(x as int));
      DigitsOfNat(-(x as int));
      assert s == "-" + d;
      assert s[0] == '-' && s[1..] == d;
      assert AllDigits(d);
      ParseDigits(s, d, true);
    } else {
      var d := NatToString(x);
      DigitsOfNat(x);
      assert IsDigit(d[0]);
      ParseDigits(s, d, false);
    }
  }

  lemma ParseDigits(s: string, d: string, neg: bool)
    requires d != [] && AllDigits(d)
    requires if neg then s == "-" + d else s == d
    requires -0x8000_0000_0000_0000 <= (if neg then -(DigitsValue(d) as int) else DigitsValue(d)) < 0x8000_0000_0000_0000
    ensures ParseLong(s) == Some(if neg then -(DigitsValue(d) as int) else DigitsValue(d))
  {
    if neg {
      assert s[0] == '-' && s[1..] == d;
    } else {
      assert IsDigit(s[0]);
    }
  }

  /** No piece of the text form of an id list holds a comma. */
  lemma ShownHaveNoComma(ids: seq<Long>)
    ensures forall i :: 0 <= i < |Map(ids, LongToString)| ==> ',' !in Map(ids, LongToString)[i]
  {
    forall i | 0 <= i < |ids| ensures ',' !in Map(ids, LongToString)[i] {
      assert Map(ids, LongToString)[i] == LongToString(ids[i]);
    }
  }

  /** `split(",")`: the pieces between commas; there is always at least one. */
  function Split(s: string): (r: seq<string>)
    ensures |r| >= 1
    ensures forall i :: 0 <= i < |r| ==> ',' !in r[i]
  {
    if s == [] then [""]
    else
      var r := Split(s[1..]);
      if s[0] == ',' then [""] + r
      else
        assert forall i :: 1 <= i < |r| ==> ([[s[0]] + r[0]] + r[1..])[i] == r[i];
        [[s[0]] + r[0]] + r[1..]
  }

  /** `joinToString(",")`. */
  function Join(ts: seq<string>): string {
    if ts == [] then ""
    else if |ts| == 1 then ts[0]
    else ts[0] + "," + Join(ts[1..])
  }

  /** Text without a comma is one piece. */
  lemma {:induction false} SplitNoComma(t: string)
    requires ',' !in t
    ensures Split(t) == [t]
  {
    if t != [] {
      SplitNoComma(t[1..]);
      assert t == [t[0]] + t[1..];
    }
  }

  /** One step of `Split`: the first character either ends the first piece or joins it. */
  lemma SplitHead(c: char, t: string)
    ensures Split([c] + t) == if c == ',' then [""] + Split(t) else [[c] + Split(t)[0]] + Split(t)[1..]
  {
    assert ([c] + t)[1..] == t;
  }

  /** A comma-free text followed by a comma is the first piece, whatever follows. */
  lemma {:induction false} SplitCons(t: string, rest: string)
    requires ',' !in t
    ensures Split(t + "," + rest) == [t] + Split(rest)
    decreases |t|
  {
    if t == [] {
      assert t + "," + rest == [','] + rest;
      SplitHead(',', rest);
    } else {
      var c, tail := t[0], t[1..];
      var u := tail + "," + rest;
      assert ',' !in tail by {
        assert t == [c] + tail;
      }
      SplitCons(tail, rest);
      assert t + "," + rest == [c] + u;
      SplitHead(c, u);
      assert t == [c] + tail;
    }
  }

  /** Joining two non-empty lists puts a comma between their joined texts. */
  lemma {:induction false} JoinAppend(x: seq<string>, y: seq<string>)
    requires x != [] && y != []
    ensures Join(x + y) == Join(x) + "," + Join(y)
    decreases |x|
  {
    assert (x + y)[0] == x[0];
    if |x| == 1 {
      assert (x + y)[1..] == y;
    } else {
      assert (x + y)[1..] == x[1..] + y;
      JoinAppend(x[1..], y);
      var j, k := Join(x[1..]), Join(y);
      AppendAssoc(x[0] + ",", j + ",", k);
      AppendAssoc(x[0] + ",", j, ",");
    }
  }

  /** Splitting undoes joining, as long as no piece holds a comma. */
  lemma {:induction false} SplitJoin(ts: seq<string>)
    requires |ts| >= 1
    requires forall i :: 0 <= i < |ts| ==> ',' !in ts[i]
    ensures Split(Join(ts)) == ts
  {
    if |ts| == 1 {
      SplitNoComma(ts[0]);
    } else {
      SplitJoin(ts[1..]);
      SplitCons(ts[0], Join(ts[1..]));
      assert ts == [ts[0]] + ts[1..];
    }
  }

  /** The comma-joined text form of an id list, as `joinToString(",")` writes it. */
  function EncodeIds(ids: seq<Long>): (r: string)
    ensures r == "" <==> ids == []
  {
    var ts := Map(ids, LongToString);
    if ids == [] then Join(ts)
    else
      JoinNonEmpty(ts);
      Join(ts)
  }

  /** `if (s.isEmpty()) empty else s.split(",").mapNotNull { it.toLongOrNull() }`: tokens that are not numbers are skipped. */
  function DecodeIds(s: string): (r: seq<Long>)
    ensures |r| <= |Split(s)|
    ensures forall i :: 0 <= i < |r| ==> exists t :: t in Split(s) && ParseLong(t) == Some(r[i])
  {
    if s == "" then []
    else
      MapNotNullSources(Split(s), ParseLong);
      MapNotNull(Split(s), ParseLong)
  }

  lemma ParseShownAll(ids: seq<Long>)
    ensures MapNotNull(Map(ids, LongToString), ParseLong) == ids
  {
    forall x: Long ensures ParseLong(LongToString(x)) == Some(x) {
      ParseShowLong(x);
    }
    MapNotNullInverse(ids, LongToString, ParseLong);
  }

  lemma {:induction false} JoinNonEmpty(ts: seq<string>)
    requires |ts| >= 1 && ts[0] != []
    ensures Join(ts) != []
  {
  }

  /** Decoding the stored text of any id list gives the list back; the empty list is stored as "". */
  lemma DecodeEncodeIds(ids: seq<Long>)
    ensures DecodeIds(EncodeIds(ids)) == ids
  {
    var ts := Map(ids, LongToString);
    ParseShownAll(ids);
    ShownHaveNoComma(ids);
    if ids != [] {
      SplitJoin(ts);
      JoinNonEmpty(ts);
    }
  }

  /** A token that is not a number between two well-formed halves is skipped and the rest survives. */
  lemma DecodeSkipsMalformed(a: seq<Long>, junk: string, b: seq<Long>)
    requires a != [] && b != []
    requires ',' !in junk && ParseLong(junk).None?
    ensures DecodeIds(EncodeIds(a) + "," + junk + "," + EncodeIds(b)) == a + b
  {
    var text := EncodeIds(a) + "," + junk + "," + EncodeIds(b);
    SplitAround(a, junk, b);
    assert text != "" by { assert text[|EncodeIds(a)|] == ','; }
    assert DecodeIds(text) == MapNotNull(Split(text), ParseLong);
    SkipJunk(a, junk, b);
  }

  lemma SkipJunk(a: seq<Long>, junk: string, b: seq<Long>)
    requires ParseLong(junk).None?
    ensures MapNotNull(Map(a, LongToString) + ([junk] + Map(b, LongToString)), ParseLong) == a + b
  {
    var ea := Map(a, LongToString);
    var eb := Map(b, LongToString);
    MapNotNullAppend(ea, [junk] + eb, ParseLong);
    MapNotNullAppend([junk], eb, ParseLong);
    assert MapNotNull([junk], ParseLong) == [];
    ParseShownAll(a);
    ParseShownAll(b);
    assert [] + b == b;
  }

  lemma SplitAround(a: seq<Long>, junk: string, b: seq<Long>)
    requires a != [] && b != [] && ',' !in junk
    ensures Split(EncodeIds(a) + "," + junk + "," + EncodeIds(b)) == Map(a, LongToString) + ([junk] + Map(b, LongToString))
  {
    var ma, mb := Map(a, LongToString), Map(b, LongToString);
    var sa, sb := Join(ma), Join(mb);
    var tail := [junk] + mb;
    assert Join(tail) == junk + "," + sb by {
      assert tail[0] == junk && tail[1..] == mb;
    }
    JoinAppend(ma, tail);
    assert sa + "," + junk + "," + sb == sa + "," + (junk + "," + sb);
    ShownHaveNoComma(a);
    ShownHaveNoComma(b);
    assert forall i :: 0 <= i < |ma + tail| ==> ',' !in (ma + tail)[i] by {
      forall i | 0 <= i < |ma + tail| ensures ',' !in (ma + tail)[i] {
        if i < |ma| {
          assert (ma + tail)[i] == ma[i];
        } else if i > |ma| {
          assert (ma + tail)[i] == mb[i - |ma| - 1];
        }
      }
    }
    SplitJoin(ma + tail);
  }

  /** A stored "5,x,7" decodes to [5, 7]. */
  lemma DecodeExample()
    ensures DecodeIds("5,x,7") == [5, 7]
  {
    EncodeSingleDigit(5);
    EncodeSingleDigit(7);
    assert ParseLong("x") == None;
    DecodeSkipsMalformed([5], "x", [7]);
    assert EncodeIds([5]) + "," + "x" + "," + EncodeIds([7]) == "5,x,7";
  }

  /** A one-digit id is stored as its digit. */
  lemma EncodeSingleDigit(d: Long)
    requires 0 <= d < 10
    ensures EncodeIds([d]) == [DigitChar(d)]
  {
    assert Map([d], LongToString) == [LongToString(d)];
  }

  /** The JSON array text of an id list, as the JSON library writes a `List<Long>`: "[1,2,3]". */
  function EncodeJsonIds(ids: seq<Long>): (r: string)
    ensures |r| >= 2 && r[0] == '[' && r[|r| - 1] == ']'
    ensures r == "[]" <==> ids == []
  {
    "[" + EncodeIds(ids) + "]"
  }

  /** Every token parses, or the whole list fails (the JSON library throws rather than skipping). */
  function ParseAll(ts: seq<string>): (r: Option<seq<Long>>)
    ensures r.Some? ==> |r.value| == |ts|
  {
    if ts == [] then Some([])
    else match (ParseLong(ts[0]), ParseAll(ts[1..]))
      case (Some(x), Some(xs)) => Some([x] + xs)
      case _ => None
  }

  /** Reads a JSON array of ids; `None` when the text is not one (the library would throw). */
  function DecodeJsonIds(s: string): (r: Option<seq<Long>>)
    ensures r.Some? ==> |s| >= 2 && s[0] == '[' && s[|s| - 1] == ']'
  {
    if |s| >= 2 && s[0] == '[' && s[|s| - 1] == ']' then
      var inner := s[1..|s| - 1];
      if inner == "" then Some([]) else ParseAll(Split(inner))
    else None
  }

  lemma {:induction false} ParseAllShown(ids: seq<Long>)
    ensures ParseAll(Map(ids, LongToString)) == Some(ids)
  {
    if ids != [] {
      var ts := Map(ids, LongToString);
      var x := ids[0];
      assert ParseLong(ts[0]) == Some(x) by {
        ParseShowLong(x);
      }
      assert ParseAll(ts[1..]) == Some(ids[1..]) by {
        assert ts[1..] == Map(ids[1..], LongToString);
        ParseAllShown(ids[1..]);
      }
      assert ids == [x] + ids[1..];
    }
  }

  /** Reading back the JSON array an id list was written as gives the list. */
  lemma DecodeEncodeJsonIds(ids: seq<Long>)
    ensures DecodeJsonIds(EncodeJsonIds(ids)) == Some(ids)
  {
    var s := EncodeJsonIds(ids);
    assert s[1..|s| - 1] == EncodeIds(ids);
    ParseAllShown(ids);
    ShownHaveNoComma(ids);
    if ids != [] {
      SplitJoin(Map(ids, LongToString));
      JoinNonEmpty(Map(ids, LongToString));
    }
  }

  predicate IsAsciiLetter(c: char) {
    'a' <= c <= 'z' || 'A' <= c <= 'Z'
  }

  /**
   * One entry that is a bare word spoils the whole JSON array. A bare word is read as a
   * number only when it spells `null` in any mix of cases, which Gson reads as a null
   * element; every other word fails, and with it the whole array.
   */
  lemma JsonMalformedEntry(a: seq<Long>, junk: string)
    requires junk != [] && forall i :: 0 <= i < |junk| ==> IsAsciiLetter(junk[i])
    requires Text.Lower(junk) != "null"
    ensures DecodeJsonIds("[" + junk + "," + EncodeIds(a) + "]") == None
  {
    assert ',' !in junk by {
      forall i | 0 <= i < |junk| ensures junk[i] != ',' {
        assert IsAsciiLetter(junk[i]);
      }
    }
    assert ParseLong(junk).None? by {
      assert IsAsciiLetter(junk[0]);
    }
    var s := "[" + junk + "," + EncodeIds(a) + "]";
    assert s[1..|s| - 1] == junk + "," + EncodeIds(a);
    SplitCons(junk, EncodeIds(a));
  }
}
