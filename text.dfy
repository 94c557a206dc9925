/**
  String helpers the client relies on from Go's standard library:
  strings.Join, strconv.Itoa and strconv.FormatBool, together with the inverse
  operations a server applies to what the client sends (strings.Split and a
  decimal parse), so that the request parameters can be shown to carry their
  values without loss.
 */
module Text {
  import opened Results

  /** strings.Join(parts, sep) for a one-character separator. */
  function Join(parts: seq<string>, sep: char): string
  {
    if |parts| == 0 then ""
    else if |parts| == 1 then parts[0]
    else parts[0] + [sep] + Join(parts[1..], sep)
  }

  /** strings.Split(s, sep): the empty string splits into one empty piece. */
  function Split(s: string, sep: char): (pieces: seq<string>)
    ensures |pieces| >= 1
  {
    if |s| == 0 then [""]
    else
      var rest := Split(s[1..], sep);
      if s[0] == sep then [""] + rest
      else [[s[0]] + rest[0]] + rest[1..]
  }

  /** True when no part contains the separator. */
  predicate NoSeparator(parts: seq<string>, sep: char)
  {
    forall i :: 0 <= i < |parts| ==> sep !in parts[i]
  }

  lemma {:induction false} SplitWithoutSeparator(a: string, sep: char)
    requires sep !in a
    ensures Split(a, sep) == [a]
  {
    if |a| > 0 {
      SplitWithoutSeparator(a[1..], sep);
      assert [a[0]] + a[1..] == a;
    }
  }

  lemma {:induction false} SplitAtSeparator(a: string, rest: string, sep: char)
    requires sep !in a
    ensures Split(a + [sep] + rest, sep) == [a] + Split(rest, sep)
  {
    var s := a + [sep] + rest;
    if |a| == 0 {
      assert s[1..] == rest;
    } else {
      assert s[1..] == a[1..] + [sep] + rest;
      SplitAtSeparator(a[1..], rest, sep);
      assert [a[0]] + a[1..] == a;
    }
  }

  /** Splitting a joined list gives the list back when no part holds the separator. */
  lemma {:induction false} SplitJoin(parts: seq<string>, sep: char)
    requires |parts| >= 1
    requires NoSeparator(parts, sep)
    ensures Split(Join(parts, sep), sep) == parts
  {
    if |parts| == 1 {
      SplitWithoutSeparator(parts[0], sep);
    } else {
      assert sep !in parts[0];
      assert NoSeparator(parts[1..], sep) by {
        forall i | 0 <= i < |parts[1..]| ensures sep !in parts[1..][i] {
          assert parts[1..][i] == parts[i + 1];
        }
      }
      SplitJoin(parts[1..], sep);
      SplitAtSeparator(parts[0], Join(parts[1..], sep), sep);
      assert [parts[0]] + parts[1..] == parts;
    }
  }

  predicate IsDigit(c: char)
  {
    '0' <= c <= '9'
  }

  predicate AllDigits(s: string)
  {
    forall i :: 0 <= i < |s| ==> IsDigit(s[i])
  }

  function DigitChar(d: nat): (c: char)
    requires d < 10
    ensures IsDigit(c)
  {
    (('0' as int) + d) as char
  }

  function DigitValue(c: char): (d: nat)
    requires IsDigit(c)
    ensures d < 10 && DigitChar(d) == c
  {
    (c as int) - ('0' as int)
  }

  /** The decimal digits of n, most significant first, without leading zeros. */
  function NatToDecimal(n: nat): (s: string)
    ensures |s| >= 1 && AllDigits(s)
  {
    if n < 10 then [DigitChar(n)]
    else NatToDecimal(n / 10) + [DigitChar(n % 10)]
  }

  /** strconv.Itoa: a minus sign for negative numbers, then the decimal digits. */
  function Itoa(n: int): string
  {
    if n < 0 then "-" + NatToDecimal(-n) else NatToDecimal(n)
  }

  /** strconv.FormatBool. */
  function FormatBool(b: bool): string
  {
    if b then "true" else "false"
  }

  /** The value of a string of decimal digits (the empty string is 0). */
  function DecimalValue(s: string): nat
    requires AllDigits(s)
  {
    if |s| == 0 then 0
    else 10 * DecimalValue(s[..|s| - 1]) + DigitValue(s[|s| - 1])
  }

  /** Parses an optional minus sign followed by at least one decimal digit. */
  function ParseInt(s: string): Option<int>
  {
    if |s| > 0 && s[0] == '-' then
      if |s| > 1 && AllDigits(s[1..]) then Some(-(DecimalValue(s[1..]) as int)) else None
    else if |s| > 0 && AllDigits(s) then Some(DecimalValue(s))
    else None
  }

  lemma {:induction false} DecimalRoundTrip(n: nat)
    ensures DecimalValue(NatToDecimal(n)) == n
  {
    if n >= 10 {
      var s := NatToDecimal(n);
      assert s[..|s| - 1] == NatToDecimal(n / 10);
      DecimalRoundTrip(n / 10);
    }
  }

  /** What strconv.Itoa writes, a decimal parse reads back. */
  lemma ItoaRoundTrip(n: int)
    ensures ParseInt(Itoa(n)) == Some(n)
  {
    if n < 0 {
      var s := Itoa(n);
      assert s[1..] == NatToDecimal(-n);
      DecimalRoundTrip(-n);
    } else {
      DecimalRoundTrip(n);
    }
  }

  /** Itoa never produces a comma, so a comma-joined list of numbers splits cleanly. */
  lemma ItoaHasNoComma(n: int)
    ensures ',' !in Itoa(n)
  {
  }

  /** The decimal form of each number, in order. */
  function DecimalIds(ids: seq<int>): (strs: seq<string>)
    ensures |strs| == |ids|
    ensures forall k :: 0 <= k < |ids| ==> strs[k] == Itoa(ids[k])
  {
    if |ids| == 0 then [] else [Itoa(ids[0])] + DecimalIds(ids[1..])
  }

  /** Parses every piece; fails if any piece is not a number. */
  function ParseInts(pieces: seq<string>): Option<seq<int>>
  {
    if |pieces| == 0 then Some([])
    else
      match (ParseInt(pieces[0]), ParseInts(pieces[1..]))
      case (Some(n), Some(ns)) => Some([n] + ns)
      case _ => None
  }

  /** How a server would read a comma-separated list of numbers. */
  function ParseIdList(s: string): Option<seq<int>>
  {
    ParseInts(Split(s, ','))
  }

  lemma {:induction false} ParseDecimalIds(ids: seq<int>)
    ensures ParseInts(DecimalIds(ids)) == Some(ids)
  {
    if |ids| > 0 {
      ItoaRoundTrip(ids[0]);
      assert DecimalIds(ids)[1..] == DecimalIds(ids[1..]);
      ParseDecimalIds(ids[1..]);
      assert [ids[0]] + ids[1..] == ids;
    }
  }

  /** A non-empty list of numbers joined with commas is read back exactly. */
  lemma IdListRoundTrip(ids: seq<int>)
    requires |ids| >= 1
    ensures ParseIdList(Join(DecimalIds(ids), ',')) == Some(ids)
  {
    var strs := DecimalIds(ids);
    forall i | 0 <= i < |strs| ensures ',' !in strs[i] {
      ItoaHasNoComma(ids[i]);
    }
    SplitJoin(strs, ',');
    ParseDecimalIds(ids);
  }
}
