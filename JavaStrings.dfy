/**
 The java.lang.String and java.lang.Integer operations the websocks
 configuration parser relies on, with Java's edge cases written out:
 trim() strips every character up to U+0020, split(":") drops trailing
 empty strings, and Integer.parseInt accepts one optional sign and fails
 outside the 32-bit range.
 */
module JavaStrings {
  import opened Wrappers

  /** Characters removed by String.trim(): every code point up to U+0020. */
  predicate IsBlank(c: char) {
    c <= ' '
  }

  /** Removes the leading blank characters. */
  function TrimLeft(s: string): (r: string)
    ensures |r| <= |s| && r == s[|s| - |r|..]
    ensures forall k :: 0 <= k < |s| - |r| ==> IsBlank(s[k])
    ensures r == [] || !IsBlank(r[0])
    decreases |s|
  {
    if s != [] && IsBlank(s[0]) then TrimLeft(s[1..]) else s
  }

  /** Removes the trailing blank characters. */
  function TrimRight(s: string): (r: string)
    ensures r <= s
    ensures forall k :: |r| <= k < |s| ==> IsBlank(s[k])
    ensures r == [] || !IsBlank(r[|r| - 1])
    decreases |s|
  {
    if s != [] && IsBlank(s[|s| - 1]) then TrimRight(s[..|s| - 1]) else s
  }

  /** String.trim(). */
  function Trim(s: string): (r: string)
    ensures |r| <= |s|
    ensures r == [] || (!IsBlank(r[0]) && !IsBlank(r[|r| - 1]))
    ensures r == [] <==> forall k :: 0 <= k < |s| ==> IsBlank(s[k])
    ensures (s == [] || (!IsBlank(s[0]) && !IsBlank(s[|s| - 1]))) ==> r == s
  {
    var left := TrimLeft(s);
    var r := TrimRight(left);
    assert r != [] ==> r[0] == left[0];
    r
  }

  /**
   trim() removes a blank prefix and a blank suffix and nothing else; as
   the result neither starts nor ends in blank, both are as long as they can be.
   */
  lemma TrimBetweenBlanks(s: string)
    ensures var r := Trim(s); exists i :: (0 <= i <= |s| - |r| && r <= s[i..]
      && (forall k :: 0 <= k < i ==> IsBlank(s[k])) && (forall k :: i + |r| <= k < |s| ==> IsBlank(s[k])))
  {
    TrimWindow(s, TrimLeft(s), Trim(s));
  }

  /** A prefix r of a suffix `left` of s, with blanks before `left` and after r, sits between blanks in s. */
  lemma TrimWindow(s: string, left: string, r: string)
    requires |left| <= |s| && left == s[|s| - |left|..] && forall k :: 0 <= k < |s| - |left| ==> IsBlank(s[k])
    requires r <= left && forall k :: |r| <= k < |left| ==> IsBlank(left[k])
    ensures var i := |s| - |left|; (0 <= i <= |s| - |r| && r <= s[i..]
      && (forall k :: 0 <= k < i ==> IsBlank(s[k])) && (forall k :: i + |r| <= k < |s| ==> IsBlank(s[k])))
  {
    var i := |s| - |left|;
    forall j | 0 <= j < |r| ensures r[j] == s[i + j] {
      assert r[j] == left[j];
    }
    forall k | i + |r| <= k < |s| ensures IsBlank(s[k]) {
      assert s[k] == left[k - i];
    }
  }

  /** trim() only removes characters: whatever the result holds, the argument held. */
  lemma TrimKeeps(s: string, c: char)
    ensures c in Trim(s) ==> c in s
  {
    var left := TrimLeft(s);
    var r := TrimRight(left);
    assert Trim(s) == r;
    if c in r {
      var i :| 0 <= i < |r| && r[i] == c;
      assert left[i] == c;
      assert s[|s| - |left| + i] == c;
    }
  }

  // ----- lastIndexOf -----

  /** String.lastIndexOf(c): the last position holding c, or -1. */
  function LastIndexOf(s: string, c: char): (r: int)
    ensures -1 <= r < |s|
    ensures r == -1 <==> c !in s
    ensures r >= 0 ==> s[r] == c && forall k :: r < k < |s| ==> s[k] != c
    decreases |s|
  {
    if s == [] then -1
    else if s[|s| - 1] == c then |s| - 1
    else
      var r := LastIndexOf(s[..|s| - 1], c);
      assert r >= 0 ==> s[r] == s[..|s| - 1][r];
      r
  }

  // ----- split(":") -----

  /** Every colon-separated piece of s, empty ones included. */
  function Pieces(s: string): (r: seq<string>)
    ensures |r| >= 1
    ensures forall k :: 0 <= k < |r| ==> ':' !in r[k]
    decreases |s|
  {
    if s == [] then [[]]
    else
      var rest := Pieces(s[1..]);
      if s[0] == ':' then [[]] + rest
      else [[s[0]] + rest[0]] + rest[1..]
  }

  /** Glues pieces back together with ':' between them. */
  function Join(parts: seq<string>): string
    requires |parts| >= 1
    decreases |parts|
  {
    if |parts| == 1 then parts[0] else parts[0] + ":" + Join(parts[1..])
  }

  /** Drops the empty strings at the end of a list. */
  function DropTrailingEmpty(parts: seq<string>): (r: seq<string>)
    ensures r <= parts
    ensures forall k :: |r| <= k < |parts| ==> parts[k] == []
    ensures r == [] || r[|r| - 1] != []
    decreases |parts|
  {
    if parts != [] && parts[|parts| - 1] == [] then DropTrailingEmpty(parts[..|parts| - 1])
    else parts
  }

  /**
   String.split(":") with limit 0: a string without ':' comes back whole
   (even the empty string); otherwise the pieces, less the trailing empty ones.
   */
  function Split(s: string): (r: seq<string>)
    ensures ':' !in s ==> r == [s]
    ensures ':' in s ==> r <= Pieces(s)
    ensures ':' in s ==> forall k :: |r| <= k < |Pieces(s)| ==> Pieces(s)[k] == []
    ensures ':' in s ==> r == [] || r[|r| - 1] != []
  {
    if ':' !in s then [s] else DropTrailingEmpty(Pieces(s))
  }

  /** Joining the pieces gives the string back. */
  lemma {:induction false} JoinPieces(s: string)
    ensures Join(Pieces(s)) == s
    decreases |s|
  {
    if s != [] {
      var rest := Pieces(s[1..]);
      JoinPieces(s[1..]);
      if s[0] == ':' {
        assert Pieces(s) == [[]] + rest;
        assert ([[]] + rest)[1..] == rest;
      } else if |rest| == 1 {
        assert Pieces(s) == [[s[0]] + rest[0]];
      } else {
        var head := [s[0]] + rest[0];
        var tail := Join(rest[1..]);
        assert Pieces(s) == [head] + rest[1..];
        JoinCons(head, rest[1..]);
        assert Join(rest) == rest[0] + ":" + tail;
        assert head + ":" + tail == [s[0]] + (rest[0] + ":" + tail);
      }
      assert s == [s[0]] + s[1..];
    }
  }

  /** Joining a piece in front of at least one other puts a ':' between it and the rest. */
  lemma JoinCons(head: string, parts: seq<string>)
    requires |parts| >= 1
    ensures Join([head] + parts) == head + ":" + Join(parts)
  {
    assert ([head] + parts)[1..] == parts;
  }



  /** A string without ':' is a single piece. */
  lemma {:induction false} PiecesOfColonFree(s: string)
    requires ':' !in s
    ensures Pieces(s) == [s]
    decreases |s|
  {
    if s != [] {
      assert ':' !in s[1..] by {
        forall k | 0 <= k < |s[1..]| ensures s[1..][k] != ':' { assert s[1..][k] == s[k + 1]; }
      }
      PiecesOfColonFree(s[1..]);
      assert s == [s[0]] + s[1..];
    }
  }

  /** A colon-free head is split off as the first piece. */
  lemma {:induction false} PiecesAfterHead(a: string, b: string)
    requires ':' !in a
    ensures Pieces(a + ":" + b) == [a] + Pieces(b)
    decreases |a|
  {
    if a == [] {
      assert a + ":" + b == [':'] + b;
      assert ([':'] + b)[1..] == b;
    } else {
      var t := a[1..];
      assert ':' !in t by {
        forall k | 0 <= k < |t| ensures t[k] != ':' { assert t[k] == a[k + 1]; }
      }
      PiecesAfterHead(t, b);
      assert (a + ":" + b)[1..] == t + ":" + b;
      assert (a + ":" + b)[0] == a[0];
      assert a == [a[0]] + t;
    }
  }

  /** Splitting colon-free parts joined by ':' gives the parts back. */
  lemma {:induction false} PiecesOfJoin(parts: seq<string>)
    requires |parts| >= 1
    requires forall k :: 0 <= k < |parts| ==> ':' !in parts[k]
    ensures Pieces(Join(parts)) == parts
    decreases |parts|
  {
    if |parts| == 1 {
      PiecesOfColonFree(parts[0]);
    } else {
      PiecesOfJoin(parts[1..]);
      PiecesAfterHead(parts[0], Join(parts[1..]));
      assert parts == [parts[0]] + parts[1..];
    }
  }

  /** "u:p:" splits into two parts: the trailing empty piece is dropped. */
  lemma SplitDropsTrailingEmpty(u: string, p: string)
    requires u != [] && p != [] && ':' !in u && ':' !in p
    ensures Split(u + ":" + p + ":") == [u, p]
  {
    var parts: seq<string> := [u, p, []];
    assert Join(parts) == u + ":" + p + ":" by {
      assert Join(parts[2..]) == [];
      assert Join(parts[1..]) == p + ":" + [];
    }
    PiecesOfJoin(parts);
    assert ':' in u + ":" + p + ":" by { assert (u + ":" + p + ":")[|u|] == ':'; }
    assert parts[..2] == [u, p];
  }

  /** "u:" splits into one part, so it cannot be a user:pass pair. */
  lemma SplitSingleTrailingColon(u: string)
    requires u != [] && ':' !in u
    ensures Split(u + ":") == [u]
  {
    var parts: seq<string> := [u, []];
    assert Join(parts) == u + ":" by { assert Join(parts[1..]) == []; }
    PiecesOfJoin(parts);
    assert ':' in u + ":" by { assert (u + ":")[|u|] == ':'; }
    assert parts[..1] == [u];
  }

  // ----- replaceAll("\\.", "\\\\.") -----

  /** Puts a backslash in front of every '.' (the regex for a literal dot). */
  function EscapeDots(s: string): (r: string)
    ensures |r| >= |s|
    ensures r == [] || r[0] != '.'
    ensures forall k :: 0 <= k < |r| && r[k] == '.' ==> k > 0 && r[k - 1] == '\\'
    decreases |s|
  {
    if s == [] then []
    else (if s[0] == '.' then "\\." else [s[0]]) + EscapeDots(s[1..])
  }

  /** Reads an escaped string back: a backslash directly before '.' is dropped. */
  function UnescapeDots(r: string): string
    decreases |r|
  {
    if r == [] then []
    else if |r| >= 2 && r[0] == '\\' && r[1] == '.' then "." + UnescapeDots(r[2..])
    else [r[0]] + UnescapeDots(r[1..])
  }

  /** Escaping loses nothing: unescaping gives the original text back. */
  lemma {:induction false} UnescapeEscapeDots(s: string)
    ensures UnescapeDots(EscapeDots(s)) == s
    decreases |s|
  {
    if s != [] {
      var rest := EscapeDots(s[1..]);
      UnescapeEscapeDots(s[1..]);
      if s[0] == '.' {
        assert EscapeDots(s) == "\\." + rest;
        assert ("\\." + rest)[2..] == rest;
      } else {
        assert EscapeDots(s) == [s[0]] + rest;
        assert ([s[0]] + rest)[1..] == rest;
      }
      assert s == [s[0]] + s[1..];
    }
  }

  // ----- Integer.parseInt -----

  const MinInt: int := -0x8000_0000
  const MaxInt: int := 0x7fff_ffff

  predicate IsDigit(c: char) {
    '0' <= c <= '9'
  }

  predicate AllDigits(s: string) {
    forall k :: 0 <= k < |s| ==> IsDigit(s[k])
  }

  /** The value of a string of decimal digits, most significant first. */
  function DigitsValue(s: string): nat
    requires AllDigits(s)
    decreases |s|
  {
    if s == [] then 0 else 10 * DigitsValue(s[..|s| - 1]) + (s[|s| - 1] as int - '0' as int)
  }

  /**
   Integer.parseInt(s, 10) on ASCII digits: an optional '+' or '-', then at
   least one digit, and the value must fit in a 32-bit int.
   */
  function ParseInt(s: string): (r: Option<int>)
    ensures r.Some? ==> MinInt <= r.value <= MaxInt
    ensures r.Some? ==> s != [] && forall k :: 1 <= k < |s| ==> IsDigit(s[k])
    ensures r.Some? && IsDigit(s[0]) ==> r.value >= 0
    ensures r.Some? && s[0] == '-' ==> r.value <= 0
    ensures s == [] || s == "-" || s == "+" ==> r.None?
    ensures r.Some? ==> s[0] == '-' || s[0] == '+' || IsDigit(s[0])
  {
    var signed := s != [] && (s[0] == '-' || s[0] == '+');
    var digits := if signed then s[1..] else s;
    if digits == [] || !AllDigits(digits) then None
    else
      var magnitude: int := DigitsValue(digits);
      var v: int := if s[0] == '-' then -magnitude else magnitude;
      assert forall k :: 1 <= k < |s| ==> IsDigit(s[k]) by {
        forall k | 1 <= k < |s| ensures IsDigit(s[k]) {
          if signed { assert s[k] == digits[k - 1]; } else { assert s[k] == digits[k]; }
        }
      }
      if MinInt <= v <= MaxInt then Some(v) else None
  }

  function DigitChar(d: nat): char
    requires d < 10
  {
    ('0' as int + d) as char
  }

  /** The decimal digits of n, without leading zeros. */
  function Digits(n: nat): string
    decreases n
  {
    if n < 10 then [DigitChar(n)] else Digits(n / 10) + [DigitChar(n % 10)]
  }

  /** Integer.toString(n). */
  function Decimal(n: int): string {
    if n < 0 then "-" + Digits(-n) else Digits(n)
  }

  lemma {:induction false} DigitsValueOfDigits(n: nat)
    ensures Digits(n) != [] && AllDigits(Digits(n)) && DigitsValue(Digits(n)) == n
    decreases n
  {
    if n >= 10 {
      DigitsValueOfDigits(n / 10);
      var ds := Digits(n);
      assert ds == Digits(n / 10) + [DigitChar(n % 10)];
      assert ds[..|ds| - 1] == Digits(n / 10);
    }
  }

  /** parseInt reads back what Integer.toString writes, over the whole int range. */
  lemma ParseIntDecimal(n: int)
    requires MinInt <= n <= MaxInt
    ensures ParseInt(Decimal(n)) == Some(n)
  {
    if n < 0 {
      DigitsValueOfDigits(-n);
      ParseIntSigned('-', Digits(-n));
    } else {
      DigitsValueOfDigits(n);
      ParseIntUnsigned(Digits(n));
    }
  }

  /** parseInt also accepts an explicit '+' sign. */
  lemma ParseIntPlusSign(n: nat)
    requires n <= MaxInt
    ensures ParseInt("+" + Decimal(n)) == Some(n)
  {
    DigitsValueOfDigits(n);
    ParseIntSigned('+', Digits(n));
  }

  /** Digits alone read as their value when it fits in an int, and are refused when it does not. */
  lemma ParseIntUnsigned(digits: string)
    requires digits != [] && AllDigits(digits)
    ensures ParseInt(digits) == if DigitsValue(digits) <= MaxInt then Some(DigitsValue(digits)) else None
  {
    assert IsDigit(digits[0]);
  }

  /** Digits after a sign read as the signed value when it fits in an int, and are refused when it does not. */
  lemma ParseIntSigned(sign: char, digits: string)
    requires sign == '-' || sign == '+'
    requires digits != [] && AllDigits(digits)
    ensures var m: int := DigitsValue(digits); var v := if sign == '-' then -m else m;
      ParseInt([sign] + digits) == if MinInt <= v <= MaxInt then Some(v) else None
  {
    assert ([sign] + digits)[0] == sign;
    assert ([sign] + digits)[1..] == digits;
  }

  /** Integer.toString never writes a ':' (a port renders without colons). */
  lemma DecimalColonFree(n: int)
    ensures ':' !in Decimal(n)
  {
    if n < 0 {
      DigitsValueOfDigits(-n);
      assert forall k :: 0 <= k < |Decimal(n)| ==> Decimal(n)[k] == '-' || IsDigit(Decimal(n)[k]) by {
        forall k | 0 <= k < |Decimal(n)| ensures Decimal(n)[k] == '-' || IsDigit(Decimal(n)[k]) {
          if k > 0 { assert Decimal(n)[k] == Digits(-n)[k - 1]; }
        }
      }
    } else {
      DigitsValueOfDigits(n);
    }
  }
}
