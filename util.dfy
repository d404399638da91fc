/** Shared value types and the small pieces of java.lang.String / java.lang.Long
    behaviour that the data manager relies on, restated over Dafny strings. */
module Util {

  /** A Java reference that may be null. */
  datatype Option<+T> = None | Some(value: T)

  /** The outcome of a call that either returns a value or throws. */
  datatype Result<+T, +E> = Ok(value: T) | Err(error: E)

  /** An opaque nested key/value blob (settings, mappings, alias filters,
      document bodies): the engine copies these and never looks inside. */
  datatype Json =
    | JNull
    | JBool(b: bool)
    | JNum(n: int)
    | JStr(s: string)
    | JArr(items: seq<Json>)
    | JObj(fields: map<string, Json>)

  // ---------------------------------------------------------------------------
  // Decimal rendering and parsing (Long.toString / Long.parseLong)
  // ---------------------------------------------------------------------------

  const LongMin: int := -0x8000_0000_0000_0000
  const LongMax: int := 0x7FFF_FFFF_FFFF_FFFF

  predicate IsDigit(c: char) { '0' <= c <= '9' }

  predicate AllDigits(s: string) { forall i :: 0 <= i < |s| ==> IsDigit(s[i]) }

  function DigitChar(d: nat): (c: char)
    requires d < 10
    ensures IsDigit(c) && c as int - '0' as int == d
  {
    (d + '0' as int) as char
  }

  /** The decimal digits of `n`, most significant first, without leading zeros. */
  function NatToString(n: nat): (s: string)
    ensures |s| >= 1 && AllDigits(s)
    ensures n < 10 <==> |s| == 1
    ensures |s| > 1 ==> s[0] != '0'
    decreases n
  {
    if n < 10 then [DigitChar(n)] else NatToString(n / 10) + [DigitChar(n % 10)]
  }

  /** Java's decimal rendering of an integer: a leading '-' for negatives. */
  function IntToString(i: int): (s: string)
    ensures |s| >= 1
    ensures i < 0 <==> s[0] == '-'
  {
    if i < 0 then "-" + NatToString(-i) else NatToString(i)
  }

  /** The value of a string of decimal digits. */
  function DigitsValue(s: string): nat
    requires AllDigits(s)
  {
    if s == [] then 0 else DigitsValue(s[..|s| - 1]) * 10 + (s[|s| - 1] as int - '0' as int)
  }

  /** Rendering a natural number and reading it back gives the number. */
  lemma {:induction false} DigitsValueOfNatToString(n: nat)
    ensures DigitsValue(NatToString(n)) == n
    decreases n
  {
    if n >= 10 {
      var s := NatToString(n / 10) + [DigitChar(n % 10)];
      assert s[..|s| - 1] == NatToString(n / 10);
      DigitsValueOfNatToString(n / 10);
    }
  }

  /** Long.parseLong in radix 10: an optional '+' or '-', at least one digit,
      and a value inside the 64-bit range; anything else throws
      NumberFormatException (None here). */
  function ParseLong(s: string): (r: Option<int>)
    ensures r.Some? ==> LongMin <= r.value <= LongMax
    ensures s == [] ==> r.None?
  {
    if s == [] then None
    else
      var neg := s[0] == '-';
      var digits := if s[0] == '-' || s[0] == '+' then s[1..] else s;
      if digits == [] || !AllDigits(digits) then None
      else
        var v: int := if neg then -(DigitsValue(digits) as int) else DigitsValue(digits);
        if LongMin <= v <= LongMax then Some(v) else None
  }

  /** Reading back the decimal rendering of any 64-bit value gives that value. */
  lemma ParseLongOfIntToString(i: int)
    requires LongMin <= i <= LongMax
    ensures ParseLong(IntToString(i)) == Some(i)
  {
    var s := IntToString(i);
    if i < 0 {
      assert s[0] == '-' && s[1..] == NatToString(-i);
      DigitsValueOfNatToString(-i);
    } else {
      assert s == NatToString(i) && s[0] != '-' && s[0] != '+';
      DigitsValueOfNatToString(i);
    }
  }

  // ---------------------------------------------------------------------------
  // Case mapping (ASCII letters only)
  // ---------------------------------------------------------------------------

  function LowerChar(c: char): char
  {
    if 'A' <= c <= 'Z' then (c as int - 'A' as int + 'a' as int) as char else c
  }

  function UpperChar(c: char): char
  {
    if 'a' <= c <= 'z' then (c as int - 'a' as int + 'A' as int) as char else c
  }

  /** String.toLowerCase restricted to ASCII letters. */
  function ToLower(s: string): (r: string)
    ensures |r| == |s|
    ensures forall i :: 0 <= i < |s| ==> r[i] == LowerChar(s[i])
  {
    seq(|s|, i requires 0 <= i < |s| => LowerChar(s[i]))
  }

  /** String.toUpperCase restricted to ASCII letters. */
  function ToUpper(s: string): (r: string)
    ensures |r| == |s|
    ensures forall i :: 0 <= i < |s| ==> r[i] == UpperChar(s[i])
  {
    seq(|s|, i requires 0 <= i < |s| => UpperChar(s[i]))
  }

  /** Lower-casing twice is lower-casing once; upper and lower spellings of
      the same word agree after lower-casing. */
  lemma ToLowerIdempotent(s: string)
    ensures ToLower(ToLower(s)) == ToLower(s)
    ensures ToLower(ToUpper(s)) == ToLower(s)
  {
  }

  // ---------------------------------------------------------------------------
  // String.trim, contains, endsWith, replace
  // ---------------------------------------------------------------------------

  /** String.trim drops every leading and trailing char whose code is at most U+0020. */
  predicate IsTrimmable(c: char) { c <= ' ' }

  function TrimStart(s: string): (r: string)
    ensures |r| <= |s| && r == s[|s| - |r|..]
    ensures r != [] ==> !IsTrimmable(r[0])
    ensures forall i :: 0 <= i < |s| - |r| ==> IsTrimmable(s[i])
  {
    if s != [] && IsTrimmable(s[0]) then TrimStart(s[1..]) else s
  }

  function TrimEnd(s: string): (r: string)
    ensures |r| <= |s| && r == s[..|r|]
    ensures r != [] ==> !IsTrimmable(r[|r| - 1])
    ensures forall i :: |r| <= i < |s| ==> IsTrimmable(s[i])
  {
    if s != [] && IsTrimmable(s[|s| - 1]) then TrimEnd(s[..|s| - 1]) else s
  }

  function Trim(s: string): string
  {
    TrimEnd(TrimStart(s))
  }

  /** `s.trim().isEmpty()`: a string is blank exactly when every char is trimmable. */
  lemma TrimEmptyIff(s: string)
    ensures Trim(s) == [] <==> forall i :: 0 <= i < |s| ==> IsTrimmable(s[i])
  {
    var t := TrimStart(s);
    if Trim(s) == [] {
      assert t == [];
    } else {
      var r := Trim(s);
      assert r[0] == t[0] == s[|s| - |t|];
    }
  }

  predicate StartsWith(s: string, prefix: string)
  {
    |prefix| <= |s| && s[..|prefix|] == prefix
  }

  predicate EndsWith(s: string, suffix: string)
  {
    |suffix| <= |s| && s[|s| - |suffix|..] == suffix
  }

  predicate OccursAt(s: string, sub: string, i: int)
  {
    0 <= i <= |s| - |sub| && s[i..i + |sub|] == sub
  }

  predicate Contains(s: string, sub: string)
  {
    exists i :: 0 <= i <= |s| - |sub| && OccursAt(s, sub, i)
  }

  /** The middle of a three-part concatenation occurs in it, and the last part ends it. */
  lemma InfixOccurs(a: string, b: string, c: string)
    ensures OccursAt(a + b + c, b, |a|) && Contains(a + b + c, b) && EndsWith(a + b + c, c)
  {
    var s := a + b + c;
    assert s[|a|..|a| + |b|] == b;
    assert OccursAt(s, b, |a|);
    assert s[|s| - |c|..] == c;
  }

  /** String.replace(target, "") for a non-empty target: scanning left to
      right, every non-overlapping occurrence of `target` is deleted. */
  function RemoveAll(s: string, target: string): (r: string)
    requires target != []
    ensures |r| <= |s|
    decreases |s|
  {
    if |s| < |target| then s
    else if s[..|target|] == target then RemoveAll(s[|target|..], target)
    else [s[0]] + RemoveAll(s[1..], target)
  }

  /** Deleting a target that does not occur leaves the string as it is. */
  lemma {:induction false} RemoveAllAbsent(s: string, target: string)
    requires target != [] && !Contains(s, target)
    ensures RemoveAll(s, target) == s
    decreases |s|
  {
    if |s| >= |target| {
      assert s[0..|target|] == s[..|target|];
      assert !OccursAt(s, target, 0);
      assert !Contains(s[1..], target) by {
        if Contains(s[1..], target) {
          var i :| 0 <= i <= |s[1..]| - |target| && OccursAt(s[1..], target, i);
          assert s[i + 1..i + 1 + |target|] == target;
          assert OccursAt(s, target, i + 1);
        }
      }
      RemoveAllAbsent(s[1..], target);
    }
  }

  const JsonSuffix: string := ".json"

  /** A file name `n + ".json"` whose stem has no ".json" of its own loses
      exactly the extension: ".json" has no '.' after its first char, so no
      occurrence can straddle the stem and the extension. */
  lemma {:induction false} RemoveJsonSuffix(stem: string)
    requires !Contains(stem, JsonSuffix)
    ensures RemoveAll(stem + JsonSuffix, JsonSuffix) == stem
    decreases |stem|
  {
    var s := stem + JsonSuffix;
    if stem == [] {
      assert s[..|JsonSuffix|] == JsonSuffix;
      assert s[|JsonSuffix|..] == [];
    } else {
      assert s[..5] != JsonSuffix by {
        if |stem| >= 5 {
          assert s[..5] == stem[0..5];
          assert !OccursAt(stem, JsonSuffix, 0);
        } else {
          assert s[|stem|] == '.';
          assert s[..5][|stem|] == '.';
          assert JsonSuffix[|stem|] != '.';
        }
      }
      assert !Contains(stem[1..], JsonSuffix) by {
        if Contains(stem[1..], JsonSuffix) {
          var i :| 0 <= i <= |stem[1..]| - 5 && OccursAt(stem[1..], JsonSuffix, i);
          assert stem[i + 1..i + 6] == JsonSuffix;
          assert OccursAt(stem, JsonSuffix, i + 1);
        }
      }
      assert s[1..] == stem[1..] + JsonSuffix;
      RemoveJsonSuffix(stem[1..]);
    }
  }

  /** The concatenation of a sequence of sequences, in order. */
  function Flatten<T>(xss: seq<seq<T>>): seq<T>
  {
    if xss == [] then [] else xss[0] + Flatten(xss[1..])
  }

  lemma {:induction false} FlattenAppend<T>(a: seq<seq<T>>, b: seq<seq<T>>)
    ensures Flatten(a + b) == Flatten(a) + Flatten(b)
  {
    if a != [] {
      assert (a + b)[1..] == a[1..] + b;
      FlattenAppend(a[1..], b);
    } else {
      assert a + b == b;
    }
  }

  lemma AppendAssoc<T>(a: seq<T>, b: seq<T>, c: seq<T>)
    ensures (a + b) + c == a + (b + c)
  {
  }
}
