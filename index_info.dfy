/** One row of the index listing (IndexInfo): the health colour used by the
    user interface and the one-line summary. */
module IndexInfos {
  import opened Util
  import opened ClusterConfigs

  datatype IndexInfo = IndexInfo(
    name: string,
    documentCount: int,
    size: Option<string>,
    numberOfShards: int,
    numberOfReplicas: int,
    health: Option<string>,
    status: Option<string>,
    selected: bool)

  const GrayStyle: string := "-fx-text-fill: gray;"
  const GreenStyle: string := "-fx-text-fill: #2e7d32; -fx-font-weight: bold;"
  const YellowStyle: string := "-fx-text-fill: #f9a825; -fx-font-weight: bold;"
  const RedStyle: string := "-fx-text-fill: #c62828; -fx-font-weight: bold;"

  /** `getHealthStyle()`: a switch on the lower-cased health. */
  function HealthStyle(health: Option<string>): string
  {
    match health
    case None => GrayStyle
    case Some(h) =>
      var l := ToLower(h);
      if l == "green" then GreenStyle
      else if l == "yellow" then YellowStyle
      else if l == "red" then RedStyle
      else GrayStyle
  }

  /** Null health and every value other than green, yellow or red (in any
      letter case) are gray; the three colours are bold. */
  lemma HealthStyleCases(health: Option<string>)
    ensures health.None? ==> HealthStyle(health) == GrayStyle
    ensures health.Some? && ToLower(health.value) == "green" ==> HealthStyle(health) == GreenStyle
    ensures health.Some? && ToLower(health.value) == "yellow" ==> HealthStyle(health) == YellowStyle
    ensures health.Some? && ToLower(health.value) == "red" ==> HealthStyle(health) == RedStyle
    ensures HealthStyle(health) != GrayStyle <==>
      health.Some? && ToLower(health.value) in {"green", "yellow", "red"}
  {
  }

  /** The style depends on the health only through its lower-cased spelling,
      so "GREEN", "Green" and "green" agree. */
  lemma HealthStyleCaseInsensitive(h: string)
    ensures HealthStyle(Some(h)) == HealthStyle(Some(ToLower(h)))
    ensures HealthStyle(Some(ToUpper(h))) == HealthStyle(Some(h))
  {
    ToLowerIdempotent(h);
  }

  lemma UpperGreenIsGreen()
    ensures HealthStyle(Some("GREEN")) == GreenStyle
  {
    assert ToLower("GREEN") == "green";
  }

  // ---------------------------------------------------------------------------
  // "%,d": decimal digits grouped in threes by ','
  // ---------------------------------------------------------------------------

  /** Inserts ',' before every group of three digits counted from the right. */
  function GroupDigits(d: string): (r: string)
    decreases |d|
  {
    if |d| <= 3 then d else GroupDigits(d[..|d| - 3]) + "," + d[|d| - 3..]
  }

  /** The string with every ',' dropped. */
  function DropCommas(s: string): (r: string)
    decreases |s|
  {
    if s == [] then [] else DropCommas(s[..|s| - 1]) + (if s[|s| - 1] == ',' then [] else [s[|s| - 1]])
  }

  lemma {:induction false} DropCommasAppend(a: string, b: string)
    ensures DropCommas(a + b) == DropCommas(a) + DropCommas(b)
    decreases |b|
  {
    if b != [] {
      assert (a + b)[..|a + b| - 1] == a + b[..|b| - 1];
      DropCommasAppend(a, b[..|b| - 1]);
    } else {
      assert a + b == a;
    }
  }

  lemma {:induction false} DropCommasOfDigits(d: string)
    requires AllDigits(d)
    ensures DropCommas(d) == d
    decreases |d|
  {
    if d != [] {
      assert d[..|d| - 1] + [d[|d| - 1]] == d;
      DropCommasOfDigits(d[..|d| - 1]);
    }
  }

  /** Grouping only inserts separators: dropping them gives the digits back. */
  lemma {:induction false} GroupDigitsDropCommas(d: string)
    requires AllDigits(d)
    ensures DropCommas(GroupDigits(d)) == d
    decreases |d|
  {
    if |d| <= 3 {
      DropCommasOfDigits(d);
    } else {
      var hi, lo := d[..|d| - 3], d[|d| - 3..];
      assert AllDigits(hi) && AllDigits(lo);
      GroupDigitsDropCommas(hi);
      DropCommasAppend(GroupDigits(hi) + ",", lo);
      DropCommasAppend(GroupDigits(hi), ",");
      DropCommasOfDigits(lo);
      assert DropCommas(",") == [] by {
        assert ","[..0] == [];
      }
      calc {
        DropCommas(GroupDigits(d));
        DropCommas(GroupDigits(hi) + "," + lo);
        DropCommas(GroupDigits(hi) + ",") + DropCommas(lo);
        DropCommas(GroupDigits(hi)) + DropCommas(",") + lo;
        hi + lo;
        { assert hi + lo == d; }
        d;
      }
    }
  }

  /** `String.format("%,d", n)` in a locale whose grouping separator is ','. */
  function GroupedInt(n: int): string
  {
    if n < 0 then "-" + GroupDigits(NatToString(-n)) else GroupDigits(NatToString(n))
  }

  /** The grouped rendering is the plain decimal rendering with separators added. */
  lemma GroupedIntDigits(n: int)
    ensures DropCommas(GroupedInt(n)) == IntToString(n)
  {
    if n < 0 {
      GroupDigitsDropCommas(NatToString(-n));
      DropCommasAppend("-", GroupDigits(NatToString(-n)));
      assert DropCommas("-") == "-";
    } else {
      GroupDigitsDropCommas(NatToString(n));
    }
  }

  /** `toString()`: "name (Docs: count, Size: size)". */
  function ToString(info: IndexInfo): (r: string)
    ensures StartsWith(r, info.name + " (Docs: ")
    ensures EndsWith(r, ", Size: " + FormatNullable(info.size) + ")")
    ensures var h := |info.name + " (Docs: "|; var t := |", Size: " + FormatNullable(info.size) + ")"|;
      h + t <= |r| && DropCommas(r[h..|r| - t]) == IntToString(info.documentCount)
  {
    var head := info.name + " (Docs: ";
    var tail := ", Size: " + FormatNullable(info.size) + ")";
    var r := head + GroupedInt(info.documentCount) + tail;
    assert r[..|head|] == head;
    assert r[|r| - |tail|..] == tail;
    assert r[|head|..|r| - |tail|] == GroupedInt(info.documentCount);
    GroupedIntDigits(info.documentCount);
    r
  }
}
