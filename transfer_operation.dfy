/** The unit of work (TransferOperation): its status and type enums, the
    builder defaults, and the derived progress, timestamps and duration text. */
module TransferOperations {
  import opened Util
  import opened ClusterConfigs

  datatype TransferType = ClusterToCluster | ClusterToFile | FileToCluster
  {
    function DisplayName(): string
    {
      match this
      case ClusterToCluster => "Cluster → Cluster"
      case ClusterToFile => "Export to File"
      case FileToCluster => "Import from File"
    }
  }

  datatype TransferStatus = Pending | Running | Paused | Completed | Failed | Cancelled
  {
    /** The enum constant's name, as sent in progress events. */
    function Name(): string
    {
      match this
      case Pending => "PENDING"
      case Running => "RUNNING"
      case Paused => "PAUSED"
      case Completed => "COMPLETED"
      case Failed => "FAILED"
      case Cancelled => "CANCELLED"
    }

    function DisplayName(): string
    {
      match this
      case Pending => "Pending"
      case Running => "Running"
      case Paused => "Paused"
      case Completed => "Completed"
      case Failed => "Failed"
      case Cancelled => "Cancelled"
    }

    function Color(): string
    {
      match this
      case Pending => "#757575"
      case Running => "#1976d2"
      case Paused => "#ff9800"
      case Completed => "#2e7d32"
      case Failed => "#c62828"
      case Cancelled => "#9e9e9e"
    }
  }

  /** Each status has its own constant name, display name and colour. */
  lemma StatusNamesDistinct(a: TransferStatus, b: TransferStatus)
    ensures a.Name() == b.Name() <==> a == b
    ensures a.DisplayName() == b.DisplayName() <==> a == b
    ensures a.Color() == b.Color() <==> a == b
  {
    if a != b {
      assert a.Name()[1] != b.Name()[1] || a.Name()[0] != b.Name()[0];
      assert a.DisplayName()[1] != b.DisplayName()[1] || a.DisplayName()[0] != b.DisplayName()[0];
      assert a.Color()[1] != b.Color()[1];
    }
  }

  // ---------------------------------------------------------------------------
  // LocalDateTime, restricted to the years that "yyyy" prints in four digits
  // ---------------------------------------------------------------------------

  function DaysInMonth(year: int, month: int): int
  {
    if month == 2 then (if (year % 4 == 0 && year % 100 != 0) || year % 400 == 0 then 29 else 28)
    else if month in {4, 6, 9, 11} then 30
    else 31
  }

  datatype DateTime = DateTime(year: int, month: int, day: int, hour: int, minute: int, second: int, nano: int)
  {
    ghost predicate Valid()
    {
      1 <= year <= 9999 && 1 <= month <= 12 && 1 <= day <= DaysInMonth(year, month)
      && 0 <= hour < 24 && 0 <= minute < 60 && 0 <= second < 60 && 0 <= nano < 1_000_000_000
    }
  }

  type LocalDateTime = d: DateTime | d.Valid() witness DateTime(1970, 1, 1, 0, 0, 0, 0)

  /** Days since 1970-01-01 in the proleptic Gregorian calendar. */
  function EpochDay(year: int, month: int, day: int): int
  {
    var y := if month <= 2 then year - 1 else year;
    var era := y / 400;
    var yoe := y - era * 400;
    var mp := if month > 2 then month - 3 else month + 9;
    var doy := (153 * mp + 2) / 5 + day - 1;
    var doe := yoe * 365 + yoe / 4 - yoe / 100 + doy;
    era * 146097 + doe - 719468
  }

  function EpochNanos(t: LocalDateTime): int
  {
    ((EpochDay(t.year, t.month, t.day) * 24 + t.hour) * 60 + t.minute) * 60 * 1_000_000_000
      + t.second * 1_000_000_000 + t.nano
  }

  /** `Duration.between(start, end).getSeconds()`: whole seconds, rounded down. */
  function SecondsBetween(start: LocalDateTime, end: LocalDateTime): int
  {
    (EpochNanos(end) - EpochNanos(start)) / 1_000_000_000
  }

  /** `n` in decimal, left-padded with zeros to `width` chars. */
  function ZeroPad(n: nat, width: nat): (s: string)
    ensures AllDigits(s) && |s| >= width
  {
    var d := NatToString(n);
    if |d| >= width then d else seq(width - |d|, _ => '0') + d
  }

  lemma {:induction false} DigitsValueLeadingZeros(k: nat, d: string)
    requires AllDigits(d)
    ensures AllDigits(seq(k, _ => '0') + d)
    ensures DigitsValue(seq(k, _ => '0') + d) == DigitsValue(d)
    decreases |d|
  {
    var z := seq(k, _ => '0');
    if d == [] {
      assert z + d == z;
      ZerosValue(k);
    } else {
      assert (z + d)[..|z + d| - 1] == z + d[..|d| - 1];
      DigitsValueLeadingZeros(k, d[..|d| - 1]);
    }
  }

  lemma {:induction false} ZerosValue(k: nat)
    ensures DigitsValue(seq(k, _ => '0')) == 0
  {
    if k > 0 {
      assert seq(k, _ => '0')[..k - 1] == seq(k - 1, _ => '0');
      ZerosValue(k - 1);
    }
  }

  /** Padding only adds zeros in front: the digits still read as `n`. */
  lemma ZeroPadValue(n: nat, width: nat)
    ensures DigitsValue(ZeroPad(n, width)) == n
  {
    DigitsValueOfNatToString(n);
    var d := NatToString(n);
    if |d| < width {
      DigitsValueLeadingZeros(width - |d|, d);
    }
  }

  /** `a`, `b` and `c` joined by `sep`. */
  function Join3(a: string, b: string, c: string, sep: char): (r: string)
    ensures |r| == |a| + |b| + |c| + 2
    ensures r[..|a|] == a && r[|a|] == sep && r[|a| + 1..|a| + 1 + |b|] == b
    ensures r[|a| + 1 + |b|] == sep && r[|a| + |b| + 2..] == c
  {
    var r := a + [sep] + b + [sep] + c;
    assert r[..|a|] == a;
    assert r[|a| + 1..|a| + 1 + |b|] == b;
    assert r[|a| + |b| + 2..] == c;
    r
  }

  /** A value below 10^width pads to exactly `width` digits that read back as it. */
  lemma PadExact(n: nat, width: nat)
    requires width >= 1 && n < Pow10(width)
    ensures |ZeroPad(n, width)| == width && DigitsValue(ZeroPad(n, width)) == n
  {
    LengthBound(n, width);
    ZeroPadValue(n, width);
  }

  /** `t.format("yyyy-MM-dd HH:mm:ss")`. */
  function Format(t: LocalDateTime): (r: string)
    ensures |r| == 19
    ensures r[4] == '-' && r[7] == '-' && r[10] == ' ' && r[13] == ':' && r[16] == ':'
  {
    PadExact(t.year, 4); PadExact(t.month, 2); PadExact(t.day, 2);
    PadExact(t.hour, 2); PadExact(t.minute, 2); PadExact(t.second, 2);
    var date := Join3(ZeroPad(t.year, 4), ZeroPad(t.month, 2), ZeroPad(t.day, 2), '-');
    var time := Join3(ZeroPad(t.hour, 2), ZeroPad(t.minute, 2), ZeroPad(t.second, 2), ':');
    date + " " + time
  }

  /** Three padded fields joined by `sep` read back as the three values. */
  lemma JoinedFields(x: nat, y: nat, z: nat, w: nat, sep: char)
    requires w >= 1 && x < Pow10(w) && y < Pow10(2) && z < Pow10(2)
    ensures var j := Join3(ZeroPad(x, w), ZeroPad(y, 2), ZeroPad(z, 2), sep);
      |j| == w + 6
      && AllDigits(j[..w]) && AllDigits(j[w + 1..w + 3]) && AllDigits(j[w + 4..])
      && DigitsValue(j[..w]) == x && DigitsValue(j[w + 1..w + 3]) == y && DigitsValue(j[w + 4..]) == z
  {
    PadExact(x, w); PadExact(y, 2); PadExact(z, 2);
  }

  /** Where the six fields of `date + " " + time` sit. */
  lemma Slices(date: string, time: string)
    requires |date| == 10 && |time| == 8
    ensures var r := date + " " + time;
      r[0..4] == date[..4] && r[5..7] == date[5..7] && r[8..10] == date[8..]
      && r[11..13] == time[..2] && r[14..16] == time[3..5] && r[17..19] == time[6..]
  {
  }

  /** The six digit fields of the formatted time read back as the year, month,
      day, hour, minute and second. */
  lemma FormatFields(t: LocalDateTime)
    ensures var r := Format(t);
      AllDigits(r[0..4]) && AllDigits(r[5..7]) && AllDigits(r[8..10])
      && AllDigits(r[11..13]) && AllDigits(r[14..16]) && AllDigits(r[17..19])
      && DigitsValue(r[0..4]) == t.year && DigitsValue(r[5..7]) == t.month
      && DigitsValue(r[8..10]) == t.day && DigitsValue(r[11..13]) == t.hour
      && DigitsValue(r[14..16]) == t.minute && DigitsValue(r[17..19]) == t.second
  {
    var date := Join3(ZeroPad(t.year, 4), ZeroPad(t.month, 2), ZeroPad(t.day, 2), '-');
    var time := Join3(ZeroPad(t.hour, 2), ZeroPad(t.minute, 2), ZeroPad(t.second, 2), ':');
    JoinedFields(t.year, t.month, t.day, 4, '-');
    JoinedFields(t.hour, t.minute, t.second, 2, ':');
    assert Format(t) == date + " " + time;
    Slices(date, time);
  }

  function Pow10(k: nat): nat
  {
    if k == 0 then 1 else 10 * Pow10(k - 1)
  }

  lemma {:induction false} LengthBound(n: nat, k: nat)
    requires k >= 1 && n < Pow10(k)
    ensures |NatToString(n)| <= k
  {
    if n >= 10 {
      assert k >= 2;
      LengthBound(n / 10, k - 1);
    }
  }

  // ---------------------------------------------------------------------------
  // TransferOperation
  // ---------------------------------------------------------------------------

  datatype TransferOperation = TransferOperation(
    operationId: Option<string>,
    transferType: TransferType,
    sourceCluster: Option<ClusterConfig>,
    targetCluster: Option<ClusterConfig>,
    indices: seq<string>,
    exportFilePath: Option<string>,
    status: TransferStatus,
    startTime: Option<LocalDateTime>,
    endTime: Option<LocalDateTime>,
    totalDocuments: int,
    processedDocuments: int,
    failedDocuments: int,
    errorMessage: Option<string>,
    batchSize: int,
    includeSettings: bool,
    includeMappings: bool,
    includeAliases: bool)

  /** `TransferOperation.builder().transferType(t).indices(xs).build()`:
      PENDING, batch size 1000, settings, mappings and aliases included,
      no id, no clusters, no timestamps, zero counters. */
  function BuilderDefault(transferType: TransferType, indices: seq<string>): (op: TransferOperation)
    ensures op.status == Pending && op.batchSize == 1000
    ensures op.includeSettings && op.includeMappings && op.includeAliases
    ensures op.operationId.None? && op.startTime.None? && op.endTime.None? && op.errorMessage.None?
    ensures op.totalDocuments == 0 && op.processedDocuments == 0 && op.failedDocuments == 0
    ensures op.transferType == transferType && op.indices == indices
  {
    TransferOperation(None, transferType, None, None, indices, None, Pending, None, None,
                      0, 0, 0, None, 1000, true, true, true)
  }

  /** `getProgress()`: processed / total * 100, or 0 when the total is 0. */
  function Progress(op: TransferOperation): real
  {
    if op.totalDocuments == 0 then 0.0
    else op.processedDocuments as real / op.totalDocuments as real * 100.0
  }

  /** Progress is 0 for an empty total, lies in 0..100 while the processed
      count does not exceed a positive total, and is 100 exactly when all
      documents are processed. */
  lemma ProgressBounds(op: TransferOperation)
    ensures op.totalDocuments == 0 ==> Progress(op) == 0.0
    ensures 0 <= op.processedDocuments <= op.totalDocuments ==> 0.0 <= Progress(op) <= 100.0
    ensures op.totalDocuments > 0 ==> (Progress(op) == 100.0 <==> op.processedDocuments == op.totalDocuments)
  {
    if op.totalDocuments > 0 {
      var p, t := op.processedDocuments as real, op.totalDocuments as real;
      assert Progress(op) == p * 100.0 / t;
      if 0 <= op.processedDocuments <= op.totalDocuments {
        assert p * 100.0 <= t * 100.0;
      }
    }
  }

  /** `getFormattedStartTime()` / `getFormattedEndTime()`. */
  function FormattedTime(t: Option<LocalDateTime>): (r: string)
    ensures r == "-" <==> t.None?
  {
    match t
    case None => "-"
    case Some(v) => Format(v)
  }

  /** The text `getDuration` prints for a span of `seconds` whole seconds. */
  function DurationText(seconds: int): string
  {
    if seconds < 60 then IntToString(seconds) + "s"
    else if seconds < 3600 then IntToString(seconds / 60) + "m " + IntToString(seconds % 60) + "s"
    else IntToString(seconds / 3600) + "h " + IntToString((seconds % 3600) / 60) + "m"
  }

  /** `getDuration()`: "-" before the start; otherwise the span from the start
      to the end, or to `now` while the operation has no end time. */
  function Duration(op: TransferOperation, now: LocalDateTime): (r: string)
    ensures op.startTime.None? <==> r == "-"
  {
    match op.startTime
    case None => "-"
    case Some(start) =>
      var end := if op.endTime.Some? then op.endTime.value else now;
      var r := DurationText(SecondsBetween(start, end));
      assert r[|r| - 1] == 's' || r[|r| - 1] == 'm';
      r
  }

  /** Below a minute the text is the seconds and "s". From one minute to
      under an hour it is "<m>m <s>s" where m*60+s is the span and s < 60. From
      an hour on it is "<h>h <m>m" where h hours and m < 60 minutes cover the
      span to within the dropped seconds. */
  lemma DurationTextShape(seconds: int)
    ensures seconds < 60 ==> DurationText(seconds) == IntToString(seconds) + "s"
    ensures 60 <= seconds < 3600 ==> exists m: int, s: int {:trigger IntToString(m), IntToString(s)} ::
      1 <= m < 60 && 0 <= s < 60 && m * 60 + s == seconds
      && DurationText(seconds) == IntToString(m) + "m " + IntToString(s) + "s"
    ensures seconds >= 3600 ==> exists h: int, m: int {:trigger IntToString(h), IntToString(m)} ::
      h >= 1 && 0 <= m < 60 && h * 3600 + m * 60 <= seconds < h * 3600 + m * 60 + 60
      && DurationText(seconds) == IntToString(h) + "h " + IntToString(m) + "m"
  {
    if 60 <= seconds < 3600 {
      var m, s := seconds / 60, seconds % 60;
      assert IntToString(m) == IntToString(m) && IntToString(s) == IntToString(s);
    } else if seconds >= 3600 {
      var h, m := seconds / 3600, (seconds % 3600) / 60;
      assert IntToString(h) == IntToString(h) && IntToString(m) == IntToString(m);
    }
  }

  /** From an hour on the seconds are dropped: spans in the same minute print alike. */
  lemma DurationDropsSeconds(seconds: int)
    requires seconds >= 3600
    ensures DurationText(seconds) == DurationText(seconds - seconds % 60)
  {
    var t := seconds - seconds % 60;
    assert t / 3600 == seconds / 3600;
    assert (t % 3600) / 60 == (seconds % 3600) / 60;
  }
}
