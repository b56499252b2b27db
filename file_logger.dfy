/**
 * The request log (`backend/app/services/file_logger.py`): size settings, the entry a
 * request produces, which log files are read and in what order, and how stored lines
 * become a page of entries, newest first.
 *
 * Files are given as the lines that could be read from them, and decoding one JSON line
 * into an entry is an input (`decode`).
 */
module RequestLog {
  import opened Wrappers
  import opened Text
  import Models
  import MockProcessor

  // ---------------------------------------------------------------------------------
  // Sizes
  // ---------------------------------------------------------------------------------

  /** A run of ASCII digits in which each `_` sits between two digits (`int()`'s grouping). */
  predicate DigitRun(d: string)
  {
    |d| > 0 && IsAsciiDigit(d[0]) && IsAsciiDigit(d[|d| - 1])
    && (forall i :: 0 <= i < |d| ==> IsAsciiDigit(d[i]) || d[i] == '_')
    && (forall i :: 0 <= i < |d| - 1 && d[i] == '_' ==> IsAsciiDigit(d[i + 1]))
  }

  function DropUnderscores(d: string): (r: string)
    ensures forall c :: c in r ==> c in d && c != '_'
  {
    if d == [] then []
    else DropUnderscores(d[..|d| - 1]) + (if d[|d| - 1] == '_' then [] else [d[|d| - 1]])
  }

  /** The value of a string of decimal digits. */
  function DigitsValue(ds: string): nat
    requires forall c :: c in ds ==> IsAsciiDigit(c)
  {
    if ds == [] then 0
    else
      assert ds == ds[..|ds| - 1] + [ds[|ds| - 1]];
      var d := ds[|ds| - 1];
      assert d in ds && IsAsciiDigit(d);
      assert d as int >= '0' as int;
      DigitsValue(ds[..|ds| - 1]) * 10 + (d as int - '0' as int)
  }

  /** Python's `int(s)` in base 10 over ASCII digits; `None` where it raises `ValueError`. */
  function ParseInt(s: string): Option<int>
  {
    IntText(Strip(s))
  }

  /** `int()` on text already stripped of whitespace. */
  function IntText(t: string): Option<int>
  {
    var negative := |t| > 0 && t[0] == '-';
    var body := if |t| > 0 && (t[0] == '+' || t[0] == '-') then t[1..] else t;
    if !DigitRun(body) then None
    else
      var n: int := DigitsValue(DropUnderscores(body));
      Some(if negative then -n else n)
  }

  function Scaled(v: Option<int>, factor: int): Option<int>
  {
    if v.Some? then Some(v.value * factor) else None
  }

  /** `parse_size`: a byte count with an optional KB/MB/GB suffix; `None` where it raises. */
  function ParseSize(s: string): Option<int>
  {
    SizeText(Strip(Upper(s)))
  }

  /** `parse_size` after upper-casing and stripping. */
  function SizeText(t: string): Option<int>
  {
    if EndsWith(t, "KB") then Scaled(ParseInt(t[..|t| - 2]), 1024)
    else if EndsWith(t, "MB") then Scaled(ParseInt(t[..|t| - 2]), 1024 * 1024)
    else if EndsWith(t, "GB") then Scaled(ParseInt(t[..|t| - 2]), 1024 * 1024 * 1024)
    else ParseInt(t)
  }

  lemma DigitCharValue(d: nat)
    requires d < 10
    ensures IsAsciiDigit(DigitChar(d)) && DigitChar(d) as int - '0' as int == d
  {
  }

  lemma {:induction false} DigitsValueOfNat(n: nat)
    ensures DigitsValue(NatToString(n)) == n
  {
    DigitCharValue(n % 10);
    if n >= 10 {
      DigitsValueOfNat(n / 10);
      var s := NatToString(n / 10) + [DigitChar(n % 10)];
      assert s[..|s| - 1] == NatToString(n / 10);
    }
  }

  lemma {:induction false} DropUnderscoresNone(d: string)
    requires '_' !in d
    ensures DropUnderscores(d) == d
  {
    if d != [] {
      assert d == d[..|d| - 1] + [d[|d| - 1]];
      assert d[|d| - 1] in d;
      DropUnderscoresNone(d[..|d| - 1]);
    }
  }

  lemma NoDigitIsWhitespace(s: string)
    requires forall c :: c in s ==> IsAsciiDigit(c) || IsAsciiUpper(c)
    ensures forall c :: c in s ==> c !in Whitespace
  {
  }

  lemma IntTextOfNat(n: nat)
    ensures IntText(NatToString(n)) == Some(n)
  {
    var s := NatToString(n);
    assert s[0] in s && s[|s| - 1] in s;
    DropUnderscoresNone(s);
    DigitsValueOfNat(n);
  }

  /** Digits and capital letters are never stripped. */
  lemma StripKeeps(s: string)
    requires forall c :: c in s ==> IsAsciiDigit(c) || IsAsciiUpper(c)
    ensures Strip(s) == s
  {
    NoDigitIsWhitespace(s);
    StripSetNoChars(s, Whitespace);
  }

  /** `int(str(n)) == n`. */
  lemma ParseIntOfNat(n: nat)
    ensures ParseInt(NatToString(n)) == Some(n)
  {
    StripKeeps(NatToString(n));
    IntTextOfNat(n);
  }

  lemma {:induction false} ParseSizeSuffix(n: nat, unit: string, factor: int)
    requires (unit, factor) in {("KB", 1024), ("MB", 1024 * 1024), ("GB", 1024 * 1024 * 1024)}
    ensures ParseSize(NatToString(n) + unit) == Some(n * factor)
  {
    var s := NatToString(n);
    var t := s + unit;
    ParseIntOfNat(n);
    UpperOfDigits(s);
    UpperAppend(s, unit);
    assert Upper(unit) == unit;
    StripKeeps(t);
    assert t[..|t| - 2] == s;
    assert t[|t| - 2..] == unit;
    assert SizeText(t) == Scaled(ParseInt(s), factor);
  }

  lemma BareNumber(n: nat)
    ensures ParseSize(NatToString(n)) == Some(n)
  {
    var s := NatToString(n);
    ParseIntOfNat(n);
    UpperOfDigits(s);
    StripKeeps(s);
    assert s[|s| - 1] in s;
    assert SizeText(s) == ParseInt(s);
  }

  /** A number followed by KB, MB or GB counts kibi-, mebi- or gibibytes; a bare number counts bytes. */
  lemma ParseSizeUnits(n: nat)
    ensures ParseSize(NatToString(n) + "KB") == Some(n * 1024)
    ensures ParseSize(NatToString(n) + "MB") == Some(n * (1024 * 1024))
    ensures ParseSize(NatToString(n) + "GB") == Some(n * (1024 * 1024 * 1024))
    ensures ParseSize(NatToString(n)) == Some(n)
  {
    ParseSizeSuffix(n, "KB", 1024);
    ParseSizeSuffix(n, "MB", 1024 * 1024);
    ParseSizeSuffix(n, "GB", 1024 * 1024 * 1024);
    BareNumber(n);
  }

  lemma UpperOfDigits(s: string)
    requires forall c :: c in s ==> IsAsciiDigit(c)
    ensures Upper(s) == s
  {
    forall i | 0 <= i < |s|
      ensures UpperChar(s[i]) == s[i]
    {
      assert s[i] in s;
    }
  }

  /** Letter case does not matter. */
  lemma ParseSizeIgnoresCase(s: string)
    ensures ParseSize(Lower(s)) == ParseSize(s)
  {
    forall i | 0 <= i < |s|
      ensures Upper(Lower(s))[i] == Upper(s)[i]
    {
      UpperOfLower(s[i]);
    }
    assert Upper(Lower(s)) == Upper(s);
  }

  lemma UpperOfLower(c: char)
    ensures UpperChar(LowerChar(c)) == UpperChar(c)
  {
    if IsAsciiUpper(c) {
      assert IsAsciiLower(LowerChar(c));
    }
  }

  lemma UpperOfWhitespace(w: string)
    requires forall c :: c in w ==> c in Whitespace
    ensures Upper(w) == w
  {
    forall i | 0 <= i < |w|
      ensures UpperChar(w[i]) == w[i]
    {
      assert w[i] in w;
    }
  }

  /** Whitespace around the setting does not matter. */
  lemma ParseSizeIgnoresPadding(w: string, s: string, w': string)
    requires forall c :: c in w ==> c in Whitespace
    requires forall c :: c in w' ==> c in Whitespace
    ensures ParseSize(w + s + w') == ParseSize(s)
  {
    UpperAppend(w + s, w');
    UpperAppend(w, s);
    UpperOfWhitespace(w);
    UpperOfWhitespace(w');
    StripSetPadding(w, Upper(s), w', Whitespace);
  }

  // ---------------------------------------------------------------------------------
  // Entries
  // ---------------------------------------------------------------------------------

  datatype LogEntry = LogEntry(
    id: string,
    serviceId: Option<int>,
    serviceName: Option<string>,
    path: string,
    verb: string,
    headers: Models.Headers,
    queryParams: Models.Headers,
    body: string,
    responseStatus: Option<int>,
    responseBody: string,
    responseHeaders: Models.Headers,
    processingTime: real,
    timestamp: string,
    proxyInfo: Option<MockProcessor.ProxyInfo>)

  /**
   * The entry `log_request` records; `id` and `timestamp` are the two readings of the
   * clock the source takes.
   */
  function LogRequest(serviceId: Option<int>, serviceName: Option<string>, path: string, verb: string,
                      headers: Models.Headers, queryParams: Models.Headers, body: string,
                      responseStatus: int, responseBody: string, responseHeaders: Models.Headers,
                      processingTime: real, proxyInfo: Option<MockProcessor.ProxyInfo>,
                      id: string, timestamp: string): (e: LogEntry)
    ensures e.serviceId == serviceId && e.serviceName == serviceName
    ensures e.path == path && e.verb == verb && e.headers == headers && e.queryParams == queryParams
    ensures e.body == body && e.responseStatus == Some(responseStatus)
    ensures e.responseBody == responseBody && e.responseHeaders == responseHeaders
    ensures e.processingTime == processingTime && e.proxyInfo == proxyInfo
    ensures e.id == id && e.timestamp == timestamp
  {
    LogEntry(id, serviceId, serviceName, path, verb, headers, queryParams, body, Some(responseStatus),
             responseBody, responseHeaders, processingTime, timestamp, proxyInfo)
  }

  // ---------------------------------------------------------------------------------
  // Log files
  // ---------------------------------------------------------------------------------

  /** File `i` of the rotation: the main file for 0, `main.i` for an archive. */
  function FileName(main: string, i: nat): string
  {
    if i == 0 then main else main + "." + NatToString(i)
  }

  /** The rotation indices in 0..`backupCount` whose file exists, in increasing order. */
  function PresentIndices(main: string, backupCount: int, onDisk: string -> bool): seq<nat>
    decreases if backupCount < 0 then 0 else backupCount
  {
    if backupCount <= 0 then (if onDisk(main) then [0] else [])
    else
      PresentIndices(main, backupCount - 1, onDisk)
      + (if onDisk(FileName(main, backupCount)) then [backupCount] else [])
  }

  function Names(main: string, idx: seq<nat>): (r: seq<string>)
    ensures |r| == |idx| && forall k :: 0 <= k < |idx| ==> r[k] == FileName(main, idx[k])
  {
    seq(|idx|, k requires 0 <= k < |idx| => FileName(main, idx[k]))
  }

  /** The main file, then the archives `.1` … `.backupCount`, keeping those that exist. */
  method LogFiles(main: string, backupCount: int, onDisk: string -> bool) returns (files: seq<string>)
    ensures files == Names(main, PresentIndices(main, backupCount, onDisk))
  {
    files := [];
    if onDisk(main) {
      files := files + [main];
    }
    assert files == Names(main, PresentIndices(main, 0, onDisk));
    var i := 1;
    while i <= backupCount
      invariant 1 <= i <= (if backupCount < 0 then 0 else backupCount) + 1
      invariant files == Names(main, PresentIndices(main, i - 1, onDisk))
    {
      var before := PresentIndices(main, i - 1, onDisk);
      if onDisk(FileName(main, i)) {
        assert Names(main, before + [i]) == Names(main, before) + [FileName(main, i)];
        files := files + [FileName(main, i)];
      } else {
        assert PresentIndices(main, i, onDisk) == before;
      }
      i := i + 1;
    }
    assert files == Names(main, PresentIndices(main, i - 1, onDisk));
    if backupCount <= 0 {
      assert i == 1;
      assert PresentIndices(main, backupCount, onDisk) == PresentIndices(main, 0, onDisk);
    } else {
      assert i - 1 == backupCount;
    }
  }

  lemma {:induction false} PresentIndicesBound(main: string, backupCount: int, onDisk: string -> bool)
    ensures forall i :: i in PresentIndices(main, backupCount, onDisk) ==> i == 0 || i <= backupCount
    decreases if backupCount < 0 then 0 else backupCount
  {
    if backupCount > 0 {
      PresentIndicesBound(main, backupCount - 1, onDisk);
    }
  }

  predicate Increasing(idx: seq<nat>)
  {
    forall a, b :: 0 <= a < b < |idx| ==> idx[a] < idx[b]
  }

  /** Indices strictly increase: the main file first, then the archives in numeric order. */
  lemma {:induction false} PresentIndicesIncrease(main: string, backupCount: int, onDisk: string -> bool)
    ensures Increasing(PresentIndices(main, backupCount, onDisk))
    decreases if backupCount < 0 then 0 else backupCount
  {
    if backupCount > 0 {
      var front := PresentIndices(main, backupCount - 1, onDisk);
      var idx := PresentIndices(main, backupCount, onDisk);
      PresentIndicesIncrease(main, backupCount - 1, onDisk);
      PresentIndicesBound(main, backupCount - 1, onDisk);
      assert idx == front + (if onDisk(FileName(main, backupCount)) then [backupCount] else []);
      forall a, b | 0 <= a < b < |idx|
        ensures idx[a] < idx[b]
      {
        assert idx[a] == front[a] && front[a] in front;
        if b < |front| {
          assert idx[b] == front[b];
          assert front[a] < front[b];
        } else {
          assert idx[b] == backupCount;
          assert front[a] == 0 || front[a] <= backupCount - 1;
        }
      }
    }
  }

  /** A file is listed exactly when it exists and its index is 0 or at most `backupCount`. */
  lemma {:induction false} PresentIndicesExact(main: string, backupCount: int, onDisk: string -> bool, i: nat)
    ensures i in PresentIndices(main, backupCount, onDisk)
            <==> (i == 0 || i <= backupCount) && onDisk(FileName(main, i))
    decreases if backupCount < 0 then 0 else backupCount
  {
    if backupCount > 0 {
      var front := PresentIndices(main, backupCount - 1, onDisk);
      var last: seq<nat> := if onDisk(FileName(main, backupCount)) then [backupCount] else [];
      assert PresentIndices(main, backupCount, onDisk) == front + last;
      PresentIndicesExact(main, backupCount - 1, onDisk, i);
      assert i in front + last <==> i in front || i in last;
      if i == backupCount {
        PresentIndicesBound(main, backupCount - 1, onDisk);
        assert i !in front;
      } else {
        assert i !in last;
      }
    }
  }

  // ---------------------------------------------------------------------------------
  // Reading entries
  // ---------------------------------------------------------------------------------

  /** What one stored line contributes: nothing when blank, undecodable, or another service's. */
  function LineEntries(line: string, decode: string -> Option<LogEntry>, serviceId: Option<int>): seq<LogEntry>
  {
    var t := Strip(line);
    if t == [] then []
    else
      match decode(t)
      case None => []
      case Some(e) => if serviceId.None? || e.serviceId == serviceId then [e] else []
  }

  function FileEntries(lines: seq<string>, decode: string -> Option<LogEntry>, serviceId: Option<int>): seq<LogEntry>
  {
    if lines == [] then []
    else FileEntries(lines[..|lines| - 1], decode, serviceId) + LineEntries(lines[|lines| - 1], decode, serviceId)
  }

  lemma FileEntriesSnoc(lines: seq<string>, j: nat, decode: string -> Option<LogEntry>, serviceId: Option<int>)
    requires j < |lines|
    ensures FileEntries(lines[..j + 1], decode, serviceId)
            == FileEntries(lines[..j], decode, serviceId) + LineEntries(lines[j], decode, serviceId)
  {
    assert lines[..j + 1][..j] == lines[..j];
  }

  /** Every accepted entry, file by file and line by line. */
  function Collected(files: seq<seq<string>>, decode: string -> Option<LogEntry>, serviceId: Option<int>): seq<LogEntry>
  {
    if files == [] then []
    else Collected(files[..|files| - 1], decode, serviceId) + FileEntries(files[|files| - 1], decode, serviceId)
  }

  /** The entries of one service, in order. */
  function OfService(es: seq<LogEntry>, id: int): seq<LogEntry>
  {
    if es == [] then []
    else OfService(es[..|es| - 1], id) + (if es[|es| - 1].serviceId == Some(id) then [es[|es| - 1]] else [])
  }

  lemma {:induction false} OfServiceAppend(a: seq<LogEntry>, b: seq<LogEntry>, id: int)
    ensures OfService(a + b, id) == OfService(a, id) + OfService(b, id)
    decreases |b|
  {
    if b == [] {
      assert a + b == a;
    } else {
      assert (a + b)[..|a + b| - 1] == a + b[..|b| - 1];
      OfServiceAppend(a, b[..|b| - 1], id);
    }
  }

  lemma {:induction false} FileEntriesOfService(lines: seq<string>, decode: string -> Option<LogEntry>, id: int)
    ensures FileEntries(lines, decode, Some(id)) == OfService(FileEntries(lines, decode, None), id)
  {
    if lines != [] {
      var front := FileEntries(lines[..|lines| - 1], decode, None);
      var last := LineEntries(lines[|lines| - 1], decode, None);
      FileEntriesOfService(lines[..|lines| - 1], decode, id);
      OfServiceAppend(front, last, id);
      if last != [] {
        assert last == [] + [last[0]];
      } else {
        assert OfService(last, id) == [];
      }
    }
  }

  /** Reading for one service keeps exactly that service's entries from reading everything. */
  lemma {:induction false} CollectedOfService(files: seq<seq<string>>, decode: string -> Option<LogEntry>, id: int)
    ensures Collected(files, decode, Some(id)) == OfService(Collected(files, decode, None), id)
  {
    if files != [] {
      CollectedOfService(files[..|files| - 1], decode, id);
      FileEntriesOfService(files[|files| - 1], decode, id);
      OfServiceAppend(Collected(files[..|files| - 1], decode, None), FileEntries(files[|files| - 1], decode, None), id);
    }
  }

  // ---------------------------------------------------------------------------------
  // Newest first
  // ---------------------------------------------------------------------------------

  /** Python's `<` on strings: lexicographic by code point. */
  predicate Below(a: string, b: string)
  {
    if a == [] then b != []
    else if b == [] then false
    else if a[0] != b[0] then a[0] < b[0]
    else Below(a[1..], b[1..])
  }

  lemma {:induction false} BelowIrreflexive(a: string)
    ensures !Below(a, a)
  {
    if a != [] {
      BelowIrreflexive(a[1..]);
    }
  }

  lemma {:induction false} BelowTransitive(a: string, b: string, c: string)
    requires Below(a, b) && Below(b, c)
    ensures Below(a, c)
  {
    if a != [] && b != [] && c != [] && a[0] == b[0] && b[0] == c[0] {
      BelowTransitive(a[1..], b[1..], c[1..]);
    }
  }

  lemma {:induction false} BelowTotal(a: string, b: string)
    requires a != b
    ensures Below(a, b) || Below(b, a)
  {
    if a != [] && b != [] && a[0] == b[0] {
      assert a == [a[0]] + a[1..] && b == [b[0]] + b[1..];
      BelowTotal(a[1..], b[1..]);
    }
  }

  /** No entry is older than one after it. */
  predicate NewestFirst(s: seq<LogEntry>)
  {
    forall i, j :: 0 <= i < j < |s| ==> !Below(s[i].timestamp, s[j].timestamp)
  }

  /** Where a stable descending sort places `t`: after every entry not older than it. */
  function InsertPos(s: seq<LogEntry>, t: string): (k: nat)
    ensures k <= |s|
    ensures forall i :: 0 <= i < k ==> !Below(s[i].timestamp, t)
    ensures k < |s| ==> Below(s[k].timestamp, t)
  {
    if s == [] || Below(s[0].timestamp, t) then 0 else InsertPos(s[1..], t) + 1
  }

  function InsertNewestFirst(s: seq<LogEntry>, e: LogEntry): seq<LogEntry>
  {
    var k := InsertPos(s, e.timestamp);
    s[..k] + [e] + s[k..]
  }

  /** `sorted(es, key=timestamp, reverse=True)`. */
  function SortNewestFirst(es: seq<LogEntry>): seq<LogEntry>
  {
    if es == [] then []
    else InsertNewestFirst(SortNewestFirst(es[..|es| - 1]), es[|es| - 1])
  }

  /** The entries with timestamp `t`, in order. */
  function Stamped(s: seq<LogEntry>, t: string): seq<LogEntry>
  {
    if s == [] then []
    else Stamped(s[..|s| - 1], t) + (if s[|s| - 1].timestamp == t then [s[|s| - 1]] else [])
  }

  lemma {:induction false} StampedAppend(a: seq<LogEntry>, b: seq<LogEntry>, t: string)
    ensures Stamped(a + b, t) == Stamped(a, t) + Stamped(b, t)
    decreases |b|
  {
    if b == [] {
      assert a + b == a;
    } else {
      assert (a + b)[..|a + b| - 1] == a + b[..|b| - 1];
      StampedAppend(a, b[..|b| - 1], t);
    }
  }

  lemma {:induction false} StampedNone(s: seq<LogEntry>, t: string)
    requires forall i :: 0 <= i < |s| ==> s[i].timestamp != t
    ensures Stamped(s, t) == []
  {
    if s != [] {
      StampedNone(s[..|s| - 1], t);
    }
  }

  /** Everything from the insertion point on is strictly older than the inserted entry. */
  lemma OlderAfterPos(s: seq<LogEntry>, t: string, j: nat)
    requires NewestFirst(s)
    requires InsertPos(s, t) <= j < |s|
    ensures Below(s[j].timestamp, t)
  {
    var k := InsertPos(s, t);
    if j > k {
      assert !Below(s[k].timestamp, s[j].timestamp);
      BelowBetween(s[j].timestamp, s[k].timestamp, t);
    }
  }

  /** Not newer than something older than `t` is older than `t`. */
  lemma BelowBetween(a: string, b: string, t: string)
    requires !Below(b, a) && Below(b, t)
    ensures Below(a, t)
  {
    if a != b {
      BelowTotal(a, b);
      BelowTransitive(a, b, t);
    }
  }

  lemma InsertKeepsOrder(s: seq<LogEntry>, e: LogEntry)
    requires NewestFirst(s)
    ensures NewestFirst(InsertNewestFirst(s, e))
  {
    var k := InsertPos(s, e.timestamp);
    var r := InsertNewestFirst(s, e);
    forall i, j | 0 <= i < j < |r|
      ensures !Below(r[i].timestamp, r[j].timestamp)
    {
      if i == k {
        OlderAfterPos(s, e.timestamp, j - 1);
        if Below(e.timestamp, r[j].timestamp) {
          BelowTransitive(e.timestamp, r[j].timestamp, e.timestamp);
          BelowIrreflexive(e.timestamp);
        }
      } else if j == k {
        assert r[i] == s[i];
      } else {
        var i', j' := if i < k then i else i - 1, if j < k then j else j - 1;
        assert r[i] == s[i'] && r[j] == s[j'];
      }
    }
  }

  /** No entry from the insertion point on shares the inserted timestamp. */
  lemma NoTieAfterPos(s: seq<LogEntry>, t: string)
    requires NewestFirst(s)
    ensures Stamped(s[InsertPos(s, t)..], t) == []
  {
    var k := InsertPos(s, t);
    forall j | 0 <= j < |s| - k
      ensures s[k..][j].timestamp != t
    {
      OlderAfterPos(s, t, k + j);
      if s[k + j].timestamp == t {
        BelowIrreflexive(t);
      }
    }
    StampedNone(s[k..], t);
  }

  lemma InsertAt(s: seq<LogEntry>, e: LogEntry, k: nat, t: string)
    requires k <= |s|
    requires e.timestamp == t ==> Stamped(s[k..], t) == []
    ensures Stamped(s[..k] + [e] + s[k..], t) == Stamped(s, t) + (if e.timestamp == t then [e] else [])
  {
    var a, b := s[..k], s[k..];
    var ae := a + [e];
    assert s == a + b;
    StampedAppend(a, b, t);
    assert ae[..|ae| - 1] == a && ae[|ae| - 1] == e;
    assert Stamped(ae, t) == Stamped(a, t) + (if e.timestamp == t then [e] else []);
    StampedAppend(ae, b, t);
  }

  lemma InsertKeepsTies(s: seq<LogEntry>, e: LogEntry, t: string)
    requires NewestFirst(s)
    ensures Stamped(InsertNewestFirst(s, e), t) == Stamped(s, t) + (if e.timestamp == t then [e] else [])
  {
    if e.timestamp == t {
      NoTieAfterPos(s, t);
    }
    InsertAt(s, e, InsertPos(s, e.timestamp), t);
  }

  lemma {:induction false} SortIsNewestFirst(es: seq<LogEntry>)
    ensures NewestFirst(SortNewestFirst(es))
  {
    if es != [] {
      SortIsNewestFirst(es[..|es| - 1]);
      InsertKeepsOrder(SortNewestFirst(es[..|es| - 1]), es[|es| - 1]);
    }
  }

  lemma {:induction false} SortIsPermutation(es: seq<LogEntry>)
    ensures multiset(SortNewestFirst(es)) == multiset(es)
  {
    if es != [] {
      var front, e := es[..|es| - 1], es[|es| - 1];
      SortIsPermutation(front);
      InsertMultiset(SortNewestFirst(front), e);
      assert es == front + [e];
    }
  }

  lemma InsertMultiset(s: seq<LogEntry>, e: LogEntry)
    ensures multiset(InsertNewestFirst(s, e)) == multiset(s) + multiset{e}
  {
    var k := InsertPos(s, e.timestamp);
    assert s == s[..k] + s[k..];
  }

  lemma {:induction false} SortIsStable(es: seq<LogEntry>, t: string)
    ensures Stamped(SortNewestFirst(es), t) == Stamped(es, t)
  {
    if es != [] {
      var front, e := es[..|es| - 1], es[|es| - 1];
      SortIsStable(front, t);
      SortIsNewestFirst(front);
      InsertKeepsTies(SortNewestFirst(front), e, t);
    }
  }

  /** The sort is newest first, a permutation, and keeps entries with equal timestamps in order. */
  lemma SortNewestFirstCorrect(es: seq<LogEntry>)
    ensures NewestFirst(SortNewestFirst(es))
    ensures multiset(SortNewestFirst(es)) == multiset(es)
    ensures forall t :: Stamped(SortNewestFirst(es), t) == Stamped(es, t)
  {
    SortIsNewestFirst(es);
    SortIsPermutation(es);
    forall t
      ensures Stamped(SortNewestFirst(es), t) == Stamped(es, t)
    {
      SortIsStable(es, t);
    }
  }

  // ---------------------------------------------------------------------------------
  // Pages
  // ---------------------------------------------------------------------------------

  /** A Python slice bound resolved against length `n`. */
  function Clamp(i: int, n: nat): (r: nat)
    ensures r <= n
  {
    if i < 0 then (if i + n < 0 then 0 else i + n) else if i > n then n else i
  }

  /** `s[a:b]`. */
  function PySlice<T>(s: seq<T>, a: int, b: int): seq<T>
  {
    var lo, hi := Clamp(a, |s|), Clamp(b, |s|);
    if lo < hi then s[lo..hi] else []
  }

  /** The page `get_logs` returns. */
  function LogsPage(files: seq<seq<string>>, decode: string -> Option<LogEntry>, serviceId: Option<int>,
                    skip: int, limit: int): seq<LogEntry>
  {
    PySlice(SortNewestFirst(Collected(files, decode, serviceId)), skip, skip + limit)
  }

  /** Reads every line of every file, keeps the accepted entries, sorts newest first, then pages. */
  method GetLogs(files: seq<seq<string>>, decode: string -> Option<LogEntry>, serviceId: Option<int>,
                 skip: int, limit: int) returns (page: seq<LogEntry>)
    ensures page == LogsPage(files, decode, serviceId, skip, limit)
  {
    var logs := [];
    var i := 0;
    while i < |files|
      invariant i <= |files|
      invariant logs == Collected(files[..i], decode, serviceId)
    {
      logs := ReadLines(logs, files[i], decode, serviceId);
      assert files[..i + 1][..i] == files[..i];
      i := i + 1;
    }
    assert files[..i] == files;
    var sorted := SortNewestFirst(logs);
    page := PySlice(sorted, skip, skip + limit);
  }

  /** Appends the accepted entries of one file's lines to `logs`. */
  method ReadLines(logs: seq<LogEntry>, lines: seq<string>, decode: string -> Option<LogEntry>,
                   serviceId: Option<int>) returns (logs': seq<LogEntry>)
    ensures logs' == logs + FileEntries(lines, decode, serviceId)
  {
    logs' := logs;
    var j := 0;
    while j < |lines|
      invariant j <= |lines|
      invariant logs' == logs + FileEntries(lines[..j], decode, serviceId)
    {
      var line := Strip(lines[j]);
      var accepted := [];
      if line != [] {
        var parsed := decode(line);
        if parsed.Some? && (serviceId.None? || parsed.value.serviceId == serviceId) {
          accepted := [parsed.value];
        }
      }
      assert accepted == LineEntries(lines[j], decode, serviceId);
      FileEntriesSnoc(lines, j, decode, serviceId);
      logs' := logs' + accepted;
      j := j + 1;
    }
    assert lines[..j] == lines;
  }

  /**
   * A page with non-negative `skip` and `limit` holds at most `limit` entries, newest
   * first, each of the requested service, starting `skip` entries into the sorted log.
   */
  lemma LogsPageShape(files: seq<seq<string>>, decode: string -> Option<LogEntry>, serviceId: Option<int>,
                      skip: int, limit: int)
    requires 0 <= skip && 0 <= limit
    ensures var page := LogsPage(files, decode, serviceId, skip, limit);
            var all := SortNewestFirst(Collected(files, decode, serviceId));
            |page| <= limit && NewestFirst(page)
            && (skip <= |all| ==> page == all[skip..if skip + limit <= |all| then skip + limit else |all|])
            && (serviceId.Some? ==> forall k :: 0 <= k < |page| ==> page[k].serviceId == serviceId)
  {
    var es := Collected(files, decode, serviceId);
    var all := SortNewestFirst(es);
    SortIsNewestFirst(es);
    SortIsPermutation(es);
    CollectedMatches(files, decode, serviceId);
    PageOfSlice(all, skip, limit);
    var page := PySlice(all, skip, skip + limit);
    forall k | 0 <= k < |page|
      ensures page[k].serviceId == serviceId || serviceId.None?
    {
      assert page[k] in multiset(all);
      assert page[k] in es;
    }
  }

  /** A slice with non-negative bounds: at most `limit` long, in order, drawn from `s`. */
  lemma PageOfSlice(s: seq<LogEntry>, skip: int, limit: int)
    requires 0 <= skip && 0 <= limit
    ensures var page := PySlice(s, skip, skip + limit);
            |page| <= limit && multiset(page) <= multiset(s)
            && (skip <= |s| ==> page == s[skip..if skip + limit <= |s| then skip + limit else |s|])
            && (NewestFirst(s) ==> NewestFirst(page))
  {
    var lo, hi := Clamp(skip, |s|), Clamp(skip + limit, |s|);
    if lo < hi {
      assert s == s[..lo] + s[lo..hi] + s[hi..];
      if NewestFirst(s) {
        SliceNewestFirst(s, lo, hi);
      }
    }
  }

  lemma SliceNewestFirst(s: seq<LogEntry>, lo: nat, hi: nat)
    requires lo <= hi <= |s| && NewestFirst(s)
    ensures NewestFirst(s[lo..hi])
  {
    forall i, j | 0 <= i < j < hi - lo
      ensures !Below(s[lo..hi][i].timestamp, s[lo..hi][j].timestamp)
    {
      assert s[lo..hi][i] == s[lo + i] && s[lo..hi][j] == s[lo + j];
    }
  }

  lemma {:induction false} CollectedMatches(files: seq<seq<string>>, decode: string -> Option<LogEntry>, serviceId: Option<int>)
    ensures serviceId.Some? ==> forall e :: e in Collected(files, decode, serviceId) ==> e.serviceId == serviceId
  {
    if files != [] {
      CollectedMatches(files[..|files| - 1], decode, serviceId);
      FileEntriesMatch(files[|files| - 1], decode, serviceId);
    }
  }

  lemma {:induction false} FileEntriesMatch(lines: seq<string>, decode: string -> Option<LogEntry>, serviceId: Option<int>)
    ensures serviceId.Some? ==> forall e :: e in FileEntries(lines, decode, serviceId) ==> e.serviceId == serviceId
  {
    if lines != [] {
      FileEntriesMatch(lines[..|lines| - 1], decode, serviceId);
    }
  }
}
