/** Zscaler NSS exports: finding the columns of a header row, building entries, and numbering lines. CSV reading and
    the parsing of single values are the library's. */
module Zscaler {
  import opened Common
  import opened Texts
  import opened NssFields

  datatype Field =
    | Ts | ClientIp | Username | Host | Url | Category | Action | ReqBytes | RespBytes | UserAgent | ThreatName
    | RespCode | LatencyMs | Method | CacheStatus | Reason

  const FIELDS := {Ts, ClientIp, Username, Host, Url, Category, Action, ReqBytes, RespBytes, UserAgent, ThreatName,
                   RespCode, LatencyMs, Method, CacheStatus, Reason}

  /** The header names a field goes by, most specific first. */
  function Aliases(f: Field): seq<string> {
    match f
    case Ts => ["datetime", "eventtime", "time", "timestamp", "date", "logtime"]
    case ClientIp => ["clientip", "clientinternalip", "cip", "clientpublicip", "srcip"]
    case Username => ["login", "user", "username", "userid"]
    case Host => ["host", "hostname", "serverhost"]
    case Url => ["url", "requesturl", "uri"]
    case Category => ["urlcategory", "urlsupercategory", "urlclass", "category"]
    case Action => ["action", "eventaction", "policyaction"]
    case ReqBytes => ["requestsize", "reqsize", "sentbytes", "bytesout"]
    case RespBytes => ["responsesize", "respsize", "receivedbytes", "bytesin"]
    case UserAgent => ["useragent", "useragentheader", "ua"]
    case ThreatName => ["threatname", "malwarename", "threat", "virusname"]
    case RespCode => ["respcode", "statuscode", "status", "httpstatus"]
    case LatencyMs => ["totaltime", "requesttime", "responsetime", "duration", "timetaken"]
    case Method => ["requestmethod", "method", "httpmethod"]
    case CacheStatus => ["cachehit", "tcpstatus", "cachestatus", "cached"]
    case Reason => ["reason", "statusreason", "blockreason", "policyreason"]
  }

  // --- Columns ---

  function Alphanumeric(s: string): string {
    if |s| == 0 then ""
    else (if 'a' <= s[0] <= 'z' || '0' <= s[0] <= '9' then [s[0]] else "") + Alphanumeric(s[1..])
  }

  /** Lower-case letters and digits only. */
  function NormalForm(lib: Library, name: string): string {
    Alphanumeric(lib.lower(lib.trimSpace(name)))
  }

  function Normalize(lib: Library): string -> string {
    name => NormalForm(lib, name)
  }

  /** Column `i` is the first one named by the earliest alias that occurs at all. */
  ghost predicate Reads(names: seq<string>, aliases: seq<string>, i: nat) {
    && i < |names| && names[i] !in names[..i]
    && exists j :: 0 <= j < |aliases| && names[i] == aliases[j] && forall k :: 0 <= k < j ==> aliases[k] !in names
  }

  ghost predicate Absent(names: seq<string>, aliases: seq<string>) {
    forall j :: 0 <= j < |aliases| ==> aliases[j] !in names
  }

  method FindColumn(names: seq<string>, aliases: seq<string>) returns (column: Option<nat>)
    ensures column.None? <==> Absent(names, aliases)
    ensures column.Some? ==> Reads(names, aliases, column.value)
  {
    for j := 0 to |aliases|
      invariant forall k :: 0 <= k < j ==> aliases[k] !in names
    {
      for i := 0 to |names|
        invariant aliases[j] !in names[..i]
      {
        if names[i] == aliases[j] {
          return Some(i);
        }
      }
    }
    column := None;
  }

  ghost predicate MapsColumns(names: seq<string>, aliases: Field -> seq<string>, cols: map<Field, nat>, f: Field) {
    if f in cols then Reads(names, aliases(f), cols[f]) else Absent(names, aliases(f))
  }

  ghost predicate IsColumnMap(names: seq<string>, aliases: Field -> seq<string>, cols: map<Field, nat>) {
    forall f :: MapsColumns(names, aliases, cols, f)
  }

  method MapFields(names: seq<string>, aliases: Field -> seq<string>, fields: set<Field>) returns (cols: map<Field, nat>)
    ensures forall f :: f in fields ==> MapsColumns(names, aliases, cols, f)
  {
    cols := map[];
    var todo := fields;
    while todo != {}
      invariant todo <= fields && cols.Keys <= fields - todo
      invariant forall f :: f in fields - todo ==> MapsColumns(names, aliases, cols, f)
      decreases todo
    {
      var f :| f in todo;
      var column := FindColumn(names, aliases(f));
      ghost var was := cols;
      if column.Some? {
        cols := cols[f := column.value];
      }
      forall g | g in fields - todo ensures MapsColumns(names, aliases, cols, g) {
        assert MapsColumns(names, aliases, was, g);
      }
      todo := todo - {f};
    }
  }

  lemma FieldListed(f: Field)
    ensures f in FIELDS
  {
    match f
    case Ts =>
    case ClientIp =>
    case Username =>
    case Host =>
    case Url =>
    case Category =>
    case Action =>
    case ReqBytes =>
    case RespBytes =>
    case UserAgent =>
    case ThreatName =>
    case RespCode =>
    case LatencyMs =>
    case Method =>
    case CacheStatus =>
    case Reason =>
  }

  /** Each field reads the earliest of its aliases that the header has. */
  method BuildColumnMap(lib: Library, header: seq<string>) returns (cols: map<Field, nat>)
    ensures IsColumnMap(MapSeq(header, Normalize(lib)), Aliases, cols)
  {
    cols := MapFields(MapSeq(header, Normalize(lib)), Aliases, FIELDS);
    forall f ensures f in FIELDS {
      FieldListed(f);
    }
  }

  // --- Entries ---

  function TrimQuotes(s: string): string {
    if |s| > 0 && s[0] == '"' then TrimQuotes(s[1..])
    else if |s| > 0 && s[|s| - 1] == '"' then TrimQuotes(s[..|s| - 1])
    else s
  }

  function Clean(lib: Library, v: string): string {
    var trimmed := TrimQuotes(lib.trimSpace(v));
    if trimmed in ["", "-", "None", "NA", "N/A"] then "" else trimmed
  }

  function Cell(lib: Library, cols: map<Field, nat>, row: seq<string>, f: Field): string {
    if f in cols && cols[f] < |row| then Clean(lib, row[cols[f]]) else ""
  }

  /** Float syntax, truncated; negative numbers count as zero. */
  function ParseInt64(lib: Library, v: string): Option<int> {
    if v == "" then None
    else match lib.parseFloat(v)
      case None => None
      case Some(x) => Some(if x < 0.0 then 0 else x.Floor)
  }

  /** The part of `s` before the first `c`; all of it when there is none. */
  function Before(s: string, c: char): (r: string)
    ensures r <= s && c !in r && (r == s || s[|r|] == c)
  {
    if |s| == 0 || s[0] == c then "" else [s[0]] + Before(s[1..], c)
  }

  function FindScheme(s: string): Option<string> {
    if |s| < 3 then None else if s[..3] == "://" then Some(s[3..]) else FindScheme(s[1..])
  }

  /** What follows the first "://", or all of `s`. */
  function AfterScheme(s: string): string {
    var rest := FindScheme(s);
    if rest.Some? then rest.value else s
  }

  function HostFromUrl(url: string): string {
    if url == "" then "" else Before(Before(AfterScheme(url), '/'), ':')
  }

  function JoinCells(row: seq<string>, delimiter: char): string {
    if |row| == 0 then "" else if |row| == 1 then row[0] else JoinCells(row[..|row| - 1], delimiter) + [delimiter] + row[|row| - 1]
  }

  /** The values a row holds for each field. */
  function CellOf(lib: Library, cols: map<Field, nat>, row: seq<string>): Field -> string {
    f => Cell(lib, cols, row, f)
  }

  function EntryFrom(lib: Library, lineNo: int, raw: string, cell: Field -> string): Entry {
    Entry(
      lineNo, raw,
      if cell(Ts) != "" then lib.parseTs(cell(Ts)) else None,
      if cell(ClientIp) != "" then lib.parseIp(cell(ClientIp)) else "",
      cell(Username),
      if cell(Host) == "" then HostFromUrl(cell(Url)) else cell(Host),
      cell(Url), cell(Category), cell(Action),
      ParseInt64(lib, cell(ReqBytes)), ParseInt64(lib, cell(RespBytes)),
      cell(UserAgent), cell(ThreatName), ParseInt64(lib, cell(RespCode)), lib.upper(cell(Method)),
      ParseInt64(lib, cell(LatencyMs)), cell(CacheStatus), cell(Reason))
  }

  function BuildEntry(lib: Library, lineNo: int, row: seq<string>, cols: map<Field, nat>, delimiter: char): Entry {
    EntryFrom(lib, lineNo, JoinCells(row, delimiter), CellOf(lib, cols, row))
  }

  /** A record that cannot be read still becomes an entry, with nothing but its line number. */
  function Unreadable(lineNo: int): Entry {
    Entry(lineNo, "", None, "", "", "", "", "", "", None, None, "", "", None, "", None, "", "")
  }

  function EntryOf(lib: Library, lineNo: int, r: Record, cols: map<Field, nat>, delimiter: char): Entry {
    match r
    case Row(cells) => BuildEntry(lib, lineNo, cells, cols, delimiter)
    case Malformed => Unreadable(lineNo)
  }

  // --- What is read, in terms of the header and the record ---

  lemma {:induction false} AlphanumericFilters(s: string)
    ensures Filters(s, LetterOrDigit, Alphanumeric(s))
  {
    hide Filters;
    if |s| == 0 {
      NothingFilters(LetterOrDigit);
    } else {
      AlphanumericFilters(s[1..]);
      OneMoreFilters(s, LetterOrDigit, Alphanumeric(s[1..]));
    }
  }

  lemma LettersIff(s: string, r: string)
    ensures Filters(s, LetterOrDigit, r) <==> r == Alphanumeric(s)
  {
    hide Filters;
    AlphanumericFilters(s);
    if Filters(s, LetterOrDigit, r) {
      FiltersOnce(s, LetterOrDigit, r, Alphanumeric(s));
    }
  }

  lemma {:induction false} QuotesIff(s: string, r: string)
    ensures Trims(s, IsQuote, r) <==> r == TrimQuotes(s)
  {
    hide Trims;
    if |s| > 0 && s[0] == '"' {
      TrimsFront(s, IsQuote, r);
      QuotesIff(s[1..], r);
    } else if |s| > 0 && s[|s| - 1] == '"' {
      TrimsBack(s, IsQuote, r);
      QuotesIff(s[..|s| - 1], r);
    } else {
      NothingToTrim(s, IsQuote, r);
    }
  }

  lemma MeansIff(lib: Library, cell: string, v: string)
    ensures Means(lib, cell, v) <==> v == Clean(lib, cell)
  {
    hide Trims;
    var s := lib.trimSpace(cell);
    forall r ensures Trims(s, IsQuote, r) <==> r == TrimQuotes(s) {
      QuotesIff(s, r);
    }
    assert Trims(s, IsQuote, TrimQuotes(s));
  }

  lemma NumberIff(lib: Library, v: string, n: Option<int>)
    ensures IsNumber(lib, v, n) <==> n == ParseInt64(lib, v)
  {}

  lemma SchemeShift(s: string, i: int)
    requires |s| > 0
    ensures SchemeAt(s[1..], i) <==> i >= 0 && SchemeAt(s, i + 1)
    ensures SchemeAt(s, i) ==> i >= 0
  {}

  lemma SchemeLater(s: string, rest: string, i: nat)
    requires |s| > 0 && FirstScheme(s[1..], rest, i) && !SchemeAt(s, 0)
    ensures FirstScheme(s, rest, i + 1)
  {
    forall k | 0 < k <= i ensures !SchemeAt(s, k) {
      assert !SchemeAt(s[1..], k - 1);
    }
  }

  lemma SchemeHere(s: string)
    ensures |s| >= 3 && s[..3] == "://" <==> SchemeAt(s, 0)
  {}

  lemma {:induction false} SchemeFound(s: string)
    ensures FindScheme(s).None? ==> forall i :: !SchemeAt(s, i)
    ensures FindScheme(s).Some? ==> exists i: nat :: FirstScheme(s, FindScheme(s).value, i)
  {
    SchemeHere(s);
    if |s| >= 3 && !SchemeAt(s, 0) {
      hide SchemeAt;
      SchemeFound(s[1..]);
      if FindScheme(s).Some? {
        var i: nat :| FirstScheme(s[1..], FindScheme(s).value, i);
        SchemeLater(s, FindScheme(s).value, i);
      } else {
        forall i ensures !SchemeAt(s, i) {
          SchemeShift(s, i);
          SchemeShift(s, i - 1);
        }
      }
    } else if |s| >= 3 {
      assert FirstScheme(s, s[3..], 0);
    }
  }

  lemma SchemeIff(url: string, rest: string)
    ensures PastScheme(url, rest) <==> rest == AfterScheme(url)
  {
    SchemeFound(url);
    forall a, b, i: nat, k: nat | FirstScheme(url, a, i) && FirstScheme(url, b, k) ensures i == k && a == b {}
  }

  /** Up to the first path or port. */
  lemma AuthorityOnce(rest: string, a: string, b: string)
    requires a <= rest && '/' !in a && ':' !in a && (a == rest || rest[|a|] == '/' || rest[|a|] == ':')
    requires b <= rest && '/' !in b && ':' !in b && (b == rest || rest[|b|] == '/' || rest[|b|] == ':')
    ensures a == b
  {}

  lemma AuthorityFound(rest: string)
    ensures var host := Before(Before(rest, '/'), ':');
      host <= rest && '/' !in host && ':' !in host && (host == rest || rest[|host|] == '/' || rest[|host|] == ':')
  {
    var path := Before(rest, '/');
    var host := Before(path, ':');
    assert |host| < |path| ==> rest[|host|] == path[|host|];
    forall i | 0 <= i < |host| ensures host[i] != '/' {
      assert host[i] == path[i];
    }
  }

  lemma NoUrl()
    ensures AfterScheme("") == "" && Before(Before("", '/'), ':') == ""
  {}

  lemma HostIff(url: string, host: string)
    ensures HostOf(url, host) <==> host == HostFromUrl(url)
  {
    hide PastScheme, AfterScheme, Before;
    var rest := AfterScheme(url);
    SchemeIff(url, rest);
    AuthorityFound(rest);
    NoUrl();
    forall other | PastScheme(url, other) ensures other == rest {
      SchemeIff(url, other);
    }
    if HostOf(url, host) {
      AuthorityOnce(rest, host, Before(Before(rest, '/'), ':'));
    }
  }

  lemma SplitAround(raw: string, front: string, c: char, last: string)
    requires |raw| > |last|
    ensures var rest := |raw| - |last| - 1;
      raw == front + [c] + last <==> raw[rest] == c && raw[rest + 1..] == last && raw[..rest] == front
  {
    var rest := |raw| - |last| - 1;
    assert raw == raw[..rest] + [raw[rest]] + raw[rest + 1..];
    if raw == front + [c] + last {
      assert rest == |front|;
    }
  }

  lemma {:induction false} JoinedIff(row: seq<string>, delimiter: char, raw: string)
    ensures Joined(row, delimiter, raw) <==> raw == JoinCells(row, delimiter)
  {
    if |row| > 1 {
      var before, last := row[..|row| - 1], row[|row| - 1];
      var rest := |raw| - |last| - 1;
      if rest >= 0 {
        JoinedIff(before, delimiter, raw[..rest]);
        SplitAround(raw, JoinCells(before, delimiter), delimiter, last);
      }
    }
  }

  lemma TitleIff(lib: Library, cell: string, name: string)
    ensures Titled(lib, cell, name) <==> Normalize(lib)(cell) == name
  {
    hide Filters, Alphanumeric;
    assert Normalize(lib)(cell) == NormalForm(lib, cell);
    LettersIff(lib.lower(lib.trimSpace(cell)), name);
  }

  lemma TitledIff(lib: Library, header: seq<string>, name: string)
    ensures forall i :: 0 <= i < |header| ==> (Titled(lib, header[i], name) <==> MapSeq(header, Normalize(lib))[i] == name)
    ensures NotTitled(lib, header, name) <==> name !in MapSeq(header, Normalize(lib))
  {
    hide Titled, Normalize;
    var names := MapSeq(header, Normalize(lib));
    forall i | 0 <= i < |header| ensures Titled(lib, header[i], name) <==> names[i] == name {
      TitleIff(lib, header[i], name);
    }
    if name in names {
      var i :| 0 <= i < |names| && names[i] == name;
      assert Titled(lib, header[i], name);
    }
  }

  lemma FirstTitledIff(lib: Library, header: seq<string>, name: string, i: nat)
    ensures var names := MapSeq(header, Normalize(lib));
      FirstTitled(lib, header, name, i) <==> i < |names| && names[i] == name && names[i] !in names[..i]
  {
    hide Titled, Normalize;
    var names := MapSeq(header, Normalize(lib));
    TitledIff(lib, header, name);
    if i < |names| && names[i] == name && names[i] in names[..i] {
      var k :| 0 <= k < i && names[..i][k] == name;
      assert Titled(lib, header[k], name);
    }
    if i < |names| && names[i] == name && names[i] !in names[..i] {
      forall k | 0 <= k < i ensures !Titled(lib, header[k], name) {
        assert names[..i][k] == names[k];
      }
    }
  }

  lemma ColumnIff(lib: Library, header: seq<string>, aliases: seq<string>, i: nat)
    ensures ColumnOf(lib, header, aliases, i) <==> Reads(MapSeq(header, Normalize(lib)), aliases, i)
    ensures NoColumn(lib, header, aliases) <==> Absent(MapSeq(header, Normalize(lib)), aliases)
  {
    hide FirstTitled, NotTitled, Normalize;
    var names := MapSeq(header, Normalize(lib));
    forall j | 0 <= j < |aliases|
      ensures FirstTitled(lib, header, aliases[j], i) <==> i < |names| && names[i] == aliases[j] && names[i] !in names[..i]
      ensures NotTitled(lib, header, aliases[j]) <==> aliases[j] !in names
    {
      FirstTitledIff(lib, header, aliases[j], i);
      TitledIff(lib, header, aliases[j]);
    }
  }

  lemma PresentOrAbsent(names: seq<string>, aliases: seq<string>)
    ensures forall i :: Reads(names, aliases, i) ==> !Absent(names, aliases)
  {}

  lemma ReadsOnce(names: seq<string>, aliases: seq<string>, i: nat, k: nat)
    requires Reads(names, aliases, i) && Reads(names, aliases, k)
    ensures i == k
  {
    var a :| 0 <= a < |aliases| && names[i] == aliases[a] && forall x :: 0 <= x < a ==> aliases[x] !in names;
    var b :| 0 <= b < |aliases| && names[k] == aliases[b] && forall x :: 0 <= x < b ==> aliases[x] !in names;
    assert names[i] in names && names[k] in names;
    assert a == b;
  }

  lemma ColumnIs(lib: Library, header: seq<string>, cols: map<Field, nat>, f: Field)
    requires IsColumnMap(MapSeq(header, Normalize(lib)), Aliases, cols)
    ensures NoColumn(lib, header, Aliases(f)) <==> f !in cols
    ensures forall i: nat :: ColumnOf(lib, header, Aliases(f), i) <==> f in cols && i == cols[f]
  {
    hide Reads, Absent, ColumnOf, NoColumn, Normalize, Aliases;
    var names := MapSeq(header, Normalize(lib));
    assert MapsColumns(names, Aliases, cols, f);
    PresentOrAbsent(names, Aliases(f));
    ColumnIff(lib, header, Aliases(f), 0);
    forall i: nat ensures ColumnOf(lib, header, Aliases(f), i) <==> f in cols && i == cols[f] {
      ColumnIff(lib, header, Aliases(f), i);
      if f in cols && Reads(names, Aliases(f), i) {
        ReadsOnce(names, Aliases(f), i, cols[f]);
      }
    }
  }

  /** The cell a field reads is that of its column, as the header names it. */
  lemma HoldsIff(lib: Library, header: seq<string>, row: seq<string>, cols: map<Field, nat>, f: Field, v: string)
    requires IsColumnMap(MapSeq(header, Normalize(lib)), Aliases, cols)
    ensures Holds(lib, header, row, Aliases(f), v) <==> v == Cell(lib, cols, row, f)
  {
    hide Means, Clean, ColumnOf, NoColumn, IsColumnMap, Aliases;
    ColumnIs(lib, header, cols, f);
    if f in cols {
      assert ColumnOf(lib, header, Aliases(f), cols[f]);
      if cols[f] < |row| {
        MeansIff(lib, row[cols[f]], v);
      }
    }
  }

  lemma TextAliases()
    ensures Aliases(Username) == ["login", "user", "username", "userid"]
    ensures Aliases(Url) == ["url", "requesturl", "uri"]
    ensures Aliases(Category) == ["urlcategory", "urlsupercategory", "urlclass", "category"]
    ensures Aliases(Action) == ["action", "eventaction", "policyaction"]
    ensures Aliases(UserAgent) == ["useragent", "useragentheader", "ua"]
    ensures Aliases(ThreatName) == ["threatname", "malwarename", "threat", "virusname"]
    ensures Aliases(CacheStatus) == ["cachehit", "tcpstatus", "cachestatus", "cached"]
    ensures Aliases(Reason) == ["reason", "statusreason", "blockreason", "policyreason"]
    ensures Aliases(Method) == ["requestmethod", "method", "httpmethod"]
  {}

  lemma NumberAliases()
    ensures Aliases(ReqBytes) == ["requestsize", "reqsize", "sentbytes", "bytesout"]
    ensures Aliases(RespBytes) == ["responsesize", "respsize", "receivedbytes", "bytesin"]
    ensures Aliases(RespCode) == ["respcode", "statuscode", "status", "httpstatus"]
    ensures Aliases(LatencyMs) == ["totaltime", "requesttime", "responsetime", "duration", "timetaken"]
  {}

  lemma PlaceAliases()
    ensures Aliases(Ts) == ["datetime", "eventtime", "time", "timestamp", "date", "logtime"]
    ensures Aliases(ClientIp) == ["clientip", "clientinternalip", "cip", "clientpublicip", "srcip"]
    ensures Aliases(Host) == ["host", "hostname", "serverhost"]
  {}

  lemma TextIff(lib: Library, header: seq<string>, row: seq<string>, cols: map<Field, nat>, e: Entry)
    requires IsColumnMap(MapSeq(header, Normalize(lib)), Aliases, cols)
    ensures TextHeld(lib, header, row, e) <==>
      (e.username == Cell(lib, cols, row, Username) && e.url == Cell(lib, cols, row, Url) && e.category == Cell(lib, cols, row, Category)
       && e.action == Cell(lib, cols, row, Action) && e.userAgent == Cell(lib, cols, row, UserAgent)
       && e.threatName == Cell(lib, cols, row, ThreatName) && e.cacheStatus == Cell(lib, cols, row, CacheStatus)
       && e.reason == Cell(lib, cols, row, Reason) && e.httpMethod == lib.upper(Cell(lib, cols, row, Method)))
  {
    hide Holds, IsColumnMap, Cell, Aliases;
    TextAliases();
    HoldsIff(lib, header, row, cols, Username, e.username);
    HoldsIff(lib, header, row, cols, Url, e.url);
    HoldsIff(lib, header, row, cols, Category, e.category);
    HoldsIff(lib, header, row, cols, Action, e.action);
    HoldsIff(lib, header, row, cols, UserAgent, e.userAgent);
    HoldsIff(lib, header, row, cols, ThreatName, e.threatName);
    HoldsIff(lib, header, row, cols, CacheStatus, e.cacheStatus);
    HoldsIff(lib, header, row, cols, Reason, e.reason);
    forall v ensures Holds(lib, header, row, ["requestmethod", "method", "httpmethod"], v) <==> v == Cell(lib, cols, row, Method) {
      HoldsIff(lib, header, row, cols, Method, v);
    }
    HoldsIff(lib, header, row, cols, Method, Cell(lib, cols, row, Method));
  }

  lemma NumberHeldIff(lib: Library, header: seq<string>, row: seq<string>, cols: map<Field, nat>, f: Field, n: Option<int>)
    requires IsColumnMap(MapSeq(header, Normalize(lib)), Aliases, cols)
    ensures NumberHeld(lib, header, row, Aliases(f), n) <==> n == ParseInt64(lib, Cell(lib, cols, row, f))
  {
    hide Holds, IsColumnMap, Cell, Aliases, IsNumber, ParseInt64;
    forall v ensures Holds(lib, header, row, Aliases(f), v) <==> v == Cell(lib, cols, row, f) {
      HoldsIff(lib, header, row, cols, f, v);
    }
    NumberIff(lib, Cell(lib, cols, row, f), n);
  }

  lemma NumbersIff(lib: Library, header: seq<string>, row: seq<string>, cols: map<Field, nat>, e: Entry)
    requires IsColumnMap(MapSeq(header, Normalize(lib)), Aliases, cols)
    ensures NumbersHeld(lib, header, row, e) <==>
      (e.reqBytes == ParseInt64(lib, Cell(lib, cols, row, ReqBytes)) && e.respBytes == ParseInt64(lib, Cell(lib, cols, row, RespBytes))
       && e.respCode == ParseInt64(lib, Cell(lib, cols, row, RespCode)) && e.latencyMs == ParseInt64(lib, Cell(lib, cols, row, LatencyMs)))
  {
    hide NumberHeld, IsColumnMap, Cell, ParseInt64, Aliases;
    NumberAliases();
    NumberHeldIff(lib, header, row, cols, ReqBytes, e.reqBytes);
    NumberHeldIff(lib, header, row, cols, RespBytes, e.respBytes);
    NumberHeldIff(lib, header, row, cols, RespCode, e.respCode);
    NumberHeldIff(lib, header, row, cols, LatencyMs, e.latencyMs);
  }

  lemma PlacedIff(lib: Library, header: seq<string>, row: seq<string>, cols: map<Field, nat>, e: Entry)
    requires IsColumnMap(MapSeq(header, Normalize(lib)), Aliases, cols) && e.url == Cell(lib, cols, row, Url)
    ensures TimeHeld(lib, header, row, e.ts) <==>
      e.ts == if Cell(lib, cols, row, Ts) != "" then lib.parseTs(Cell(lib, cols, row, Ts)) else None
    ensures AddressHeld(lib, header, row, e.clientIp) <==>
      e.clientIp == if Cell(lib, cols, row, ClientIp) != "" then lib.parseIp(Cell(lib, cols, row, ClientIp)) else ""
    ensures HostHeld(lib, header, row, e.url, e.host) <==>
      e.host == if Cell(lib, cols, row, Host) == "" then HostFromUrl(e.url) else Cell(lib, cols, row, Host)
  {
    hide Holds, IsColumnMap, Cell, HostOf, HostFromUrl, Aliases;
    PlaceAliases();
    forall v
      ensures Holds(lib, header, row, ["datetime", "eventtime", "time", "timestamp", "date", "logtime"], v) <==> v == Cell(lib, cols, row, Ts)
      ensures Holds(lib, header, row, ["clientip", "clientinternalip", "cip", "clientpublicip", "srcip"], v) <==> v == Cell(lib, cols, row, ClientIp)
      ensures Holds(lib, header, row, ["host", "hostname", "serverhost"], v) <==> v == Cell(lib, cols, row, Host)
    {
      HoldsIff(lib, header, row, cols, Ts, v);
      HoldsIff(lib, header, row, cols, ClientIp, v);
      HoldsIff(lib, header, row, cols, Host, v);
    }
    HoldsIff(lib, header, row, cols, Ts, Cell(lib, cols, row, Ts));
    HoldsIff(lib, header, row, cols, ClientIp, Cell(lib, cols, row, ClientIp));
    HoldsIff(lib, header, row, cols, Host, Cell(lib, cols, row, Host));
    HostIff(e.url, e.host);
  }

  /** The entry built of a row is the one whose fields are those of the record. */
  lemma EntryIff(lib: Library, header: seq<string>, row: seq<string>, cols: map<Field, nat>, delimiter: char, e: Entry)
    requires IsColumnMap(MapSeq(header, Normalize(lib)), Aliases, cols)
    ensures EntryReads(lib, header, row, delimiter, e) <==> e == BuildEntry(lib, e.lineNo, row, cols, delimiter)
  {
    hide TextHeld, NumbersHeld, TimeHeld, AddressHeld, HostHeld, Joined, IsColumnMap, Cell, ParseInt64, HostFromUrl, JoinCells;
    JoinedIff(row, delimiter, e.raw);
    TextIff(lib, header, row, cols, e);
    NumbersIff(lib, header, row, cols, e);
    if e.url == Cell(lib, cols, row, Url) {
      PlacedIff(lib, header, row, cols, e);
    }
  }

  lemma BuiltLine(lib: Library, lineNo: int, r: Record, cols: map<Field, nat>, delimiter: char)
    ensures EntryOf(lib, lineNo, r, cols, delimiter).lineNo == lineNo
  {}

  lemma BuiltReads(lib: Library, records: seq<Record>, cols: map<Field, nat>, delimiter: char, entries: seq<Entry>)
    requires |records| > 0 && records[0].Row? && |entries| == |records| - 1
    requires IsColumnMap(MapSeq(records[0].cells, Normalize(lib)), Aliases, cols)
    requires forall i :: 0 <= i < |entries| ==> entries[i] == EntryOf(lib, i + 2, records[i + 1], cols, delimiter)
    ensures EntriesRead(lib, records, delimiter, entries)
  {
    hide EntryReads, BuildEntry, IsColumnMap;
    forall i | 0 <= i < |entries|
      ensures entries[i].lineNo == i + 2
      ensures records[i + 1].Row? ==> EntryReads(lib, records[0].cells, records[i + 1].cells, delimiter, entries[i])
    {
      var r := records[i + 1];
      BuiltLine(lib, i + 2, r, cols, delimiter);
      if r.Row? {
        EntryIff(lib, records[0].cells, r.cells, cols, delimiter, entries[i]);
      }
    }
  }

  /** A field does not see the cells of other columns. */
  lemma OtherCellsIgnored(lib: Library, header: seq<string>, row: seq<string>, other: seq<string>, names: seq<string>, v: string)
    requires forall i: nat :: ColumnOf(lib, header, names, i) ==> (i < |row| <==> i < |other|) && (i < |row| ==> row[i] == other[i])
    ensures Holds(lib, header, row, names, v) <==> Holds(lib, header, other, names, v)
  {
    hide ColumnOf, NoColumn, Means;
  }

  /** Nothing is read of a cell that is blank, or holds one of the marks for an absent value. */
  lemma BlankIsAbsent(lib: Library, header: seq<string>, row: seq<string>, names: seq<string>, i: nat)
    requires ColumnOf(lib, header, names, i) && i < |row| && lib.trimSpace(row[i]) in ["", "-", "\"-\"", "None", "NA", "N/A"]
    ensures Holds(lib, header, row, names, "") && NumberHeld(lib, header, row, names, None)
  {
    hide ColumnOf, NoColumn;
    var cell := lib.trimSpace(row[i]);
    if cell == "\"-\"" {
      assert cell[1..2] == "-";
      assert TrimmedAt(cell, IsQuote, "-", 1);
      assert Trims(cell, IsQuote, "-");
    } else {
      assert cell[0..|cell|] == cell;
      assert cell == "" || cell == "-" || cell == "None" || cell == "NA" || cell == "N/A";
      assert TrimmedAt(cell, IsQuote, cell, 0);
      assert Trims(cell, IsQuote, cell);
    }
    assert Means(lib, row[i], "");
    assert Holds(lib, header, row, names, "");
  }

  // --- The reading loop ---

  predicate Parsed(e: Entry) {
    e.ts.Some? || e.clientIp != ""
  }

  function IfParsed(e: Entry): Option<Entry> {
    if Parsed(e) then Some(e) else None
  }

  datatype Stats = Stats(lineCount: int, parsedCount: int)

  function Builder(lib: Library, cols: map<Field, nat>, delimiter: char): (int, Record) -> Entry {
    (lineNo, r) => EntryOf(lib, lineNo, r, cols, delimiter)
  }

  /** `entries` are the records after the header, built with the line numbers 2, 3, 4 and so on. */
  ghost predicate Numbered(entries: seq<Entry>, records: seq<Record>, build: (int, Record) -> Entry) {
    && |entries| <= |records| - 1
    && forall i :: 0 <= i < |entries| ==> entries[i] == build(i + 2, records[i + 1])
  }

  /** The reading loop, on whatever `build` makes of a record. */
  method EmitAll(records: seq<Record>, build: (int, Record) -> Entry) returns (entries: seq<Entry>, stats: Stats)
    requires |records| > 0
    ensures |entries| == |records| - 1 && Numbered(entries, records, build)
    ensures stats == Stats(|records|, |Collect(entries, IfParsed)|)
  {
    entries, stats := [], Stats(1, 0);
    for i := 1 to |records|
      invariant |entries| == i - 1 && Numbered(entries, records, build)
      invariant stats == Stats(i, |Collect(entries, IfParsed)|)
    {
      var e := build(i + 1, records[i]);
      CollectSnoc(entries, e, IfParsed);
      stats := Stats(stats.lineCount + 1, stats.parsedCount + (if Parsed(e) then 1 else 0));
      entries := entries + [e];
    }
  }

  /** The positions of the entries with a timestamp or an address. */
  ghost function Stamped(entries: seq<Entry>): set<int> {
    set i | 0 <= i < |entries| && (entries[i].ts.Some? || entries[i].clientIp != "")
  }

  lemma StampedMore(entries: seq<Entry>, n: nat)
    requires |entries| == n + 1
    ensures Stamped(entries) == if Parsed(entries[n]) then Stamped(entries[..n]) + {n} else Stamped(entries[..n])
    ensures n !in Stamped(entries[..n])
  {}

  lemma {:induction false} ParsedStamped(entries: seq<Entry>)
    ensures |Collect(entries, IfParsed)| == |Stamped(entries)|
  {
    if |entries| > 0 {
      hide Stamped, Parsed;
      var n := |entries| - 1;
      ParsedStamped(entries[..n]);
      StampedMore(entries, n);
    }
  }

  /** Entries numbered from line 2, one a record after the header, readable or not. An unreadable header is an error,
      and an empty file has no lines. */
  method Parse(lib: Library, records: seq<Record>, delimiter: char) returns (ok: bool, entries: seq<Entry>, stats: Stats, cols: map<Field, nat>)
    ensures !ok <==> |records| > 0 && records[0].Malformed?
    ensures !ok || |records| == 0 ==> entries == [] && stats == Stats(0, 0)
    ensures ok && |records| > 0 ==>
      && IsColumnMap(MapSeq(records[0].cells, Normalize(lib)), Aliases, cols)
      && EntriesRead(lib, records, delimiter, entries)
      && stats.lineCount == |records| && stats.parsedCount == |Stamped(entries)|
      && |entries| == |records| - 1 && Numbered(entries, records, Builder(lib, cols, delimiter))
  {
    entries, stats, ok, cols := [], Stats(0, 0), true, map[];
    if |records| == 0 {
      return;
    }
    if records[0].Malformed? {
      ok := false;
      return;
    }
    cols := BuildColumnMap(lib, records[0].cells);
    entries, stats := EmitAll(records, Builder(lib, cols, delimiter));
    forall i | 0 <= i < |entries| ensures entries[i] == EntryOf(lib, i + 2, records[i + 1], cols, delimiter) {
      assert entries[i] == Builder(lib, cols, delimiter)(i + 2, records[i + 1]);
    }
    BuiltReads(lib, records, cols, delimiter, entries);
    ParsedStamped(entries);
  }

  lemma LineNumbers(lib: Library, records: seq<Record>, cols: map<Field, nat>, delimiter: char, entries: seq<Entry>)
    requires Numbered(entries, records, Builder(lib, cols, delimiter))
    ensures forall i :: 0 <= i < |entries| ==> entries[i].lineNo == i + 2
  {
    forall i | 0 <= i < |entries| ensures entries[i].lineNo == i + 2 {
      BuiltLine(lib, i + 2, records[i + 1], cols, delimiter);
    }
  }

  // --- The order of columns is irrelevant ---

  /** `perm` lists every index below `n` once. */
  ghost predicate Permutation(perm: seq<nat>, n: nat) {
    && |perm| == n && NoDup(perm)
    && (forall i :: 0 <= i < n ==> perm[i] < n)
    && (forall k: nat :: k < n ==> k in perm)
  }

  ghost predicate Permuted<T>(xs: seq<T>, ys: seq<T>, perm: seq<nat>) {
    && |xs| == |ys| && Permutation(perm, |xs|)
    && forall i :: 0 <= i < |ys| ==> ys[i] == xs[perm[i]]
  }

  lemma PermutedMembers<T>(xs: seq<T>, ys: seq<T>, perm: seq<nat>, x: T)
    requires Permuted(xs, ys, perm)
    ensures x in xs <==> x in ys
  {
    if x in xs {
      var k :| 0 <= k < |xs| && xs[k] == x;
      assert k in perm;
      var i :| 0 <= i < |perm| && perm[i] == k;
      assert ys[i] == x;
    }
  }

  /** With distinct names, a field reads the same cell wherever its column has moved. */
  lemma ColumnFollows(names: seq<string>, names': seq<string>, perm: seq<nat>, aliases: seq<string>, i: nat, i': nat)
    requires Permuted(names, names', perm) && NoDup(names)
    requires Reads(names, aliases, i) && Reads(names', aliases, i')
    ensures perm[i'] == i
  {
    var j :| 0 <= j < |aliases| && names[i] == aliases[j] && forall k :: 0 <= k < j ==> aliases[k] !in names;
    var j' :| 0 <= j' < |aliases| && names'[i'] == aliases[j'] && forall k :: 0 <= k < j' ==> aliases[k] !in names';
    PermutedMembers(names, names', perm, aliases[j]);
    PermutedMembers(names, names', perm, aliases[j']);
    assert names[i] in names && names'[i'] in names';
    assert j == j';
    assert names[perm[i']] == names[i];
  }

  lemma AbsentFollows(names: seq<string>, names': seq<string>, perm: seq<nat>, aliases: seq<string>)
    requires Permuted(names, names', perm)
    ensures Absent(names, aliases) == Absent(names', aliases)
  {
    forall j | 0 <= j < |aliases| ensures aliases[j] in names <==> aliases[j] in names' {
      PermutedMembers(names, names', perm, aliases[j]);
    }
  }

  lemma FieldFollows(lib: Library, aliases: Field -> seq<string>, names: seq<string>, names': seq<string>, row: seq<string>, row': seq<string>,
                     perm: seq<nat>, cols: map<Field, nat>, cols': map<Field, nat>, f: Field)
    requires Permuted(names, names', perm) && NoDup(names) && Permuted(row, row', perm) && |row| == |names|
    requires MapsColumns(names, aliases, cols, f) && MapsColumns(names', aliases, cols', f)
    ensures Cell(lib, cols, row, f) == Cell(lib, cols', row', f)
  {
    AbsentFollows(names, names', perm, aliases(f));
    PresentOrAbsent(names, aliases(f));
    PresentOrAbsent(names', aliases(f));
    if f in cols {
      ColumnFollows(names, names', perm, aliases(f), cols[f], cols'[f]);
    }
  }

  lemma NormalizePermuted(lib: Library, header: seq<string>, header': seq<string>, perm: seq<nat>)
    requires Permuted(header, header', perm)
    ensures Permuted(MapSeq(header, Normalize(lib)), MapSeq(header', Normalize(lib)), perm)
  {}

  lemma EntryFromAgrees(lib: Library, lineNo: int, raw: string, cell: Field -> string, cell': Field -> string)
    requires forall f :: cell(f) == cell'(f)
    ensures EntryFrom(lib, lineNo, raw, cell) == EntryFrom(lib, lineNo, raw, cell')
  {}

  /** Permuting a header with distinct names, and full-width rows with it, changes no entry but for its raw text. */
  lemma ColumnOrderIrrelevant(lib: Library, header: seq<string>, header': seq<string>, row: seq<string>, row': seq<string>, perm: seq<nat>,
                              cols: map<Field, nat>, cols': map<Field, nat>, lineNo: int, delimiter: char)
    requires Permuted(header, header', perm) && Permuted(row, row', perm) && |row| == |header|
    requires NoDup(MapSeq(header, Normalize(lib)))
    requires IsColumnMap(MapSeq(header, Normalize(lib)), Aliases, cols) && IsColumnMap(MapSeq(header', Normalize(lib)), Aliases, cols')
    ensures BuildEntry(lib, lineNo, row', cols', delimiter) == BuildEntry(lib, lineNo, row, cols, delimiter).(raw := JoinCells(row', delimiter))
  {
    NormalizePermuted(lib, header, header', perm);
    forall f ensures CellOf(lib, cols, row)(f) == CellOf(lib, cols', row')(f) {
      FieldFollows(lib, Aliases, MapSeq(header, Normalize(lib)), MapSeq(header', Normalize(lib)), row, row', perm, cols, cols', f);
    }
    EntryFromAgrees(lib, lineNo, JoinCells(row', delimiter), CellOf(lib, cols, row), CellOf(lib, cols', row'));
  }
}
