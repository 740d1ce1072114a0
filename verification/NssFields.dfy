/** What an entry of a Zscaler NSS export is, in terms of the header and the cells of its record: for each field, the names its
    column goes by and what its cell means. Nothing here says how columns are found or values computed. */
module NssFields {
  import opened Common
  import opened Texts

  datatype Record = Row(cells: seq<string>) | Malformed

  datatype Entry = Entry(
    lineNo: int, raw: string, ts: Option<int>, clientIp: string, username: string, host: string, url: string,
    category: string, action: string, reqBytes: Option<int>, respBytes: Option<int>, userAgent: string,
    threatName: string, respCode: Option<int>, httpMethod: string, latencyMs: Option<int>, cacheStatus: string, reason: string)

  /** Library functions on single values. */
  datatype Library = Library(
    lower: string -> string,
    upper: string -> string,
    trimSpace: string -> string,
    parseTs: string -> Option<int>,
    parseIp: string -> string,
    parseFloat: string -> Option<real>)

  // --- Columns ---

  predicate LetterOrDigit(c: char) {
    'a' <= c <= 'z' || '0' <= c <= '9'
  }

  /** The header cell names the column `name`, in whatever case and with whatever punctuation. */
  ghost predicate Titled(lib: Library, cell: string, name: string) {
    Filters(lib.lower(lib.trimSpace(cell)), LetterOrDigit, name)
  }

  ghost predicate FirstTitled(lib: Library, header: seq<string>, name: string, i: nat) {
    i < |header| && Titled(lib, header[i], name) && forall k :: 0 <= k < i ==> !Titled(lib, header[k], name)
  }

  ghost predicate NotTitled(lib: Library, header: seq<string>, name: string) {
    forall k :: 0 <= k < |header| ==> !Titled(lib, header[k], name)
  }

  /** Column `i` is the first named by the earliest of the names that the header has. */
  ghost predicate ColumnOf(lib: Library, header: seq<string>, names: seq<string>, i: nat) {
    exists j :: 0 <= j < |names| && FirstTitled(lib, header, names[j], i) && forall k :: 0 <= k < j ==> NotTitled(lib, header, names[k])
  }

  ghost predicate NoColumn(lib: Library, header: seq<string>, names: seq<string>) {
    forall j :: 0 <= j < |names| ==> NotTitled(lib, header, names[j])
  }

  // --- Cells ---

  predicate IsQuote(c: char) {
    c == '"'
  }

  /** A cell without its quotes, and the ways to write an absent value taken for nothing. */
  ghost predicate Means(lib: Library, cell: string, v: string) {
    exists r :: Trims(lib.trimSpace(cell), IsQuote, r)
      && v == if r == "" || r == "-" || r == "None" || r == "NA" || r == "N/A" then "" else r
  }

  /** The row's value for the field that goes by `names`: nothing without a column or in a row too short to reach it. */
  ghost predicate Holds(lib: Library, header: seq<string>, row: seq<string>, names: seq<string>, v: string) {
    || (NoColumn(lib, header, names) && v == "")
    || exists i: nat :: ColumnOf(lib, header, names, i) && if i < |row| then Means(lib, row[i], v) else v == ""
  }

  /** A number is cut to an integer, and a negative one counts as zero. */
  ghost predicate IsNumber(lib: Library, v: string, n: Option<int>) {
    if v == "" || lib.parseFloat(v) == None then n == None
    else
      var x := lib.parseFloat(v).value;
      n.Some? && if x < 0.0 then n.value == 0 else n.value as real <= x < n.value as real + 1.0
  }

  predicate SchemeAt(url: string, i: int) {
    0 <= i && i + 3 <= |url| && url[i] == ':' && url[i + 1] == '/' && url[i + 2] == '/'
  }

  ghost predicate FirstScheme(url: string, rest: string, i: nat) {
    SchemeAt(url, i) && (forall k :: 0 <= k < i ==> !SchemeAt(url, k)) && rest == url[i + 3..]
  }

  /** `rest` is what follows the first "://", or everything when there is none. */
  ghost predicate PastScheme(url: string, rest: string) {
    || (rest == url && forall i :: !SchemeAt(url, i))
    || exists i: nat :: FirstScheme(url, rest, i)
  }

  /** `host` is what comes before the path and the port. */
  ghost predicate HostOf(url: string, host: string) {
    exists rest :: PastScheme(url, rest) && host <= rest && '/' !in host && ':' !in host
      && (host == rest || rest[|host|] == '/' || rest[|host|] == ':')
  }

  /** The cells with the delimiter between any two. */
  ghost predicate Joined(row: seq<string>, delimiter: char, raw: string) {
    if |row| == 0 then raw == ""
    else if |row| == 1 then raw == row[0]
    else
      var last := row[|row| - 1];
      var rest := |raw| - |last| - 1;
      rest >= 0 && raw[rest] == delimiter && raw[rest + 1..] == last && Joined(row[..|row| - 1], delimiter, raw[..rest])
  }

  // --- Entries ---

  ghost predicate TextHeld(lib: Library, header: seq<string>, row: seq<string>, e: Entry) {
    && Holds(lib, header, row, ["login", "user", "username", "userid"], e.username)
    && Holds(lib, header, row, ["url", "requesturl", "uri"], e.url)
    && Holds(lib, header, row, ["urlcategory", "urlsupercategory", "urlclass", "category"], e.category)
    && Holds(lib, header, row, ["action", "eventaction", "policyaction"], e.action)
    && Holds(lib, header, row, ["useragent", "useragentheader", "ua"], e.userAgent)
    && Holds(lib, header, row, ["threatname", "malwarename", "threat", "virusname"], e.threatName)
    && Holds(lib, header, row, ["cachehit", "tcpstatus", "cachestatus", "cached"], e.cacheStatus)
    && Holds(lib, header, row, ["reason", "statusreason", "blockreason", "policyreason"], e.reason)
    && exists v :: Holds(lib, header, row, ["requestmethod", "method", "httpmethod"], v) && e.httpMethod == lib.upper(v)
  }

  ghost predicate TimeHeld(lib: Library, header: seq<string>, row: seq<string>, ts: Option<int>) {
    exists v :: Holds(lib, header, row, ["datetime", "eventtime", "time", "timestamp", "date", "logtime"], v)
      && ts == if v == "" then None else lib.parseTs(v)
  }

  ghost predicate AddressHeld(lib: Library, header: seq<string>, row: seq<string>, ip: string) {
    exists v :: Holds(lib, header, row, ["clientip", "clientinternalip", "cip", "clientpublicip", "srcip"], v)
      && ip == if v == "" then "" else lib.parseIp(v)
  }

  /** A missing host is taken from the url. */
  ghost predicate HostHeld(lib: Library, header: seq<string>, row: seq<string>, url: string, host: string) {
    exists v :: Holds(lib, header, row, ["host", "hostname", "serverhost"], v) && if v != "" then host == v else HostOf(url, host)
  }

  ghost predicate NumberHeld(lib: Library, header: seq<string>, row: seq<string>, names: seq<string>, n: Option<int>) {
    exists v :: Holds(lib, header, row, names, v) && IsNumber(lib, v, n)
  }

  ghost predicate NumbersHeld(lib: Library, header: seq<string>, row: seq<string>, e: Entry) {
    && NumberHeld(lib, header, row, ["requestsize", "reqsize", "sentbytes", "bytesout"], e.reqBytes)
    && NumberHeld(lib, header, row, ["responsesize", "respsize", "receivedbytes", "bytesin"], e.respBytes)
    && NumberHeld(lib, header, row, ["respcode", "statuscode", "status", "httpstatus"], e.respCode)
    && NumberHeld(lib, header, row, ["totaltime", "requesttime", "responsetime", "duration", "timetaken"], e.latencyMs)
  }

  /** The entry of a row, every field read from the column that is its own. */
  ghost predicate EntryReads(lib: Library, header: seq<string>, row: seq<string>, delimiter: char, e: Entry) {
    && Joined(row, delimiter, e.raw) && TextHeld(lib, header, row, e) && NumbersHeld(lib, header, row, e)
    && TimeHeld(lib, header, row, e.ts) && AddressHeld(lib, header, row, e.clientIp) && HostHeld(lib, header, row, e.url, e.host)
  }

  /** One entry a record after the header, numbered from line 2; a record that cannot be read has nothing but its number. */
  ghost predicate EntriesRead(lib: Library, records: seq<Record>, delimiter: char, entries: seq<Entry>) {
    && |records| > 0 && records[0].Row? && |entries| == |records| - 1
    && forall i :: 0 <= i < |entries| ==>
      && entries[i].lineNo == i + 2
      && match records[i + 1]
         case Row(cells) => EntryReads(lib, records[0].cells, cells, delimiter, entries[i])
         case Malformed => entries[i] == Entry(i + 2, "", None, "", "", "", "", "", "", None, None, "", "", None, "", None, "", "")
  }
}
