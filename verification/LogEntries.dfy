/** The row shape detection works on, and the keys it groups rows by. */
module LogEntries {
  import opened Common

  /** A timestamp is a count of microseconds since the epoch, in UTC. */
  datatype LogEntry = LogEntry(
    id: int,
    lineNo: int,
    ts: Option<int>,
    clientIp: Option<string>,
    username: Option<string>,
    host: Option<string>,
    url: Option<string>,
    action: Option<string>,
    reqBytes: Option<int>,
    threatName: Option<string>)

  /** Library arithmetic on reals; its laws are hypotheses wherever a result needs them. */
  datatype Maths = Maths(
    log10: real -> real,
    sqrt: real -> real,
    antilog: real -> int)   // int(10 ** x)

  const SECOND := 1_000_000

  /** Python truth of an optional string: absent and empty are both false. */
  predicate Truthy(s: Option<string>) {
    s.Some? && s.value != ""
  }

  function OrUnknown(s: Option<string>): string {
    if Truthy(s) then s.value else "unknown"
  }

  function Actor(e: LogEntry): string {
    if Truthy(e.username) then e.username.value else OrUnknown(e.clientIp)
  }

  /** The start of the minute `ts` falls in, in whole seconds. */
  function MinuteEpoch(ts: int): int {
    ts / (60 * SECOND) * 60
  }

  function HourOfDay(ts: int): int {
    ts / (3600 * SECOND) % 24
  }

  predicate IsUpload(e: LogEntry) {
    e.reqBytes.Some? && e.reqBytes.value > 0
  }

  // --- Group keys: None when the entry takes no part in the group ---

  function MinuteKey(e: LogEntry): Option<(string, int)> {
    if Truthy(e.clientIp) && e.ts.Some? then Some((e.clientIp.value, MinuteEpoch(e.ts.value))) else None
  }

  function UploadKey(e: LogEntry): Option<(string, string)> {
    if IsUpload(e) then Some((OrUnknown(e.username), OrUnknown(e.host))) else None
  }

  function AnyUpload(e: LogEntry): Option<()> {
    if IsUpload(e) then Some(()) else None
  }

  function FlowKey(e: LogEntry): Option<(string, string)> {
    if Truthy(e.clientIp) && Truthy(e.host) && e.ts.Some? then Some((e.clientIp.value, e.host.value)) else None
  }

  function ThreatKey(e: LogEntry): Option<(string, string)> {
    if Truthy(e.threatName) then Some((e.threatName.value, OrUnknown(e.host))) else None
  }

  function TruthyPart(s: Option<string>): Option<string> {
    if Truthy(s) then s else None
  }

  function HostKey(e: LogEntry): Option<string> {
    TruthyPart(e.host)
  }

  function HourKey(e: LogEntry): Option<int> {
    if e.ts.Some? then Some(HourOfDay(e.ts.value)) else None
  }

  function HourActorKey(e: LogEntry): Option<(int, string)> {
    if e.ts.Some? then Some((HourOfDay(e.ts.value), Actor(e))) else None
  }

  // --- What an entry contributes to a group it belongs to ---

  function IdOf(e: LogEntry): Option<int> {
    Some(e.id)
  }

  function BytesOf(e: LogEntry): Option<int> {
    e.reqBytes
  }

  function LogBytes(m: Maths, e: LogEntry): Option<real> {
    if e.reqBytes.Some? then Some(m.log10(e.reqBytes.value as real)) else None
  }

  function LogBytesOf(m: Maths): LogEntry -> Option<real> {
    e => LogBytes(m, e)
  }

  function Seconds(ts: int): real {
    ts as real / SECOND as real
  }

  function HitOf(e: LogEntry): Option<(real, int)> {
    if e.ts.Some? then Some((Seconds(e.ts.value), e.id)) else None
  }

  function UserOf(e: LogEntry): Option<string> {
    TruthyPart(e.username)
  }

  function ActionOf(e: LogEntry): Option<string> {
    TruthyPart(e.action)
  }

  function UrlOf(e: LogEntry): Option<string> {
    TruthyPart(e.url)
  }

  function HostOf(e: LogEntry): Option<string> {
    TruthyPart(e.host)
  }

  /** What `e` contributes to group `k` under the grouping `key`. */
  function At<K(==), T>(key: LogEntry -> Option<K>, k: K, val: LogEntry -> Option<T>): LogEntry -> Option<T> {
    e => if key(e) == Some(k) then val(e) else None
  }

  /** The contributions of `es` to group `k`, in entry order. */
  function Pick<K(==), T>(es: seq<LogEntry>, key: LogEntry -> Option<K>, k: K, val: LogEntry -> Option<T>): seq<T> {
    Collect(es, At(key, k, val))
  }

  lemma PickSnoc<K, T>(es: seq<LogEntry>, e: LogEntry, key: LogEntry -> Option<K>, k: K, val: LogEntry -> Option<T>)
    ensures Pick(es + [e], key, k, val) == Pick(es, key, k, val) + (if key(e) == Some(k) then OptionSeq(val(e)) else [])
    ensures key(e) != Some(k) ==> Pick(es + [e], key, k, val) == Pick(es, key, k, val)
  {
    CollectSnoc(es, e, At(key, k, val));
  }

  lemma PickAppend<K, T>(xs: seq<LogEntry>, ys: seq<LogEntry>, key: LogEntry -> Option<K>, k: K, val: LogEntry -> Option<T>)
    ensures Pick(xs + ys, key, k, val) == Pick(xs, key, k, val) + Pick(ys, key, k, val)
  {
    CollectAppend(xs, ys, At(key, k, val));
  }

  lemma PickPermutes<K, T>(xs: seq<LogEntry>, ys: seq<LogEntry>, key: LogEntry -> Option<K>, k: K, val: LogEntry -> Option<T>)
    requires multiset(xs) == multiset(ys)
    ensures multiset(Pick(xs, key, k, val)) == multiset(Pick(ys, key, k, val))
  {
    CollectPermutes(xs, ys, At(key, k, val));
  }

  /** A group holds no more contributions of any kind than it has entries. */
  lemma {:induction false} PickBound<K, T>(es: seq<LogEntry>, key: LogEntry -> Option<K>, k: K, val: LogEntry -> Option<T>)
    ensures |Pick(es, key, k, val)| <= |Pick(es, key, k, IdOf)|
  {
    if |es| > 0 {
      var n := |es| - 1;
      PickBound(es[..n], key, k, val);
      assert es == es[..n] + [es[n]];
      PickSnoc(es[..n], es[n], key, k, val);
      PickSnoc(es[..n], es[n], key, k, IdOf);
    }
  }
}
