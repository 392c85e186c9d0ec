/** Messages and frames (internal/wire/frame.go, internal/wire/wire.go): the tables of
    fields of the nineteen messages, the body codec over them and the frame around a
    body. */
module Frame {
  import opened Bytes
  import opened Fields

  const MAX_STR: nat := 65535
  const MAX_PATH: nat := 4096
  const MAX_DIGEST: nat := 64
  const MAX_CHUNK_DATA: nat := 0x10_0000
  const MAX_BLOB: nat := 4096
  const HEADER_LEN: nat := 5
  const MAX_PLAINTEXT: nat := 0x10_0000 + 4096

  datatype ManifestEntry = ManifestEntry(
    kind: nat, flags: nat, path: seq<byte>, size: nat, mode: nat, mtimeSec: int, mtimeNsec: nat,
    digest: seq<byte>, linkTarget: seq<byte>, hardlinkKey: nat)

  datatype Rejected = Rejected(index: nat, code: nat)

  datatype Summary = Summary(
    total: nat, transferred: nat, skipped: nat, failed: nat, bytes: nat, groups: nat, digest: seq<byte>)

  datatype Message =
    | SessionParams(rootName: seq<byte>, sourceKind: nat, hashAlg: nat, groupBytes: nat, flags: nat, platform: nat,
                    pathNorm: nat, version: seq<byte>, maxChannels: nat, filter: seq<byte>, sysexclude: seq<byte>)
    | SessionReady(channels: nat, credit: nat, depth: nat, maxChunk: nat, platform: nat, version: seq<byte>, free: nat)
    | ScanProgress(entries: nat, bytes: nat, errors: nat)
    | ScanComplete(files: nat, bytes: nat, groups: nat, skipped: nat, digest: seq<byte>)
    | GroupManifest(group: nat, first: nat, list: seq<ManifestEntry>)
    | GroupDecision(group: nat, needed: seq<nat>, skipped: nat, rejected: seq<Rejected>)
    | Credit(groups: nat)
    | FileRequest(req: nat, file: nat, offset: nat, maxChunk: nat)
    | FileHeader(req: nat, file: nat, size: nat, mode: nat, mtimeSec: int, mtimeNsec: nat, digest: seq<byte>, chunk: nat)
    | FileChunk(req: nat, offset: nat, data: seq<byte>)
    | FileComplete(req: nat, sent: nat, digest: seq<byte>)
    | FileError(req: nat, code: nat, retryable: nat, text: seq<byte>)
    | FileCancel(req: nat, reason: nat)
    | SessionSummary(summary: Summary)
    | SessionSummaryAck(summary: Summary)
    | Error(code: nat, fatal: nat, text: seq<byte>, detail: seq<byte>)
    | Ping(token: nat)
    | Pong(token: nat)
    | SessionResume(session: nat, nonce: seq<byte>, tag: seq<byte>, lastSeq: nat)

  function Type(m: Message): (t: nat)
    ensures Known(t)
  {
    match m
    case SessionParams(_, _, _, _, _, _, _, _, _, _, _) => 0x01
    case SessionReady(_, _, _, _, _, _, _) => 0x02
    case ScanProgress(_, _, _) => 0x10
    case ScanComplete(_, _, _, _, _) => 0x11
    case GroupManifest(_, _, _) => 0x12
    case GroupDecision(_, _, _, _) => 0x20
    case Credit(_) => 0x21
    case FileRequest(_, _, _, _) => 0x30
    case FileHeader(_, _, _, _, _, _, _, _) => 0x31
    case FileChunk(_, _, _) => 0x32
    case FileComplete(_, _, _) => 0x33
    case FileError(_, _, _, _) => 0x34
    case FileCancel(_, _) => 0x35
    case SessionSummary(_) => 0x40
    case SessionSummaryAck(_) => 0x41
    case Error(_, _, _, _) => 0x50
    case Ping(_) => 0x60
    case Pong(_) => 0x61
    case SessionResume(_, _, _, _) => 0x70
  }

  predicate Known(t: nat) {
    t in {0x01, 0x02, 0x10, 0x11, 0x12, 0x20, 0x21, 0x30, 0x31, 0x32, 0x33, 0x34, 0x35, 0x40, 0x41, 0x50, 0x60, 0x61, 0x70}
  }

  /** The fields of each message in wire order; for the three messages with lists or
      an optional field, those that come before them. */
  function Table(t: nat): seq<Field> {
    var str := B(2, MAX_STR);
    match t
    case 0x01 => [str, U(1), U(1), U(8), U(4), U(1), U(1), str, U(4), str, str]
    case 0x02 => [U(2), U(2), U(1), U(4), U(1), str, U(8)]
    case 0x10 => [U(8), U(8), U(4)]
    case 0x11 => [U(8), U(8), U(4), U(4), B(2, MAX_DIGEST)]
    case 0x12 => [U(4), U(8)]
    case 0x20 => [U(4)]
    case 0x21 => [U(2)]
    case 0x30 => [U(8), U(8), U(8), U(4)]
    case 0x31 => [U(8), U(8), U(8), U(4), I64, U(4), B(1, MAX_DIGEST), U(4)]
    case 0x32 => [U(8), U(8), B(4, MAX_CHUNK_DATA)]
    case 0x33 => [U(8), U(8), B(1, MAX_DIGEST)]
    case 0x34 => [U(8), U(2), U(1), str]
    case 0x35 => [U(8), U(2)]
    case 0x40 => SUMMARY_FIELDS
    case 0x41 => SUMMARY_FIELDS
    case 0x50 => [U(2), U(1), str]
    case 0x60 => [U(8)]
    case 0x61 => [U(8)]
    case 0x70 => [U(8), B(2, MAX_BLOB), B(2, MAX_BLOB), U(8)]
    case _ => []
  }

  const SUMMARY_FIELDS: seq<Field> := [U(8), U(8), U(8), U(8), U(8), U(4), B(2, MAX_DIGEST)]

  function Values(m: Message): (vs: seq<Value>) {
    match m
    case SessionParams(a, b, c, d, e, f, g, h, i, j, k) =>
      [Data(a), Num(b), Num(c), Num(d), Num(e), Num(f), Num(g), Data(h), Num(i), Data(j), Data(k)]
    case SessionReady(a, b, c, d, e, f, g) => [Num(a), Num(b), Num(c), Num(d), Num(e), Data(f), Num(g)]
    case ScanProgress(a, b, c) => [Num(a), Num(b), Num(c)]
    case ScanComplete(a, b, c, d, e) => [Num(a), Num(b), Num(c), Num(d), Data(e)]
    case GroupManifest(a, b, _) => [Num(a), Num(b)]
    case GroupDecision(a, _, _, _) => [Num(a)]
    case Credit(a) => [Num(a)]
    case FileRequest(a, b, c, d) => [Num(a), Num(b), Num(c), Num(d)]
    case FileHeader(a, b, c, d, e, f, g, h) => [Num(a), Num(b), Num(c), Num(d), Int(e), Num(f), Data(g), Num(h)]
    case FileChunk(a, b, c) => [Num(a), Num(b), Data(c)]
    case FileComplete(a, b, c) => [Num(a), Num(b), Data(c)]
    case FileError(a, b, c, d) => [Num(a), Num(b), Num(c), Data(d)]
    case FileCancel(a, b) => [Num(a), Num(b)]
    case SessionSummary(s) => SummaryValues(s)
    case SessionSummaryAck(s) => SummaryValues(s)
    case Error(a, b, c, _) => [Num(a), Num(b), Data(c)]
    case Ping(a) => [Num(a)]
    case Pong(a) => [Num(a)]
    case SessionResume(a, b, c, d) => [Num(a), Data(b), Data(c), Num(d)]
  }

  function SummaryValues(s: Summary): seq<Value> {
    [Num(s.total), Num(s.transferred), Num(s.skipped), Num(s.failed), Num(s.bytes), Num(s.groups), Data(s.digest)]
  }

  /** The message of a flat table's values. */
  function Make(t: nat, vs: seq<Value>): Message
    requires Known(t) && t != 0x12 && t != 0x20 && t != 0x50 && AllShaped(Table(t), vs)
  {
    match t
    case 0x01 => SessionParams(vs[0].b, vs[1].n, vs[2].n, vs[3].n, vs[4].n, vs[5].n, vs[6].n, vs[7].b, vs[8].n,
                               vs[9].b, vs[10].b)
    case 0x02 => SessionReady(vs[0].n, vs[1].n, vs[2].n, vs[3].n, vs[4].n, vs[5].b, vs[6].n)
    case 0x10 => ScanProgress(vs[0].n, vs[1].n, vs[2].n)
    case 0x11 => ScanComplete(vs[0].n, vs[1].n, vs[2].n, vs[3].n, vs[4].b)
    case 0x21 => Credit(vs[0].n)
    case 0x30 => FileRequest(vs[0].n, vs[1].n, vs[2].n, vs[3].n)
    case 0x31 => FileHeader(vs[0].n, vs[1].n, vs[2].n, vs[3].n, vs[4].i, vs[5].n, vs[6].b, vs[7].n)
    case 0x32 => FileChunk(vs[0].n, vs[1].n, vs[2].b)
    case 0x33 => FileComplete(vs[0].n, vs[1].n, vs[2].b)
    case 0x34 => FileError(vs[0].n, vs[1].n, vs[2].n, vs[3].b)
    case 0x35 => FileCancel(vs[0].n, vs[1].n)
    case 0x40 => SessionSummary(MakeSummary(vs))
    case 0x41 => SessionSummaryAck(MakeSummary(vs))
    case 0x60 => Ping(vs[0].n)
    case 0x61 => Pong(vs[0].n)
    case _ => SessionResume(vs[0].n, vs[1].b, vs[2].b, vs[3].n)
  }

  function MakeSummary(vs: seq<Value>): Summary
    requires AllShaped(SUMMARY_FIELDS, vs)
  {
    Summary(vs[0].n, vs[1].n, vs[2].n, vs[3].n, vs[4].n, vs[5].n, vs[6].b)
  }

  predicate Flat(m: Message) { !m.GroupManifest? && !m.GroupDecision? && !m.Error? }

  lemma ValuesShaped(m: Message)
    ensures AllShaped(Table(Type(m)), Values(m))
  {
  }

  lemma MakeValues(m: Message)
    requires Flat(m) && AllShaped(Table(Type(m)), Values(m))
    ensures Make(Type(m), Values(m)) == m
  {
  }

  lemma ValuesMake(t: nat, vs: seq<Value>)
    requires Known(t) && t != 0x12 && t != 0x20 && t != 0x50 && AllShaped(Table(t), vs)
    ensures Type(Make(t, vs)) == t && Values(Make(t, vs)) == vs && Flat(Make(t, vs))
  {
  }
}
