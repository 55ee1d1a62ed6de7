/** The append-only command journal: scanning, appending and deterministic
    replay. A journal file is a byte string; its tail may be torn. */
module Journal {
  import opened Types
  import opened Risk
  import opened Crc32
  import opened Codec
  import opened EngineLaws
  import Engine
  import opened MatchingEngines
  import Words

  /** The ordinal of the record at position `i`; ordinals count from 1 in 64 bits. */
  function Ordinal(i: nat): u64 { (i + 1) % WORD }

  lemma {:induction false} OrdinalNext(i: nat)
    ensures Ordinal(0) == 1 && Ordinal(i + 1) == (Ordinal(i) + 1) % WORD
  {
    Words.WrapAdd(i + 1, 1);
  }

  function Record(file: seq<byte>, i: nat): (r: seq<byte>)
    requires RECORD_SIZE * (i + 1) <= |file|
    ensures |r| == RECORD_SIZE
  {
    file[RECORD_SIZE * i..RECORD_SIZE * (i + 1)]
  }

  predicate RecordOk(file: seq<byte>, i: nat) {
    RECORD_SIZE * (i + 1) <= |file| && ValidateRecord(Record(file, i), Ordinal(i)) == NoError
  }

  ghost predicate ValidPrefix(file: seq<byte>, n: nat) {
    RECORD_SIZE * n <= |file| && forall i :: 0 <= i < n ==> RecordOk(file, i)
  }

  /** `n` records are valid and no more. */
  ghost predicate LongestPrefix(file: seq<byte>, n: nat) {
    ValidPrefix(file, n) && !RecordOk(file, n)
  }

  /** The file is `n` valid records and nothing else. */
  ghost predicate WholeFile(file: seq<byte>, n: nat) {
    |file| == RECORD_SIZE * n && ValidPrefix(file, n)
  }

  function Commands(file: seq<byte>, n: nat): (c: seq<Command>)
    requires RECORD_SIZE * n <= |file|
    ensures |c| == n
    ensures forall i :: 0 <= i < n ==> c[i] == Decode(Record(file, i))
  {
    seq(n, i requires 0 <= i < n => Decode(Record(file, i)))
  }

  lemma {:induction false} LongestPrefixUnique(file: seq<byte>, m: nat, n: nat)
    requires LongestPrefix(file, m) && LongestPrefix(file, n)
    ensures m == n
  {
    hide RecordOk;
  }

  lemma {:induction false} WholeIsLongest(file: seq<byte>, n: nat)
    requires WholeFile(file, n)
    ensures LongestPrefix(file, n)
  {
  }

  // ---------------------------------------------------------------------
  // Scan

  datatype ScanResult = ScanResult(ok: bool, records: nat, errorOffset: nat, error: JournalError)

  /** What a reader finds after the first `n` records: nothing, a torn record, or
      a record that fails validation. */
  function Diagnosis(file: seq<byte>, n: nat): JournalError
    requires RECORD_SIZE * n <= |file|
  {
    var left := |file| - RECORD_SIZE * n;
    if left == 0 then NoError
    else if left < RECORD_SIZE then Truncated
    else ValidateRecord(Record(file, n), Ordinal(n))
  }

  /** Reads the next record and validates it. At the end of the file there is none. */
  method ReadNext(file: seq<byte>, records: nat, expected: u64) returns (error: JournalError)
    requires RECORD_SIZE * records <= |file| && expected == Ordinal(records)
    ensures error == Diagnosis(file, records)
  {
    hide ValidateRecord, Record;
    var left := |file| - RECORD_SIZE * records;
    if left == 0 {
      error := NoError;
    } else if left < RECORD_SIZE {
      error := Truncated;
    } else {
      error := CheckRecord(Record(file, records), expected);
    }
  }

  method Scan(file: seq<byte>) returns (result: ScanResult)
    ensures LongestPrefix(file, result.records)
    ensures result.ok <==> WholeFile(file, result.records)
    ensures result.error == Diagnosis(file, result.records)
    ensures result.errorOffset == if result.ok then 0 else RECORD_SIZE * result.records
  {
    hide RecordOk, Diagnosis, WholeFile, LongestPrefix, Ordinal;
    OrdinalNext(0);
    var records := 0;
    var expected: u64 := 1;
    while true
      invariant ValidPrefix(file, records) && expected == Ordinal(records)
      decreases |file| - RECORD_SIZE * records
    {
      var error := ReadNext(file, records, expected);
      PrefixEnds(file, records);
      if RECORD_SIZE * records == |file| {
        return ScanResult(true, records, 0, error);
      }
      if error != NoError {
        return ScanResult(false, records, records * RECORD_SIZE, error);
      }
      OneMoreRecord(file, records);
      OrdinalNext(records);
      records := records + 1;
      expected := (expected + 1) % WORD;
    }
  }

  // ---------------------------------------------------------------------
  // Replay

  datatype ReplayResult = ReplayResult(ok: bool, records: nat, newOrders: nat, cancels: nat, accepted: nat,
                                       rejected: nat, trades: nat, lastOrdinal: u64, errorOffset: nat,
                                       error: JournalError)

  lemma {:induction false} CommandsSnoc(file: seq<byte>, n: nat)
    requires RECORD_SIZE * (n + 1) <= |file|
    ensures Commands(file, n + 1) == Commands(file, n) + [Decode(Record(file, n))]
  {
    hide Decode, Record;
  }

  lemma {:induction false} RunSnoc(risk: RiskConfig, e: Engine.Engine, a: seq<Command>, c: Command)
    ensures Engine.Run(risk, e, a + [c]) == Engine.Apply(risk, Engine.Run(risk, e, a), c).engine
    ensures |Engine.Tape(risk, e, a + [c])|
         == |Engine.Tape(risk, e, a)| + |Engine.Apply(risk, Engine.Run(risk, e, a), c).trades|
  {
    hide Engine.Apply;
    assert (a + [c])[..|a|] == a;
    TapeSnoc(risk, e, a, c);
  }

  lemma {:induction false} NothingReplayed(risk: RiskConfig, e: Engine.Engine, file: seq<byte>, r: ReplayResult)
    requires r == ReplayResult(false, 0, 0, 0, 0, 0, 0, 0, 0, NoError)
    ensures Replayed(risk, e, e, file, r)
  {
  }

  lemma {:induction false} OneMoreRecord(file: seq<byte>, n: nat)
    requires ValidPrefix(file, n) && RECORD_SIZE * n < |file| && Diagnosis(file, n) == NoError
    ensures RECORD_SIZE * (n + 1) <= |file| && ValidPrefix(file, n + 1)
  {
    hide ValidateRecord, Record;
  }

  lemma {:induction false} PrefixEnds(file: seq<byte>, n: nat)
    requires ValidPrefix(file, n)
    ensures Diagnosis(file, n) != NoError || RECORD_SIZE * n == |file| <==> LongestPrefix(file, n)
    ensures WholeFile(file, n) <==> |file| == RECORD_SIZE * n
  {
    hide ValidateRecord, Record;
  }

  /** Applies one decoded command to the live engine. */
  method ApplyCommand(engine: MatchingEngine, c: Command) returns (report: Report, trades: seq<Trade>)
    requires engine.Valid()
    modifies engine, engine.book
    ensures engine.Valid()
    ensures var out := Engine.Apply(engine.risk, old(engine.View()), c);
            engine.View() == out.engine && report == out.report && trades == out.trades
  {
    trades := [];
    match c
    case NewOrder(o) =>
      report, trades := engine.ProcessOrder(o, []);
      assert [] + Engine.ProcessOrder(engine.risk, old(engine.View()), o).trades
          == Engine.ProcessOrder(engine.risk, old(engine.View()), o).trades;
    case Cancel(id) =>
      report := engine.Cancel(id);
  }

  function NewOrders(commands: seq<Command>): nat {
    if commands == [] then 0
    else var n := |commands| - 1; NewOrders(commands[..n]) + (if commands[n].NewOrder? then 1 else 0)
  }

  function Acceptances(reports: seq<Report>): nat {
    if reports == [] then 0
    else var n := |reports| - 1; Acceptances(reports[..n]) + (if reports[n].Accepted() then 1 else 0)
  }

  /** The counts are numbers of positions. */
  lemma {:induction false} CountsArePlaces(commands: seq<Command>, reports: seq<Report>)
    ensures NewOrders(commands) == |set i: nat | i < |commands| && commands[i].NewOrder?|
    ensures Acceptances(reports) == |set i: nat | i < |reports| && reports[i].status != Rejected|
  {
    NewOrderPlaces(commands);
    AcceptancePlaces(reports);
  }

  lemma {:induction false} NewOrderPlaces(commands: seq<Command>)
    ensures NewOrders(commands) == |set i: nat | i < |commands| && commands[i].NewOrder?|
  {
    var places := set i: nat | i < |commands| && commands[i].NewOrder?;
    if commands == [] {
      assert places == {};
    } else {
      var n := |commands| - 1;
      NewOrderPlaces(commands[..n]);
      var before := set i: nat | i < n && commands[..n][i].NewOrder?;
      assert places == before + (if commands[n].NewOrder? then {n} else {});
    }
  }

  lemma {:induction false} AcceptancePlaces(reports: seq<Report>)
    ensures Acceptances(reports) == |set i: nat | i < |reports| && reports[i].status != Rejected|
  {
    var places := set i: nat | i < |reports| && reports[i].status != Rejected;
    if reports == [] {
      assert places == {};
    } else {
      var n := |reports| - 1;
      AcceptancePlaces(reports[..n]);
      var before := set i: nat | i < n && reports[..n][i].status != Rejected;
      assert places == before + (if reports[n].status != Rejected then {n} else {});
    }
  }

  lemma {:induction false} CountsSnoc(risk: RiskConfig, e: Engine.Engine, a: seq<Command>, c: Command)
    ensures NewOrders(a + [c]) == NewOrders(a) + (if c.NewOrder? then 1 else 0)
    ensures Acceptances(Engine.Reports(risk, e, a + [c]))
         == Acceptances(Engine.Reports(risk, e, a))
            + (if Engine.Apply(risk, Engine.Run(risk, e, a), c).report.Accepted() then 1 else 0)
  {
    hide Engine.Apply, Engine.Run;
    assert (a + [c])[..|a|] == a;
    var before, report := Engine.Reports(risk, e, a), Engine.Apply(risk, Engine.Run(risk, e, a), c).report;
    assert (before + [report])[..|before|] == before;
  }

  /** The counters describe the first `r.records` records, replayed from `start`
      to `now`. */
  ghost predicate Replayed(risk: RiskConfig, start: Engine.Engine, now: Engine.Engine, file: seq<byte>,
                           r: ReplayResult) {
    && ValidPrefix(file, r.records)
    && now == Engine.Run(risk, start, Commands(file, r.records))
    && r.trades == |Engine.Tape(risk, start, Commands(file, r.records))|
    && r.newOrders == NewOrders(Commands(file, r.records))
    && r.accepted == Acceptances(Engine.Reports(risk, start, Commands(file, r.records)))
    && r.records == r.newOrders + r.cancels == r.accepted + r.rejected
    && r.lastOrdinal == if r.records == 0 then 0 else Ordinal(r.records - 1)
  }

  /** One more record counted. */
  function Tally(r: ReplayResult, c: Command, report: Report, trades: seq<Trade>, ordinal: u64): ReplayResult {
    r.(records := r.records + 1, lastOrdinal := ordinal, trades := r.trades + |trades|,
       newOrders := r.newOrders + (if c.NewOrder? then 1 else 0), cancels := r.cancels + (if c.NewOrder? then 0 else 1),
       accepted := r.accepted + (if report.Accepted() then 1 else 0),
       rejected := r.rejected + (if report.Accepted() then 0 else 1))
  }

  lemma {:induction false} TallyKeeps(risk: RiskConfig, start: Engine.Engine, now: Engine.Engine, file: seq<byte>,
                                      r: ReplayResult)
    requires Replayed(risk, start, now, file, r)
    requires RECORD_SIZE * r.records < |file| && Diagnosis(file, r.records) == NoError
    ensures RECORD_SIZE * (r.records + 1) <= |file|
    ensures var c := Decode(Record(file, r.records));
            var out := Engine.Apply(risk, now, c);
            Replayed(risk, start, out.engine, file, Tally(r, c, out.report, out.trades, Ordinal(r.records)))
  {
    hide Diagnosis, Decode, Record, Engine.Apply, Engine.Run, Engine.Tape, Engine.Reports, ValidPrefix, Commands;
    hide NewOrders, Acceptances;
    OneMoreRecord(file, r.records);
    CountsSnoc(risk, start, Commands(file, r.records), Decode(Record(file, r.records)));
    CommandsSnoc(file, r.records);
    RunSnoc(risk, start, Commands(file, r.records), Decode(Record(file, r.records)));
  }

  /** Replays exactly the longest valid prefix, through the engine that runs live. */
  method Replay(file: seq<byte>, engine: MatchingEngine) returns (result: ReplayResult)
    requires engine.Valid()
    modifies engine, engine.book
    ensures engine.Valid()
    ensures LongestPrefix(file, result.records)
    ensures result.ok <==> WholeFile(file, result.records)
    ensures result.error == Diagnosis(file, result.records)
    ensures result.errorOffset == if result.ok then 0 else RECORD_SIZE * result.records
    ensures Replayed(engine.risk, old(engine.View()), engine.View(), file, result)
  {
    hide Record, Decode, Engine.Apply, Diagnosis, WholeFile, LongestPrefix, Tally, Replayed, Ordinal;
    hide MatchingEngine.Valid, MatchingEngine.View;
    ghost var start := engine.View();
    result := ReplayResult(false, 0, 0, 0, 0, 0, 0, 0, 0, NoError);
    NothingReplayed(engine.risk, start, file, result);
    OrdinalNext(0);
    var expected: u64 := 1;
    while true
      invariant engine.Valid()
      invariant Replayed(engine.risk, start, engine.View(), file, result)
      invariant RECORD_SIZE * result.records <= |file| && expected == Ordinal(result.records)
      decreases |file| - RECORD_SIZE * result.records
    {
      var error := ReadNext(file, result.records, expected);
      ReplayEnds(engine.risk, start, engine.View(), file, result);
      if RECORD_SIZE * result.records == |file| {
        result := result.(ok := true, errorOffset := 0, error := error);
        return;
      }
      if error != NoError {
        result := result.(ok := false, errorOffset := result.records * RECORD_SIZE, error := error);
        return;
      }
      TallyKeeps(engine.risk, start, engine.View(), file, result);
      TallyCounts(result);
      OrdinalNext(result.records);
      var c := DecodeRecord(Record(file, result.records));
      var report, printed := ApplyCommand(engine, c);
      result := Tally(result, c, report, printed, expected);
      expected := (expected + 1) % WORD;
    }
  }

  lemma {:induction false} TallyCounts(r: ReplayResult)
    ensures forall c, report, trades, ordinal :: Tally(r, c, report, trades, ordinal).records == r.records + 1
  {
  }

  /** What the final fields must say. */
  lemma {:induction false} ReplayEnds(risk: RiskConfig, start: Engine.Engine, now: Engine.Engine, file: seq<byte>,
                                      r: ReplayResult)
    requires Replayed(risk, start, now, file, r)
    ensures RECORD_SIZE * r.records <= |file|
    ensures LongestPrefix(file, r.records) <==>
              Diagnosis(file, r.records) != NoError || RECORD_SIZE * r.records == |file|
    ensures WholeFile(file, r.records) <==> |file| == RECORD_SIZE * r.records
    ensures forall ok, offset, error ::
              Replayed(risk, start, now, file, r.(ok := ok, errorOffset := offset, error := error))
  {
    hide Diagnosis, WholeFile, LongestPrefix, RecordOk, Engine.Run, Engine.Tape, Commands;
    PrefixEnds(file, r.records);
  }

  // ---------------------------------------------------------------------
  // Append

  /** The buffer holds `prefix` and zeros behind it. */
  ghost predicate Holds(bytes: seq<byte>, prefix: seq<byte>) {
    |prefix| <= RECORD_SIZE && bytes == prefix + Zeros(RECORD_SIZE - |prefix|)
  }

  lemma {:induction false} ZerosConcat(m: nat, n: nat)
    ensures Zeros(m + n) == Zeros(m) + Zeros(n)
  {
  }

  lemma {:induction false} HoldsSkip(bytes: seq<byte>, prefix: seq<byte>, n: nat)
    requires Holds(bytes, prefix) && |prefix| + n <= RECORD_SIZE
    ensures Holds(bytes, prefix + Zeros(n))
  {
    hide Zeros;
    var left := RECORD_SIZE - |prefix| - n;
    ZerosConcat(n, left);
    assert prefix + (Zeros(n) + Zeros(left)) == prefix + Zeros(n) + Zeros(left);
  }

  lemma {:induction false} HoldsTail(bytes: seq<byte>, prefix: seq<byte>, n: nat)
    requires Holds(bytes, prefix) && |prefix| + n <= RECORD_SIZE
    ensures bytes[|prefix| + n..] == Zeros(RECORD_SIZE - |prefix| - n) && bytes[..|prefix|] == prefix
  {
  }

  method PutNext(bytes: array<byte>, ghost prefix: seq<byte>, offset: nat, n: nat, value: nat)
    requires bytes.Length == RECORD_SIZE && Holds(bytes[..], prefix)
    requires offset == |prefix| && offset + n <= RECORD_SIZE
    modifies bytes
    ensures Holds(bytes[..], prefix + LittleEndian(value, n))
  {
    hide Zeros, LittleEndian;
    HoldsTail(bytes[..], prefix, n);
    assert bytes[..offset] == bytes[..][..offset] && bytes[offset + n..] == bytes[..][offset + n..];
    Put(bytes, offset, n, value);
    assert bytes[..] == bytes[..offset + n] + bytes[offset + n..];
  }

  method PutByte(bytes: array<byte>, ghost prefix: seq<byte>, offset: nat, b: byte)
    requires bytes.Length == RECORD_SIZE && Holds(bytes[..], prefix)
    requires offset == |prefix| < RECORD_SIZE
    modifies bytes
    ensures Holds(bytes[..], prefix + [b])
  {
    hide Zeros;
    HoldsTail(bytes[..], prefix, 1);
    ghost var tail := bytes[..][offset + 1..];
    bytes[offset] := b;
    assert bytes[..] == prefix + [b] + tail;
  }

  /** Fills a zeroed record buffer field by field, as the source does. */
  method BuildRecord(ordinal: u64, c: Command) returns (record: seq<byte>)
    ensures record == Encode(ordinal, c)
  {
    hide LittleEndian, PutWord, Checksum, Zeros, Holds;
    var bytes := new byte[RECORD_SIZE](_ => 0);
    StartsZero(bytes[..]);
    ghost var done := [];
    PutNext(bytes, done, 0, 4, MAGIC);
    done := done + LittleEndian(MAGIC, 4);
    PutNext(bytes, done, 4, 2, VERSION);
    done := done + LittleEndian(VERSION, 2);
    PutByte(bytes, done, 6, RecordType(c));
    done := done + [RecordType(c)];
    HoldsSkip(bytes[..], done, 1);
    done := done + Zeros(1);
    assert done == Prefix(c);
    PutNext(bytes, done, 8, 8, ordinal);
    done := done + LittleEndian(ordinal, 8);
    PutNext(bytes, done, 16, 8, IdOf(c));
    done := done + LittleEndian(IdOf(c), 8);
    BuildPayload(bytes, done, c);
    done := done + Payload(c);
    HoldsSkip(bytes[..], done, 4);
    done := done + Zeros(4);
    assert done == Body(ordinal, c);
    HoldsTail(bytes[..], done, 0);
    assert bytes[..CHECKSUM_OFFSET] == bytes[..][..CHECKSUM_OFFSET];
    var crc := Compute(bytes[..CHECKSUM_OFFSET]);
    record := bytes[..CHECKSUM_OFFSET] + PutWord(crc);
  }

  lemma {:induction false} StartsZero(bytes: seq<byte>)
    requires |bytes| == RECORD_SIZE && forall i :: 0 <= i < |bytes| ==> bytes[i] == 0
    ensures Holds(bytes, [])
  {
    assert bytes == [] + Zeros(RECORD_SIZE);
  }

  method BuildPayload(bytes: array<byte>, ghost prefix: seq<byte>, c: Command)
    requires bytes.Length == RECORD_SIZE && Holds(bytes[..], prefix) && |prefix| == 24
    modifies bytes
    ensures Holds(bytes[..], prefix + Payload(c))
  {
    hide LittleEndian, Zeros, Holds, ByteOf;
    if c.NewOrder? {
      var o := c.order;
      PutByte(bytes, prefix, 24, ByteOf(o.side));
      PutByte(bytes, prefix + [ByteOf(o.side)], 25, ByteOf(o.kind));
      PutByte(bytes, prefix + [ByteOf(o.side)] + [ByteOf(o.kind)], 26, ByteOf(o.tif));
      PutByte(bytes, prefix + [ByteOf(o.side)] + [ByteOf(o.kind)] + [ByteOf(o.tif)], 27, ByteOf(o.flags));
      ghost var done := prefix + Codes(o);
      assert done == prefix + [ByteOf(o.side)] + [ByteOf(o.kind)] + [ByteOf(o.tif)] + [ByteOf(o.flags)];
      PutNext(bytes, done, 28, 8, PriceBits(o.price));
      PutNext(bytes, done + LittleEndian(PriceBits(o.price), 8), 36, 4, o.quantity);
      assert done + LittleEndian(PriceBits(o.price), 8) + LittleEndian(o.quantity, 4) == prefix + Payload(c);
    } else {
      HoldsSkip(bytes[..], prefix, 16);
    }
  }

  /** The file is a whole journal whose next record has this ordinal. */
  ghost predicate Continues(file: seq<byte>, ordinal: u64) {
    WholeFile(file, |file| / RECORD_SIZE) && ordinal == Ordinal(|file| / RECORD_SIZE)
  }

  lemma {:induction false} AppendContinues(file: seq<byte>, ordinal: u64, c: Command)
    requires Continues(file, ordinal)
    ensures Continues(file + Encode(ordinal, c), (ordinal + 1) % WORD)
  {
    hide Encode, ValidPrefix, Ordinal;
    var n := |file| / RECORD_SIZE;
    AppendExtends(file, n, c);
    OrdinalNext(n);
    assert |file + Encode(ordinal, c)| / RECORD_SIZE == n + 1;
  }

  lemma {:induction false} WholePortion(ordinal: u64, c: Command, room: nat)
    requires room >= RECORD_SIZE
    ensures Portion(ordinal, c, room) == Encode(ordinal, c)
  {
    hide Encode;
  }

  /** What reaches the file of a record when `room` bytes can be written. */
  function Portion(ordinal: u64, c: Command, room: nat): seq<byte> {
    Encode(ordinal, c)[..Min(room, RECORD_SIZE)]
  }

  /** An open journal: the bytes of its file and the ordinal of its next record. */
  class EventJournal {
    var isOpen: bool
    var file: seq<byte>
    var nextOrdinal: u64

    /** The file is a whole journal and the next ordinal continues it. */
    ghost predicate Consistent()
      reads this
    {
      isOpen && Continues(file, nextOrdinal)
    }

    constructor ()
      ensures !isOpen
    {
      isOpen, file, nextOrdinal := false, [], 1;
    }

    method OpenTruncate()
      modifies this
      ensures Consistent() && file == []
    {
      isOpen, file, nextOrdinal := true, [], 1;
    }

    /** Append mode refuses any file that is not a whole journal. */
    method OpenAppend(contents: seq<byte>) returns (ok: bool)
      modifies this
      ensures ok <==> WholeFile(contents, |contents| / RECORD_SIZE)
      ensures ok ==> Consistent() && file == contents
      ensures !ok ==> !isOpen
    {
      hide ValidPrefix, Diagnosis, RecordOk;
      isOpen, nextOrdinal := false, 1;
      var scan := Scan(contents);
      if !scan.ok {
        NotWhole(contents, scan.records);
        return false;
      }
      assert |contents| / RECORD_SIZE == scan.records;
      isOpen, file, nextOrdinal := true, contents, (scan.records + 1) % WORD;
      ok := true;
    }

    /** Appends one record. The device takes `room` bytes before it fails, and
        `synced` says whether the sync that may follow succeeds. A complete record
        advances the ordinal even when its sync fails. */
    method Append(c: Command, room: nat, synced: bool) returns (ok: bool)
      modifies this
      ensures ok <==> old(isOpen) && room >= RECORD_SIZE && synced
      ensures isOpen == old(isOpen)
      ensures !isOpen ==> unchanged(this)
      ensures isOpen ==> file == old(file) + Portion(old(nextOrdinal), c, room)
      ensures isOpen && room >= RECORD_SIZE ==> nextOrdinal == (old(nextOrdinal) + 1) % WORD
      ensures isOpen && room < RECORD_SIZE ==> nextOrdinal == old(nextOrdinal)
      ensures old(Consistent()) && room >= RECORD_SIZE ==> Consistent()
    {
      hide Encode, Continues;
      if !isOpen {
        return false;
      }
      var record := BuildRecord(nextOrdinal, c);
      if old(Consistent()) {
        AppendContinues(file, nextOrdinal, c);
      }
      file := file + record[..Min(room, RECORD_SIZE)];
      if room < RECORD_SIZE {
        return false;
      }
      WholePortion(nextOrdinal, c, room);
      nextOrdinal := (nextOrdinal + 1) % WORD;
      ok := synced;
    }
  }

  lemma {:induction false} NotWhole(file: seq<byte>, n: nat)
    requires LongestPrefix(file, n) && !WholeFile(file, n)
    ensures !WholeFile(file, |file| / RECORD_SIZE)
  {
    hide RecordOk;
    var m := |file| / RECORD_SIZE;
    if WholeFile(file, m) {
      WholeIsLongest(file, m);
      LongestPrefixUnique(file, m, n);
    }
  }

  /** Records before the end of a file do not see what is appended. */
  lemma {:induction false} RecordsKept(file: seq<byte>, more: seq<byte>, i: nat)
    requires RECORD_SIZE * (i + 1) <= |file|
    ensures Record(file + more, i) == Record(file, i)
    ensures RecordOk(file + more, i) <==> RecordOk(file, i)
  {
    hide ValidateRecord;
    assert (file + more)[RECORD_SIZE * i..RECORD_SIZE * (i + 1)] == file[RECORD_SIZE * i..RECORD_SIZE * (i + 1)];
  }

  /** Appending the next record to a whole journal gives a whole journal with one
      more command. */
  lemma {:induction false} AppendExtends(file: seq<byte>, n: nat, c: Command)
    requires WholeFile(file, n)
    ensures var file' := file + Encode(Ordinal(n), c);
            && WholeFile(file', n + 1)
            && Commands(file', n + 1) == Commands(file, n) + [Unsequenced(c)]
  {
    hide Encode, ValidateRecord, Decode, RecordOk;
    var file' := file + Encode(Ordinal(n), c);
    assert Record(file', n) == Encode(Ordinal(n), c);
    RecordRoundTrip(Ordinal(n), c);
    AppendedOk(file', n);
    forall i | 0 <= i < n
      ensures RecordOk(file', i) && Record(file', i) == Record(file, i)
    {
      RecordsKept(file, Encode(Ordinal(n), c), i);
    }
  }

  lemma {:induction false} AppendedOk(file: seq<byte>, n: nat)
    requires RECORD_SIZE * (n + 1) <= |file| && ValidateRecord(Record(file, n), Ordinal(n)) == NoError
    ensures RecordOk(file, n)
  {
  }

  // ---------------------------------------------------------------------
  // Restart

  /** The file is a whole number of valid records: what recovery asks for. */
  ghost predicate Recoverable(file: seq<byte>) {
    WholeFile(file, |file| / RECORD_SIZE)
  }

  /** Starting up with recovery: replay the journal into a new engine, then reopen it
      for appending. Either may refuse the file, and then the process exits. */
  method Restart(file: seq<byte>, risk: RiskConfig) returns (ok: bool, engine: MatchingEngine, journal: EventJournal)
    ensures fresh(engine) && fresh(engine.book) && engine.risk == risk && engine.Valid()
    ensures ok <==> Recoverable(file)
    ensures ok ==> journal.Consistent() && journal.file == file
    ensures ok ==> engine.View() == Engine.Run(risk, Engine.EMPTY, Commands(file, |file| / RECORD_SIZE))
  {
    hide ValidPrefix, Diagnosis, LongestPrefix, Engine.Run, Engine.Tape, Engine.Reports, Commands;
    hide MatchingEngine.Valid, MatchingEngine.View;
    engine := new MatchingEngine(risk);
    journal := new EventJournal();
    var replay := Replay(file, engine);
    if !replay.ok {
      NotWhole(file, replay.records);
      return false, engine, journal;
    }
    ok := journal.OpenAppend(file);
  }
}
