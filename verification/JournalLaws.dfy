/** What the journal is for: a journaled run can be replayed, exactly, and
    damage is found where it is. */
module JournalLaws {
  import opened Types
  import opened Risk
  import opened Crc32
  import opened Codec
  import opened Journal
  import opened EngineLaws
  import opened Engine

  /** The file written by journaling `commands` from an empty file. */
  function JournalOf(commands: seq<Command>): (file: seq<byte>)
    ensures |file| == RECORD_SIZE * |commands|
  {
    if commands == [] then []
    else
      var n := |commands| - 1;
      JournalOf(commands[..n]) + Encode(Ordinal(n), commands[n])
  }

  lemma {:induction false} JournalDecodes(commands: seq<Command>)
    ensures WholeFile(JournalOf(commands), |commands|)
    ensures Commands(JournalOf(commands), |commands|) == UnsequencedAll(commands)
  {
    hide Encode, RecordOk, Commands, WholeFile, UnsequencedAll;
    if commands == [] {
      EmptyFile();
    } else {
      var n := |commands| - 1;
      JournalDecodes(commands[..n]);
      AppendExtends(JournalOf(commands[..n]), n, commands[n]);
      UnsequencedSnoc(commands, n);
    }
  }

  lemma {:induction false} EmptyFile()
    ensures WholeFile([], 0) && Commands([], 0) == UnsequencedAll([])
  {
  }

  lemma {:induction false} UnsequencedSnoc(commands: seq<Command>, n: nat)
    requires |commands| == n + 1
    ensures UnsequencedAll(commands) == UnsequencedAll(commands[..n]) + [Unsequenced(commands[n])]
  {
  }

  /** Replaying the journal of any command list into an engine in the same state
      and under the same limits reproduces the engine, the trades and the
      reports of the live run, whatever sequence numbers the input carried. */
  lemma {:induction false} ReplayEqualsLive(risk: RiskConfig, e: Engine, commands: seq<Command>)
    ensures var replayed := Commands(JournalOf(commands), |commands|);
            && Run(risk, e, replayed) == Run(risk, e, commands)
            && Tape(risk, e, replayed) == Tape(risk, e, commands)
            && Reports(risk, e, replayed) == Reports(risk, e, commands)
  {
    hide Run, Tape, Reports, Commands, JournalOf;
    JournalDecodes(commands);
    RunIgnoresSequence(risk, e, commands);
  }

  /** A process that replays a journal and carries on ends where one
      uninterrupted run of all the commands ends. */
  lemma {:induction false} RecoveryContinues(risk: RiskConfig, before: seq<Command>, after: seq<Command>)
    ensures var recovered := Run(risk, EMPTY, Commands(JournalOf(before), |before|));
            Run(risk, recovered, after) == Run(risk, EMPTY, before + after)
  {
    hide Run, Commands, JournalOf;
    ReplayEqualsLive(risk, EMPTY, before);
    RunConcat(risk, EMPTY, before, after);
  }

  /** Bytes of an unfinished record behind a whole journal change nothing. */
  lemma {:induction false} TornAfterWhole(file: seq<byte>, n: nat, torn: seq<byte>)
    requires WholeFile(file, n) && |torn| < RECORD_SIZE
    ensures LongestPrefix(file + torn, n) && Commands(file + torn, n) == Commands(file, n)
    ensures Diagnosis(file + torn, n) == (if torn == [] then NoError else Truncated)
  {
    hide Decode, RecordOk, ValidateRecord;
    forall i | 0 <= i < n
      ensures RecordOk(file + torn, i) && Record(file + torn, i) == Record(file, i)
    {
      RecordsKept(file, torn, i);
    }
    NoRoom(file + torn, n);
  }

  /** A torn last record loses that record and nothing before it: the reader
      stops at its first byte and has replayed every complete command. */
  lemma {:induction false} TornTail(commands: seq<Command>, torn: seq<byte>)
    requires |torn| < RECORD_SIZE
    ensures var file := JournalOf(commands) + torn;
            && LongestPrefix(file, |commands|)
            && Commands(file, |commands|) == UnsequencedAll(commands)
            && Diagnosis(file, |commands|) == (if torn == [] then NoError else Truncated)
  {
    hide JournalOf, WholeFile, UnsequencedAll, Commands, Diagnosis, LongestPrefix;
    JournalDecodes(commands);
    TornAfterWhole(JournalOf(commands), |commands|, torn);
  }

  lemma {:induction false} NoRoom(file: seq<byte>, n: nat)
    requires |file| < RECORD_SIZE * (n + 1)
    ensures !RecordOk(file, n)
  {
  }

  /** A slice of two strings that differ only within a window does so too. */
  lemma {:induction false} SliceDiffers(x: seq<bool>, y: seq<bool>, at: nat, length: nat, a: nat, b: nat)
    returns (at': nat, length': nat)
    requires DifferOnlyWithin(x, y, at, length) && a <= b <= |x|
    ensures length' <= length && DifferOnlyWithin(x[a..b], y[a..b], at', length')
  {
    AgreeOutside(x, y, at, length);
    var lo := if at <= a then a else if at <= b then at else b;
    var hi := if at + length <= lo then lo else if at + length <= b then at + length else b;
    at', length' := lo - a, hi - lo;
    SameSlice(x, y, a, lo);
    SameSlice(x, y, hi, b);
    SliceOfSlice(x, a, b, lo, hi);
    SliceOfSlice(y, a, b, lo, hi);
  }

  lemma {:induction false} SameSlice(x: seq<bool>, y: seq<bool>, a: nat, b: nat)
    requires |x| == |y| && a <= b <= |x| && forall i :: a <= i < b ==> x[i] == y[i]
    ensures x[a..b] == y[a..b]
  {
  }

  lemma {:induction false} SliceOfSlice(x: seq<bool>, a: nat, b: nat, lo: nat, hi: nat)
    requires a <= lo <= hi <= b <= |x|
    ensures x[a..b][..lo - a] == x[a..lo] && x[a..b][hi - a..] == x[hi..b]
  {
  }

  lemma {:induction false} AgreeOutside(x: seq<bool>, y: seq<bool>, at: nat, length: nat)
    requires DifferOnlyWithin(x, y, at, length)
    ensures forall i :: 0 <= i < |x| && !(at <= i < at + length) ==> x[i] == y[i]
  {
    forall i | 0 <= i < |x| && !(at <= i < at + length)
      ensures x[i] == y[i]
    {
      if i < at {
        assert x[..at][i] == y[..at][i];
      } else {
        var j := i - at - length;
        assert x[at + length..][j] == y[at + length..][j];
      }
    }
  }

  lemma {:induction false} BitStringSlice(data: seq<byte>, a: nat, b: nat)
    requires a <= b <= |data|
    ensures BitString(data[a..b]) == BitString(data)[8 * a..8 * b]
  {
    hide BitString;
    var head, middle, tail := data[..a], data[a..b], data[b..];
    assert data == head + (middle + tail);
    BitStringConcat(head, middle + tail);
    BitStringConcat(middle, tail);
  }

  /** What a burst does to one record. */
  lemma {:induction false} RecordBurst(file: seq<byte>, damaged: seq<byte>, k: nat, at: nat, length: nat)
    returns (at': nat, length': nat)
    requires |damaged| == |file| && RECORD_SIZE * (k + 1) <= |file|
    requires DifferOnlyWithin(BitString(file), BitString(damaged), at, length)
    ensures length' <= length
    ensures DifferOnlyWithin(BitString(Record(file, k)), BitString(Record(damaged, k)), at', length')
  {
    hide BitString;
    var a, b := RECORD_SIZE * k, RECORD_SIZE * (k + 1);
    BitStringSlice(file, a, b);
    BitStringSlice(damaged, a, b);
    at', length' := SliceDiffers(BitString(file), BitString(damaged), at, length, 8 * a, 8 * b);
  }

  /** The first record that changed. */
  lemma {:induction false} FirstChange(file: seq<byte>, damaged: seq<byte>, n: nat) returns (k: nat)
    requires |file| == |damaged| == RECORD_SIZE * n && damaged != file
    ensures k < n && Record(damaged, k) != Record(file, k)
    ensures forall i :: 0 <= i < k ==> Record(damaged, i) == Record(file, i)
  {
    k := 0;
    while k < n && Record(damaged, k) == Record(file, k)
      invariant k <= n
      invariant forall i :: 0 <= i < k ==> Record(damaged, i) == Record(file, i)
    {
      k := k + 1;
    }
    if k == n {
      SameRecords(file, damaged, n);
    }
  }

  lemma {:induction false} SameRecords(file: seq<byte>, damaged: seq<byte>, n: nat)
    requires |file| == |damaged| == RECORD_SIZE * n
    requires forall i :: 0 <= i < n ==> Record(damaged, i) == Record(file, i)
    ensures damaged == file
  {
    forall j | 0 <= j < |file|
      ensures damaged[j] == file[j]
    {
      var i := j / RECORD_SIZE;
      assert Record(damaged, i) == Record(file, i);
      assert Record(damaged, i)[j - RECORD_SIZE * i] == damaged[j] && Record(file, i)[j - RECORD_SIZE * i] == file[j];
    }
  }

  /** The records of a journal are numbered from one, in 64 bits. */
  lemma {:induction false} RecordsNumbered(file: seq<byte>, n: nat, i: nat)
    requires WholeFile(file, n) && i < n
    ensures Value(Record(file, i)[8..16]) == (i + 1) % 0x1_0000_0000_0000_0000
  {
    hide Value, Checksum, GetWord;
    assert RecordOk(file, i);
  }

  /** A burst of up to 32 bits anywhere in a whole journal, across a record boundary or
      not, stops every reader exactly at the first record it changed. */
  lemma {:induction false} BurstFound(file: seq<byte>, n: nat, damaged: seq<byte>, at: nat, length: nat)
    returns (k: nat)
    requires WholeFile(file, n) && |damaged| == |file| && damaged != file
    requires length <= 32 && DifferOnlyWithin(BitString(file), BitString(damaged), at, length)
    ensures k < n && Record(damaged, k) != Record(file, k)
    ensures forall i :: 0 <= i < k ==> Record(damaged, i) == Record(file, i)
    ensures LongestPrefix(damaged, k) && Commands(damaged, k) == Commands(file, n)[..k]
  {
    hide ValidateRecord, BitString, Decode, RecordOk, Record;
    k := FirstChange(file, damaged, n);
    forall i | 0 <= i < k
      ensures RecordOk(damaged, i)
    {
      SameRecordOk(file, damaged, i);
    }
    OkMeansValid(file, k);
    var at', length' := RecordBurst(file, damaged, k, at, length);
    BurstRejected(Record(file, k), Record(damaged, k), Ordinal(k), Ordinal(k), at', length');
    InvalidNotOk(damaged, k);
  }

  lemma {:induction false} SameRecordOk(file: seq<byte>, damaged: seq<byte>, i: nat)
    requires |damaged| == |file| && RECORD_SIZE * (i + 1) <= |file| && Record(damaged, i) == Record(file, i)
    ensures RecordOk(damaged, i) <==> RecordOk(file, i)
  {
    hide ValidateRecord;
  }

  lemma {:induction false} OkMeansValid(file: seq<byte>, k: nat)
    requires RecordOk(file, k)
    ensures ValidateRecord(Record(file, k), Ordinal(k)) == NoError
  {
  }

  lemma {:induction false} InvalidNotOk(file: seq<byte>, k: nat)
    requires RECORD_SIZE * (k + 1) <= |file| && ValidateRecord(Record(file, k), Ordinal(k)) != NoError
    ensures !RecordOk(file, k)
  {
  }
}
