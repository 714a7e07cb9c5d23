// The append-only log of index changes: what a record does to the index, what a
// replay of a whole log gives, and what a replay of a log cut by a crash gives.
module Journal {
  import opened Prelude
  import opened Objects
  import Order

  datatype Op = OpPut | OpState | OpDrop | OpTouch | OpUnknown

  /** One line of the journal. Absent fields hold their zero value, as in its JSON. */
  datatype Record = Record(
    op: Op,
    obj: Option<Object>,
    path: Path,
    state: Option<State>,
    at: nat,
    fileID: string,
    hash: string,
    err: string,
    attempts: nat,
    of: nat)

  function PutRecord(o: Object): Record {
    Record(OpPut, Some(o), "", None, o.storedAt, "", "", "", 0, 0)
  }

  function StateRecord(p: Path, of: nat, state: State, err: string, attempts: nat, at: nat): Record {
    Record(OpState, None, p, Some(state), at, "", "", err, attempts, of)
  }

  function DropRecord(p: Path, at: nat): Record {
    Record(OpDrop, None, p, None, at, "", "", "", 0, 0)
  }

  function TouchRecord(p: Path, at: nat): Record {
    Record(OpTouch, None, p, None, at, "", "", "", 0, 0)
  }

  // ------------------------------------------------------------ replay

  /** What a state record does to the object it names, version already checked. */
  function Restated(o: Object, rec: Record): Object {
    o.(state := if rec.state.Some? then rec.state.value else o.state,
       upstreamFileID := if rec.fileID != "" then rec.fileID else o.upstreamFileID,
       hash := if rec.hash != "" then rec.hash else o.hash,
       lastError := rec.err,
       flushAttempts := if rec.attempts > 0 then rec.attempts else o.flushAttempts)
  }

  /** One record folded into the index being rebuilt. */
  function ApplyRecord(objs: Index, rec: Record): Index {
    match rec.op
    case OpPut =>
      if rec.obj.None? || rec.obj.value.remotePath == "" then objs
      else objs[rec.obj.value.remotePath := rec.obj.value]
    case OpState =>
      if rec.path !in objs then objs
      else if rec.of != 0 && objs[rec.path].storedAt != rec.of then objs
      else objs[rec.path := Restated(objs[rec.path], rec)]
    case OpDrop => objs - {rec.path}
    case OpTouch =>
      if rec.path in objs && rec.at > 0 then objs[rec.path := objs[rec.path].(lastAccess := rec.at)]
      else objs
    case OpUnknown => objs
  }

  /** Records folded in order, starting from an index. */
  function ApplyAll(objs: Index, recs: seq<Record>): Index
    decreases |recs|
  {
    if recs == [] then objs else ApplyAll(ApplyRecord(objs, recs[0]), recs[1..])
  }

  /** The index a whole log describes. */
  function Replay(recs: seq<Record>): Index { ApplyAll(map[], recs) }

  lemma {:induction false} ApplyAllAppend(objs: Index, recs: seq<Record>, rec: Record)
    ensures ApplyAll(objs, recs + [rec]) == ApplyRecord(ApplyAll(objs, recs), rec)
    decreases |recs|
  {
    if recs == [] {
      assert recs + [rec] == [rec];
    } else {
      assert (recs + [rec])[1..] == recs[1..] + [rec];
      ApplyAllAppend(ApplyRecord(objs, recs[0]), recs[1..], rec);
    }
  }

  // ------------------------------------------------------------ one path at a time

  /** What a record does to the entry of one path. */
  function ApplyAt(o: Option<Object>, rec: Record, p: Path): Option<Object> {
    match rec.op
    case OpPut =>
      if rec.obj.None? || rec.obj.value.remotePath == "" || rec.obj.value.remotePath != p then o
      else rec.obj
    case OpState =>
      if rec.path != p || o.None? then o
      else if rec.of != 0 && o.value.storedAt != rec.of then o
      else Some(Restated(o.value, rec))
    case OpDrop => if rec.path == p then None else o
    case OpTouch =>
      if rec.path == p && o.Some? && rec.at > 0 then Some(o.value.(lastAccess := rec.at)) else o
    case OpUnknown => o
  }

  /** The entry a log describes for one path. */
  function ReplayAt(recs: seq<Record>, p: Path): Option<Object> {
    if recs == [] then None
    else ApplyAt(ReplayAt(recs[..|recs| - 1], p), recs[|recs| - 1], p)
  }

  lemma ReplayAtAppend(recs: seq<Record>, rec: Record, p: Path)
    ensures ReplayAt(recs + [rec], p) == ApplyAt(ReplayAt(recs, p), rec, p)
  {
    assert (recs + [rec])[..|recs|] == recs;
  }

  /** Replaying a log treats every path on its own. */
  lemma {:induction false} ReplayPointwise(recs: seq<Record>, p: Path)
    ensures Get(Replay(recs), p) == ReplayAt(recs, p)
  {
    if recs != [] {
      var init, last := recs[..|recs| - 1], recs[|recs| - 1];
      assert recs == init + [last];
      ReplayPointwise(init, p);
      ApplyAllAppend(map[], init, last);
    }
  }

  lemma {:induction false} ReplayWellKeyed(recs: seq<Record>)
    requires forall i :: 0 <= i < |recs| ==> recs[i].path != "" || recs[i].op.OpPut?
    ensures WellKeyed(Replay(recs))
  {
    if recs != [] {
      var init, last := recs[..|recs| - 1], recs[|recs| - 1];
      assert recs == init + [last];
      ReplayWellKeyed(init);
      ApplyAllAppend(map[], init, last);
    }
  }

  // ------------------------------------------------------------ bytes on disk

  const NEWLINE: byte := 10

  /** How one record is written as a line and read back; the JSON itself is abstract. */
  datatype Codec = Codec(enc: Record -> seq<byte>, dec: seq<byte> -> Option<Record>)

  /** A line is never empty, holds no newline, and reads back as the record it came from. */
  ghost predicate Sound(c: Codec) {
    forall r: Record :: c.enc(r) != [] && NEWLINE !in c.enc(r) && c.dec(c.enc(r)) == Some(r)
  }

  function Encoded(c: Codec, recs: seq<Record>): seq<byte> {
    if recs == [] then [] else c.enc(recs[0]) + [NEWLINE] + Encoded(c, recs[1..])
  }

  /** What a startup scan found. */
  datatype Replayed = Replayed(objects: Index, records: nat, torn: bool)

  /** The index of the first newline, or the length when there is none. */
  function LineEnd(file: seq<byte>): (n: nat)
    ensures n <= |file|
    ensures NEWLINE !in file[..n]
    ensures n < |file| ==> file[n] == NEWLINE
  {
    if file == [] || file[0] == NEWLINE then 0
    else
      var n := LineEnd(file[1..]);
      assert file[..n + 1] == [file[0]] + file[1..][..n];
      n + 1
  }

  lemma LineEndUnique(line: seq<byte>, rest: seq<byte>)
    requires NEWLINE !in line
    ensures rest != [] && rest[0] == NEWLINE ==> LineEnd(line + rest) == |line|
    ensures rest == [] ==> LineEnd(line + rest) == |line|
  {
    var file := line + rest;
    var n := LineEnd(file);
    assert forall i :: 0 <= i < |line| ==> file[i] == line[i];
    if n > |line| {
      assert file[..n][|line|] == rest[0];
    }
  }

  /** Reading the rest of a log, given what has been read so far. */
  function ReadOn(c: Codec, file: seq<byte>, soFar: Replayed): Replayed
    decreases |file|
  {
    if file == [] then soFar
    else
      var n := LineEnd(file);
      if n == |file| then soFar.(torn := true)
      else
        match c.dec(file[..n])
        case None => soFar.(torn := true)
        case Some(rec) =>
          ReadOn(c, file[n + 1..], Replayed(ApplyRecord(soFar.objects, rec), soFar.records + 1, soFar.torn))
  }

  const NOTHING_READ: Replayed := Replayed(map[], 0, false)

  /** The startup scan: whole lines only, up to the first one that cannot be trusted. */
  method ReplayJournal(c: Codec, file: seq<byte>) returns (out: Replayed)
    ensures out == ReadOn(c, file, NOTHING_READ)
  {
    out := NOTHING_READ;
    var pos := 0;
    while pos < |file|
      invariant 0 <= pos <= |file|
      invariant ReadOn(c, file, NOTHING_READ) == ReadOn(c, file[pos..], out)
      decreases |file| - pos
    {
      var n := LineEnd(file[pos..]);
      if pos + n == |file| {
        return out.(torn := true);
      }
      var line := file[pos..][..n];
      match c.dec(line) {
        case None =>
          return out.(torn := true);
        case Some(rec) =>
          assert file[pos..][n + 1..] == file[pos + n + 1..];
          out := Replayed(ApplyRecord(out.objects, rec), out.records + 1, out.torn);
          pos := pos + n + 1;
      }
    }
  }

  // ------------------------------------------------------------ a log cut by a crash

  /** How many records of a log are complete in its first `cut` bytes. */
  ghost function Complete(c: Codec, recs: seq<Record>, cut: nat): (k: nat)
    requires cut <= |Encoded(c, recs)|
    ensures k <= |recs|
  {
    if recs == [] || cut < |c.enc(recs[0])| + 1 then 0
    else 1 + Complete(c, recs[1..], cut - |c.enc(recs[0])| - 1)
  }

  lemma {:induction false} EncodedPrefix(c: Codec, recs: seq<Record>, k: nat)
    requires k <= |recs|
    ensures Encoded(c, recs) == Encoded(c, recs[..k]) + Encoded(c, recs[k..])
  {
    if k == 0 {
      assert recs[..0] == [] && recs[0..] == recs;
    } else {
      assert recs[..k][0] == recs[0] && recs[..k][1..] == recs[1..][..k - 1];
      assert recs[1..][k - 1..] == recs[k..];
      EncodedPrefix(c, recs[1..], k - 1);
    }
  }

  /** `Complete` is the largest number of records that fit before the cut. */
  lemma {:induction false} CompleteIsLargest(c: Codec, recs: seq<Record>, cut: nat)
    requires cut <= |Encoded(c, recs)|
    ensures var k := Complete(c, recs, cut);
      && |Encoded(c, recs[..k])| <= cut
      && (k < |recs| ==> cut < |Encoded(c, recs[..k + 1])|)
  {
    if recs != [] {
      var k := Complete(c, recs, cut);
      if k == 0 {
        assert recs[..0] == [];
        assert recs[..1] == [recs[0]] && recs[..1][1..] == [];
      } else {
        var rest := recs[1..];
        CompleteIsLargest(c, rest, cut - |c.enc(recs[0])| - 1);
        assert recs[..k][0] == recs[0] && recs[..k][1..] == rest[..k - 1];
        if k < |recs| {
          assert recs[..k + 1][0] == recs[0] && recs[..k + 1][1..] == rest[..k];
        }
      }
    }
  }

  /** A file that ends before its first line does is torn, unless it is empty. */
  lemma ReadTornLine(c: Codec, part: seq<byte>, soFar: Replayed)
    requires NEWLINE !in part
    ensures ReadOn(c, part, soFar) == soFar.(torn := soFar.torn || part != [])
  {
    if part != [] {
      assert part == part + [];
      LineEndUnique(part, []);
    }
  }

  /** A file that starts with a whole record is that record and then the rest. */
  lemma ReadWholeLine(c: Codec, rec: Record, rest: seq<byte>, soFar: Replayed)
    requires Sound(c)
    ensures ReadOn(c, c.enc(rec) + [NEWLINE] + rest, soFar)
         == ReadOn(c, rest, Replayed(ApplyRecord(soFar.objects, rec), soFar.records + 1, soFar.torn))
  {
    var line := c.enc(rec);
    var file := line + [NEWLINE] + rest;
    assert file == line + ([NEWLINE] + rest);
    LineEndUnique(line, [NEWLINE] + rest);
    assert file[..|line|] == line;
    assert file[|line| + 1..] == rest;
  }

  lemma FirstRecord(c: Codec, objs: Index, rec: Record, rest: seq<Record>)
    ensures Encoded(c, [rec] + rest) == c.enc(rec) + [NEWLINE] + Encoded(c, rest)
    ensures ApplyAll(objs, [rec] + rest) == ApplyAll(ApplyRecord(objs, rec), rest)
  {
    assert ([rec] + rest)[1..] == rest;
  }

  /** A cut inside the first record leaves nothing complete. */
  lemma CutInFirst(c: Codec, recs: seq<Record>, cut: nat, soFar: Replayed)
    requires Sound(c)
    requires cut <= |Encoded(c, recs)|
    requires recs == [] || cut < |c.enc(recs[0])| + 1
    ensures ReadOn(c, Encoded(c, recs)[..cut], soFar) == soFar.(torn := soFar.torn || cut != 0)
  {
    var file := Encoded(c, recs)[..cut];
    assert NEWLINE !in file by {
      if recs != [] { assert file == c.enc(recs[0])[..cut]; }
    }
    ReadTornLine(c, file, soFar);
  }

  /**
   * Replaying a log cut at any byte gives exactly the records complete before the
   * cut, and reports a torn end exactly when the cut is inside a record.
   */
  lemma {:induction false} CutFrom(c: Codec, recs: seq<Record>, cut: nat, soFar: Replayed)
    requires Sound(c)
    requires cut <= |Encoded(c, recs)|
    ensures var kept := recs[..Complete(c, recs, cut)];
      ReadOn(c, Encoded(c, recs)[..cut], soFar) ==
      Replayed(ApplyAll(soFar.objects, kept), soFar.records + |kept|, soFar.torn || cut != |Encoded(c, kept)|)
    decreases |recs|
  {
    var kept := recs[..Complete(c, recs, cut)];
    if recs == [] || cut < |c.enc(recs[0])| + 1 {
      CutInFirst(c, recs, cut, soFar);
      assert kept == [];
    } else {
      var line, rest, cut' := c.enc(recs[0]), recs[1..], cut - |c.enc(recs[0])| - 1;
      var next := Replayed(ApplyRecord(soFar.objects, recs[0]), soFar.records + 1, soFar.torn);
      var kept' := rest[..Complete(c, rest, cut')];
      assert recs == [recs[0]] + rest && kept == [recs[0]] + kept';
      FirstRecord(c, soFar.objects, recs[0], rest);
      FirstRecord(c, soFar.objects, recs[0], kept');
      assert Encoded(c, recs)[..cut] == line + [NEWLINE] + Encoded(c, rest)[..cut'];
      ReadWholeLine(c, recs[0], Encoded(c, rest)[..cut'], soFar);
      CutFrom(c, rest, cut', next);
    }
  }

  /** The startup scan of a cut log, in terms of the records that were appended. */
  lemma CutJournal(c: Codec, recs: seq<Record>, cut: nat)
    requires Sound(c)
    requires cut <= |Encoded(c, recs)|
    ensures var k := Complete(c, recs, cut);
      && |Encoded(c, recs[..k])| <= cut
      && (k < |recs| ==> cut < |Encoded(c, recs[..k + 1])|)
      && ReadOn(c, Encoded(c, recs)[..cut], NOTHING_READ)
         == Replayed(Replay(recs[..k]), k, cut != |Encoded(c, recs[..k])|)
  {
    CompleteIsLargest(c, recs, cut);
    CutFrom(c, recs, cut, NOTHING_READ);
  }

  /** A cut past the first `m` records keeps at least those. */
  lemma {:induction false} CutKeepsSynced(c: Codec, recs: seq<Record>, m: nat, cut: nat)
    requires m <= |recs| && |Encoded(c, recs[..m])| <= cut <= |Encoded(c, recs)|
    ensures m <= Complete(c, recs, cut)
  {
    if m > 0 {
      var rest := recs[1..];
      assert recs[..m][0] == recs[0] && recs[..m][1..] == rest[..m - 1];
      CutKeepsSynced(c, rest, m - 1, cut - |c.enc(recs[0])| - 1);
    }
  }

  /** A log that was not cut gives every record back. */
  lemma WholeJournal(c: Codec, recs: seq<Record>)
    requires Sound(c)
    ensures ReadOn(c, Encoded(c, recs), NOTHING_READ) == Replayed(Replay(recs), |recs|, false)
  {
    var file := Encoded(c, recs);
    assert recs[..|recs|] == recs && file[..|file|] == file;
    CutJournal(c, recs, |file|);
    CutKeepsSynced(c, recs, |recs|, |file|);
  }

  // ------------------------------------------------------------ a torn log that is appended to

  function Next(soFar: Replayed, rec: Record): Replayed {
    Replayed(ApplyRecord(soFar.objects, rec), soFar.records + 1, soFar.torn)
  }

  function After(soFar: Replayed, recs: seq<Record>): Replayed {
    Replayed(ApplyAll(soFar.objects, recs), soFar.records + |recs|, soFar.torn)
  }

  /** Anything that reads whole records one at a time reads all of them first. */
  lemma {:induction false} ReadsInTurn(read: (seq<byte>, Replayed) -> Replayed, c: Codec, recs: seq<Record>, rest: seq<byte>, soFar: Replayed)
    requires forall rec, tail, s {:trigger read(c.enc(rec) + [NEWLINE] + tail, s)} ::
               read(c.enc(rec) + [NEWLINE] + tail, s) == read(tail, Next(s, rec))
    ensures read(Encoded(c, recs) + rest, soFar) == read(rest, After(soFar, recs))
    decreases |recs|
  {
    if recs == [] {
      assert Encoded(c, recs) + rest == rest;
    } else {
      var tail := Encoded(c, recs[1..]) + rest;
      Regrouped(c.enc(recs[0]) + [NEWLINE], Encoded(c, recs[1..]), rest);
      assert Encoded(c, recs) + rest == c.enc(recs[0]) + [NEWLINE] + tail;
      ReadsInTurn(read, c, recs[1..], rest, Next(soFar, recs[0]));
      assert After(Next(soFar, recs[0]), recs[1..]) == After(soFar, recs);
    }
  }

  /** Whole records at the front of a file are read first. */
  lemma ReadWholeRecords(c: Codec, recs: seq<Record>, rest: seq<byte>, soFar: Replayed)
    requires Sound(c)
    ensures ReadOn(c, Encoded(c, recs) + rest, soFar) == ReadOn(c, rest, After(soFar, recs))
  {
    var read := (file, s) => ReadOn(c, file, s);
    forall rec, tail, s ensures read(c.enc(rec) + [NEWLINE] + tail, s) == read(tail, Next(s, rec)) {
      ReadWholeLine(c, rec, tail, s);
    }
    ReadsInTurn(read, c, recs, rest, soFar);
  }

  lemma Regrouped(a: seq<byte>, b: seq<byte>, c: seq<byte>)
    ensures (a + b) + c == a + (b + c)
  {
  }

  /** What a cut leaves of the record it falls into, without a newline. */
  ghost function TornPart(c: Codec, recs: seq<Record>, cut: nat): (part: seq<byte>)
    requires cut <= |Encoded(c, recs)|
  {
    CompleteIsLargest(c, recs, cut);
    Encoded(c, recs)[|Encoded(c, recs[..Complete(c, recs, cut)])|..cut]
  }

  lemma TornPartIsOfOneLine(c: Codec, recs: seq<Record>, cut: nat)
    requires Sound(c) && cut <= |Encoded(c, recs)|
    ensures var k := Complete(c, recs, cut);
      && Encoded(c, recs)[..cut] == Encoded(c, recs[..k]) + TornPart(c, recs, cut)
      && (k == |recs| ==> TornPart(c, recs, cut) == [])
      && (k < |recs| ==> TornPart(c, recs, cut) <= c.enc(recs[k]))
      && NEWLINE !in TornPart(c, recs, cut)
  {
    var k := Complete(c, recs, cut);
    CompleteIsLargest(c, recs, cut);
    EncodedPrefix(c, recs, k);
    assert k == |recs| ==> recs[..k] == recs;
    if k < |recs| {
      var whole, tail := Encoded(c, recs[..k]), Encoded(c, recs[k..][1..]);
      LastRecord(c, recs[..k + 1]);
      assert recs[..k + 1][..k] == recs[..k];
      assert Encoded(c, recs[k..]) == c.enc(recs[k]) + [NEWLINE] + tail;
      OfTheFirstLine(whole, c.enc(recs[k]), tail, cut);
    }
  }

  lemma LastRecord(c: Codec, recs: seq<Record>)
    requires recs != []
    ensures var k := |recs| - 1; |Encoded(c, recs)| == |Encoded(c, recs[..k])| + |c.enc(recs[k])| + 1
  {
    var k := |recs| - 1;
    EncodedPrefix(c, recs, k);
    assert recs[k..][1..] == [] && Encoded(c, []) == [];
  }

  lemma OfTheFirstLine(whole: seq<byte>, line: seq<byte>, tail: seq<byte>, cut: nat)
    requires |whole| <= cut <= |whole| + |line|
    ensures var file := whole + (line + [NEWLINE] + tail);
      file[..cut] == whole + file[|whole|..cut] && file[|whole|..cut] <= line
  {
    var file := whole + (line + [NEWLINE] + tail);
    assert file[|whole|..cut] == line[..cut - |whole|];
  }

  /** What a replay makes of records appended behind `part`, the first one running on in its line. */
  function ReadBehind(c: Codec, part: seq<byte>, more: seq<Record>, soFar: Replayed): Replayed {
    if part == [] then After(soFar, more)
    else if more == [] then soFar.(torn := true)
    else
      match c.dec(part + c.enc(more[0]))
      case None => soFar.(torn := true)
      case Some(merged) => After(Next(soFar, merged), more[1..])
  }

  lemma ReadsBehind(c: Codec, part: seq<byte>, more: seq<Record>, soFar: Replayed)
    requires Sound(c) && NEWLINE !in part
    ensures ReadOn(c, part + Encoded(c, more), soFar) == ReadBehind(c, part, more, soFar)
  {
    if part == [] {
      assert part + Encoded(c, more) == Encoded(c, more) + [];
      ReadWholeRecords(c, more, [], soFar);
    } else if more == [] {
      assert part + Encoded(c, more) == part;
      ReadTornLine(c, part, soFar);
    } else {
      var line, rest := part + c.enc(more[0]), Encoded(c, more[1..]);
      assert part + Encoded(c, more) == line + ([NEWLINE] + rest);
      ReadLine(c, line, rest, soFar);
      if c.dec(line).Some? {
        assert rest + [] == rest;
        ReadWholeRecords(c, more[1..], [], Next(soFar, c.dec(line).value));
      }
    }
  }

  /** A whole line is read as what it decodes to, or ends the reading. */
  lemma ReadLine(c: Codec, line: seq<byte>, rest: seq<byte>, soFar: Replayed)
    requires NEWLINE !in line
    ensures ReadOn(c, line + ([NEWLINE] + rest), soFar) ==
      match c.dec(line)
      case None => soFar.(torn := true)
      case Some(rec) => ReadOn(c, rest, Next(soFar, rec))
  {
    var file := line + ([NEWLINE] + rest);
    LineEndUnique(line, [NEWLINE] + rest);
    assert file[..|line|] == line;
    assert file[|line| + 1..] == rest;
  }

  /**
   * Appending to a log a crash cut at any byte. At a record boundary the new records follow
   * the complete ones; inside a record the first of them runs on in the torn line, and if
   * that does not decode, a replay stops there: none of the new records is ever read back.
   */
  lemma AppendedBehindCut(c: Codec, recs: seq<Record>, cut: nat, more: seq<Record>)
    requires Sound(c) && cut <= |Encoded(c, recs)|
    ensures var k := Complete(c, recs, cut);
      ReadOn(c, Encoded(c, recs)[..cut] + Encoded(c, more), NOTHING_READ)
      == ReadBehind(c, TornPart(c, recs, cut), more, Replayed(Replay(recs[..k]), k, false))
  {
    var k, part := Complete(c, recs, cut), TornPart(c, recs, cut);
    TornPartIsOfOneLine(c, recs, cut);
    Regrouped(Encoded(c, recs[..k]), part, Encoded(c, more));
    AppendedBehind(c, Encoded(c, recs)[..cut] + Encoded(c, more), recs[..k], part, more);
  }

  lemma AppendedBehind(c: Codec, file: seq<byte>, whole: seq<Record>, part: seq<byte>, more: seq<Record>)
    requires Sound(c) && NEWLINE !in part
    requires file == Encoded(c, whole) + (part + Encoded(c, more))
    ensures ReadOn(c, file, NOTHING_READ) == ReadBehind(c, part, more, Replayed(Replay(whole), |whole|, false))
  {
    var behind, soFar := part + Encoded(c, more), Replayed(Replay(whole), |whole|, false);
    ReadWholeRecords(c, whole, behind, NOTHING_READ);
    assert After(NOTHING_READ, whole) == soFar;
    assert ReadOn(c, file, NOTHING_READ) == ReadOn(c, behind, soFar);
    ReadsBehind(c, part, more, soFar);
  }

  /**
   * Where a merged line never decodes, the records appended after a crash are read back
   * exactly when the crash cut the log at a record boundary; otherwise none of them is.
   */
  lemma AppendedSurvivesExactly(c: Codec, recs: seq<Record>, cut: nat, more: seq<Record>)
    requires Sound(c) && cut <= |Encoded(c, recs)| && more != []
    requires TornPart(c, recs, cut) == [] || c.dec(TornPart(c, recs, cut) + c.enc(more[0])).None?
    ensures var read := ReadOn(c, Encoded(c, recs)[..cut] + Encoded(c, more), NOTHING_READ);
      var k := Complete(c, recs, cut);
      && (read.records == k + |more| <==> cut == |Encoded(c, recs[..k])|)
      && (cut == |Encoded(c, recs[..k])| ==> read == Replayed(ApplyAll(Replay(recs[..k]), more), k + |more|, false))
      && (cut != |Encoded(c, recs[..k])| ==> read == Replayed(Replay(recs[..k]), k, true))
  {
    AppendedBehindCut(c, recs, cut, more);
    CompleteIsLargest(c, recs, cut);
  }

  /** A log torn in its very first byte, and one record appended: the next replay is empty. */
  lemma LostBehindTornByte(c: Codec, first: Record, second: Record)
    requires Sound(c) && c.dec(c.enc(first)[..1] + c.enc(second)).None?
    ensures ReadOn(c, Encoded(c, [first])[..1] + Encoded(c, [second]), NOTHING_READ) == Replayed(map[], 0, true)
  {
    var recs := [first];
    assert Encoded(c, recs) == c.enc(first) + [NEWLINE] + Encoded(c, []);
    assert Complete(c, recs, 1) == 0 && recs[..0] == [];
    assert Encoded(c, []) == [] && TornPart(c, recs, 1) == c.enc(first)[..1];
    AppendedSurvivesExactly(c, recs, 1, [second]);
  }

  // ------------------------------------------------------------ compaction

  /** The log is rewritten from the index once it passes this many records. */
  const COMPACT_AFTER: nat := 20000

  ghost function Puts(objs: Index, keys: seq<Path>): (recs: seq<Record>)
    requires forall k :: k in keys ==> k in objs
    ensures |recs| == |keys|
  {
    seq(|keys|, i requires 0 <= i < |keys| => assert keys[i] in keys; PutRecord(objs[keys[i]]))
  }

  /** The rewritten log: one put per object, in path order. */
  ghost function Compacted(objs: Index): seq<Record> {
    Puts(objs, Order.Sorted(objs.Keys))
  }

  lemma {:induction false} ReplayPuts(objs: Index, keys: seq<Path>, p: Path)
    requires WellKeyed(objs)
    requires forall k :: k in keys ==> k in objs
    ensures ReplayAt(Puts(objs, keys), p) == if p in keys then Some(objs[p]) else None
  {
    if keys != [] {
      var init, last := keys[..|keys| - 1], keys[|keys| - 1];
      assert keys == init + [last];
      assert Puts(objs, keys) == Puts(objs, init) + [PutRecord(objs[last])];
      ReplayPuts(objs, init, p);
      ReplayAtAppend(Puts(objs, init), PutRecord(objs[last]), p);
    }
  }

  /** Replaying a compacted log gives back the index it was compacted from. */
  lemma CompactionKeepsIndex(objs: Index)
    requires WellKeyed(objs)
    ensures Replay(Compacted(objs)) == objs
  {
    var keys := Order.Sorted(objs.Keys);
    forall p
      ensures Get(Replay(Compacted(objs)), p) == Get(objs, p)
    {
      ReplayPointwise(Compacted(objs), p);
      ReplayPuts(objs, keys, p);
    }
    var back := Replay(Compacted(objs));
    forall p ensures p in back <==> p in objs {
      assert Get(back, p) == Get(objs, p);
    }
    forall p | p in objs ensures back[p] == objs[p] {
      assert Get(back, p) == Get(objs, p);
    }
  }
}
