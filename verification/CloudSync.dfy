/** Replication of one conversation's transcript: a watermark push in batches that may fail, and
    a count-based pull. Encryption is an exact inverse pair, so a payload is the text it opens
    to; without a passphrase the text is redacted first. */
module CloudSync {
  import opened Text
  import opened Protocol

  const BATCH: nat := 200
  const PAGE: nat := 1000

  /** How lines read on this deployment: the id a line carries, and the text that leaves the
      machine (the line itself when encrypted, its redacted form when not). */
  datatype Codec = Codec(idOf: string -> Option<string>, view: string -> string)

  /** Redacting twice is redacting once, and leaves entry ids alone. */
  ghost predicate Lawful(c: Codec)
  {
    forall s :: c.view(c.view(s)) == c.view(s) && c.idOf(c.view(s)) == c.idOf(s)
  }

  function MessageId(c: Codec, line: string, i: nat): string
  {
    if c.idOf(line).Some? then c.idOf(line).value else "line-" + Decimal(i)
  }

  /** A line keeps the id it carries, and lines that carry none get different ones. */
  lemma MessageIdsDiffer(c: Codec, a: string, i: nat, b: string, j: nat)
    ensures c.idOf(a).Some? ==> MessageId(c, a, i) == c.idOf(a).value
    ensures c.idOf(a).None? && c.idOf(b).None? && i != j ==> MessageId(c, a, i) != MessageId(c, b, j)
  {
    DecimalReads(i);
    DecimalReads(j);
    assert ("line-" + Decimal(i))[5..] == Decimal(i) && ("line-" + Decimal(j))[5..] == Decimal(j);
  }

  ghost predicate DistinctIds(c: Codec, lines: seq<string>)
  {
    forall i, j :: 0 <= i < j < |lines| ==> MessageId(c, lines[i], i) != MessageId(c, lines[j], j)
  }

  datatype Payload = Payload(nonce: nat, text: string)

  datatype Row = Row(seqNo: nat, payload: Payload)

  // ---------- push ----------

  /** What became of one batch: stored, refused, or stored with the answer lost. */
  datatype Sent = Stored | Refused | AnswerLost

  function LineRow(c: Codec, line: string, i: nat, nonce: nat): Row
  {
    Row(i, Payload(nonce, c.view(line)))
  }

  /** The table after lines `from..end` were upserted under their message ids. */
  function Upserted(c: Codec, table: map<string, Row>, lines: seq<string>, from: nat, end: nat, nonces: nat -> nat): map<string, Row>
    requires end <= |lines|
    decreases end
  {
    if end <= from then table
    else Upserted(c, table, lines, from, end - 1, nonces)
      [MessageId(c, lines[end - 1], end - 1) := LineRow(c, lines[end - 1], end - 1, nonces(end - 1))]
  }

  lemma {:induction false} UpsertedInTwo(c: Codec, table: map<string, Row>, lines: seq<string>, a: nat, b: nat, e: nat, nonces: nat -> nat)
    requires a <= b <= e <= |lines|
    ensures Upserted(c, Upserted(c, table, lines, a, b, nonces), lines, b, e, nonces) == Upserted(c, table, lines, a, e, nonces)
    decreases e
  {
    hide LineRow, MessageId;
    if b < e {
      UpsertedInTwo(c, table, lines, a, b, e - 1, nonces);
    }
  }

  lemma NothingUpserted(c: Codec, table: map<string, Row>, lines: seq<string>, start: nat, nonces: nat -> nat)
    requires start <= |lines|
    ensures Upserted(c, table, lines, start, start, nonces) == table
  {
  }

  lemma NothingToSend(c: Codec, table: map<string, Row>, lines: seq<string>, from: nat, nonces: nat -> nat)
    requires from >= |lines|
    ensures Upserted(c, table, lines, from, |lines|, nonces) == table
  {
  }

  class MessageTable {
    var rows: map<string, Row>

    /** One upsert request for lines `from..end`. */
    method SendBatch(c: Codec, lines: seq<string>, from: nat, end: nat, nonces: nat -> nat, sent: Sent) returns (ok: bool)
      requires from <= end <= |lines|
      modifies this
      ensures rows == if sent == Refused then old(rows) else Upserted(c, old(rows), lines, from, end, nonces)
      ensures ok <==> sent == Stored
    {
      ok := sent == Stored;
      if sent != Refused {
        var i := from;
        while i < end
          invariant from <= i <= end
          invariant rows == Upserted(c, old(rows), lines, from, i, nonces)
        {
          rows := rows[MessageId(c, lines[i], i) := LineRow(c, lines[i], i, nonces(i))];
          i := i + 1;
        }
      }
    }

    /** The same request after earlier ones: the table is as if all their lines came at once. */
    method SendPending(c: Codec, lines: seq<string>, ghost before: map<string, Row>, ghost start: nat, from: nat, end: nat,
                       nonces: nat -> nat, sent: Sent) returns (ok: bool)
      requires start <= from <= end <= |lines| && rows == Upserted(c, before, lines, start, from, nonces)
      modifies this
      ensures rows == Upserted(c, before, lines, start, if sent == Refused then from else end, nonces)
      ensures ok <==> sent == Stored
    {
      hide Upserted;
      ok := SendBatch(c, lines, from, end, nonces, sent);
      UpsertedInTwo(c, before, lines, start, from, end, nonces);
    }

    /** Push the lines after the watermark, in batches; stop at the first batch not acknowledged.
        The watermark moves only after the last batch, and only when it is saved. `upTo` is how far
        the table now reaches, `acked` how many batches were acknowledged. */
    method PushConversation(c: Codec, lines: seq<string>, watermark: int, nonces: nat -> nat, sends: nat -> Sent, saved: bool)
      returns (newWatermark: int, failed: bool, ghost upTo: nat, ghost acked: nat)
      requires -1 <= watermark
      modifies this
      ensures upTo <= |lines| && (watermark < |lines| ==> watermark < upTo) && (!failed ==> upTo == |lines|)
      ensures rows == Upserted(c, old(rows), lines, watermark + 1, upTo, nonces)
      ensures upTo == Reached(lines, watermark, acked + if failed && sends(acked) == AnswerLost then 1 else 0)
      ensures forall b :: 0 <= b < acked ==> sends(b) == Stored
      ensures failed ==> sends(acked) != Stored && Reached(lines, watermark, acked) < |lines|
      ensures newWatermark == if !failed && saved && |lines| - 1 > watermark then |lines| - 1 else watermark
      // from a table with the lines up to past the watermark to one with all that was sent
      ensures Lawful(c) && DistinctIds(c, lines) ==>
        forall k: nat :: HoldsPrefix(c, old(rows), lines, k) && watermark < k ==>
          HoldsPrefix(c, rows, lines, if k >= upTo then k else upTo) && newWatermark < upTo
    {
      hide Upserted, Lawful, DistinctIds, HoldsPrefix;
      newWatermark, failed, upTo, acked := SendUnsent(c, lines, watermark, nonces, sends, saved);
      if Lawful(c) && DistinctIds(c, lines) {
        forall k: nat | HoldsPrefix(c, old(rows), lines, k) && watermark < k
          ensures HoldsPrefix(c, rows, lines, if k >= upTo then k else upTo) && newWatermark < upTo
        {
          PrefixFits(c, old(rows), lines, k);
          PushKeepsPrefix(c, old(rows), lines, k, lines, watermark + 1, upTo, nonces);
        }
      }
    }

    method SendUnsent(c: Codec, lines: seq<string>, watermark: int, nonces: nat -> nat, sends: nat -> Sent, saved: bool)
      returns (newWatermark: int, failed: bool, ghost upTo: nat, ghost acked: nat)
      requires -1 <= watermark
      modifies this
      ensures upTo <= |lines| && (watermark < |lines| ==> watermark < upTo) && (!failed ==> upTo == |lines|)
      ensures rows == Upserted(c, old(rows), lines, watermark + 1, upTo, nonces)
      ensures upTo == Reached(lines, watermark, acked + if failed && sends(acked) == AnswerLost then 1 else 0)
      ensures forall b :: 0 <= b < acked ==> sends(b) == Stored
      ensures failed ==> sends(acked) != Stored && Reached(lines, watermark, acked) < |lines|
      ensures newWatermark == if !failed && saved && |lines| - 1 > watermark then |lines| - 1 else watermark
    {
      hide Upserted;
      ghost var start := if watermark + 1 <= |lines| then watermark + 1 else |lines|;
      if watermark + 1 >= |lines| { NothingToSend(c, rows, lines, watermark + 1, nonces); }
      NothingUpserted(c, rows, lines, start, nonces);
      var idx, pending := 0, 0;      // `pending` lines end at `idx`
      var batches := 0;
      newWatermark, failed, upTo, acked := watermark, false, start, 0;
      while idx < |lines|
        invariant idx <= |lines| && pending < BATCH && acked == batches
        invariant upTo == start + batches * BATCH && upTo + pending == if idx <= start then start else idx
        invariant rows == Upserted(c, old(rows), lines, start, upTo, nonces)
        invariant forall b :: 0 <= b < batches ==> sends(b) == Stored
      {
        idx := idx + 1;
        if idx - 1 <= watermark {
          continue;
        }
        pending := pending + 1;
        if pending >= BATCH {
          var ok := SendPending(c, lines, old(rows), start, idx - pending, idx, nonces, sends(batches));
          upTo := if sends(batches) == Refused then upTo else idx;
          if !ok {
            failed := true;
            return;
          }
          batches, acked, pending := batches + 1, acked + 1, 0;
        }
      }
      if pending > 0 {
        var ok := SendPending(c, lines, old(rows), start, idx - pending, idx, nonces, sends(batches));
        upTo := if sends(batches) == Refused then upTo else idx;
        if !ok {
          failed := true;
          return;
        }
        acked := acked + 1;
      }
      if saved && |lines| - 1 > watermark {
        newWatermark := |lines| - 1;
      }
    }
  }

  /** How far a number of stored batches reaches. */
  function Reached(lines: seq<string>, watermark: int, batches: nat): nat
    requires -1 <= watermark
  {
    var n := watermark + 1 + batches * 200;
    if n <= |lines| then n else |lines|
  }

  // ---------- the contiguous prefix ----------

  /** The table holds exactly the first `k` lines of the source, each opening to its view. */
  ghost predicate HoldsPrefix(c: Codec, table: map<string, Row>, source: seq<string>, k: nat)
  {
    k <= |source|
    && (forall i :: 0 <= i < k ==> MessageId(c, source[i], i) in table)
    && (forall id :: id in table ==> IsLine(c, source, k, id, table[id]))
  }

  ghost predicate IsLine(c: Codec, source: seq<string>, k: nat, id: string, row: Row)
    requires k <= |source|
  {
    row.seqNo < k && id == MessageId(c, source[row.seqNo], row.seqNo) && row.payload.text == c.view(source[row.seqNo])
  }

  /** What a device's file holds of the source. */
  ghost predicate IsReplica(c: Codec, file: seq<string>, source: seq<string>)
  {
    |file| <= |source| && forall i :: 0 <= i < |file| ==> file[i] == c.view(source[i])
  }

  /** Pushing any range that starts inside the prefix, from the source itself or from a replica
      of it, keeps the prefix contiguous. */
  lemma {:induction false} PushKeepsPrefix(c: Codec, table: map<string, Row>, source: seq<string>, k: nat,
                                           lines: seq<string>, from: nat, end: nat, nonces: nat -> nat)
    requires Lawful(c) && DistinctIds(c, source) && HoldsPrefix(c, table, source, k)
    requires from <= k && end <= |lines| <= |source|
    requires forall i :: 0 <= i < |lines| ==> lines[i] == source[i] || lines[i] == c.view(source[i])
    ensures HoldsPrefix(c, Upserted(c, table, lines, from, end, nonces), source, if k >= end then k else end)
    decreases end
  {
    hide HoldsPrefix, DistinctIds, Lawful, MessageId;
    if end > from {
      var before := Upserted(c, table, lines, from, end - 1, nonces);
      var reach := if k >= end - 1 then k else end - 1;
      PushKeepsPrefix(c, table, source, k, lines, from, end - 1, nonces);
      SameRow(c, source[end - 1], lines[end - 1], end - 1);
      UpsertOne(c, before, source, reach, end - 1, LineRow(c, lines[end - 1], end - 1, nonces(end - 1)));
    }
  }

  lemma SameRow(c: Codec, original: string, line: string, i: nat)
    requires Lawful(c) && (line == original || line == c.view(original))
    ensures MessageId(c, line, i) == MessageId(c, original, i) && c.view(line) == c.view(original)
  {
  }

  lemma UpsertOne(c: Codec, table: map<string, Row>, source: seq<string>, k: nat, i: nat, row: Row)
    requires DistinctIds(c, source) && HoldsPrefix(c, table, source, k) && i <= k && i < |source|
    requires row.seqNo == i && row.payload.text == c.view(source[i])
    ensures HoldsPrefix(c, table[MessageId(c, source[i], i) := row], source, if k >= i + 1 then k else i + 1)
  {
    hide MessageId;
  }

  lemma PrefixFits(c: Codec, table: map<string, Row>, source: seq<string>, k: nat)
    requires HoldsPrefix(c, table, source, k)
    ensures k <= |source|
  {
  }

  // ---------- pull ----------

  /** The server's answer to `seq=gte.from & order=seq.asc & limit`: rows of the table, ascending,
      no row skipped. */
  ghost predicate Answers(answer: seq<Row>, table: map<string, Row>, from: nat, limit: nat)
  {
    |answer| <= limit
    && (forall j :: 0 <= j < |answer| ==> answer[j].seqNo >= from && Stores(table, answer[j]))
    && Ascending(answer)
    && (forall id {:trigger Covers(answer, limit, table[id])} :: id in table && table[id].seqNo >= from ==>
          Covers(answer, limit, table[id]))
  }

  /** The row is in the answer, or the page was full before its turn came. */
  ghost predicate Covers(answer: seq<Row>, limit: nat, row: Row)
  {
    row in answer || (|answer| == limit && forall j :: 0 <= j < |answer| ==> answer[j].seqNo < row.seqNo)
  }

  ghost predicate Stores(table: map<string, Row>, row: Row)
  {
    exists id :: id in table && table[id] == row
  }

  lemma StoredIsLine(c: Codec, table: map<string, Row>, source: seq<string>, k: nat, row: Row)
    requires HoldsPrefix(c, table, source, k) && Stores(table, row)
    ensures row.seqNo < k && row.payload.text == c.view(source[row.seqNo])
  {
    var id :| id in table && table[id] == row;
    assert IsLine(c, source, k, id, table[id]);
  }

  /** On a contiguous table the answer is the next rows one by one. */
  lemma {:induction false} AnswerIsNextRows(c: Codec, table: map<string, Row>, source: seq<string>, k: nat, answer: seq<Row>, from: nat, j: nat)
    requires DistinctIds(c, source) && HoldsPrefix(c, table, source, k) && Answers(answer, table, from, PAGE)
    requires j < |answer|
    ensures from + j < k && answer[j].seqNo == from + j && answer[j].payload.text == c.view(source[from + j])
    decreases j
  {
    hide DistinctIds, HoldsPrefix;
    StoredIsLine(c, table, source, k, answer[j]);
    if j > 0 { AnswerIsNextRows(c, table, source, k, answer, from, j - 1); }
    if answer[j].seqNo > from + j {
      NoRowSkipped(c, table, source, k, answer, from, j);
    }
  }

  ghost predicate Ascending(answer: seq<Row>)
  {
    forall i, j :: 0 <= i < j < |answer| ==> answer[i].seqNo < answer[j].seqNo
  }

  lemma NoRowSkipped(c: Codec, table: map<string, Row>, source: seq<string>, k: nat, answer: seq<Row>, from: nat, j: nat)
    requires DistinctIds(c, source) && HoldsPrefix(c, table, source, k) && Answers(answer, table, from, PAGE)
    requires j < |answer| && (j > 0 ==> answer[j - 1].seqNo < from + j) && from + j < k
    ensures answer[j].seqNo <= from + j
  {
    var row := table[MessageId(c, source[from + j], from + j)];
    SeqOfId(c, table, source, k, from + j);
    hide DistinctIds, HoldsPrefix;
    assert Covers(answer, PAGE, row);
    if row in answer { NoGap(answer, j, row); }
  }

  /** A row of an ascending answer that is past entry `j - 1` is not before entry `j`. */
  lemma NoGap(answer: seq<Row>, j: nat, row: Row)
    requires Ascending(answer) && j < |answer| && row in answer && (j > 0 ==> answer[j - 1].seqNo < row.seqNo)
    ensures answer[j].seqNo <= row.seqNo
  {
    var m :| 0 <= m < |answer| && answer[m] == row;
  }

  lemma SeqOfId(c: Codec, table: map<string, Row>, source: seq<string>, k: nat, i: nat)
    requires DistinctIds(c, source) && HoldsPrefix(c, table, source, k) && i < k
    ensures MessageId(c, source[i], i) in table && table[MessageId(c, source[i], i)].seqNo == i
  {
    var id := MessageId(c, source[i], i);
    var s := table[id].seqNo;
    assert IsLine(c, source, k, id, table[id]);
  }

  /** ... and it stops only at the page limit or the end of the prefix. */
  lemma AnswerIsFull(c: Codec, table: map<string, Row>, source: seq<string>, k: nat, answer: seq<Row>, from: nat)
    requires DistinctIds(c, source) && HoldsPrefix(c, table, source, k) && Answers(answer, table, from, PAGE) && from <= k
    ensures |answer| == if k - from <= 1000 then k - from else 1000
  {
    assert |answer| <= PAGE;
    hide DistinctIds, HoldsPrefix, Answers;
    if answer != [] { AnswerIsNextRows(c, table, source, k, answer, from, |answer| - 1); }
    forall j | 0 <= j < |answer| ensures answer[j].seqNo < from + |answer| {
      AnswerIsNextRows(c, table, source, k, answer, from, j);
    }
    if from + |answer| < k { PageIsFull(c, table, source, k, answer, from); }
  }

  /** A row past the whole answer is left out only by a full page. */
  lemma PageIsFull(c: Codec, table: map<string, Row>, source: seq<string>, k: nat, answer: seq<Row>, from: nat)
    requires DistinctIds(c, source) && HoldsPrefix(c, table, source, k) && Answers(answer, table, from, PAGE)
    requires from + |answer| < k && forall j :: 0 <= j < |answer| ==> answer[j].seqNo < from + |answer|
    ensures |answer| == PAGE
  {
    var row := table[MessageId(c, source[from + |answer|], from + |answer|)];
    SeqOfId(c, table, source, k, from + |answer|);
    hide DistinctIds, HoldsPrefix;
    assert Covers(answer, PAGE, row);
  }

  /** Append the rows of the answer to the local file; `written` of them reach the disk. */
  method PullMessages(file: seq<string>, answer: seq<Row>, written: nat) returns (r: seq<string>)
    requires written <= |answer|
    ensures r == file + Texts(answer[..written])
  {
    r := file;
    var j := 0;
    while j < written
      invariant 0 <= j <= written && r == file + Texts(answer[..j])
    {
      assert answer[..j + 1][..j] == answer[..j];
      r := r + [answer[j].payload.text];
      j := j + 1;
    }
  }

  function Texts(rows: seq<Row>): (r: seq<string>)
    ensures |r| == |rows| && forall j :: 0 <= j < |rows| ==> r[j] == rows[j].payload.text
  {
    if rows == [] then [] else Texts(rows[..|rows| - 1]) + [rows[|rows| - 1].payload.text]
  }

  /** A pull extends a replica by the next rows: with nothing lost on the way to the disk, by as
      many as the page and the table allow. */
  lemma PullExtends(c: Codec, table: map<string, Row>, source: seq<string>, k: nat, file: seq<string>,
                                       answer: seq<Row>, written: nat)
    requires DistinctIds(c, source) && HoldsPrefix(c, table, source, k)
    requires IsReplica(c, file, source) && |file| <= k
    requires Answers(answer, table, |file|, PAGE) && written <= |answer|
    ensures IsReplica(c, file + Texts(answer[..written]), source) && |file + Texts(answer[..written])| <= k
    ensures written == |answer| ==>
      |file + Texts(answer[..written])| == |file| + (if k - |file| <= 1000 then k - |file| else 1000)
  {
    hide HoldsPrefix, DistinctIds, Answers, Texts, IsReplica;
    AnswerIsFull(c, table, source, k, answer, |file|);
    PulledTexts(c, table, source, k, |file|, answer, written);
    ReplicaGrows(c, file, source, Texts(answer[..written]));
  }

  lemma PulledTexts(c: Codec, table: map<string, Row>, source: seq<string>, k: nat, from: nat,
                                       answer: seq<Row>, written: nat)
    requires DistinctIds(c, source) && HoldsPrefix(c, table, source, k)
    requires Answers(answer, table, from, PAGE) && written <= |answer| && from <= k
    ensures from + written <= k <= |source|
    ensures forall j :: 0 <= j < written ==> Texts(answer[..written])[j] == c.view(source[from + j])
  {
    if written > 0 { AnswerIsNextRows(c, table, source, k, answer, from, written - 1); }
    assert from + written <= |source|;
    hide HoldsPrefix, DistinctIds, Answers;
    forall j | 0 <= j < written ensures Texts(answer[..written])[j] == c.view(source[from + j]) {
      AnswerIsNextRows(c, table, source, k, answer, from, j);
    }
  }

  lemma ReplicaGrows(c: Codec, file: seq<string>, source: seq<string>, more: seq<string>)
    requires IsReplica(c, file, source) && |file| + |more| <= |source|
    requires forall j :: 0 <= j < |more| ==> more[j] == c.view(source[|file| + j])
    ensures IsReplica(c, file + more, source)
  {
    forall i | 0 <= i < |file + more| ensures (file + more)[i] == c.view(source[i]) {
      if i >= |file| { assert (file + more)[i] == more[i - |file|]; }
    }
  }

  /** The device that wrote the transcript never pulls anything into it. */
  lemma SourcePullsNothing(c: Codec, table: map<string, Row>, source: seq<string>, k: nat, answer: seq<Row>)
    requires DistinctIds(c, source) && HoldsPrefix(c, table, source, k) && Answers(answer, table, |source|, PAGE)
    ensures answer == []
  {
    if answer != [] { StoredIsLine(c, table, source, k, answer[0]); }
  }

  // ---------- every run ----------

  datatype Replica = Replica(file: seq<string>, watermark: int)

  datatype Cloud = Cloud(
    source: seq<string>,
    watermark: int,
    table: map<string, Row>,
    replicas: map<nat, Replica>)

  /** The writer appends a line; a device pushes what it read of its file, reaching line `upTo`,
      and saves its watermark or not; a replica pulls. `length` is how much of the source the
      push had read when the writer went on. */
  datatype Action =
    | Append(line: string)
    | PushSource(length: nat, upTo: nat, saved: bool, nonces: nat -> nat)
    | PushReplica(device: nat, upTo: nat, saved: bool, nonces: nat -> nat)
    | NewReplica(device: nat)
    | Pull(device: nat, answer: seq<Row>, written: nat)

  ghost predicate Enabled(c: Codec, s: Cloud, a: Action)
  {
    match a
    case Append(line) => DistinctIds(c, s.source + [line])
    case PushSource(length, upTo, saved, _) =>
      s.watermark < length <= |s.source| && s.watermark + 1 <= upTo <= length && (saved ==> upTo == length)
    case PushReplica(d, upTo, saved, _) =>
      d in s.replicas && s.replicas[d].watermark < |s.replicas[d].file|
      && s.replicas[d].watermark + 1 <= upTo <= |s.replicas[d].file| && (saved ==> upTo == |s.replicas[d].file|)
    case NewReplica(d) => d !in s.replicas
    case Pull(d, answer, written) =>
      d in s.replicas && Answers(answer, s.table, |s.replicas[d].file|, PAGE) && written <= |answer|
  }

  ghost function Apply(c: Codec, s: Cloud, a: Action): Cloud
    requires -1 <= s.watermark && (forall d :: d in s.replicas ==> -1 <= s.replicas[d].watermark)
    requires Enabled(c, s, a)
  {
    match a
    case Append(line) => s.(source := s.source + [line])
    case PushSource(length, upTo, saved, nonces) =>
      s.(table := Upserted(c, s.table, s.source[..length], s.watermark + 1, upTo, nonces),
         watermark := if saved && length - 1 > s.watermark then length - 1 else s.watermark)
    case PushReplica(d, upTo, saved, nonces) =>
      var r := s.replicas[d];
      s.(table := Upserted(c, s.table, r.file, r.watermark + 1, upTo, nonces),
         replicas := s.replicas[d := r.(watermark := if saved && |r.file| - 1 > r.watermark then |r.file| - 1 else r.watermark)])
    case NewReplica(d) => s.(replicas := s.replicas[d := Replica([], -1)])
    case Pull(d, answer, written) =>
      s.(replicas := s.replicas[d := s.replicas[d].(file := s.replicas[d].file + Texts(answer[..written]))])
  }

  // ---------- the code takes the actions ----------

  /** The writer's push, of what it read of its file, is an action of the protocol. */
  method SyncSource(c: Codec, table: MessageTable, ghost s: Cloud, lines: seq<string>, watermark: int, nonces: nat -> nat,
                    sends: nat -> Sent, saved: bool) returns (newWatermark: int, failed: bool, ghost a: Action)
    requires -1 <= s.watermark && forall d :: d in s.replicas ==> -1 <= s.replicas[d].watermark
    requires table.rows == s.table && watermark == s.watermark
    requires watermark < |lines| <= |s.source| && lines == s.source[..|lines|]
    modifies table
    ensures a.PushSource? && Enabled(c, s, a)
    ensures Apply(c, s, a) == s.(table := table.rows, watermark := newWatermark)
  {
    hide Upserted, Reached, Lawful, DistinctIds, HoldsPrefix;
    ghost var upTo, acked;
    newWatermark, failed, upTo, acked := table.PushConversation(c, lines, watermark, nonces, sends, saved);
    a := PushSource(|lines|, upTo, saved && !failed, nonces);
  }

  /** So is a replica's push. */
  method SyncReplica(c: Codec, table: MessageTable, ghost s: Cloud, ghost device: nat, lines: seq<string>, watermark: int,
                     nonces: nat -> nat, sends: nat -> Sent, saved: bool)
    returns (newWatermark: int, failed: bool, ghost a: Action)
    requires -1 <= s.watermark && forall d :: d in s.replicas ==> -1 <= s.replicas[d].watermark
    requires table.rows == s.table && device in s.replicas && s.replicas[device] == Replica(lines, watermark)
    requires watermark < |lines|
    modifies table
    ensures a.PushReplica? && a.device == device && Enabled(c, s, a)
    ensures Apply(c, s, a) == s.(table := table.rows, replicas := s.replicas[device := Replica(lines, newWatermark)])
  {
    hide Upserted, Reached, Lawful, DistinctIds, HoldsPrefix;
    ghost var upTo, acked;
    newWatermark, failed, upTo, acked := table.PushConversation(c, lines, watermark, nonces, sends, saved);
    a := PushReplica(device, upTo, saved && !failed, nonces);
  }

  /** And a replica's pull of any answer to its query, counted from the lines of its file. */
  method SyncPull(c: Codec, ghost s: Cloud, ghost device: nat, file: seq<string>, answer: seq<Row>, written: nat)
    returns (r: seq<string>, ghost a: Action)
    requires -1 <= s.watermark && forall d :: d in s.replicas ==> -1 <= s.replicas[d].watermark
    requires device in s.replicas && s.replicas[device].file == file
    requires Answers(answer, s.table, |file|, PAGE) && written <= |answer|
    ensures a.Pull? && a.device == device && Enabled(c, s, a)
    ensures Apply(c, s, a) == s.(replicas := s.replicas[device := s.replicas[device].(file := r)])
    ensures |r| == |file| + written && file <= r
    ensures forall j :: 0 <= j < written ==> r[|file| + j] == answer[j].payload.text
  {
    hide Answers;
    r := PullMessages(file, answer, written);
    a := Pull(device, answer, written);
  }

  /** The table holds the first `k` lines, at least up to the watermark, and every replica is a
      prefix of them. */
  ghost predicate Safe(c: Codec, s: Cloud, k: nat)
  {
    DistinctIds(c, s.source) && HoldsPrefix(c, s.table, s.source, k) && -1 <= s.watermark < k as int
    && forall d :: d in s.replicas ==>
         IsReplica(c, s.replicas[d].file, s.source) && |s.replicas[d].file| <= k
         && -1 <= s.replicas[d].watermark < |s.replicas[d].file| as int
  }

  lemma AppendKeepsPrefix(c: Codec, table: map<string, Row>, source: seq<string>, k: nat, line: string)
    requires HoldsPrefix(c, table, source, k)
    ensures HoldsPrefix(c, table, source + [line], k)
  {
    forall i | 0 <= i < k ensures MessageId(c, (source + [line])[i], i) in table {
      assert (source + [line])[i] == source[i];
    }
    forall id | id in table ensures IsLine(c, source + [line], k, id, table[id]) {
      assert IsLine(c, source, k, id, table[id]);
    }
  }

  /** How far the table reaches after a step. */
  function Reach(k: nat, a: Action): nat
  {
    match a
    case PushSource(_, upTo, _, _) => if k >= upTo then k else upTo
    case _ => k
  }

  lemma StepKeepsSafe(c: Codec, s: Cloud, a: Action, k: nat)
    requires Lawful(c) && Safe(c, s, k) && Enabled(c, s, a)
    ensures Safe(c, Apply(c, s, a), Reach(k, a))
  {
    hide HoldsPrefix, DistinctIds, Upserted, Answers;
    match a
    case Append(line) => AppendKeepsPrefix(c, s.table, s.source, k, line);
    case PushSource(length, upTo, saved, nonces) =>
      PushKeepsPrefix(c, s.table, s.source, k, s.source[..length], s.watermark + 1, upTo, nonces);
    case PushReplica(d, upTo, saved, nonces) =>
      var r := s.replicas[d];
      PushKeepsPrefix(c, s.table, s.source, k, r.file, r.watermark + 1, upTo, nonces);
    case NewReplica(d) =>
    case Pull(d, answer, written) =>
      PullExtends(c, s.table, s.source, k, s.replicas[d].file, answer, written);
  }

  /** A run: each action is enabled where it is taken. */
  ghost predicate IsRun(c: Codec, states: seq<Cloud>, actions: seq<Action>)
  {
    |states| == |actions| + 1 && states[0] == Cloud([], -1, map[], map[])
    && forall i :: 0 <= i < |actions| ==> Follows(c, states[i], actions[i], states[i + 1])
  }

  ghost predicate Follows(c: Codec, s: Cloud, a: Action, s': Cloud)
  {
    -1 <= s.watermark && (forall d :: d in s.replicas ==> -1 <= s.replicas[d].watermark)
    && Enabled(c, s, a) && s' == Apply(c, s, a)
  }

  function ReachAfter(actions: seq<Action>): nat
  {
    if actions == [] then 0 else Reach(ReachAfter(actions[..|actions| - 1]), actions[|actions| - 1])
  }

  /** In every run, with pushes failing at any batch, answers lost, watermarks not saved and
      replicas pushing back, the remote rows open to a contiguous prefix of the source that
      covers the watermark, and every replica file is a prefix of that. */
  lemma {:induction false} ReplicationSafe(c: Codec, states: seq<Cloud>, actions: seq<Action>)
    requires Lawful(c) && IsRun(c, states, actions)
    ensures Safe(c, states[|actions|], ReachAfter(actions))
    decreases |actions|
  {
    hide Safe, Enabled, Apply, HoldsPrefix;
    if actions == [] {
      StartIsSafe(c);
    } else {
      var n := |actions| - 1;
      assert IsRun(c, states[..n + 1], actions[..n]) by {
        forall i | 0 <= i < n ensures Follows(c, states[..n + 1][i], actions[..n][i], states[..n + 1][i + 1]) {
          assert Follows(c, states[i], actions[i], states[i + 1]);
        }
      }
      ReplicationSafe(c, states[..n + 1], actions[..n]);
      assert Follows(c, states[n], actions[n], states[n + 1]);
      StepKeepsSafe(c, states[n], actions[n], ReachAfter(actions[..n]));
    }
  }

  lemma StartIsSafe(c: Codec)
    ensures Safe(c, Cloud([], -1, map[], map[]), 0)
  {
  }

  /** Nothing a replica has is ever lost or rewritten. */
  lemma ReplicaOnlyGrows(c: Codec, s: Cloud, a: Action, k: nat, d: nat)
    requires Safe(c, s, k) && Enabled(c, s, a) && d in s.replicas
    ensures d in Apply(c, s, a).replicas && s.replicas[d].file <= Apply(c, s, a).replicas[d].file
  {
    hide HoldsPrefix, Answers, Upserted;
  }
}
