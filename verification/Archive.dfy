/**
  Archiving audit logs: the loop that renders batches of records, cuts the text into parts
  of one size and uploads them, and the loop that fetches an archive back block by block.
 */
module Archive {
  import opened Values

  /** A record as rendered; None when rendering fails. */
  type Batch = seq<Option<Bytes>>

  const HISTORY_MAX_BATCH_SIZE: nat := 100000
  const READ_BLOCK_SIZE: nat := 5242880
  const NEWLINE: Bytes := [10]
  const BOM: Bytes := [0xEF, 0xBB, 0xBF]

  function AsciiByte(c: char): (b: bv8)
    ensures c as int < 128 ==> b as int == c as int
  {
    ((c as int) % 256) as bv8
  }

  function Ascii(s: string): (b: Bytes)
    ensures |b| == |s| && forall i :: 0 <= i < |s| ==> b[i] == AsciiByte(s[i])
  {
    seq(|s|, i requires 0 <= i < |s| => AsciiByte(s[i]))
  }

  const XML_HEADER: Bytes := Ascii("<?xml version=\"1.0\" encoding=\"UTF-8\"?>\n<log>\n")
  const XML_TRAILER: Bytes := Ascii("</log>\n")

  function Concat(parts: seq<Bytes>): (all: Bytes) {
    if parts == [] then [] else Concat(parts[..|parts| - 1]) + parts[|parts| - 1]
  }

  lemma ConcatSnoc(parts: seq<Bytes>, part: Bytes)
    ensures Concat(parts + [part]) == Concat(parts) + part
  {
    assert (parts + [part])[..|parts|] == parts;
  }

  lemma {:induction false} ConcatAppend(a: seq<Bytes>, b: seq<Bytes>)
    ensures Concat(a + b) == Concat(a) + Concat(b)
  {
    if b == [] {
      assert a + b == a;
    } else {
      var init, last := b[..|b| - 1], b[|b| - 1];
      ConcatAppend(a, init);
      ConcatSnoc(a + init, last);
      Associate(Concat(a), Concat(init), last);
      assert a + b == a + init + [last];
    }
  }

  lemma Associate(a: Bytes, b: Bytes, c: Bytes)
    ensures a + b + c == a + (b + c)
  {
  }

  // ------------------------------------------------------------------ what is written

  function Header(xml: bool): (b: Bytes) {
    if xml then XML_HEADER else []
  }

  /** The bytes record i of a batch adds. */
  function Text(xml: bool, batch: Batch, i: nat): (b: Bytes)
    requires i < |batch|
    ensures |b| > 0
  {
    var line := (if batch[i].Some? then batch[i].value else []) + NEWLINE;
    if xml && |batch| != HISTORY_MAX_BATCH_SIZE && i == |batch| - 1 then line + XML_TRAILER else line
  }

  function Texts(xml: bool, batch: Batch): (ts: seq<Bytes>)
    ensures |ts| == |batch| && forall i :: 0 <= i < |batch| ==> ts[i] == Text(xml, batch, i)
  {
    seq(|batch|, i requires 0 <= i < |batch| => Text(xml, batch, i))
  }

  function AllTexts(xml: bool, batches: seq<Batch>): (ts: seq<Bytes>) {
    if batches == [] then [] else
    AllTexts(xml, batches[..|batches| - 1]) + Texts(xml, batches[|batches| - 1])
  }

  /** The first batch that is not full; fetching stops there. */
  function FirstShort(batches: seq<Batch>): (n: nat)
    ensures n <= |batches| && (n < |batches| ==> |batches[n]| != HISTORY_MAX_BATCH_SIZE)
    ensures forall i :: 0 <= i < n ==> |batches[i]| == HISTORY_MAX_BATCH_SIZE
  {
    if batches == [] then 0 else if |batches[0]| != HISTORY_MAX_BATCH_SIZE then 0 else 1 + FirstShort(batches[1..])
  }

  /** The batches that are fetched, when fetching does not fail. */
  function Fetched(batches: seq<Batch>): (read: seq<Batch>)
    requires FirstShort(batches) < |batches|
  {
    batches[..FirstShort(batches) + 1]
  }

  predicate RenderedBatch(batch: Batch) {
    forall i :: 0 <= i < |batch| ==> batch[i].Some?
  }

  predicate Rendered(batches: seq<Batch>) {
    forall k :: 0 <= k < |batches| ==> RenderedBatch(batches[k])
  }

  // ------------------------------------------------------------------ how it is cut

  /** Bytes waiting in the buffer after the texts: one part leaves when the next text would not fit. */
  function Pending(partSize: nat, first: nat, texts: seq<Bytes>): (n: int) {
    if texts == [] then first else
    var n := Pending(partSize, first, texts[..|texts| - 1]) + |texts[|texts| - 1]|;
    if n > partSize then n - partSize else n
  }

  /** The parts that have left by then. */
  function Flushes(partSize: nat, first: nat, texts: seq<Bytes>): (n: nat) {
    if texts == [] then 0 else
    var init := texts[..|texts| - 1];
    Flushes(partSize, first, init) + if Pending(partSize, first, init) + |texts[|texts| - 1]| > partSize then 1 else 0
  }

  lemma FlushesSnoc(partSize: nat, first: nat, texts: seq<Bytes>, text: Bytes)
    ensures Flushes(partSize, first, texts + [text]) ==
      Flushes(partSize, first, texts) + if Pending(partSize, first, texts) + |text| > partSize then 1 else 0
  {
    assert (texts + [text])[..|texts|] == texts;
  }

  /** A text meets a buffer that already holds more than a part: the slice bounds are negative. */
  predicate Overflows(partSize: nat, first: nat, texts: seq<Bytes>) {
    exists k :: 0 <= k < |texts| && Pending(partSize, first, texts[..k]) > partSize
  }

  lemma PendingSnoc(partSize: nat, first: nat, texts: seq<Bytes>, text: Bytes)
    ensures var n := Pending(partSize, first, texts) + |text|;
      Pending(partSize, first, texts + [text]) == if n > partSize then n - partSize else n
    ensures Overflows(partSize, first, texts + [text]) <==>
      Overflows(partSize, first, texts) || Pending(partSize, first, texts) > partSize
  {
    var more := texts + [text];
    assert more[..|texts|] == texts;
    forall k | 0 <= k <= |texts| ensures more[..k] == texts[..k] {}
    if Pending(partSize, first, texts) > partSize {
      assert Pending(partSize, first, more[..|texts|]) > partSize;
    }
    if Overflows(partSize, first, texts) {
      var k :| 0 <= k < |texts| && Pending(partSize, first, texts[..k]) > partSize;
      assert Pending(partSize, first, more[..k]) > partSize;
    }
    assert texts[..|texts|] == texts;
  }

  /** Nothing overflows, and the buffer never passes a part, when every text fits in one. */
  lemma {:induction false} FittingTexts(partSize: nat, first: nat, texts: seq<Bytes>)
    requires first <= partSize && forall i :: 0 <= i < |texts| ==> 0 < |texts[i]| <= partSize
    ensures Pending(partSize, first, texts) <= partSize && !Overflows(partSize, first, texts)
    ensures texts != [] ==> Pending(partSize, first, texts) > 0
  {
    if texts != [] {
      var init, last := texts[..|texts| - 1], texts[|texts| - 1];
      FittingTexts(partSize, first, init);
      PendingSnoc(partSize, first, init, last);
      assert texts == init + [last];
    }
  }

  /** Parts numbered from 1 without gaps. */
  function Numbered(parts: seq<Bytes>): (m: map<nat, Bytes>)
    ensures forall k :: k in m <==> 1 <= k <= |parts|
    ensures forall k :: k in m ==> m[k] == parts[k - 1]
  {
    if parts == [] then map[] else Numbered(parts[..|parts| - 1])[|parts| := parts[|parts| - 1]]
  }

  lemma NumberedSnoc(parts: seq<Bytes>, part: Bytes)
    ensures Numbered(parts + [part]) == Numbered(parts)[|parts| + 1 := part]
  {
    assert (parts + [part])[..|parts|] == parts;
  }

  predicate AllOfSize(parts: seq<Bytes>, partSize: nat) {
    forall i :: 0 <= i < |parts| ==> |parts[i]| == partSize
  }

  /** Where the loop stands: full parts uploaded, the rest in the buffer, nothing lost or reordered. */
  ghost predicate Written(partSize: nat, header: Bytes, texts: seq<Bytes>, full: seq<Bytes>, content: Bytes) {
    && AllOfSize(full, partSize) && |full| == Flushes(partSize, |header|, texts)
    && Concat(full) + content == header + Concat(texts)
    && |content| == Pending(partSize, |header|, texts)
    && !Overflows(partSize, |header|, texts)
  }

  datatype Flow = Go | Fail | Panic

  /** The variables of the loop. */
  datatype Upload = Upload(content: Bytes, sn: nat, size: nat, partInfos: map<nat, Bytes>)

  ghost predicate Progress(partSize: nat, header: Bytes, texts: seq<Bytes>, up: Upload) {
    exists full :: Written(partSize, header, texts, full, up.content) && Booked(full, up)
  }

  ghost predicate Booked(full: seq<Bytes>, up: Upload) {
    up.sn == |full| + 1 && up.size == |Concat(full)| && up.partInfos == Numbered(full)
  }

  /** A part leaves with exactly partSize bytes, the rest of the text stays. */
  lemma {:induction false} WrittenFlush(partSize: nat, header: Bytes, texts: seq<Bytes>, full: seq<Bytes>, content: Bytes, text: Bytes)
    requires Written(partSize, header, texts, full, content) && |content| <= partSize < |content| + |text|
    ensures var n := partSize - |content|;
      Written(partSize, header, texts + [text], full + [content + text[..n]], text[n..])
  {
    var n := partSize - |content|;
    PendingSnoc(partSize, |header|, texts, text);
    FlushesSnoc(partSize, |header|, texts, text);
    ConcatSnoc(texts, text);
    ConcatSnoc(full, content + text[..n]);
    Regroup(Concat(full), content, text, n);
    Associate(header, Concat(texts), text);
  }

  lemma Regroup(a: Bytes, b: Bytes, c: Bytes, n: nat)
    requires n <= |c|
    ensures a + (b + c[..n]) + c[n..] == a + b + c
  {
  }

  lemma {:induction false} WrittenKeep(partSize: nat, header: Bytes, texts: seq<Bytes>, full: seq<Bytes>, content: Bytes, text: Bytes)
    requires Written(partSize, header, texts, full, content) && |content| + |text| <= partSize
    ensures Written(partSize, header, texts + [text], full, content + text)
  {
    PendingSnoc(partSize, |header|, texts, text);
    FlushesSnoc(partSize, |header|, texts, text);
    ConcatSnoc(texts, text);
    Associate(Concat(full), content, text);
    Associate(header, Concat(texts), text);
  }

  lemma BookedMore(full: seq<Bytes>, up: Upload, part: Bytes, rest: Bytes)
    requires Booked(full, up)
    ensures Booked(full + [part], Upload(rest, up.sn + 1, up.size + |part|, up.partInfos[up.sn := part]))
  {
    NumberedSnoc(full, part);
    ConcatSnoc(full, part);
  }

  lemma ProgressPending(partSize: nat, header: Bytes, texts: seq<Bytes>, up: Upload)
    requires Progress(partSize, header, texts, up)
    ensures |up.content| == Pending(partSize, |header|, texts) && up.sn == Flushes(partSize, |header|, texts) + 1
  {
  }

  lemma {:induction false} ProgressFlush(partSize: nat, header: Bytes, texts: seq<Bytes>, up: Upload, text: Bytes)
    requires Progress(partSize, header, texts, up) && |up.content| <= partSize < |up.content| + |text|
    ensures var n := partSize - |up.content|;
      var part := up.content + text[..n];
      Progress(partSize, header, texts + [text], Upload(text[n..], up.sn + 1, up.size + |part|, up.partInfos[up.sn := part]))
  {
    var full :| Written(partSize, header, texts, full, up.content) && Booked(full, up);
    var n := partSize - |up.content|;
    WrittenFlush(partSize, header, texts, full, up.content, text);
    BookedMore(full, up, up.content + text[..n], text[n..]);
  }

  lemma {:induction false} ProgressKeep(partSize: nat, header: Bytes, texts: seq<Bytes>, up: Upload, text: Bytes)
    requires Progress(partSize, header, texts, up) && |up.content| + |text| <= partSize
    ensures Progress(partSize, header, texts + [text], up.(content := up.content + text))
  {
    var full :| Written(partSize, header, texts, full, up.content) && Booked(full, up);
    WrittenKeep(partSize, header, texts, full, up.content, text);
    assert Booked(full, up.(content := up.content + text));
  }

  /** The buffer is not over a part, and if the text does not fit in it the upload of that part succeeds. */
  predicate Fits(partSize: nat, first: nat, texts: seq<Bytes>, text: Bytes, uploads: nat -> bool) {
    && Pending(partSize, first, texts) <= partSize
    && (Pending(partSize, first, texts) + |text| > partSize ==> uploads(Flushes(partSize, first, texts) + 1))
  }

  /** One record. */
  method WriteText(partSize: nat, up: Upload, text: Bytes, uploads: nat -> bool, ghost header: Bytes, ghost texts: seq<Bytes>)
      returns (flow: Flow, up': Upload)
    requires Progress(partSize, header, texts, up) && text != []
    ensures flow == Panic <==> Pending(partSize, |header|, texts) > partSize
    ensures flow == Go <==> Fits(partSize, |header|, texts, text, uploads)
    ensures flow == Go ==> Progress(partSize, header, texts + [text], up')
  {
    ProgressPending(partSize, header, texts, up);
    if |up.content| + |text| > partSize {
      var appendingSize: int := partSize - |up.content|;
      if appendingSize < 0 {
        return Panic, up;
      }
      var content := up.content + text[..appendingSize];
      if !uploads(up.sn) {
        return Fail, up;
      }
      ProgressFlush(partSize, header, texts, up, text);
      up' := Upload(text[appendingSize..], up.sn + 1, up.size + |content|, up.partInfos[up.sn := content]);
    } else {
      ProgressKeep(partSize, header, texts, up, text);
      up' := up.(content := up.content + text);
    }
    flow := Go;
  }

  // ------------------------------------------------------------------ dumpLog

  datatype Outcome = Nothing | Failed | Panicked | Archived(partInfos: map<nat, Bytes>, size: nat)

  /** The archive the loop leaves: parts in order, all of partSize but the last, which is what was pending. */
  ghost predicate IsArchive(partSize: nat, header: Bytes, texts: seq<Bytes>, parts: seq<Bytes>) {
    && |parts| > 0 && AllOfSize(parts[..|parts| - 1], partSize)
    && Concat(parts) == header + Concat(texts)
    && |parts[|parts| - 1]| == Pending(partSize, |header|, texts) > 0
    && !Overflows(partSize, |header|, texts)
  }

  /** The batches the loop can reach: up to the first that is not full, or all there are. */
  function Reached(batches: seq<Batch>): (rs: seq<Batch>) {
    if FirstShort(batches) < |batches| then Fetched(batches) else batches
  }

  function AllItems(batches: seq<Batch>): (items: Batch) {
    if batches == [] then [] else AllItems(batches[..|batches| - 1]) + batches[|batches| - 1]
  }

  /** The records as they come, each followed by a line feed. */
  function Lines(items: Batch): (b: Bytes) {
    if items == [] then [] else
    var last := items[|items| - 1];
    Lines(items[..|items| - 1]) + ((if last.Some? then last.value else []) + [10])
  }

  /** The text of an archive, from the records: header, lines, and the trailer if the last batch has records. */
  function Document(xml: bool, batches: seq<Batch>): (b: Bytes)
    requires FirstShort(batches) < |batches|
  {
    var n := FirstShort(batches);
    (if xml then XML_HEADER else []) + (Lines(AllItems(batches[..n + 1])) + if xml && batches[n] != [] then XML_TRAILER else [])
  }

  /** What there is to write, record by record. */
  datatype Plan = Plan(partSize: nat, header: Bytes, texts: seq<Bytes>, items: Batch)

  function PlanOf(xml: bool, partSize: nat, batches: seq<Batch>): (plan: Plan) {
    Plan(partSize, Header(xml), AllTexts(xml, Reached(batches)), AllItems(Reached(batches)))
  }

  /** Record n is rendered and gets in. */
  predicate FineAt(plan: Plan, uploads: nat -> bool, n: nat) {
    && n < |plan.texts| && n < |plan.items| && plan.items[n].Some?
    && Fits(plan.partSize, |plan.header|, plan.texts[..n], plan.texts[n], uploads)
  }

  /** Record n is rendered and meets a buffer over a part. */
  predicate StuckAt(plan: Plan, n: nat) {
    && n < |plan.texts| && n < |plan.items| && plan.items[n].Some?
    && Pending(plan.partSize, |plan.header|, plan.texts[..n]) > plan.partSize
  }

  ghost predicate FineAll(plan: Plan, uploads: nat -> bool, lo: nat, hi: nat) {
    forall n :: lo <= n < hi ==> FineAt(plan, uploads, n)
  }

  lemma FineJoin(plan: Plan, uploads: nat -> bool, n: nat, stop: nat)
    requires FineAll(plan, uploads, 0, n) && FineAll(plan, uploads, n, stop)
    ensures FineAll(plan, uploads, 0, stop)
  {
  }

  /** Then every part that has left was uploaded. */
  lemma {:induction false} PartsUploaded(plan: Plan, uploads: nat -> bool, n: nat)
    requires n <= |plan.texts| && FineAll(plan, uploads, 0, n)
    ensures forall sn :: 1 <= sn <= Flushes(plan.partSize, |plan.header|, plan.texts[..n]) ==> uploads(sn)
  {
    if n > 0 {
      PartsUploaded(plan, uploads, n - 1);
      assert FineAt(plan, uploads, n - 1);
      TakeSnoc(plan.texts, n - 1);
      FlushesSnoc(plan.partSize, |plan.header|, plan.texts[..n - 1], plan.texts[n - 1]);
    }
  }

  /** The first record that does not get in is one that is stuck. */
  ghost predicate Panics(plan: Plan, uploads: nat -> bool) {
    exists n :: 0 <= n < |plan.texts| && FineAll(plan, uploads, 0, n) && StuckAt(plan, n)
  }

  /** Every record gets in, no fetch fails, and so do the last upload, the completion and the history row. */
  ghost predicate Completes(plan: Plan, batches: seq<Batch>, uploads: nat -> bool, closing: bool) {
    && FineAll(plan, uploads, 0, |plan.texts|) && FirstShort(batches) < |batches|
    && uploads(Flushes(plan.partSize, |plan.header|, plan.texts) + 1) && closing
  }

  /** One record stops the loop: it panics if and only if that record is stuck. */
  lemma StopDecides(plan: Plan, uploads: nat -> bool, stop: nat)
    requires stop < |plan.texts| && FineAll(plan, uploads, 0, stop) && !FineAt(plan, uploads, stop)
    ensures Panics(plan, uploads) <==> StuckAt(plan, stop)
    ensures !FineAll(plan, uploads, 0, |plan.texts|)
  {
    assert forall n :: 0 <= n < stop && FineAt(plan, uploads, n) ==> !StuckAt(plan, n);
    forall n: nat | stop < n ensures !FineAll(plan, uploads, 0, n) {
      assert !FineAt(plan, uploads, stop);
    }
  }

  lemma FineNeverPanics(plan: Plan, uploads: nat -> bool)
    requires FineAll(plan, uploads, 0, |plan.texts|)
    ensures !Panics(plan, uploads)
  {
    assert forall n :: 0 <= n < |plan.texts| && FineAt(plan, uploads, n) ==> !StuckAt(plan, n);
  }

  lemma Slice<T>(a: seq<T>, b: seq<T>, all: seq<T>)
    requires a + b <= all
    ensures |a| + |b| <= |all| && all[|a|..|a| + |b|] == b
  {
    assert all == a + b + all[|a| + |b|..];
  }

  lemma {:induction false} TextsPrefix(xml: bool, batches: seq<Batch>, k: nat)
    requires k <= |batches|
    ensures AllTexts(xml, batches[..k]) <= AllTexts(xml, batches) && AllItems(batches[..k]) <= AllItems(batches)
  {
    var m := |batches| - 1;
    if k <= m {
      TextsPrefix(xml, batches[..m], k);
      assert batches[..m][..k] == batches[..k];
    } else {
      assert batches[..k] == batches;
    }
  }

  /** Where batch k lies among all records. */
  lemma {:induction false} BatchPlace(xml: bool, batches: seq<Batch>, k: nat)
    requires k < |batches|
    ensures var n := |AllTexts(xml, batches[..k])|;
      && n + |batches[k]| == |AllTexts(xml, batches[..k + 1])| <= |AllTexts(xml, batches)| == |AllItems(batches)|
      && AllTexts(xml, batches)[n..n + |batches[k]|] == Texts(xml, batches[k])
      && AllItems(batches)[n..n + |batches[k]|] == batches[k]
  {
    SameLength(xml, batches);
    SameLength(xml, batches[..k]);
    TextsPrefix(xml, batches, k + 1);
    assert batches[..k + 1][..k] == batches[..k];
    Slice(AllTexts(xml, batches[..k]), Texts(xml, batches[k]), AllTexts(xml, batches));
    Slice(AllItems(batches[..k]), batches[k], AllItems(batches));
  }

  lemma {:induction false} SameLength(xml: bool, batches: seq<Batch>)
    ensures |AllTexts(xml, batches)| == |AllItems(batches)|
  {
    if batches != [] { SameLength(xml, batches[..|batches| - 1]); }
  }

  lemma PendingPositive(partSize: nat, first: nat, texts: seq<Bytes>)
    requires texts != [] && forall i :: 0 <= i < |texts| ==> |texts[i]| > 0
    ensures Pending(partSize, first, texts) > 0
  {
    var init := texts[..|texts| - 1];
    if init != [] {
      PendingPositive(partSize, first, init);
    }
  }

  lemma {:induction false} AllTextsPositive(xml: bool, batches: seq<Batch>)
    ensures forall i :: 0 <= i < |AllTexts(xml, batches)| ==> |AllTexts(xml, batches)[i]| > 0
    ensures |batches| > 0 && |batches[0]| > 0 ==> AllTexts(xml, batches) != []
  {
    if batches != [] {
      var n := |batches| - 1;
      AllTextsPositive(xml, batches[..n]);
      assert n > 0 ==> batches[..n][0] == batches[0];
    }
  }

  /** Record i of a batch, the n-th of all. */
  method WriteRecord(xml: bool, logs: Batch, i: nat, partSize: nat, up: Upload, uploads: nat -> bool, ghost plan: Plan, ghost n: nat)
      returns (flow: Flow, up': Upload)
    requires i < |logs| && n < |plan.texts| && n < |plan.items| && plan.partSize == partSize
    requires plan.texts[n] == Text(xml, logs, i) && plan.items[n] == logs[i]
    requires Progress(partSize, plan.header, plan.texts[..n], up)
    ensures flow == Go <==> FineAt(plan, uploads, n)
    ensures flow == Panic <==> StuckAt(plan, n)
    ensures flow == Go ==> Progress(partSize, plan.header, plan.texts[..n + 1], up')
  {
    if logs[i].None? {
      return Fail, up;
    }
    var str := logs[i].value + NEWLINE;
    if xml && |logs| != HISTORY_MAX_BATCH_SIZE && i == |logs| - 1 {
      str := str + XML_TRAILER;
    }
    flow, up' := WriteText(partSize, up, str, uploads, plan.header, plan.texts[..n]);
    assert plan.texts[..n + 1] == plan.texts[..n] + [plan.texts[n]];
  }

  /** The batch is what the plan has from place n on. */
  ghost predicate Placed(xml: bool, logs: Batch, plan: Plan, n: nat) {
    && n + |logs| <= |plan.texts| == |plan.items|
    && plan.texts[n..n + |logs|] == Texts(xml, logs) && plan.items[n..n + |logs|] == logs
  }

  lemma PlacedAt(xml: bool, logs: Batch, plan: Plan, n: nat, i: nat)
    requires Placed(xml, logs, plan, n) && i < |logs|
    ensures plan.texts[n + i] == Text(xml, logs, i) && plan.items[n + i] == logs[i]
  {
    assert plan.texts[n..n + |logs|][i] == plan.texts[n + i];
    assert plan.items[n..n + |logs|][i] == plan.items[n + i];
  }

  /** The loop over one batch; it stops at the first record that does not get in. */
  method WriteBatch(xml: bool, logs: Batch, partSize: nat, up: Upload, uploads: nat -> bool, ghost plan: Plan, ghost n: nat)
      returns (flow: Flow, up': Upload, ghost stop: nat)
    requires Placed(xml, logs, plan, n) && plan.partSize == partSize && Progress(partSize, plan.header, plan.texts[..n], up)
    ensures n <= stop <= n + |logs| && FineAll(plan, uploads, n, stop)
    ensures flow == Go ==> stop == n + |logs| && Progress(partSize, plan.header, plan.texts[..stop], up')
    ensures flow != Go ==> stop < n + |logs| && !FineAt(plan, uploads, stop) && (flow == Panic <==> StuckAt(plan, stop))
  {
    up', stop := up, n;
    for i := 0 to |logs|
      invariant stop == n + i && FineAll(plan, uploads, n, stop)
      invariant Progress(partSize, plan.header, plan.texts[..stop], up')
    {
      PlacedAt(xml, logs, plan, n, i);
      flow, up' := WriteRecord(xml, logs, i, partSize, up', uploads, plan, stop);
      if flow != Go {
        return;
      }
      stop := stop + 1;
    }
    flow := Go;
  }

  lemma NothingWritten(partSize: nat, header: Bytes)
    ensures Progress(partSize, header, [], Upload(header, 1, 0, map[]))
  {
    assert Written(partSize, header, [], [], header) && Booked([], Upload(header, 1, 0, map[]));
  }

  /** The loop stops exactly after the first batch that is not full. */
  lemma FullBatch(batches: seq<Batch>, k: nat)
    requires k <= FirstShort(batches) && k < |batches|
    ensures |batches[k]| == HISTORY_MAX_BATCH_SIZE ==> k + 1 <= FirstShort(batches)
    ensures |batches[k]| != HISTORY_MAX_BATCH_SIZE ==> FirstShort(batches) == k && Fetched(batches) == batches[..k + 1]
  {
  }

  lemma {:induction false} ReachedPlace(xml: bool, partSize: nat, batches: seq<Batch>, k: nat)
    requires k <= FirstShort(batches) && k < |batches|
    ensures var n := |AllTexts(xml, batches[..k])|;
      Placed(xml, batches[k], PlanOf(xml, partSize, batches), n) && |AllTexts(xml, batches[..k + 1])| == n + |batches[k]|
  {
    var rs := Reached(batches);
    assert rs[k] == batches[k] && rs[..k] == batches[..k] && rs[..k + 1] == batches[..k + 1];
    BatchPlace(xml, rs, k);
  }

  /** The first n records of the plan got in. */
  ghost predicate Done(plan: Plan, uploads: nat -> bool, n: nat, up: Upload) {
    n <= |plan.texts| && FineAll(plan, uploads, 0, n) && Progress(plan.partSize, plan.header, plan.texts[..n], up)
  }

  /** One batch after all before it. */
  method WriteLogs(xml: bool, logs: Batch, partSize: nat, up: Upload, uploads: nat -> bool, ghost plan: Plan, ghost n: nat)
      returns (flow: Flow, up': Upload)
    requires Placed(xml, logs, plan, n) && plan.partSize == partSize && Done(plan, uploads, n, up)
    ensures flow == Go ==> Done(plan, uploads, n + |logs|, up')
    ensures flow != Go ==> (flow == Panic <==> Panics(plan, uploads)) && !FineAll(plan, uploads, 0, |plan.texts|)
  {
    ghost var stop;
    flow, up', stop := WriteBatch(xml, logs, partSize, up, uploads, plan, n);
    FineJoin(plan, uploads, n, stop);
    if flow != Go {
      StopDecides(plan, uploads, stop);
    }
  }

  /** Batch k comes next. */
  ghost predicate Turn(xml: bool, partSize: nat, batches: seq<Batch>, uploads: nat -> bool, k: nat, up: Upload) {
    k <= |batches| && Done(PlanOf(xml, partSize, batches), uploads, |AllTexts(xml, batches[..k])|, up)
  }

  /** One turn of the outer loop. */
  method WriteNext(xml: bool, partSize: nat, batches: seq<Batch>, k: nat, up: Upload, uploads: nat -> bool)
      returns (flow: Flow, up': Upload)
    requires k <= FirstShort(batches) && k < |batches| && Turn(xml, partSize, batches, uploads, k, up)
    ensures flow == Go ==> Turn(xml, partSize, batches, uploads, k + 1, up')
    ensures flow != Go ==> var plan := PlanOf(xml, partSize, batches);
      (flow == Panic <==> Panics(plan, uploads)) && !FineAll(plan, uploads, 0, |plan.texts|)
  {
    ReachedPlace(xml, partSize, batches, k);
    flow, up' := WriteLogs(xml, batches[k], partSize, up, uploads, PlanOf(xml, partSize, batches), |AllTexts(xml, batches[..k])|);
  }

  lemma NothingDone(xml: bool, partSize: nat, batches: seq<Batch>, uploads: nat -> bool)
    ensures Turn(xml, partSize, batches, uploads, 0, Upload(Header(xml), 1, 0, map[]))
  {
    NothingWritten(partSize, Header(xml));
    assert PlanOf(xml, partSize, batches).texts[..0] == [];
  }

  /** After the last batch everything of the plan is written. */
  lemma {:induction false} AllDone(xml: bool, partSize: nat, batches: seq<Batch>, uploads: nat -> bool, k: nat, up: Upload)
    requires 0 < k <= |batches| && k <= FirstShort(batches) + 1 && (k == FirstShort(batches) + 1 || k == |batches|)
    requires Turn(xml, partSize, batches, uploads, k, up)
    ensures var plan := PlanOf(xml, partSize, batches);
      && FineAll(plan, uploads, 0, |plan.texts|) && !Panics(plan, uploads)
      && Progress(partSize, plan.header, plan.texts, up)
  {
    var plan := PlanOf(xml, partSize, batches);
    assert batches[..k] == Reached(batches);
    assert plan.texts[..|plan.texts|] == plan.texts;
    FineNeverPanics(plan, uploads);
  }

  /** The outer loop, up to the first batch that is not full. */
  method WriteAll(xml: bool, partSize: nat, batches: seq<Batch>, uploads: nat -> bool) returns (flow: Flow, up: Upload)
    requires |batches| > 0
    ensures var plan := PlanOf(xml, partSize, batches);
      && (flow == Go <==> FineAll(plan, uploads, 0, |plan.texts|) && FirstShort(batches) < |batches|)
      && (flow == Panic <==> Panics(plan, uploads))
      && (flow == Go ==> Progress(partSize, plan.header, plan.texts, up))
  {
    up := Upload(Header(xml), 1, 0, map[]);
    NothingDone(xml, partSize, batches, uploads);
    var k := 0;
    while true
      invariant k < |batches| && k <= FirstShort(batches) && Turn(xml, partSize, batches, uploads, k, up)
      decreases |batches| - k
    {
      flow, up := WriteNext(xml, partSize, batches, k, up, uploads);
      if flow != Go {
        return;
      }
      FullBatch(batches, k);
      if |batches[k]| != HISTORY_MAX_BATCH_SIZE || k + 1 == |batches| {
        AllDone(xml, partSize, batches, uploads, k + 1, up);
        return if |batches[k]| != HISTORY_MAX_BATCH_SIZE then Go else Fail, up;
      }
      k := k + 1;
    }
  }

  /** Sending what is left makes an archive. */
  lemma {:induction false} LastPart(xml: bool, partSize: nat, batches: seq<Batch>, up: Upload) returns (parts: seq<Bytes>)
    requires |batches| > 0 && |batches[0]| > 0 && Progress(partSize, Header(xml), AllTexts(xml, batches), up)
    ensures |up.content| > 0
    ensures IsArchive(partSize, Header(xml), AllTexts(xml, batches), parts)
    ensures up.partInfos[up.sn := up.content] == Numbered(parts) && up.size + |up.content| == |Concat(parts)| && |parts| == up.sn
  {
    var texts := AllTexts(xml, batches);
    var full :| Written(partSize, Header(xml), texts, full, up.content) && Booked(full, up);
    AllTextsPositive(xml, batches);
    PendingPositive(partSize, |Header(xml)|, texts);
    BookedMore(full, up, up.content, []);
    ConcatSnoc(full, up.content);
    parts := full + [up.content];
    assert parts[..|parts| - 1] == full;
  }

  lemma {:induction false} FineIsRendered(xml: bool, partSize: nat, batches: seq<Batch>, uploads: nat -> bool)
    requires FirstShort(batches) < |batches|
    requires var plan := PlanOf(xml, partSize, batches); FineAll(plan, uploads, 0, |plan.texts|)
    ensures Rendered(Fetched(batches))
  {
    var plan := PlanOf(xml, partSize, batches);
    forall k, i | 0 <= k < |Fetched(batches)| && 0 <= i < |Fetched(batches)[k]| ensures Fetched(batches)[k][i].Some? {
      ReachedPlace(xml, partSize, batches, k);
      PlacedAt(xml, batches[k], plan, |AllTexts(xml, batches[..k])|, i);
      assert FineAt(plan, uploads, |AllTexts(xml, batches[..k])| + i);
    }
  }

  /** Up to the last part, every upload has succeeded. */
  lemma LastPartUploaded(xml: bool, partSize: nat, batches: seq<Batch>, uploads: nat -> bool, sn: nat)
    requires var plan := PlanOf(xml, partSize, batches);
      FineAll(plan, uploads, 0, |plan.texts|) && sn == Flushes(partSize, |plan.header|, plan.texts) + 1 && uploads(sn)
    ensures forall n :: 1 <= n <= sn ==> uploads(n)
  {
    var plan := PlanOf(xml, partSize, batches);
    PartsUploaded(plan, uploads, |plan.texts|);
    TakeAll(plan.texts);
  }

  /** With all uploads good, whatever is fetched and rendered is archived or panics. */
  lemma FailedForAReason(xml: bool, partSize: nat, batches: seq<Batch>, uploads: nat -> bool)
    ensures Smooth(batches, uploads) ==>
      var plan := PlanOf(xml, partSize, batches); Panics(plan, uploads) || Completes(plan, batches, uploads, true)
  {
    if Smooth(batches, uploads) {
      SizesDecide(xml, partSize, batches, uploads);
    }
  }

  /**
    dumpLog from the first batch on: which of its four ends it comes to, for all faults, and
    the parts and the size of an archive.
   */
  method DumpLog(xml: bool, partSize: nat, batches: seq<Batch>, uploads: nat -> bool, closing: bool)
      returns (r: Outcome, ghost parts: seq<Bytes>)
    requires |batches| > 0
    ensures r == Nothing <==> batches[0] == []
    ensures r == Panicked <==> batches[0] != [] && Panics(PlanOf(xml, partSize, batches), uploads)
    ensures r.Archived? <==> batches[0] != [] && Completes(PlanOf(xml, partSize, batches), batches, uploads, closing)
    ensures r.Archived? ==> Rendered(Fetched(batches)) && r.partInfos == Numbered(parts) && r.size == |Concat(parts)|
    ensures r.Archived? ==> IsArchive(partSize, Header(xml), AllTexts(xml, Fetched(batches)), parts)
    ensures r.Archived? ==> Concat(parts) == Document(xml, batches)
    ensures r.Archived? ==> closing && forall sn :: 1 <= sn <= |parts| ==> uploads(sn)
    ensures r == Failed && closing && (forall sn :: uploads(sn)) ==> FirstShort(batches) == |batches| || !Rendered(Fetched(batches))
  {
    if |batches[0]| == 0 {
      return Nothing, [];
    }
    FailedForAReason(xml, partSize, batches, uploads);
    var flow, up := WriteAll(xml, partSize, batches, uploads);
    if flow != Go {
      return if flow == Fail then Failed else Panicked, [];
    }
    FineIsRendered(xml, partSize, batches, uploads);
    ProgressPending(partSize, Header(xml), AllTexts(xml, Fetched(batches)), up);
    ghost var done := LastPart(xml, partSize, Fetched(batches), up);
    if |up.content| > 0 {
      if !uploads(up.sn) {
        return Failed, [];
      }
      up := up.(partInfos := up.partInfos[up.sn := up.content], size := up.size + |up.content|);
    }
    if !closing {
      return Failed, [];
    }
    DocumentIsWritten(xml, partSize, batches, done);
    LastPartUploaded(xml, partSize, batches, uploads, up.sn);
    return Archived(up.partInfos, up.size), done;
  }

  // ------------------------------------------------------------------ when nothing fails

  lemma {:induction false} FirstOverflow(partSize: nat, first: nat, texts: seq<Bytes>) returns (n: nat)
    requires Overflows(partSize, first, texts)
    ensures n < |texts| && Pending(partSize, first, texts[..n]) > partSize
    ensures forall k :: 0 <= k < n ==> Pending(partSize, first, texts[..k]) <= partSize
  {
    var init := texts[..|texts| - 1];
    if Overflows(partSize, first, init) {
      n := FirstOverflow(partSize, first, init);
      assert forall k :: 0 <= k <= n ==> init[..k] == texts[..k];
    } else {
      n := |texts| - 1;
      assert forall k :: 0 <= k < n ==> init[..k] == texts[..k];
    }
  }

  lemma {:induction false} ItemsRendered(batches: seq<Batch>)
    requires Rendered(batches)
    ensures forall n :: 0 <= n < |AllItems(batches)| ==> AllItems(batches)[n].Some?
  {
    if batches != [] { ItemsRendered(batches[..|batches| - 1]); }
  }

  /** Every fetch, every rendering and every upload succeeds. */
  ghost predicate Smooth(batches: seq<Batch>, uploads: nat -> bool) {
    && (forall sn :: uploads(sn))
    && FirstShort(batches) < |batches| && Rendered(Fetched(batches))
  }

  lemma {:induction false} SizesDecideFor(plan: Plan, uploads: nat -> bool)
    requires |plan.texts| == |plan.items| && (forall n :: 0 <= n < |plan.items| ==> plan.items[n].Some?) && forall sn :: uploads(sn)
    ensures if Overflows(plan.partSize, |plan.header|, plan.texts) then Panics(plan, uploads)
      else FineAll(plan, uploads, 0, |plan.texts|)
  {
    if Overflows(plan.partSize, |plan.header|, plan.texts) {
      var n := FirstOverflow(plan.partSize, |plan.header|, plan.texts);
      assert FineAll(plan, uploads, 0, n) && StuckAt(plan, n);
    }
  }

  /** Then the sizes alone decide: it panics if a text meets a buffer over a part, else it completes. */
  lemma {:induction false} SizesDecide(xml: bool, partSize: nat, batches: seq<Batch>, uploads: nat -> bool)
    requires Smooth(batches, uploads)
    ensures var plan := PlanOf(xml, partSize, batches);
      if Overflows(partSize, |plan.header|, plan.texts) then Panics(plan, uploads) else Completes(plan, batches, uploads, true)
  {
    var plan := PlanOf(xml, partSize, batches);
    SameLength(xml, Fetched(batches));
    ItemsRendered(Fetched(batches));
    SizesDecideFor(plan, uploads);
  }

  // ------------------------------------------------------------------ the shape of an archive

  lemma {:induction false} FullPartsSize(parts: seq<Bytes>, partSize: nat)
    requires AllOfSize(parts, partSize)
    ensures |Concat(parts)| == |parts| * partSize
  {
    if parts != [] {
      var init := parts[..|parts| - 1];
      FullPartsSize(init, partSize);
      assert |parts| * partSize == |init| * partSize + partSize;
    }
  }

  /**
    When the header and every text fit in a part, nothing panics, the last part is not empty
    and not over a part, and there are as many parts as the size needs.
   */
  lemma {:induction false} ArchiveShape(partSize: nat, header: Bytes, texts: seq<Bytes>, parts: seq<Bytes>)
    requires IsArchive(partSize, header, texts, parts)
    requires |header| <= partSize && forall i :: 0 <= i < |texts| ==> 0 < |texts[i]| <= partSize
    ensures 0 < |parts[|parts| - 1]| <= partSize
    ensures (|parts| - 1) * partSize < |Concat(parts)| <= |parts| * partSize
  {
    FittingTexts(partSize, |header|, texts);
    var full := parts[..|parts| - 1];
    FullPartsSize(full, partSize);
    assert |parts| * partSize == |full| * partSize + partSize;
  }

  /** A text longer than two parts leaves more than a part behind, so that the next one panics. */
  lemma LongTextPanics(partSize: nat, header: Bytes, texts: seq<Bytes>, long: Bytes, next: Bytes)
    requires |long| > 2 * partSize
    ensures Overflows(partSize, |header|, texts + [long] + [next])
  {
    PendingSnoc(partSize, |header|, texts, long);
    PendingSnoc(partSize, |header|, texts + [long], next);
    PendingNatural(partSize, |header|, texts);
  }

  lemma PendingNatural(partSize: nat, first: nat, texts: seq<Bytes>)
    ensures Pending(partSize, first, texts) >= 0
  {
  }

  // ------------------------------------------------------------------ the XML trailer

  lemma {:induction false} FullBatchTexts(xml: bool, batch: Batch)
    requires |batch| == HISTORY_MAX_BATCH_SIZE
    ensures Texts(xml, batch) == Texts(false, batch)
  {
  }

  lemma {:induction false} FullBatchesTexts(xml: bool, batches: seq<Batch>)
    requires forall k :: 0 <= k < |batches| ==> |batches[k]| == HISTORY_MAX_BATCH_SIZE
    ensures AllTexts(xml, batches) == AllTexts(false, batches)
  {
    if batches != [] {
      var n := |batches| - 1;
      FullBatchesTexts(xml, batches[..n]);
      FullBatchTexts(xml, batches[n]);
    }
  }

  lemma {:induction false} ConcatLast(texts: seq<Bytes>, last: Bytes, more: Bytes)
    ensures Concat(texts + [last + more]) == Concat(texts + [last]) + more
  {
    ConcatSnoc(texts, last + more);
    ConcatSnoc(texts, last);
    Associate(Concat(texts), last, more);
  }

  lemma {:induction false} ShortBatchTexts(xml: bool, batch: Batch)
    requires |batch| != HISTORY_MAX_BATCH_SIZE
    ensures Concat(Texts(xml, batch)) == Concat(Texts(false, batch)) + if xml && batch != [] then XML_TRAILER else []
  {
    if batch == [] || !xml {
      assert Texts(xml, batch) == Texts(false, batch);
    } else {
      var n := |batch| - 1;
      var plain := Texts(false, batch);
      LastTextCloses(batch);
      ConcatLast(plain[..n], plain[n], XML_TRAILER);
    }
  }

  lemma {:induction false} LastTextCloses(batch: Batch)
    requires |batch| != HISTORY_MAX_BATCH_SIZE && batch != []
    ensures var plain, n := Texts(false, batch), |batch| - 1;
      plain == plain[..n] + [plain[n]] && Texts(true, batch) == plain[..n] + [plain[n] + XML_TRAILER]
  {
  }

  lemma {:induction false} LinesAppend(a: Batch, b: Batch)
    ensures Lines(a + b) == Lines(a) + Lines(b)
  {
    if b == [] {
      assert a + b == a;
    } else {
      var init, last := b[..|b| - 1], b[|b| - 1];
      LinesAppend(a, init);
      Associate(Lines(a), Lines(init), (if last.Some? then last.value else []) + [10]);
      assert (a + b)[..|a + b| - 1] == a + init;
    }
  }

  lemma {:induction false} TextsAreLines(batch: Batch, n: nat)
    requires n <= |batch|
    ensures Concat(Texts(false, batch)[..n]) == Lines(batch[..n])
  {
    if n > 0 {
      TextsAreLines(batch, n - 1);
      TakeSnoc(Texts(false, batch), n - 1);
      ConcatSnoc(Texts(false, batch)[..n - 1], Texts(false, batch)[n - 1]);
      assert batch[..n][..n - 1] == batch[..n - 1];
    }
  }

  /** Without the trailer, what is written is the lines of the records. */
  lemma {:induction false} AllTextsAreLines(batches: seq<Batch>)
    ensures Concat(AllTexts(false, batches)) == Lines(AllItems(batches))
  {
    if batches != [] {
      var init, last := batches[..|batches| - 1], batches[|batches| - 1];
      AllTextsAreLines(init);
      TextsAreLines(last, |last|);
      TakeAll(Texts(false, last));
      TakeAll(last);
      ConcatAppend(AllTexts(false, init), Texts(false, last));
      LinesAppend(AllItems(init), last);
    }
  }

  /** The trailer comes once, after the lines of all records, and exactly when the final batch has records. */
  lemma {:induction false} TrailerComesLast(xml: bool, batches: seq<Batch>)
    requires FirstShort(batches) < |batches|
    ensures var n := FirstShort(batches);
      Concat(AllTexts(xml, Fetched(batches))) ==
      Lines(AllItems(batches[..n + 1])) + if xml && batches[n] != [] then XML_TRAILER else []
  {
    var read := Fetched(batches);
    var n := |read| - 1;
    FullBatchesTexts(xml, read[..n]);
    ShortBatchTexts(xml, read[n]);
    ConcatAppend(AllTexts(xml, read[..n]), Texts(xml, read[n]));
    ConcatAppend(AllTexts(false, read[..n]), Texts(false, read[n]));
    Associate(Concat(AllTexts(false, read[..n])), Concat(Texts(false, read[n])), if xml && read[n] != [] then XML_TRAILER else []);
    AllTextsAreLines(read);
  }

  lemma {:induction false} DocumentIsWritten(xml: bool, partSize: nat, batches: seq<Batch>, parts: seq<Bytes>)
    requires FirstShort(batches) < |batches| && IsArchive(partSize, Header(xml), AllTexts(xml, Fetched(batches)), parts)
    ensures Concat(parts) == Document(xml, batches)
  {
    TrailerComesLast(xml, batches);
  }

  lemma {:induction false} CountFull(batches: seq<Batch>)
    requires forall k :: 0 <= k < |batches| ==> |batches[k]| == HISTORY_MAX_BATCH_SIZE
    ensures |AllItems(batches)| == HISTORY_MAX_BATCH_SIZE * |batches|
  {
    if batches != [] {
      CountFull(batches[..|batches| - 1]);
    }
  }

  /** The last batch has records, hence an XML archive its trailer, unless their number is a multiple of the batch size. */
  lemma {:induction false} TrailerMissing(batches: seq<Batch>)
    requires FirstShort(batches) < |batches| && |batches[FirstShort(batches)]| <= HISTORY_MAX_BATCH_SIZE
    ensures batches[FirstShort(batches)] != [] <==> |AllItems(batches[..FirstShort(batches) + 1])| % HISTORY_MAX_BATCH_SIZE != 0
  {
    var n := FirstShort(batches);
    var read := batches[..n + 1];
    CountFull(read[..n]);
    assert |AllItems(read)| == HISTORY_MAX_BATCH_SIZE * n + |read[n]|;
  }

  // ------------------------------------------------------------------ genDownloadFile

  function Min(a: int, b: int): (m: int) {
    if a < b then a else b
  }

  /** What the store answers for [start, end): the bytes it has, or a refusal when the range starts past the end. */
  function Served(stored: Bytes, refused: nat -> Bytes, start: nat, end: nat): (b: Bytes)
    requires start <= end
  {
    if start < |stored| then stored[start..Min(end, |stored|)] else refused(start)
  }

  function Blocks(stored: Bytes, refused: nat -> Bytes, size: nat, n: nat): (b: Bytes)
    requires n == 0 || (n - 1) * READ_BLOCK_SIZE <= size
  {
    if n == 0 then [] else
    var start := (n - 1) * READ_BLOCK_SIZE;
    Blocks(stored, refused, size, n - 1) + Served(stored, refused, start, Min(start + READ_BLOCK_SIZE, size))
  }

  function BlockCount(size: nat): (n: nat)
    ensures (n - 1) * READ_BLOCK_SIZE < size <= n * READ_BLOCK_SIZE || (n == 0 && size == 0)
  {
    (size + READ_BLOCK_SIZE - 1) / READ_BLOCK_SIZE
  }

  /** The ranges tile [0, size): no gap, no overlap. */
  lemma {:induction false} BlocksTile(stored: Bytes, refused: nat -> Bytes, size: nat, n: nat)
    requires size <= |stored| && n <= BlockCount(size)
    ensures n == 0 || (n - 1) * READ_BLOCK_SIZE <= size
    ensures Blocks(stored, refused, size, n) == stored[..Min(n * READ_BLOCK_SIZE, size)]
  {
    if n > 0 {
      BlocksTile(stored, refused, size, n - 1);
      var start := (n - 1) * READ_BLOCK_SIZE;
      var end := Min(start + READ_BLOCK_SIZE, size);
      Extend(stored, start, end);
    }
  }

  lemma Extend(stored: Bytes, start: nat, end: nat)
    requires start <= end <= |stored|
    ensures stored[..start] + stored[start..end] == stored[..end]
  {
  }

  /** What is put before the archive: the byte order mark and, for CSV, the column titles. */
  function Preamble(csv: bool, titles: Bytes): (b: Bytes) {
    BOM + if csv then titles + NEWLINE else []
  }

  /** The content and the count after n blocks. */
  ghost predicate Collected(stored: Bytes, refused: nat -> Bytes, size: nat, preamble: Bytes, n: nat, content: Bytes, readCount: int) {
    && (n == 0 || (n - 1) * READ_BLOCK_SIZE <= size)
    && content == preamble + Blocks(stored, refused, size, n) && readCount == |Blocks(stored, refused, size, n)|
  }

  lemma NextBlock(stored: Bytes, refused: nat -> Bytes, size: nat, preamble: Bytes, n: nat, content: Bytes, readCount: int)
    requires n < BlockCount(size) && Collected(stored, refused, size, preamble, n, content, readCount)
    ensures n * READ_BLOCK_SIZE < size
    ensures var start := n * READ_BLOCK_SIZE;
      var body := Served(stored, refused, start, Min(start + READ_BLOCK_SIZE, size));
      Collected(stored, refused, size, preamble, n + 1, content + body, readCount + |body|)
  {
    var start := n * READ_BLOCK_SIZE;
    Associate(preamble, Blocks(stored, refused, size, n), Served(stored, refused, start, Min(start + READ_BLOCK_SIZE, size)));
  }

  function Accepted(preamble: Bytes, body: Bytes, size: nat): (r: Option<Bytes>) {
    if |body| == size then Some(preamble + body) else None
  }

  method GenDownloadFile(stored: Bytes, size: nat, csv: bool, titles: Bytes, refused: nat -> Bytes, broken: nat -> bool)
      returns (fileContent: Option<Bytes>)
    ensures (exists k :: 0 <= k < BlockCount(size) && broken(k)) ==> fileContent == None
    ensures (forall k :: 0 <= k < BlockCount(size) ==> !broken(k)) ==>
      fileContent == Accepted([0xEF, 0xBB, 0xBF] + if csv then titles + [10] else [], Blocks(stored, refused, size, BlockCount(size)), size)
  {
    var content := BOM;
    if csv {
      content := content + titles + NEWLINE;
    }
    var readCount := 0;
    for blockNum := 0 to BlockCount(size)
      invariant forall k :: 0 <= k < blockNum ==> !broken(k)
      invariant Collected(stored, refused, size, Preamble(csv, titles), blockNum, content, readCount)
    {
      if broken(blockNum) {
        return None;
      }
      NextBlock(stored, refused, size, Preamble(csv, titles), blockNum, content, readCount);
      var start := blockNum * READ_BLOCK_SIZE;
      var body := Served(stored, refused, start, Min(start + READ_BLOCK_SIZE, size));
      content := content + body;
      readCount := readCount + |body|;
    }
    if size != readCount {
      return None;
    }
    return Some(content);
  }

  /** An object of at least the recorded size comes back, cut to that size. */
  lemma WholeDownload(stored: Bytes, size: nat, refused: nat -> Bytes)
    requires size <= |stored|
    ensures Blocks(stored, refused, size, BlockCount(size)) == stored[..size]
  {
    BlocksTile(stored, refused, size, BlockCount(size));
  }

  lemma DownloadAccepted(stored: Bytes, refused: nat -> Bytes, preamble: Bytes)
    ensures Accepted(preamble, Blocks(stored, refused, |stored|, BlockCount(|stored|)), |stored|) == Some(preamble + stored)
  {
    WholeDownload(stored, |stored|, refused);
    TakeAll(stored);
  }

  /** The bytes of the answers to ranges that start past the end. */
  function RefusedBytes(stored: Bytes, refused: nat -> Bytes, n: nat): (b: nat) {
    if n == 0 then 0 else
    var start := (n - 1) * READ_BLOCK_SIZE;
    RefusedBytes(stored, refused, n - 1) + if start < |stored| then 0 else |refused(start)|
  }

  lemma {:induction false} BlocksOfShort(stored: Bytes, refused: nat -> Bytes, size: nat, n: nat)
    requires |stored| < size && n <= BlockCount(size)
    ensures n == 0 || (n - 1) * READ_BLOCK_SIZE <= size
    ensures |Blocks(stored, refused, size, n)| == Min(n * READ_BLOCK_SIZE, |stored|) + RefusedBytes(stored, refused, n)
  {
    if n > 0 {
      BlocksOfShort(stored, refused, size, n - 1);
    }
  }

  /**
    An object shorter than recorded is refused, exactly unless the answers to the ranges past
    its end, which the source takes for content, make up the missing bytes in number.
   */
  lemma ShortObjectRefused(stored: Bytes, size: nat, refused: nat -> Bytes, preamble: Bytes)
    requires |stored| < size
    ensures Accepted(preamble, Blocks(stored, refused, size, BlockCount(size)), size) == None <==>
      RefusedBytes(stored, refused, BlockCount(size)) != size - |stored|
  {
    BlocksOfShort(stored, refused, size, BlockCount(size));
  }

  /** Archive, then download: after the preamble come the header, every record with its line feed, and the trailer. */
  lemma ArchiveRoundTrip(xml: bool, partSize: nat, batches: seq<Batch>, parts: seq<Bytes>, refused: nat -> Bytes, preamble: Bytes)
    requires FirstShort(batches) < |batches|
    requires IsArchive(partSize, Header(xml), AllTexts(xml, Fetched(batches)), parts)
    ensures var stored := Concat(parts);
      Accepted(preamble, Blocks(stored, refused, |stored|, BlockCount(|stored|)), |stored|) == Some(preamble + Document(xml, batches))
  {
    DocumentIsWritten(xml, partSize, batches, parts);
    DownloadAccepted(Concat(parts), refused, preamble);
  }
}
