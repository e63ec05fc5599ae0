/**
  The transfer-log scan shared by the buffered and the no-wait worker hooks.
  A worker keeps two growing logs of data transfers; each hook set keeps one
  cursor per log, the length of the log when it last forwarded from it. On
  each task transition a hook set takes the slice `log[c-1:]` of a log that
  has grown past its cursor `c`, tags every entry of the slice in place and
  forwards the slice.
 */
module TransferLog {
  import opened Values

  datatype Direction = Incoming | Outgoing

  function TypeTag(d: Direction): string
  {
    match d
    case Incoming => "incoming_transfer"
    case Outgoing => "outgoing_transfer"
  }

  /** The fields the tagging adds or overwrites. */
  const TagFields: set<string> := {"type", "called_from", "time", "keys"}

  /** An entry after `e.update({"type": …, "called_from": name, "time": now,
      "keys": str(e["keys"])})`. */
  function TagEntry(e: Record, d: Direction, name: Value, now: Value): Record
    requires "keys" in e
  {
    e["type" := Str(TypeTag(d))]["called_from" := name]["time" := now]["keys" := Str(ToStr(e["keys"]))]
  }

  /** The tags a forwarded entry carries, and nothing else of it changes. */
  lemma TagEntryFields(e: Record, d: Direction, name: Value, now: Value)
    requires "keys" in e
    ensures var t := TagEntry(e, d, name, now);
      && t.Keys == e.Keys + TagFields
      && t["type"] == Str(TypeTag(d))
      && t["called_from"] == name
      && t["time"] == now
      && t["keys"] == Str(ToStr(e["keys"]))
      && forall k :: k in e && k !in TagFields ==> t[k] == e[k]
  {
  }

  /** Tagging an entry that is already tagged only refreshes its time: its
      keys, already text, stay the same text. This is what happens to the
      entry a scan sends a second time. */
  lemma RetagRefreshesTime(e: Record, d: Direction, name: Value, now: Value, later: Value)
    requires "keys" in e
    ensures "keys" in TagEntry(e, d, name, now)
    ensures TagEntry(TagEntry(e, d, name, now), d, name, later) == TagEntry(e, d, name, later)
  {
    var t := TagEntry(e, d, name, now);
    ToStrIdempotent(e["keys"]);
    assert TagEntry(t, d, name, later) == TagEntry(e, d, name, later);
  }

  /** The position at or after `i` of the first entry without `keys`, or the
      length of the log when all have one: where the tagging raises KeyError. */
  function KeysEnd(log: seq<Record>, i: nat): (k: nat)
    requires i <= |log|
    ensures i <= k <= |log|
    ensures forall j :: i <= j < k ==> "keys" in log[j]
    ensures k < |log| ==> "keys" !in log[k]
    decreases |log| - i
  {
    if i == |log| || "keys" !in log[i] then i else KeysEnd(log, i + 1)
  }

  /** The log with the entries at positions `s` up to `k` tagged. */
  function Tagged(log: seq<Record>, s: nat, k: nat, d: Direction, name: Value, now: Value): seq<Record>
    requires s <= k <= |log|
    requires forall j :: s <= j < k ==> "keys" in log[j]
  {
    seq(|log|, j requires 0 <= j < |log| => if s <= j < k then TagEntry(log[j], d, name, now) else log[j])
  }

  /** The list comprehension that tags `log[s:]` entry by entry. The entries
      refer to the dicts inside the worker's own log, so the tags land in the
      log; the first entry without `keys` raises (`ok` is false) and leaves
      it and every later entry as they were, the earlier ones tagged. */
  method TagEntries(log: seq<Record>, s: nat, d: Direction, name: Value, now: Value)
    returns (tagged: seq<Record>, ok: bool)
    requires s <= |log|
    ensures var k := KeysEnd(log, s);
      && tagged == Tagged(log, s, k, d, name, now)
      && (ok <==> k == |log|)
  {
    tagged := log;
    var i := s;
    while i < |log|
      invariant s <= i <= |log| && |tagged| == |log|
      invariant forall j :: s <= j < i ==> "keys" in log[j]
      invariant tagged == Tagged(log, s, i, d, name, now)
    {
      if "keys" !in log[i] {
        assert KeysEnd(log, s) == i by { KeysEndAt(log, s, i); }
        return tagged, false;
      }
      TaggedStep(log, s, i, d, name, now);
      tagged := tagged[i := TagEntry(log[i], d, name, now)];
      i := i + 1;
    }
    assert KeysEnd(log, s) == |log| by { KeysEndAt(log, s, |log|); }
    ok := true;
  }

  /** Tagging one more entry extends the tagged range by one. */
  lemma TaggedStep(log: seq<Record>, s: nat, i: nat, d: Direction, name: Value, now: Value)
    requires s <= i < |log|
    requires forall j :: s <= j <= i ==> "keys" in log[j]
    ensures Tagged(log, s, i + 1, d, name, now) == Tagged(log, s, i, d, name, now)[i := TagEntry(log[i], d, name, now)]
  {
  }

  /** `KeysEnd` is the first position without `keys`. */
  lemma KeysEndAt(log: seq<Record>, s: nat, i: nat)
    requires s <= i <= |log|
    requires forall j :: s <= j < i ==> "keys" in log[j]
    requires i < |log| ==> "keys" !in log[i]
    ensures KeysEnd(log, s) == i
  {
  }

  /** Where the slice `log[c-1:]` starts in a log of length `n`: one before
      the cursor, or the last entry when the cursor is 0. */
  function ScanStart(c: nat, n: nat): nat
  {
    ClampIndex(n, c - 1)
  }

  /** What one scan of one log does: the log with its tags, the new cursor,
      the tagged entries to forward, and whether the tagging ran to the end.
      A log that has not grown past the cursor is left alone. */
  datatype Scan = Scan(log: seq<Record>, cursor: nat, sent: seq<Record>, ok: bool)

  /** A scan that forwards the entries from position `s` on. */
  function ScanFrom(log: seq<Record>, c: nat, s: nat, d: Direction, name: Value, now: Value): Scan
    requires s <= |log|
  {
    if |log| <= c then Scan(log, c, [], true)
    else
      var k := KeysEnd(log, s);
      var tagged := Tagged(log, s, k, d, name, now);
      if k < |log| then Scan(tagged, c, [], false)
      else Scan(tagged, |log|, tagged[s..], true)
  }

  /** The scan as the hooks do it: from `log[c-1:]`. */
  function ScanLog(log: seq<Record>, c: nat, d: Direction, name: Value, now: Value): Scan
  {
    ScanFrom(log, c, ScanStart(c, |log|), d, name, now)
  }

  /** The cursor never decreases: it moves only when the log has grown past it
      and every entry of the slice could be tagged, and then it becomes the
      log's length. The log keeps its length, and a failed scan forwards
      nothing. */
  lemma ScanCursor(log: seq<Record>, c: nat, d: Direction, name: Value, now: Value)
    ensures var r := ScanLog(log, c, d, name, now);
      && |r.log| == |log|
      && c <= r.cursor
      && (r.cursor != c <==> |log| > c && r.ok)
      && (r.cursor != c ==> r.cursor == |log|)
      && (!r.ok ==> r.sent == [] && r.cursor == c)
      && (|log| <= c ==> r == Scan(log, c, [], true))
  {
  }

  /** The slice the hooks forward when the log has grown past the cursor:
      the entries at `SentPositions`, that is from `ScanStart` to the end,
      tagged, in log order; no entry before the slice is touched. */
  lemma ScanForwardsSlice(log: seq<Record>, c: nat, d: Direction, name: Value, now: Value)
    requires |log| > c
    ensures var r := ScanLog(log, c, d, name, now); var s := ScanStart(c, |log|);
      var positions := SentPositions(c, |log|);
      r.ok ==>
        && |r.sent| == |positions| == |log| - s
        && (forall j :: 0 <= j < |r.sent| ==>
              positions[j] == s + j && "keys" in log[s + j] && r.sent[j] == TagEntry(log[s + j], d, name, now))
        && r.log[..s] == log[..s]
  {
    ScanFromSlice(log, c, ScanStart(c, |log|), d, name, now);
  }

  /** A scan from any start `s` forwards the tagged entries from `s` on. */
  lemma ScanFromSlice(log: seq<Record>, c: nat, s: nat, d: Direction, name: Value, now: Value)
    requires s <= |log| && |log| > c
    ensures var r := ScanFrom(log, c, s, d, name, now);
      r.ok ==>
        && |r.sent| == |log| - s
        && (forall j :: 0 <= j < |r.sent| ==> "keys" in log[s + j] && r.sent[j] == TagEntry(log[s + j], d, name, now))
        && r.log[..s] == log[..s]
  {
    var k := KeysEnd(log, s);
    if k == |log| {
      var tagged := Tagged(log, s, k, d, name, now);
      assert ScanFrom(log, c, s, d, name, now).sent == tagged[s..];
      assert tagged[..s] == log[..s];
    }
  }

  /** With the cursor at 0 the slice `log[-1:]` holds only the last entry. */
  lemma ZeroCursorSendsLastOnly(log: seq<Record>, d: Direction, name: Value, now: Value)
    requires |log| > 0
    ensures ScanStart(0, |log|) == |log| - 1
    ensures var r := ScanLog(log, 0, d, name, now);
      r.ok ==> |r.sent| == 1 && r.sent[0] == TagEntry(log[|log| - 1], d, name, now)
  {
  }

  /** With a cursor `c >= 1` the slice starts at `c-1`: the last entry the
      previous scan forwarded is forwarded again. */
  lemma PositiveCursorResends(log: seq<Record>, c: nat, d: Direction, name: Value, now: Value)
    requires 1 <= c < |log|
    ensures ScanStart(c, |log|) == c - 1
    ensures var r := ScanLog(log, c, d, name, now);
      r.ok ==> |r.sent| == |log| - c + 1 && r.sent[0] == TagEntry(log[c - 1], d, name, now)
  {
  }

  // ---------------------------------------------------------------------
  // Delivery over a run of scans

  /** The positions one scan forwards when the log has length `n`. */
  function SentPositions(c: nat, n: nat): seq<nat>
  {
    if n <= c then [] else Range(ScanStart(c, n), n)
  }

  function Range(lo: nat, hi: nat): (r: seq<nat>)
    ensures |r| == if lo <= hi then hi - lo else 0
    ensures forall j :: 0 <= j < |r| ==> r[j] == lo + j
  {
    seq(if lo <= hi then hi - lo else 0, j => lo + j)
  }

  /** The positions forwarded across scans that find the log at lengths
      `lengths`, in order, from cursor `c`; every tagging succeeds. */
  function AllSent(c: nat, lengths: seq<nat>): seq<nat>
    decreases |lengths|
  {
    if |lengths| == 0 then []
    else
      var n := lengths[0];
      SentPositions(c, n) + AllSent(if n > c then n else c, lengths[1..])
  }

  /** As written, two scans of a log that grows from one entry to two forward
      the first entry twice. */
  lemma AsWrittenDuplicates()
    ensures AllSent(0, [1, 2]) == [0, 0, 1]
  {
    assert SentPositions(0, 1) == [0];
    assert SentPositions(1, 2) == [0, 1];
    assert AllSent(2, []) == [];
    assert [1, 2][1..] == [2];
  }

  /** As written, a first scan that finds two entries forwards only the
      second, and the first is never forwarded by any later scan either,
      however the log grows. */
  lemma AsWrittenLoses(later: seq<nat>)
    ensures AllSent(0, [2]) == [1]
    ensures 0 !in AllSent(0, [2] + later)
  {
    assert SentPositions(0, 2) == [1];
    assert ([2] + later)[1..] == later;
    SentFromAtLeast(2, later);
  }

  /** Once the cursor is `c >= 1`, no later scan forwards a position before
      `c - 1`. */
  lemma {:induction false} SentFromAtLeast(c: nat, lengths: seq<nat>)
    requires c >= 1
    ensures forall j :: 0 <= j < |AllSent(c, lengths)| ==> AllSent(c, lengths)[j] >= c - 1
    decreases |lengths|
  {
    if |lengths| > 0 {
      var n := lengths[0];
      var c' := if n > c then n else c;
      SentFromAtLeast(c', lengths[1..]);
      assert AllSent(c, lengths) == SentPositions(c, n) + AllSent(c', lengths[1..]);
    }
  }

  /** The evidently intended slice: `log[c:]`, the entries added since the
      last scan. */
  function FreshPositions(c: nat, n: nat): seq<nat>
  {
    if n <= c then [] else Range(c, n)
  }

  /** The intended scan: from the cursor itself. */
  function FreshScan(log: seq<Record>, c: nat, d: Direction, name: Value, now: Value): Scan
  {
    ScanFrom(log, c, if c <= |log| then c else |log|, d, name, now)
  }

  /** The positions the intended scans forward across a run of scans. */
  function AllFresh(c: nat, lengths: seq<nat>): seq<nat>
    decreases |lengths|
  {
    if |lengths| == 0 then []
    else
      var n := lengths[0];
      FreshPositions(c, n) + AllFresh(if n > c then n else c, lengths[1..])
  }

  /** The largest of `c` and the lengths: where the cursor ends. */
  function Reach(c: nat, lengths: seq<nat>): (r: nat)
    ensures r >= c
    ensures forall j :: 0 <= j < |lengths| ==> r >= lengths[j]
    decreases |lengths|
  {
    if |lengths| == 0 then c
    else Reach(if lengths[0] > c then lengths[0] else c, lengths[1..])
  }

  /** The intended scans forward every position from the cursor on exactly
      once and in log order, however the log grows between scans. */
  lemma {:induction false} FreshExactlyOnce(c: nat, lengths: seq<nat>)
    ensures AllFresh(c, lengths) == Range(c, Reach(c, lengths))
    decreases |lengths|
  {
    if |lengths| > 0 {
      var n := lengths[0];
      var c' := if n > c then n else c;
      FreshExactlyOnce(c', lengths[1..]);
      assert AllFresh(c, lengths) == FreshPositions(c, n) + Range(c', Reach(c, lengths));
      assert FreshPositions(c, n) == Range(c, c');
      RangeSplit(c, c', Reach(c, lengths));
    }
  }

  lemma RangeSplit(lo: nat, mid: nat, hi: nat)
    requires lo <= mid <= hi
    ensures Range(lo, mid) + Range(mid, hi) == Range(lo, hi)
  {
  }

  /** The intended scan forwards exactly the entries added since the cursor,
      tagged, and moves the cursor to the end of the log. */
  lemma FreshScanForwardsNew(log: seq<Record>, c: nat, d: Direction, name: Value, now: Value)
    requires c < |log|
    requires forall j :: c <= j < |log| ==> "keys" in log[j]
    ensures var r := FreshScan(log, c, d, name, now);
      && r.ok && r.cursor == |log|
      && |r.sent| == |log| - c
      && forall j :: 0 <= j < |r.sent| ==> r.sent[j] == TagEntry(log[c + j], d, name, now)
  {
    KeysEndAt(log, c, |log|);
  }
}
