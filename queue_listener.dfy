/**
 * The notification listener of the v3 client: it reads the stream of
 * `LIST<id>:<STATE>\n` records the notifier sends, buffers an unterminated
 * tail, and puts on the queue the id of every `LIST<id>:IDLE` line, then a
 * None sentinel when the stream ends.
 */
module QueueListener {
  import opened Wrappers
  import opened Notify
  import PyText
  import Seqs

  /** The id a line puts on the queue: the stripped line must split on ':'
    * into "LIST<digits>" and exactly "IDLE", and `int()` must accept the
    * digits; blank and other lines put nothing. */
  function IdleId(line: string): Option<int>
  {
    var m := PyText.Strip(line);
    if m == [] || ':' !in m then None
    else
      var parts := PyText.Split(m, ':');
      if |parts| == 2 && StartsList(parts[0]) && IsIdle(parts[1]) then
        PyText.PyInt(parts[0][4..], 10)
      else None
  }

  /** `startswith("LIST")`, character by character. */
  predicate StartsList(p: string)
  {
    |p| >= 4 && p[0] == 'L' && p[1] == 'I' && p[2] == 'S' && p[3] == 'T'
  }

  /** `== "IDLE"`, character by character. */
  predicate IsIdle(p: string)
  {
    |p| == 4 && p[0] == 'I' && p[1] == 'D' && p[2] == 'L' && p[3] == 'E'
  }

  /** The ids a sequence of complete lines puts on the queue, in order. */
  function IdleIds(lines: seq<string>): seq<int>
  {
    Gather(lines, Picked)
  }

  /** What f gives for each line, in order of the lines. */
  function Gather(lines: seq<string>, f: string -> seq<int>): seq<int>
  {
    if lines == [] then [] else Gather(lines[..|lines| - 1], f) + f(lines[|lines| - 1])
  }

  /** What one line puts on the queue. */
  function Picked(line: string): seq<int>
  {
    var id := IdleId(line);
    if id.Some? then [id.value] else []
  }

  lemma IdleIdsAppend(a: seq<string>, b: seq<string>)
    ensures IdleIds(a + b) == IdleIds(a) + IdleIds(b)
  {
    GatherAppend(a, b, Picked);
  }

  lemma {:induction false} GatherAppend(a: seq<string>, b: seq<string>, f: string -> seq<int>)
    ensures Gather(a + b, f) == Gather(a, f) + Gather(b, f)
  {
    if b == [] {
      assert a + b == a;
    } else {
      var c := a + b;
      var last := b[|b| - 1];
      assert c[..|c| - 1] == a + b[..|b| - 1];
      assert c[|c| - 1] == last;
      GatherAppend(a, b[..|b| - 1], f);
      Seqs.AppendAssoc(Gather(a, f), Gather(b[..|b| - 1], f), f(last));
    }
  }

  /** Where `split(b'\n', 1)` cuts: the first occurrence of c. */
  function IndexOf(s: string, c: char): (j: nat)
    requires c in s
    ensures j < |s| && s[j] == c && c !in s[..j]
  {
    if s[0] == c then 0
    else
      var j := IndexOf(s[1..], c);
      assert s[1..][..j] == s[1..j + 1];
      1 + j
  }

  /** The inner loop of the listener: while the buffer holds a newline, cut
    * off the first line and enqueue its id; returns the ids and the
    * unterminated tail left in the buffer. */
  method DrainLines(buffer: string) returns (ids: seq<int>, rest: string)
    ensures ids == IdleIds(Lines(buffer)) && rest == Tail(buffer)
  {
    ids, rest := [], buffer;
    ghost var done: seq<string> := [];
    while '\n' in rest
      invariant PyText.Split(buffer, '\n') == done + PyText.Split(rest, '\n')
      invariant ids == IdleIds(done)
      decreases |rest|
    {
      var j := IndexOf(rest, '\n');
      var message, after := rest[..j], rest[j + 1..];
      CutLine(rest, j, done);
      var id := IdleId(message);
      if id.Some? {
        ids := ids + [id.value];
      }
      done := done + [message];
      rest := after;
    }
    PyText.SplitNoSep(rest, '\n');
  }

  /** Cutting the first line off the buffer moves it to the lines done. */
  lemma CutLine(rest: string, j: nat, done: seq<string>)
    requires j < |rest| && rest[j] == '\n' && '\n' !in rest[..j]
    ensures done + PyText.Split(rest, '\n') == (done + [rest[..j]]) + PyText.Split(rest[j + 1..], '\n')
    ensures (done + [rest[..j]])[..|done|] == done
  {
    assert rest == rest[..j] + ['\n'] + rest[j + 1..];
    PyText.SplitPrefix(rest[..j], rest[j + 1..], '\n');
  }

  /** All the data received, chunk after chunk. */
  function Concat(chunks: seq<string>): string
  {
    if chunks == [] then [] else Concat(chunks[..|chunks| - 1]) + chunks[|chunks| - 1]
  }

  /** The queue entries for a sequence of ids. */
  function Entries(ids: seq<int>): (r: seq<Option<int>>)
    ensures |r| == |ids| && forall k :: 0 <= k < |ids| ==> r[k] == Some(ids[k])
  {
    seq(|ids|, k requires 0 <= k < |ids| => Some(ids[k]))
  }

  /** The lines complete in a text, and the tail after its last newline. */
  function Lines(text: string): seq<string>
  {
    var p := PyText.Split(text, '\n');
    p[..|p| - 1]
  }

  function Tail(text: string): string
  {
    var p := PyText.Split(text, '\n');
    p[|p| - 1]
  }

  /** `notification_listener` after it has connected, over the non-empty
    * chunks `recv` returns before the server closes the channel: every
    * IDLE id of every complete line in order, then the sentinel. */
  method Listener(chunks: seq<string>) returns (queue: seq<Option<int>>)
    ensures queue == Entries(IdleIds(Lines(Concat(chunks)))) + [None]
  {
    var buffer: string := [];
    var ids: seq<int> := [];
    var i := 0;
    while i < |chunks|
      invariant 0 <= i <= |chunks|
      invariant ids == IdleIds(Lines(Concat(chunks[..i])))
      invariant buffer == Tail(Concat(chunks[..i]))
    {
      var received := buffer + chunks[i];
      var more, rest := DrainLines(received);
      ReceiveStep(chunks, i);
      ids, buffer := ids + more, rest;
      i := i + 1;
    }
    assert chunks[..i] == chunks;
    queue := Entries(ids) + [None];
  }

  /** Receiving chunk i: the ids of the lines complete before it, then those
    * of the lines the buffered tail and the chunk complete together. */
  lemma ReceiveStep(chunks: seq<string>, i: nat)
    requires i < |chunks|
    ensures var before := Concat(chunks[..i]);
      var received := Tail(before) + chunks[i];
      IdleIds(Lines(Concat(chunks[..i + 1]))) == IdleIds(Lines(before)) + IdleIds(Lines(received)) &&
      Tail(Concat(chunks[..i + 1])) == Tail(received)
  {
    var before := Concat(chunks[..i]);
    assert chunks[..i + 1][..i] == chunks[..i];
    assert Concat(chunks[..i + 1]) == before + chunks[i];
    LinesAppend(before, chunks[i]);
    IdleIdsAppend(Lines(before), Lines(Tail(before) + chunks[i]));
  }

  /** More text completes the buffered tail: the lines already complete stay,
    * and the tail continued by the text is split on its own. */
  lemma LinesAppend(a: string, b: string)
    ensures Lines(a + b) == Lines(a) + Lines(Tail(a) + b)
    ensures Tail(a + b) == Tail(Tail(a) + b)
  {
    PyText.SplitAppend(a, b, '\n');
  }

  /** The text of a notifier record without its newline. */
  function Body(id: nat, st: Status): string
    requires id <= 1
  {
    Tag(id) + [':'] + StatusName(st)
  }

  function Tag(id: nat): string
    requires id <= 1
  {
    "LIST" + PyText.DecStr(id)
  }

  lemma RecordBody(id: nat, st: Status)
    requires id <= 1
    ensures Record(id, st) == Body(id, st) + ['\n']
  {
    assert PyText.DecStr(id) == (if id == 0 then "0" else "1");
  }

  /** A record is one complete line and leaves nothing buffered. */
  lemma {:induction false} RecordLine(id: nat, st: Status)
    requires id <= 1
    ensures Lines(Record(id, st)) == [Body(id, st)] && Tail(Record(id, st)) == []
  {
    RecordBody(id, st);
    NoNewline(id, st);
    PyText.SplitPrefix(Body(id, st), [], '\n');
    assert Body(id, st) + ['\n'] + [] == Record(id, st);
  }

  lemma NoNewline(id: nat, st: Status)
    requires id <= 1
    ensures '\n' !in Body(id, st)
  {
    assert PyText.DecStr(id) == (if id == 0 then "0" else "1");
  }

  /** The listener queues the id of a record exactly when it says IDLE. */
  lemma {:induction false} BodyIdle(id: nat, st: Status)
    requires id <= 1
    ensures IdleId(Body(id, st)) == if st == Idle then Some(id) else None
  {
    var b := Body(id, st);
    BodyUnspaced(id, st);
    PyText.StripUnspaced(b);
    BodyParts(id, st);
    PyText.PyIntDecStr(id);
    assert Tag(id)[4..] == PyText.DecStr(id);
    NameIdle(st);
  }

  lemma BodyUnspaced(id: nat, st: Status)
    requires id <= 1
    ensures var b := Body(id, st); |b| > 5 && b[5] == ':' && !PyText.IsSpace(b[0]) && !PyText.IsSpace(b[|b| - 1])
  {
    assert PyText.DecStr(id) == (if id == 0 then "0" else "1");
  }

  lemma BodyParts(id: nat, st: Status)
    requires id <= 1
    ensures PyText.Split(Body(id, st), ':') == [Tag(id), StatusName(st)] && StartsList(Tag(id))
  {
    assert PyText.DecStr(id) == (if id == 0 then "0" else "1");
    assert ':' !in Tag(id);
    assert ':' !in StatusName(st);
    PyText.SplitPrefix(Tag(id), StatusName(st), ':');
    PyText.SplitNoSep(StatusName(st), ':');
  }

  lemma NameIdle(st: Status)
    ensures IsIdle(StatusName(st)) <==> st == Idle
  {
  }

  /** The texts of a run of records, as the notifier writes them. */
  function RecordTexts(recs: seq<(nat, Status)>): (r: seq<string>)
    requires forall k :: 0 <= k < |recs| ==> recs[k].0 <= 1
    ensures |r| == |recs|
  {
    if recs == [] then []
    else RecordTexts(recs[..|recs| - 1]) + [Record(recs[|recs| - 1].0, recs[|recs| - 1].1)]
  }

  /** The lists a run of records announces as idle, in order. */
  function Idles(recs: seq<(nat, Status)>): seq<int>
  {
    if recs == [] then []
    else Idles(recs[..|recs| - 1]) + (if recs[|recs| - 1].1 == Idle then [recs[|recs| - 1].0] else [])
  }

  /** However the records of the notifier are cut into chunks, the listener
    * queues the ids of exactly the IDLE records, in order, and leaves
    * nothing buffered. */
  lemma {:induction false} RecordsHeard(recs: seq<(nat, Status)>)
    requires forall k :: 0 <= k < |recs| ==> recs[k].0 <= 1
    ensures IdleIds(Lines(Concat(RecordTexts(recs)))) == Idles(recs)
    ensures Tail(Concat(RecordTexts(recs))) == []
  {
    if recs == [] {
      PyText.SplitNoSep([], '\n');
    } else {
      var init := recs[..|recs| - 1];
      var (id, st) := recs[|recs| - 1];
      RecordsHeard(init);
      var texts := RecordTexts(recs);
      assert texts[..|texts| - 1] == RecordTexts(init);
      var before := Concat(RecordTexts(init));
      LinesAppend(before, Record(id, st));
      assert [] + Record(id, st) == Record(id, st);
      RecordLine(id, st);
      BodyIdle(id, st);
      IdleIdsAppend(Lines(before), [Body(id, st)]);
      assert IdleIds([Body(id, st)]) == Picked(Body(id, st)) by {
        assert [Body(id, st)][..0] == [];
      }
    }
  }

  /** A client that connects to a notifier with no listener receives the
    * status of list 0 and then of list 1, and queues each list that is idle. */
  lemma ConnectHeard(v: NotifyView)
    requires NotifyOk(v) && v.delivered == []
    ensures var w := Listen(v);
      IdleIds(Lines(Concat(w.delivered))) ==
        (if v.status[0] == Idle then [0] else []) + (if v.status[1] == Idle then [1] else [])
  {
    ListenAnnounces(v);
    var recs := Announced(v.status[0], v.status[1]);
    AnnouncedTexts(v.status[0], v.status[1]);
    RecordsHeard(recs);
    AnnouncedIdles(v.status[0], v.status[1]);
  }

  function Announced(s0: Status, s1: Status): (r: seq<(nat, Status)>)
    ensures forall k :: 0 <= k < |r| ==> r[k].0 <= 1
  {
    [(0, s0), (1, s1)]
  }

  lemma AnnouncedTexts(s0: Status, s1: Status)
    ensures RecordTexts(Announced(s0, s1)) == [Record(0, s0), Record(1, s1)]
  {
    assert Announced(s0, s1)[..1] == [(0, s0)];
  }

  lemma AnnouncedIdles(s0: Status, s1: Status)
    ensures Idles(Announced(s0, s1)) == (if s0 == Idle then [0] else []) + (if s1 == Idle then [1] else [])
  {
    assert Announced(s0, s1)[..1] == [(0, s0)];
  }
}
