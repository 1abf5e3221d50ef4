/**
 Splitting a byte stream into server-sent events (crates/pt-gateway/src/sse.rs). What one
 event's text says is a parameter.
 */
module Sse {
  import opened Prelude

  type Byte = b: int | 0 <= b < 256

  type Bytes = seq<Byte>

  const LF: Byte := 10
  const CR: Byte := 13

  // ---------------------------------------------------------------------------
  // Where the first event ends
  // ---------------------------------------------------------------------------

  predicate MatchesAt(buf: Bytes, pat: Bytes, i: int) {
    0 <= i && i + |pat| <= |buf| && buf[i..i + |pat|] == pat
  }

  /** `windows(..).position(..)`: the first match from `from` on. */
  function Position(buf: Bytes, pat: Bytes, from: nat): (r: Option<nat>)
    ensures r.Some? ==> r.value >= from && MatchesAt(buf, pat, r.value) && forall i :: from <= i < r.value ==> !MatchesAt(buf, pat, i)
    ensures r.None? ==> forall i :: from <= i ==> !MatchesAt(buf, pat, i)
    decreases |buf| - from
  {
    if from + |pat| > |buf| then None
    else if buf[from..from + |pat|] == pat then Some(from)
    else Position(buf, pat, from + 1)
  }

  const BLANK_LF: Bytes := [LF, LF]
  const BLANK_CRLF: Bytes := [CR, LF, CR, LF]

  function FindEventEnd(buf: Bytes): Option<nat> {
    var lf := Position(buf, BLANK_LF, 0);
    var crlf := Position(buf, BLANK_CRLF, 0);
    if lf.Some? && crlf.Some? then Some(Min(lf.value + 2, crlf.value + 4))
    else if lf.Some? then Some(lf.value + 2)
    else if crlf.Some? then Some(crlf.value + 4)
    else None
  }

  /** A blank line ends just before `e`: two LFs or two CRLFs (section 9.2.5 of the WHATWG
      HTML Standard). */
  predicate EndsAt(buf: Bytes, e: int) {
    MatchesAt(buf, BLANK_LF, e - 2) || MatchesAt(buf, BLANK_CRLF, e - 4)
  }

  /** The end found is the first there is. */
  lemma FirstEnd(buf: Bytes)
    ensures FindEventEnd(buf).None? ==> forall e: int :: !EndsAt(buf, e)
    ensures FindEventEnd(buf).Some? ==>
      var e := FindEventEnd(buf).value;
      2 <= e <= |buf| && EndsAt(buf, e) && forall d: int :: d < e ==> !EndsAt(buf, d)
  {
    var lf := Position(buf, BLANK_LF, 0);
    var crlf := Position(buf, BLANK_CRLF, 0);
    var r := FindEventEnd(buf);
    forall d: int | r.None? || d < r.value
      ensures !EndsAt(buf, d)
    {
      assert lf.Some? && 0 <= d - 2 < lf.value ==> !MatchesAt(buf, BLANK_LF, d - 2);
      assert crlf.Some? && 0 <= d - 4 < crlf.value ==> !MatchesAt(buf, BLANK_CRLF, d - 4);
    }
  }

  /** More bytes do not change whether a blank line ends within those there were. */
  lemma EndsAtStable(buf: Bytes, more: Bytes, e: int)
    requires e <= |buf|
    ensures EndsAt(buf + more, e) <==> EndsAt(buf, e)
  {
    assert e >= 2 ==> (buf + more)[e - 2..e] == buf[e - 2..e];
    assert e >= 4 ==> (buf + more)[e - 4..e] == buf[e - 4..e];
  }

  /** So an end once found stays the end. */
  lemma FindEndStable(buf: Bytes, more: Bytes)
    requires FindEventEnd(buf).Some?
    ensures FindEventEnd(buf + more) == FindEventEnd(buf)
  {
    var e := FindEventEnd(buf).value;
    FirstEnd(buf);
    FirstEnd(buf + more);
    EndsAtStable(buf, more, e);
    var r := FindEventEnd(buf + more);
    if r.value < e {
      EndsAtStable(buf, more, r.value);
    }
  }

  // ---------------------------------------------------------------------------
  // Events
  // ---------------------------------------------------------------------------

  /** The complete events of a stream. */
  function Events(buf: Bytes): seq<Bytes>
    decreases |buf|
  {
    var end := FindEventEnd(buf);
    if end.None? || !(0 < end.value <= |buf|) then [] else [buf[..end.value]] + Events(buf[end.value..])
  }

  /** What is left after them. */
  function Rest(buf: Bytes): Bytes
    decreases |buf|
  {
    var end := FindEventEnd(buf);
    if end.None? || !(0 < end.value <= |buf|) then buf else Rest(buf[end.value..])
  }

  function Concat(parts: seq<Bytes>): Bytes {
    if parts == [] then [] else parts[0] + Concat(parts[1..])
  }

  lemma Associates<T>(a: seq<T>, b: seq<T>, c: seq<T>)
    ensures a + b + c == a + (b + c)
  {
  }

  /** Nothing is lost and nothing invented. */
  lemma {:induction false} EventsAreTheStream(buf: Bytes)
    ensures Concat(Events(buf)) + Rest(buf) == buf
    decreases |buf|
  {
    FirstEnd(buf);
    hide FindEventEnd, EndsAt;
    var end := FindEventEnd(buf);
    if end.Some? {
      var first, rest := buf[..end.value], buf[end.value..];
      EventsAreTheStream(rest);
      assert ([first] + Events(rest))[1..] == Events(rest);
      Associates(first, Concat(Events(rest)), Rest(rest));
      assert buf == first + rest;
    }
  }

  /** Reading on from what was left finds the same events. */
  lemma {:induction false} EventsResume(buf: Bytes, more: Bytes)
    ensures Events(buf + more) == Events(buf) + Events(Rest(buf) + more)
    ensures Rest(buf + more) == Rest(Rest(buf) + more)
    decreases |buf|
  {
    FirstEnd(buf);
    hide FindEventEnd, EndsAt;
    var end := FindEventEnd(buf);
    if end.Some? {
      var e := end.value;
      FindEndStable(buf, more);
      assert (buf + more)[..e] == buf[..e] && (buf + more)[e..] == buf[e..] + more;
      EventsResume(buf[e..], more);
      assert [buf[..e]] + (Events(buf[e..]) + Events(Rest(buf[e..]) + more)) == [buf[..e]] + Events(buf[e..]) + Events(Rest(buf[e..]) + more);
    } else {
      assert [] + Events(buf + more) == Events(buf + more);
    }
  }

  /** Each event runs up to the first blank line and no further; what is left has none. */
  lemma {:induction false} EventsAreSingle(buf: Bytes)
    ensures forall i :: 0 <= i < |Events(buf)| ==> var e := Events(buf)[i]; EndsAt(e, |e|) && forall d: int :: d < |e| ==> !EndsAt(e, d)
    ensures forall d: int :: !EndsAt(Rest(buf), d)
    decreases |buf|
  {
    FirstEnd(buf);
    hide FindEventEnd, EndsAt;
    var end := FindEventEnd(buf);
    if end.Some? {
      var first, rest := buf[..end.value], buf[end.value..];
      EventsAreSingle(rest);
      assert first + rest == buf;
      forall d: int | d <= |first|
        ensures EndsAt(first, d) <==> EndsAt(buf, d)
      {
        EndsAtStable(first, rest, d);
      }
    }
  }

  lemma {:induction false} RestIsPartial(buf: Bytes)
    ensures FindEventEnd(Rest(buf)).None? && Events(Rest(buf)) == [] && Rest(Rest(buf)) == Rest(buf)
    decreases |buf|
  {
    FirstEnd(buf);
    var end := FindEventEnd(buf);
    if end.Some? {
      RestIsPartial(buf[end.value..]);
    }
  }

  // ---------------------------------------------------------------------------
  // Inspection
  // ---------------------------------------------------------------------------

  datatype Usage = Usage(prompt: nat, cached: nat, completion: nat)

  /** What one event says. */
  datatype Said = Said(content: bool, usage: Option<Usage>, usageOnly: bool)

  datatype Observations = Observations(usage: Option<Usage>, firstContentAt: Option<int>, lastContentAt: Option<int>, contentChunks: nat)

  function Seen(o: Observations, s: Said, now: int): Observations {
    var o1 := if !s.content then o
              else o.(contentChunks := o.contentChunks + 1,
                      firstContentAt := if o.firstContentAt.None? then Some(now) else o.firstContentAt, lastContentAt := Some(now));
    if s.usage.Some? then o1.(usage := s.usage) else o1
  }

  predicate Forwards(s: Said, strip: bool) {
    !(s.usage.Some? && s.usageOnly && strip)
  }

  function SeenAll(read: Bytes -> Said, o: Observations, events: seq<Bytes>, now: int): Observations
    decreases |events|
  {
    if events == [] then o else SeenAll(read, Seen(o, read(events[0]), now), events[1..], now)
  }

  function Forwarded(read: Bytes -> Said, strip: bool, events: seq<Bytes>): Bytes {
    if events == [] then []
    else (if Forwards(read(events[0]), strip) then events[0] else []) + Forwarded(read, strip, events[1..])
  }

  lemma {:induction false} SeenAllAppend(read: Bytes -> Said, o: Observations, a: seq<Bytes>, b: seq<Bytes>, now: int)
    ensures SeenAll(read, o, a + b, now) == SeenAll(read, SeenAll(read, o, a, now), b, now)
    decreases |a|
  {
    if a == [] {
      assert a + b == b;
    } else {
      assert (a + b)[1..] == a[1..] + b;
      SeenAllAppend(read, Seen(o, read(a[0]), now), a[1..], b, now);
    }
  }

  ghost predicate HasContent(read: Bytes -> Said, events: seq<Bytes>) {
    exists i :: 0 <= i < |events| && read(events[i]).content
  }

  ghost function ContentAt(read: Bytes -> Said, events: seq<Bytes>): set<nat> {
    set i: nat | 0 <= i < |events| && read(events[i]).content
  }

  /** No event from `i` on reports usage. */
  ghost predicate Silent(read: Bytes -> Said, events: seq<Bytes>, i: nat) {
    forall j :: i <= j < |events| ==> read(events[j]).usage.None?
  }

  /** The usage kept is the last one reported, if any. */
  ghost predicate KeepsLast(read: Bytes -> Said, was: Option<Usage>, events: seq<Bytes>, r: Option<Usage>) {
    if Silent(read, events, 0) then r == was
    else r.Some? && exists i :: 0 <= i < |events| && r == read(events[i]).usage && Silent(read, events, i + 1)
  }

  /** Every event with content is counted, and the times are those of the first and last. */
  ghost predicate CountsContent(read: Bytes -> Said, o: Observations, events: seq<Bytes>, now: int, r: Observations) {
    && r.contentChunks == o.contentChunks + |ContentAt(read, events)|
    && r.firstContentAt == (if o.firstContentAt.None? && HasContent(read, events) then Some(now) else o.firstContentAt)
    && r.lastContentAt == (if HasContent(read, events) then Some(now) else o.lastContentAt)
  }

  /** What a run of events leaves, from what each of them says. */
  lemma {:induction false} SeenIs(read: Bytes -> Said, o: Observations, events: seq<Bytes>, now: int)
    ensures var r := SeenAll(read, o, events, now); KeepsLast(read, o.usage, events, r.usage) && CountsContent(read, o, events, now, r)
  {
    if events == [] {
      assert ContentAt(read, events) == {};
    } else {
      var n := |events| - 1;
      var before, last := events[..n], events[n];
      SeenIs(read, o, before, now);
      SeenAllAppend(read, o, before, [last], now);
      assert before + [last] == events;
      var r := SeenAll(read, o, before, now);
      assert SeenAll(read, r, [last], now) == Seen(r, read(last), now);
      KeepsLastOneMore(read, o.usage, before, last, r.usage);
      CountsOneMore(read, o, before, last, now, r);
    }
  }

  lemma SilentOneMore(read: Bytes -> Said, events: seq<Bytes>, last: Bytes, i: nat)
    requires i <= |events|
    ensures Silent(read, events + [last], i) <==> Silent(read, events, i) && read(last).usage.None?
  {
    var all := events + [last];
    assert all[|events|] == last;
    assert forall j :: 0 <= j < |events| ==> all[j] == events[j];
  }

  lemma KeepsLastOneMore(read: Bytes -> Said, was: Option<Usage>, events: seq<Bytes>, last: Bytes, r: Option<Usage>)
    requires KeepsLast(read, was, events, r)
    ensures KeepsLast(read, was, events + [last], if read(last).usage.Some? then read(last).usage else r)
  {
    SilentOneMore(read, events, last, 0);
    var all := events + [last];
    if read(last).usage.Some? {
      assert all[|events|] == last && Silent(read, all, |events| + 1);
    } else if !Silent(read, events, 0) {
      var i :| 0 <= i < |events| && r == read(events[i]).usage && Silent(read, events, i + 1);
      SilentOneMore(read, events, last, i + 1);
      hide Silent;
      assert all[i] == events[i];
    }
  }

  lemma CountsOneMore(read: Bytes -> Said, o: Observations, events: seq<Bytes>, last: Bytes, now: int, r: Observations)
    requires CountsContent(read, o, events, now, r)
    ensures CountsContent(read, o, events + [last], now, Seen(r, read(last), now))
  {
    ContentOneMore(read, events, last);
    hide ContentAt, HasContent;
  }

  lemma ContentOneMore(read: Bytes -> Said, events: seq<Bytes>, last: Bytes)
    ensures |ContentAt(read, events + [last])| == |ContentAt(read, events)| + (if read(last).content then 1 else 0)
    ensures HasContent(read, events + [last]) <==> HasContent(read, events) || read(last).content
  {
    var n, all := |events|, events + [last];
    assert all[n] == last;
    assert forall i :: 0 <= i < n ==> all[i] == events[i];
    assert ContentAt(read, all) == ContentAt(read, events) + (if read(last).content then {n} else {});
  }

  /** An event to be stripped reports usage and nothing else. */
  predicate Dropped(read: Bytes -> Said, strip: bool, event: Bytes) {
    strip && read(event).usage.Some? && read(event).usageOnly
  }

  /** `idx` lists, in order, all events but those to be stripped. */
  ghost predicate Keeps(read: Bytes -> Said, strip: bool, events: seq<Bytes>, idx: seq<nat>) {
    && (forall i, j :: 0 <= i < j < |idx| ==> idx[i] < idx[j])
    && (forall k :: 0 <= k < |idx| ==> idx[k] < |events| && !Dropped(read, strip, events[idx[k]]))
    && (forall i: nat :: i < |events| && !Dropped(read, strip, events[i]) ==> i in idx)
  }

  /** The events at `idx`, one after another. */
  function Picked(events: seq<Bytes>, idx: seq<nat>): Bytes
    requires forall k :: 0 <= k < |idx| ==> idx[k] < |events|
  {
    if idx == [] then [] else Picked(events, idx[..|idx| - 1]) + events[idx[|idx| - 1]]
  }

  /** What is forwarded is exactly those. */
  lemma {:induction false} ForwardedIs(read: Bytes -> Said, strip: bool, events: seq<Bytes>) returns (idx: seq<nat>)
    ensures Keeps(read, strip, events, idx) && Forwarded(read, strip, events) == Picked(events, idx)
  {
    if events == [] {
      idx := [];
    } else {
      var n := |events| - 1;
      var before := events[..n];
      idx := ForwardedIs(read, strip, before);
      ForwardedAppend(read, strip, before, events[n..]);
      assert before + events[n..] == events && events[n..] == [events[n]];
      assert Forwarded(read, strip, [events[n]]) == if Forwards(read(events[n]), strip) then events[n] else [];
      PickedMore(before, events[n], idx);
      idx := KeepsOneMore(read, strip, events, idx);
    }
  }

  lemma KeepsOneMore(read: Bytes -> Said, strip: bool, events: seq<Bytes>, idx: seq<nat>) returns (idx': seq<nat>)
    requires events != [] && Keeps(read, strip, events[..|events| - 1], idx)
    ensures Keeps(read, strip, events, idx')
    ensures var last := events[|events| - 1];
      Picked(events, idx') == if Dropped(read, strip, last) then Picked(events, idx) else Picked(events, idx) + last
  {
    hide Dropped;
    var n := |events| - 1;
    assert forall i :: 0 <= i < n ==> events[..n][i] == events[i];
    if Dropped(read, strip, events[n]) {
      idx' := idx;
    } else {
      idx' := idx + [n];
      assert idx'[..|idx|] == idx;
      assert forall i :: i in idx ==> i in idx';
      assert idx'[|idx|] == n;
    }
  }

  lemma {:induction false} PickedMore(events: seq<Bytes>, next: Bytes, idx: seq<nat>)
    requires forall k :: 0 <= k < |idx| ==> idx[k] < |events|
    ensures Picked(events + [next], idx) == Picked(events, idx)
  {
    if idx != [] {
      PickedMore(events, next, idx[..|idx| - 1]);
    }
  }

  lemma {:induction false} ForwardedAppend(read: Bytes -> Said, strip: bool, a: seq<Bytes>, b: seq<Bytes>)
    ensures Forwarded(read, strip, a + b) == Forwarded(read, strip, a) + Forwarded(read, strip, b)
  {
    if a == [] {
      assert a + b == b;
    } else {
      assert (a + b)[1..] == a[1..] + b;
      ForwardedAppend(read, strip, a[1..], b);
      var first := if Forwards(read(a[0]), strip) then a[0] else [];
      assert first + (Forwarded(read, strip, a[1..]) + Forwarded(read, strip, b)) == first + Forwarded(read, strip, a[1..]) + Forwarded(read, strip, b);
    }
  }

  /** Taking the first event off. */
  lemma OneEvent(read: Bytes -> Said, strip: bool, buf: Bytes, out: Bytes, obs: Observations, now: int)
    requires FindEventEnd(buf).Some?
    ensures var e := FindEventEnd(buf).value;
      && e <= |buf| && Rest(buf) == Rest(buf[e..])
      && out + Forwarded(read, strip, Events(buf))
         == (if Forwards(read(buf[..e]), strip) then out + buf[..e] else out) + Forwarded(read, strip, Events(buf[e..]))
      && SeenAll(read, obs, Events(buf), now) == SeenAll(read, Seen(obs, read(buf[..e]), now), Events(buf[e..]), now)
  {
    FirstEnd(buf);
    var e := FindEventEnd(buf).value;
    var event, rest := buf[..e], Events(buf[e..]);
    assert ([event] + rest)[1..] == rest;
    Associates(out, if Forwards(read(event), strip) then event else [], Forwarded(read, strip, rest));
    assert out + [] == out;
  }

  class SseInspector {
    const strip: bool
    const read: Bytes -> Said
    var buf: Bytes

    constructor (strip: bool, read: Bytes -> Said)
      ensures this.strip == strip && this.read == read && buf == []
    {
      this.strip, this.read, buf := strip, read, [];
    }

    /** Feed bytes; returns what to forward and what has been seen. */
    method Push(chunk: Bytes, obs0: Observations, now: int) returns (out: Bytes, obs: Observations)
      modifies this
      ensures buf == Rest(old(buf) + chunk) && FindEventEnd(buf).None?
      ensures out == Forwarded(read, strip, Events(old(buf) + chunk))
      ensures obs == SeenAll(read, obs0, Events(old(buf) + chunk), now)
      ensures KeepsLast(read, obs0.usage, Events(old(buf) + chunk), obs.usage)
      ensures CountsContent(read, obs0, Events(old(buf) + chunk), now, obs)
    {
      hide FindEventEnd, KeepsLast, CountsContent;
      buf := buf + chunk;
      ghost var all := buf;
      out, obs := [], obs0;
      while true
        invariant Rest(all) == Rest(buf)
        invariant Forwarded(read, strip, Events(all)) == out + Forwarded(read, strip, Events(buf))
        invariant SeenAll(read, obs0, Events(all), now) == SeenAll(read, obs, Events(buf), now)
        decreases |buf|
      {
        FirstEnd(buf);
        var end := FindEventEnd(buf);
        if end.None? {
          break;
        }
        OneEvent(read, strip, buf, out, obs, now);
        var event := buf[..end.value];
        buf := buf[end.value..];
        obs := Seen(obs, read(event), now);
        if Forwards(read(event), strip) {
          out := out + event;
        }
      }
      assert out + [] == out;
      RestIsPartial(all);
      SeenIs(read, obs0, Events(all), now);
    }

    /** What is left at the end of the stream. */
    method Finish() returns (out: Bytes)
      modifies this
      ensures out == old(buf) && buf == []
    {
      out := buf;
      buf := [];
    }
  }

  // ---------------------------------------------------------------------------
  // Any chunking
  // ---------------------------------------------------------------------------

  datatype Chunk = Chunk(bytes: Bytes, now: int)

  /** An inspector between pushes, with all it has forwarded. */
  datatype Flow = Flow(buf: Bytes, out: Bytes, obs: Observations)

  /** One push, as its contract says. */
  function Pushed(read: Bytes -> Said, strip: bool, f: Flow, c: Chunk): Flow {
    var events := Events(f.buf + c.bytes);
    Flow(Rest(f.buf + c.bytes), f.out + Forwarded(read, strip, events), SeenAll(read, f.obs, events, c.now))
  }

  function PushedAll(read: Bytes -> Said, strip: bool, f: Flow, cs: seq<Chunk>): Flow {
    if cs == [] then f else Pushed(read, strip, PushedAll(read, strip, f, cs[..|cs| - 1]), cs[|cs| - 1])
  }

  function Whole(cs: seq<Chunk>): Bytes {
    if cs == [] then [] else Whole(cs[..|cs| - 1]) + cs[|cs| - 1].bytes
  }

  const NOTHING := Observations(None, None, None, 0)

  /** The same but for when content was seen. */
  predicate SameButTimes(a: Observations, b: Observations) {
    && a.usage == b.usage && a.contentChunks == b.contentChunks
    && (a.firstContentAt.Some? <==> b.firstContentAt.Some?) && (a.lastContentAt.Some? <==> b.lastContentAt.Some?)
  }

  lemma {:induction false} SeenAllSame(read: Bytes -> Said, a: Observations, b: Observations, events: seq<Bytes>, s: int, t: int)
    requires SameButTimes(a, b)
    ensures SameButTimes(SeenAll(read, a, events, s), SeenAll(read, b, events, t))
    decreases |events|
  {
    if events != [] {
      SeenAllSame(read, Seen(a, read(events[0]), s), Seen(b, read(events[0]), t), events[1..], s, t);
    }
  }

  /** However a stream is cut, what is kept, forwarded and seen is that of the whole. */
  lemma {:induction false} ChunksAreTheWhole(read: Bytes -> Said, strip: bool, cs: seq<Chunk>, now: int)
    ensures var f := PushedAll(read, strip, Flow([], [], NOTHING), cs);
      && f.buf == Rest(Whole(cs)) && f.out == Forwarded(read, strip, Events(Whole(cs)))
      && SameButTimes(f.obs, SeenAll(read, NOTHING, Events(Whole(cs)), now))
  {
    var start := Flow([], [], NOTHING);
    if cs == [] {
      FirstEnd([]);
      assert Events([]) == [];
    } else {
      var n := |cs| - 1;
      var c := cs[n];
      ChunksAreTheWhole(read, strip, cs[..n], now);
      var f := PushedAll(read, strip, start, cs[..n]);
      var w := Whole(cs[..n]);
      EventsResume(w, c.bytes);
      ForwardedAppend(read, strip, Events(w), Events(f.buf + c.bytes));
      SeenAllAppend(read, NOTHING, Events(w), Events(f.buf + c.bytes), now);
      SeenAllSame(read, f.obs, SeenAll(read, NOTHING, Events(w), now), Events(f.buf + c.bytes), c.now, now);
    }
  }

  /** Two ways of cutting the same stream forward the same bytes, `Finish` included, and see
      the same usage and content. */
  lemma ChunkingDoesNotMatter(read: Bytes -> Said, strip: bool, cs: seq<Chunk>, ds: seq<Chunk>)
    requires Whole(cs) == Whole(ds)
    ensures var f, g := PushedAll(read, strip, Flow([], [], NOTHING), cs), PushedAll(read, strip, Flow([], [], NOTHING), ds);
      f.out + f.buf == g.out + g.buf && SameButTimes(f.obs, g.obs)
  {
    ChunksAreTheWhole(read, strip, cs, 0);
    ChunksAreTheWhole(read, strip, ds, 0);
  }

  /** What the client gets of a stream, however it is cut: all events but those to be
      stripped, in order. */
  lemma ForwardedOfTheStream(read: Bytes -> Said, strip: bool, cs: seq<Chunk>) returns (idx: seq<nat>)
    ensures Keeps(read, strip, Events(Whole(cs)), idx)
    ensures PushedAll(read, strip, Flow([], [], NOTHING), cs).out == Picked(Events(Whole(cs)), idx)
  {
    ChunksAreTheWhole(read, strip, cs, 0);
    idx := ForwardedIs(read, strip, Events(Whole(cs)));
  }

  /** How many events with content there are in the first chunks, for any number of them. */
  ghost function ContentBy(read: Bytes -> Said, cs: seq<Chunk>): (r: seq<nat>)
    ensures |r| == |cs| + 1
  {
    (if cs == [] then [] else ContentBy(read, cs[..|cs| - 1])) + [|ContentAt(read, Events(Whole(cs)))|]
  }

  predicate FirstWith(cs: seq<Chunk>, content: seq<nat>, first: Option<int>, k: nat)
    requires |content| == |cs| + 1
  {
    k < |cs| && first == Some(cs[k].now) && content[k] == 0 < content[k + 1]
  }

  predicate LastWith(cs: seq<Chunk>, content: seq<nat>, last: Option<int>, k: nat)
    requires |content| == |cs| + 1
  {
    k < |cs| && last == Some(cs[k].now) && content[k] < content[k + 1] == content[|cs|]
  }

  /** The first content is timed by the push after which there is some. */
  ghost predicate FirstTimed(cs: seq<Chunk>, content: seq<nat>, first: Option<int>)
    requires |content| == |cs| + 1
  {
    if content[|cs|] == 0 then first.None?
    else exists k: nat :: FirstWith(cs, content, first, k)
  }

  /** And the last by the push after which there is no more. */
  ghost predicate LastTimed(cs: seq<Chunk>, content: seq<nat>, last: Option<int>)
    requires |content| == |cs| + 1
  {
    if content[|cs|] == 0 then last.None?
    else exists k: nat :: LastWith(cs, content, last, k)
  }

  lemma ContentAppend(read: Bytes -> Said, a: seq<Bytes>, b: seq<Bytes>)
    ensures |ContentAt(read, a + b)| == |ContentAt(read, a)| + |ContentAt(read, b)|
    ensures HasContent(read, b) <==> |ContentAt(read, b)| > 0
  {
    SeenIs(read, NOTHING, a, 0);
    SeenIs(read, SeenAll(read, NOTHING, a, 0), b, 0);
    SeenIs(read, NOTHING, a + b, 0);
    SeenAllAppend(read, NOTHING, a, b, 0);
    if HasContent(read, b) {
      var i :| 0 <= i < |b| && read(b[i]).content;
      assert i in ContentAt(read, b);
    } else {
      assert ContentAt(read, b) == {};
    }
  }

  /** However a stream is cut: the usage is the last one reported in it, every event with
      content is counted once, and the first and last are timed by the push they came with. */
  lemma {:induction false} SeenOfTheStream(read: Bytes -> Said, strip: bool, cs: seq<Chunk>)
    ensures var obs := PushedAll(read, strip, Flow([], [], NOTHING), cs).obs;
      && KeepsLast(read, None, Events(Whole(cs)), obs.usage)
      && obs.contentChunks == |ContentAt(read, Events(Whole(cs)))|
      && Timed(read, cs, obs)
  {
    hide KeepsLast, Rest, Events;
    ChunksAreTheWhole(read, strip, cs, 0);
    SeenIs(read, NOTHING, Events(Whole(cs)), 0);
    TimedByPush(read, strip, cs);
  }

  ghost predicate Timed(read: Bytes -> Said, cs: seq<Chunk>, obs: Observations) {
    FirstTimed(cs, ContentBy(read, cs), obs.firstContentAt) && LastTimed(cs, ContentBy(read, cs), obs.lastContentAt)
  }

  lemma TimedAtFirst(read: Bytes -> Said)
    ensures Timed(read, [], NOTHING)
  {
    FirstEnd([]);
    assert Whole([]) == [] && Events([]) == [] && ContentAt(read, []) == {};
    assert ContentBy(read, []) == [0];
  }

  lemma {:induction false} TimedByPush(read: Bytes -> Said, strip: bool, cs: seq<Chunk>)
    ensures Timed(read, cs, PushedAll(read, strip, Flow([], [], NOTHING), cs).obs)
  {
    hide Timed, Pushed;
    if cs == [] {
      TimedAtFirst(read);
    } else {
      var n := |cs| - 1;
      TimedByPush(read, strip, cs[..n]);
      TimedOneMore(read, strip, cs[..n], cs[n], PushedAll(read, strip, Flow([], [], NOTHING), cs[..n]));
      assert cs[..n] + [cs[n]] == cs;
    }
  }

  lemma TimedOneMore(read: Bytes -> Said, strip: bool, cs: seq<Chunk>, c: Chunk, f: Flow)
    requires f == PushedAll(read, strip, Flow([], [], NOTHING), cs) && Timed(read, cs, f.obs)
    ensures Timed(read, cs + [c], Pushed(read, strip, f, c).obs)
  {
    hide Rest, Events, Forwarded, HasContent, ContentAt, SeenAll, Whole, Pushed, PushedAll, FirstTimed, LastTimed;
    var content := ContentBy(read, cs);
    var more := ContentPushed(read, strip, cs, c, f);
    assert (cs + [c])[..|cs|] == cs;
    assert ContentBy(read, cs + [c]) == content + [content[|cs|] + more];
    FirstOneMore(cs, content, f.obs.firstContentAt, c, more);
    LastOneMore(cs, content, f.obs.lastContentAt, c, more);
  }

  /** What one more push adds. */
  lemma ContentPushed(read: Bytes -> Said, strip: bool, cs: seq<Chunk>, c: Chunk, f: Flow) returns (more: nat)
    requires f == PushedAll(read, strip, Flow([], [], NOTHING), cs)
    ensures |ContentAt(read, Events(Whole(cs + [c])))| == ContentBy(read, cs)[|cs|] + more
    ensures var obs := Pushed(read, strip, f, c).obs;
      && obs.firstContentAt == (if f.obs.firstContentAt.None? && more > 0 then Some(c.now) else f.obs.firstContentAt)
      && obs.lastContentAt == (if more > 0 then Some(c.now) else f.obs.lastContentAt)
  {
    hide Rest, Events, Forwarded, HasContent, ContentAt, SeenAll, KeepsLast, SameButTimes;
    ChunksAreTheWhole(read, strip, cs, 0);
    assert (cs + [c])[..|cs|] == cs;
    EventsResume(Whole(cs), c.bytes);
    var new_ := Events(f.buf + c.bytes);
    more := |ContentAt(read, new_)|;
    ContentAppend(read, Events(Whole(cs)), new_);
    SeenIs(read, f.obs, new_, c.now);
  }

  lemma FirstOneMore(cs: seq<Chunk>, content: seq<nat>, was: Option<int>, c: Chunk, more: nat)
    requires |content| == |cs| + 1 && FirstTimed(cs, content, was)
    ensures FirstTimed(cs + [c], content + [content[|cs|] + more], if was.None? && more > 0 then Some(c.now) else was)
  {
    var n, cs', content' := |cs|, cs + [c], content + [content[|cs|] + more];
    if content[n] > 0 {
      var k: nat :| FirstWith(cs, content, was, k);
      assert FirstWith(cs', content', was, k);
    } else if more > 0 {
      assert FirstWith(cs', content', Some(c.now), n);
    }
  }

  lemma LastOneMore(cs: seq<Chunk>, content: seq<nat>, was: Option<int>, c: Chunk, more: nat)
    requires |content| == |cs| + 1 && LastTimed(cs, content, was)
    ensures LastTimed(cs + [c], content + [content[|cs|] + more], if more > 0 then Some(c.now) else was)
  {
    var n, cs', content' := |cs|, cs + [c], content + [content[|cs|] + more];
    if more > 0 {
      assert LastWith(cs', content', Some(c.now), n);
    } else if content[n] > 0 {
      var k: nat :| LastWith(cs, content, was, k);
      assert LastWith(cs', content', was, k);
    }
  }

  lemma {:induction false} ForwardsAll(read: Bytes -> Said, events: seq<Bytes>)
    ensures Forwarded(read, false, events) == Concat(events)
  {
    if events != [] {
      ForwardsAll(read, events[1..]);
    }
  }

  /** With stripping off the client gets exactly what the engine sent. */
  lemma UnchangedWithoutStripping(read: Bytes -> Said, cs: seq<Chunk>)
    ensures var f := PushedAll(read, false, Flow([], [], NOTHING), cs);
      f.out + f.buf == Whole(cs)
  {
    ChunksAreTheWhole(read, false, cs, 0);
    ForwardsAll(read, Events(Whole(cs)));
    EventsAreTheStream(Whole(cs));
  }
}
