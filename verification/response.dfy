/** Completed responses, rebuilt from the framed item events of an upstream stream. */
module Responses {
  import opened Domain
  import opened Framing
  import opened Json
  import opened Translator

  const STREAM_LIMIT: nat := 4 * 1024 * 1024
  const FRAME_LIMIT: nat := 256 * 1024

  datatype Usage = Usage(input: int, output: int, cached: int)

  datatype Response = Response(model: string, id: string, output: seq<Item>, usage: Option<Usage>)

  // ---------------------------------------------------------------- upstream events

  datatype Upstream =
    | ItemAdded(index: int, id: string)
    | ItemDone(index: int, item: Item)
    | Completed(response: Option<Response>)   // None: not a completed response object
    | Failed
    | Ignored

  function IdOf(item: Item): string {
    match item
    case Input(_, _) => ""
    case Output(_, _, _) => ""
    case Reasoning(id, _, _) => id
    case Said(id, _, _) => id
    case Call(id, _, _, _, _) => id
    case Foreign(id) => id
  }

  datatype Gathered = Gathered(added: map<int, string>, done: map<int, Item>, result: Option<Response>)

  const NOTHING := Gathered(map[], map[], None)

  /** One event after those gathered; None when it cannot come here. */
  function Gather(g: Gathered, ev: Upstream): Option<Gathered> {
    if g.result.Some? then None
    else match ev
      case ItemAdded(index, id) =>
        if index < 0 || id == "" || index in g.added || index in g.done then None
        else Some(g.(added := g.added[index := id]))
      case ItemDone(index, item) =>
        if index < 0 || IdOf(item) == "" || index in g.done || index !in g.added || g.added[index] != IdOf(item) then None
        else Some(g.(done := g.done[index := item]))
      case Completed(response) => if response.None? then None else Some(g.(result := response))
      case Failed => None
      case Ignored => Some(g)
  }

  function GatherAll(events: seq<Upstream>): Option<Gathered> {
    if events == [] then Some(NOTHING)
    else
      match GatherAll(events[..|events| - 1])
      case None => None
      case Some(g) => Gather(g, events[|events| - 1])
  }

  predicate Whole(g: Gathered) {
    && g.added.Keys == g.done.Keys
    && (forall i :: i in g.done ==> 0 <= i < |g.added|)
    && (forall i :: 0 <= i < |g.added| ==> i in g.done)
  }

  function InOrder(g: Gathered): seq<Item>
    requires Whole(g)
  {
    seq(|g.added|, i requires 0 <= i < |g.added| => g.done[i])
  }

  function Rebuilt(g: Gathered): Option<Response> {
    if g.result.None? then None
    else if g.added == map[] then g.result
    else if !Whole(g) then None
    else if g.result.value.output != [] && g.result.value.output != InOrder(g) then None
    else Some(g.result.value.(output := InOrder(g)))
  }

  // ---------------------------------------------------------------- upstream bytes

  /** What an event's JSON object says, as far as it is looked at; None where it has no such member
      of the right kind. */
  datatype Parsed = Parsed(kind: Option<string>, index: Option<int>, item: Option<Item>, response: Option<Response>)

  /** Decoding is the environment's. */
  datatype Decoder = Decoder(json: Bytes -> Option<Parsed>, text: Bytes -> Option<string>)

  function EventOf(p: Parsed): Upstream {
    if p.kind.None? then Ignored
    else if p.kind.value in {"error", "response.failed", "response.incomplete"} then Failed
    else if p.kind.value in {"response.output_item.added", "response.output_item.done"} then
      if p.index.None? || p.item.None? then Failed
      else if p.kind.value == "response.output_item.added" then ItemAdded(p.index.value, IdOf(p.item.value))
      else ItemDone(p.index.value, p.item.value)
    else if p.kind.value == "response.completed" then Completed(p.response)
    else Ignored
  }

  /** A frame names its event once, or not at all. */
  predicate NamesFit(names: seq<Bytes>, kind: Option<string>, d: Decoder) {
    names == [] || (|names| == 1 && kind.Some? && d.text(names[0]) == kind)
  }

  /** The event a frame carries, if it carries one; None when it is refused. */
  function ReadFrame(frame: Bytes, d: Decoder): Option<seq<Upstream>> {
    if |frame| > FRAME_LIMIT then None
    else
      var data := Data(Lines(frame), false);
      if data.None? || data.value == [] then Some([])
      else
        var parsed := d.json(data.value);
        if parsed.None? || !NamesFit(NamesOf(Lines(frame)), parsed.value.kind, d) then None
        else Some([EventOf(parsed.value)])
  }

  function ReadFrames(frames: seq<Bytes>, d: Decoder): Option<seq<Upstream>> {
    if frames == [] then Some([])
    else
      var before, last := ReadFrames(frames[..|frames| - 1], d), ReadFrame(frames[|frames| - 1], d);
      if before.None? || last.None? then None else Some(before.value + last.value)
  }

  /** The events of a whole stream, which ends with a blank. */
  function EventsOf(raw: Bytes, d: Decoder): Option<seq<Upstream>> {
    var frames := Frames(Unix(raw));
    var last := |frames| - 1;
    if |raw| > STREAM_LIMIT || Stripped(frames[last]) != [] then None else ReadFrames(frames[..last], d)
  }

  function Understood(raw: Bytes, d: Decoder): Option<Response> {
    var events := EventsOf(raw, d);
    if events.None? || GatherAll(events.value).None? then None else Rebuilt(GatherAll(events.value).value)
  }

  /** Frame by frame, as the loop takes them. */
  function GatherFrame(g: Gathered, frame: Bytes, d: Decoder): Option<Gathered> {
    var events := ReadFrame(frame, d);
    if events.None? then None
    else if events.value == [] then Some(g)
    else Gather(g, events.value[0])
  }

  function GatherFrames(frames: seq<Bytes>, d: Decoder): Option<Gathered> {
    if frames == [] then Some(NOTHING)
    else
      var before := GatherFrames(frames[..|frames| - 1], d);
      if before.None? then None else GatherFrame(before.value, frames[|frames| - 1], d)
  }

  /** Frame by frame is event by event. */
  lemma {:induction false} FramesGather(frames: seq<Bytes>, d: Decoder)
    ensures GatherFrames(frames, d) ==
      if ReadFrames(frames, d).None? then None else GatherAll(ReadFrames(frames, d).value)
  {
    if frames != [] {
      FramesGather(frames[..|frames| - 1], d);
      var before, last := ReadFrames(frames[..|frames| - 1], d), ReadFrame(frames[|frames| - 1], d);
      if before.Some? && last.Some? {
        if last.value == [] {
          assert before.value + last.value == before.value;
        } else {
          assert last.value == [last.value[0]] by { hide Gather; }
          GatherOneMore(before.value, last.value[0]);
        }
      }
      hide ReadFrame, Gather, GatherAll;
    }
  }

  lemma GatherOneMore(events: seq<Upstream>, ev: Upstream)
    ensures GatherAll(events + [ev]) == if GatherAll(events).None? then None else Gather(GatherAll(events).value, ev)
  {
    assert (events + [ev])[..|events|] == events;
    hide Gather;
  }

  lemma FrameMore(frames: seq<Bytes>, i: nat, g: Gathered, d: Decoder)
    requires i < |frames| && GatherFrames(frames[..i], d) == Some(g)
    ensures GatherFrames(frames[..i + 1], d) == GatherFrame(g, frames[i], d)
    ensures GatherFrame(g, frames[i], d).None? ==> GatherFrames(frames, d).None?
  {
    assert frames[..i + 1][..i] == frames[..i];
    if GatherFrame(g, frames[i], d).None? { NothingMends(frames, d, i + 1); }
    hide GatherFrame;
  }

  lemma {:induction false} NothingMends(frames: seq<Bytes>, d: Decoder, i: nat)
    requires i <= |frames| && GatherFrames(frames[..i], d).None?
    ensures GatherFrames(frames, d).None?
    decreases |frames| - i
  {
    if i < |frames| {
      assert frames[..i + 1][..i] == frames[..i];
      NothingMends(frames, d, i + 1);
    } else {
      assert frames[..i] == frames;
    }
  }

  /** The loop over the frames of a whole stream. */
  method CompletedResponse(raw: Bytes, d: Decoder) returns (r: Option<Response>)
    ensures r == Understood(raw, d)
  {
    hide GatherFrames, ReadFrames, GatherAll, Rebuilt, Lines, Data, NamesOf, NamesFit, EventOf, Stripped, Frames, Unix;
    if |raw| > STREAM_LIMIT { return None; }
    var frames := Frames(Unix(raw));
    if Stripped(frames[|frames| - 1]) != [] { return None; }
    frames := frames[..|frames| - 1];
    var added: map<int, string>, done: map<int, Item>, result: Option<Response> := map[], map[], None;
    FramesGather(frames, d);
    NoFrames(frames, d);
    for i := 0 to |frames|
      invariant GatherFrames(frames[..i], d) == Some(Gathered(added, done, result))
    {
      FrameMore(frames, i, Gathered(added, done, result), d);
      var frame := frames[i];
      if |frame| > FRAME_LIMIT { return None; }
      var lines := Lines(frame);
      var data := Data(lines, false);
      if data.Some? && data.value != [] {
        if result.Some? { return None; }
        var event := d.json(data.value);
        if event.None? || !NamesFit(NamesOf(lines), event.value.kind, d) { return None; }
        match EventOf(event.value) {
          case ItemAdded(index, id) =>
            if index < 0 || id == "" || index in added || index in done { return None; }
            added := added[index := id];
          case ItemDone(index, item) =>
            if index < 0 || IdOf(item) == "" || index in done || index !in added || added[index] != IdOf(item) { return None; }
            done := done[index := item];
          case Completed(response) =>
            if response.None? { return None; }
            result := response;
          case Failed => return None;
          case Ignored =>
        }
      }
    }
    assert frames[..|frames|] == frames;
    r := Rebuilt(Gathered(added, done, result));
  }

  lemma NoFrames(frames: seq<Bytes>, d: Decoder)
    ensures GatherFrames(frames[..0], d) == Some(NOTHING)
  {
  }

  /** The added and done events of `items`, each item's in that order, mixed in any way. */
  ghost predicate Interleaves(events: seq<Upstream>, items: seq<Item>) {
    && (forall p :: 0 <= p < |events| ==> !events[p].Completed? && !events[p].Failed?)
    && (forall p :: 0 <= p < |events| && events[p].ItemAdded? ==> Announces(events[p], items))
    && (forall p :: 0 <= p < |events| && events[p].ItemDone? ==> Delivers(events[p], items) && Announced(events, p))
    && OnceEach(events)
  }

  /** No index is added twice or done twice. */
  ghost predicate OnceEach(events: seq<Upstream>) {
    && (forall p, q :: 0 <= p < q < |events| && events[p].ItemAdded? && events[q].ItemAdded? ==>
          events[p].index != events[q].index)
    && (forall p, q :: 0 <= p < q < |events| && events[p].ItemDone? && events[q].ItemDone? ==>
          events[p].index != events[q].index)
  }

  /** An output item's own identifier. */
  predicate Identified(item: Item, id: string) {
    (item.Reasoning? || item.Said? || item.Call? || item.Foreign?) && item.id == id
  }

  predicate Announces(ev: Upstream, items: seq<Item>)
    requires ev.ItemAdded?
  {
    0 <= ev.index < |items| && ev.id != "" && Identified(items[ev.index], ev.id)
  }

  predicate Delivers(ev: Upstream, items: seq<Item>)
    requires ev.ItemDone?
  {
    0 <= ev.index < |items| && ev.item == items[ev.index]
  }

  /** An item is done only after it was added. */
  predicate Announced(events: seq<Upstream>, p: nat)
    requires p < |events| && events[p].ItemDone?
  {
    exists q :: 0 <= q < p && events[q].ItemAdded? && events[q].index == events[p].index
  }

  /** Every item was both added and done. */
  ghost predicate Complete(events: seq<Upstream>, items: seq<Item>) {
    forall i :: 0 <= i < |items| ==> ItemDone(i, items[i]) in events
  }

  /** What was gathered is what the events say, and they say it once each. */
  ghost predicate Records(g: Gathered, events: seq<Upstream>) {
    && (forall p :: 0 <= p < |events| ==> !events[p].Completed? && !events[p].Failed?)
    && (forall p :: 0 <= p < |events| && events[p].ItemAdded? ==> RecordsAdded(g, events[p]))
    && (forall p :: 0 <= p < |events| && events[p].ItemDone? ==> RecordsDone(g, events[p]) && Announced(events, p))
    && OnceEach(events)
    && (forall i :: i in g.added ==> ItemAdded(i, g.added[i]) in events)
    && (forall i :: i in g.done ==> i in g.added && ItemDone(i, g.done[i]) in events)
  }

  predicate RecordsAdded(g: Gathered, ev: Upstream)
    requires ev.ItemAdded?
  {
    0 <= ev.index && ev.index in g.added && g.added[ev.index] == ev.id && ev.id != ""
  }

  predicate RecordsDone(g: Gathered, ev: Upstream)
    requires ev.ItemDone?
  {
    0 <= ev.index && ev.index in g.done && g.done[ev.index] == ev.item
    && ev.index in g.added && g.added[ev.index] == IdOf(ev.item)
  }

  lemma AnnouncedLater(events: seq<Upstream>, ev: Upstream, p: nat)
    requires p < |events| && events[p].ItemDone?
    ensures Announced(events, p) <==> Announced(events + [ev], p)
  {
    var more := events + [ev];
    if Announced(events, p) {
      var q :| 0 <= q < p && events[q].ItemAdded? && events[q].index == events[p].index;
      assert more[q] == events[q];
    }
    if Announced(more, p) {
      var q :| 0 <= q < p && more[q].ItemAdded? && more[q].index == more[p].index;
      assert more[q] == events[q];
    }
  }

  lemma GatherOnce(g: Gathered, events: seq<Upstream>, ev: Upstream)
    requires Records(g, events) && Gather(g, ev).Some? && !ev.Completed?
    ensures OnceEach(events + [ev])
  {
    var more := events + [ev];
    forall p, q | 0 <= p < q < |more| && more[p].ItemAdded? && more[q].ItemAdded?
      ensures more[p].index != more[q].index
    {
      assert more[p] == events[p];
      if q < |events| { assert more[q] == events[q]; } else { assert RecordsAdded(g, events[p]); }
    }
    forall p, q | 0 <= p < q < |more| && more[p].ItemDone? && more[q].ItemDone?
      ensures more[p].index != more[q].index
    {
      assert more[p] == events[p];
      if q < |events| { assert more[q] == events[q]; } else { assert RecordsDone(g, events[p]); }
    }
  }

  lemma GatherFinds(g: Gathered, events: seq<Upstream>, ev: Upstream)
    requires Records(g, events) && Gather(g, ev).Some? && !ev.Completed?
    ensures var h := Gather(g, ev).value; var more := events + [ev];
      && (forall i :: i in h.added ==> ItemAdded(i, h.added[i]) in more)
      && (forall i :: i in h.done ==> i in h.added && ItemDone(i, h.done[i]) in more)
  {
    var h, more := Gather(g, ev).value, events + [ev];
    assert more[|events|] == ev;
    forall i | i in h.added
      ensures ItemAdded(i, h.added[i]) in more
    {
      if i in g.added {
        var p :| 0 <= p < |events| && events[p] == ItemAdded(i, g.added[i]);
        assert more[p] == ItemAdded(i, h.added[i]);
      }
    }
    forall i | i in h.done
      ensures i in h.added && ItemDone(i, h.done[i]) in more
    {
      if i in g.done {
        var p :| 0 <= p < |events| && events[p] == ItemDone(i, g.done[i]);
        assert more[p] == ItemDone(i, h.done[i]);
      }
    }
  }

  lemma GatherRecords(g: Gathered, events: seq<Upstream>, ev: Upstream)
    requires Records(g, events) && Gather(g, ev).Some? && !ev.Completed?
    ensures Records(Gather(g, ev).value, events + [ev]) && Gather(g, ev).value.result == g.result
  {
    var h, more := Gather(g, ev).value, events + [ev];
    GatherOnce(g, events, ev);
    GatherFinds(g, events, ev);
    forall p | 0 <= p < |more| && more[p].ItemAdded?
      ensures RecordsAdded(h, more[p])
    {
      if p < |events| { assert more[p] == events[p] && RecordsAdded(g, events[p]); }
    }
    forall p | 0 <= p < |more| && more[p].ItemDone?
      ensures RecordsDone(h, more[p]) && Announced(more, p)
    {
      if p < |events| {
        assert more[p] == events[p] && RecordsDone(g, events[p]);
        AnnouncedLater(events, ev, p);
      } else {
        var q :| 0 <= q < |events| && events[q] == ItemAdded(ev.index, g.added[ev.index]);
        assert more[q] == events[q];
      }
    }
  }

  lemma {:induction false} AllRecorded(events: seq<Upstream>)
    requires GatherAll(events).Some? && forall p :: 0 <= p < |events| ==> !events[p].Completed?
    ensures Records(GatherAll(events).value, events) && GatherAll(events).value.result.None?
  {
    if events != [] {
      var rest, last := events[..|events| - 1], events[|events| - 1];
      hide Records, Gather;
      AllRecorded(rest);
      GatherRecords(GatherAll(rest).value, rest, last);
      assert events == rest + [last];
    }
  }

  lemma InterleavesPrefix(events: seq<Upstream>, ev: Upstream, items: seq<Item>)
    requires Interleaves(events + [ev], items)
    ensures Interleaves(events, items)
  {
    var more := events + [ev];
    assert forall p :: 0 <= p < |events| ==> more[p] == events[p];
    forall p | 0 <= p < |events| && events[p].ItemDone?
      ensures Delivers(events[p], items) && Announced(events, p)
    {
      assert more[p] == events[p];
      AnnouncedLater(events, ev, p);
    }
    assert OnceEach(events);
  }

  lemma NextAccepted(g: Gathered, events: seq<Upstream>, ev: Upstream, items: seq<Item>)
    requires Records(g, events) && g.result.None? && Interleaves(events + [ev], items)
    ensures Gather(g, ev).Some? && !ev.Completed?
  {
    var more := events + [ev];
    assert more[|events|] == ev;
    if ev.ItemAdded? {
      assert Announces(ev, items);
      forall p | 0 <= p < |events| && events[p].ItemAdded?
        ensures events[p].index != ev.index
      {
        assert more[p] == events[p];
      }
    }
    if ev.ItemDone? {
      assert Delivers(ev, items) && Announced(more, |events|);
      var q :| 0 <= q < |events| && more[q].ItemAdded? && more[q].index == ev.index;
      assert more[q] == events[q] && RecordsAdded(g, events[q]) && Announces(more[q], items);
      forall p | 0 <= p < |events| && events[p].ItemDone?
        ensures events[p].index != ev.index
      {
        assert more[p] == events[p];
      }
    }
  }

  lemma {:induction false} InterleavingGathers(events: seq<Upstream>, items: seq<Item>)
    requires Interleaves(events, items)
    ensures GatherAll(events).Some?
  {
    if events != [] {
      var rest, ev := events[..|events| - 1], events[|events| - 1];
      assert events == rest + [ev];
      InterleavesPrefix(rest, ev, items);
      InterleavingGathers(rest, items);
      AllRecorded(rest);
      NextAccepted(GatherAll(rest).value, rest, ev, items);
    }
  }

  lemma {:induction false} CountsUpTo(s: set<int>, n: nat)
    requires forall i :: i in s <==> 0 <= i < n
    ensures |s| == n
  {
    if n == 0 {
      assert forall i :: i in s ==> i in {};
    } else {
      CountsUpTo(s - {n - 1}, n - 1);
    }
  }

  lemma DeliveredItem(g: Gathered, events: seq<Upstream>, items: seq<Item>, i: nat)
    requires Records(g, events) && Complete(events, items) && i < |items|
    ensures i in g.done && g.done[i] == items[i] && i in g.added
  {
    hide OnceEach, Announced;
    assert ItemDone(i, items[i]) in events;
    var p :| 0 <= p < |events| && events[p] == ItemDone(i, items[i]);
    assert RecordsDone(g, events[p]);
  }

  lemma AddedItem(g: Gathered, events: seq<Upstream>, items: seq<Item>, i: int)
    requires Records(g, events) && Interleaves(events, items) && i in g.added
    ensures 0 <= i < |items|
  {
    hide OnceEach, Announced;
    var p :| 0 <= p < |events| && events[p] == ItemAdded(i, g.added[i]);
    assert Announces(events[p], items);
  }

  lemma InterleavingIsWhole(g: Gathered, events: seq<Upstream>, items: seq<Item>)
    requires Records(g, events) && Interleaves(events, items) && Complete(events, items)
    ensures Whole(g) && InOrder(g) == items
  {
    assert forall i :: i in g.done ==> i in g.added;
    hide Records, Interleaves, Complete, OnceEach;
    forall i | 0 <= i < |items|
      ensures i in g.done && g.done[i] == items[i] && i in g.added
    {
      DeliveredItem(g, events, items, i);
    }
    forall i | i in g.added
      ensures 0 <= i < |items|
    {
      AddedItem(g, events, items, i);
    }
    WholeFrom(g, items);
  }

  lemma WholeFrom(g: Gathered, items: seq<Item>)
    requires forall i :: 0 <= i < |items| ==> i in g.done && g.done[i] == items[i] && i in g.added
    requires forall i :: i in g.added ==> 0 <= i < |items|
    requires forall i :: i in g.done ==> i in g.added
    ensures Whole(g) && InOrder(g) == items
  {
    CountsUpTo(g.added.Keys, |items|);
  }

  lemma CompletedLast(events: seq<Upstream>, response: Response)
    ensures GatherAll(events + [Completed(Some(response))]) ==
      if GatherAll(events).None? || GatherAll(events).value.result.Some? then None
      else Some(GatherAll(events).value.(result := Some(response)))
  {
    var all := events + [Completed(Some(response))];
    assert all[..|all| - 1] == events;
  }

  /** However the items' events interleave, the response carries the items in index order. */
  lemma OrderIsRestored(events: seq<Upstream>, items: seq<Item>, response: Response)
    requires Interleaves(events, items) && Complete(events, items) && items != []
    requires response.output == [] || response.output == items
    ensures GatherAll(events + [Completed(Some(response))]).Some?
    ensures Rebuilt(GatherAll(events + [Completed(Some(response))]).value) == Some(response.(output := items))
  {
    InterleavingGathers(events, items);
    AllRecorded(events);
    var g := GatherAll(events).value;
    InterleavingIsWhole(g, events, items);
    CompletedLast(events, response);
    hide Records, Interleaves, Complete, GatherAll;
    WholeRebuilds(g, items, response);
  }

  lemma WholeRebuilds(g: Gathered, items: seq<Item>, response: Response)
    requires Whole(g) && InOrder(g) == items && items != []
    requires response.output == [] || response.output == items
    ensures Rebuilt(g.(result := Some(response))) == Some(response.(output := items))
  {
    var h := g.(result := Some(response));
    assert Whole(h) && InOrder(h) == InOrder(g);
    assert 0 in g.done;
  }

  /** Nothing else is accepted: a response rebuilt from item events had a complete interleaving. */
  lemma OnlyInterleavings(events: seq<Upstream>, response: Response)
    requires forall p :: 0 <= p < |events| ==> !events[p].Completed?
    requires GatherAll(events + [Completed(Some(response))]).Some?
    requires var g := GatherAll(events + [Completed(Some(response))]).value;
      g.added != map[] && Rebuilt(g).Some?
    ensures var items := Rebuilt(GatherAll(events + [Completed(Some(response))]).value).value.output;
      && Interleaves(events, items) && Complete(events, items)
      && Rebuilt(GatherAll(events + [Completed(Some(response))]).value) == Some(response.(output := items))
      && (response.output == [] || response.output == items)
  {
    CompletedLast(events, response);
    AllRecorded(events);
    RecordsInterleave(GatherAll(events).value, events);
    hide Records, Interleaves, Complete;
  }

  /** Where no item is announced the response's own output stands. */
  lemma OwnOutputStands(events: seq<Upstream>, response: Response)
    requires forall p :: 0 <= p < |events| ==> events[p].Ignored?
    ensures var g := GatherAll(events + [Completed(Some(response))]); g.Some? && Rebuilt(g.value) == Some(response)
  {
    Ignoring(events);
    CompletedLast(events, response);
  }

  lemma {:induction false} Ignoring(events: seq<Upstream>)
    requires forall p :: 0 <= p < |events| ==> events[p].Ignored?
    ensures GatherAll(events) == Some(NOTHING)
  {
    if events != [] { Ignoring(events[..|events| - 1]); }
  }

  lemma RecordsInterleave(g: Gathered, events: seq<Upstream>)
    requires Records(g, events) && Whole(g)
    ensures Interleaves(events, InOrder(g)) && Complete(events, InOrder(g))
  {
    hide OnceEach, Announced;
    var items := InOrder(g);
    forall p | 0 <= p < |events| && events[p].ItemAdded?
      ensures Announces(events[p], items)
    {
      assert RecordsAdded(g, events[p]);
      AddedMatches(g, events, events[p].index);
    }
    forall p | 0 <= p < |events| && events[p].ItemDone?
      ensures Delivers(events[p], items)
    {
      assert RecordsDone(g, events[p]);
    }
  }

  lemma AddedMatches(g: Gathered, events: seq<Upstream>, i: int)
    requires Records(g, events) && i in g.done
    ensures g.added[i] == IdOf(g.done[i])
  {
    hide OnceEach, Announced;
    var q :| 0 <= q < |events| && events[q] == ItemDone(i, g.done[i]);
    assert RecordsDone(g, events[q]);
  }

  // ------------------------------------------------------------------ from the bytes

  /** What the event's object says of itself. */
  ghost predicate Describes(p: Parsed, ev: Upstream) {
    match ev
    case ItemAdded(index, id) =>
      && p.kind == Some("response.output_item.added") && p.index == Some(index)
      && p.item.Some? && Identified(p.item.value, id)
    case ItemDone(index, item) =>
      p.kind == Some("response.output_item.done") && p.index == Some(index) && p.item == Some(item)
    case Completed(response) => p.kind == Some("response.completed") && p.response == response
    case Failed => p.kind in {Some("error"), Some("response.failed"), Some("response.incomplete")}
    case Ignored =>
      p.kind !in {Some("error"), Some("response.failed"), Some("response.incomplete"), Some("response.completed"),
                  Some("response.output_item.added"), Some("response.output_item.done")}
  }

  /** The frame says what the event is, under the event's own name, within the limit. */
  ghost predicate Says(n: Named, ev: Upstream, d: Decoder) {
    && Clean(n) && Stripped(n.kind) == n.kind && |Frame(n)| <= 256 * 1024
    && d.json(n.data).Some? && Describes(d.json(n.data).value, ev)
    && d.text(n.kind).Some? && d.json(n.data).value.kind == d.text(n.kind)
  }

  lemma DescribesMeans(p: Parsed, ev: Upstream)
    requires Describes(p, ev)
    ensures EventOf(p) == ev
  {
  }

  ghost predicate SaysAll(frames: seq<Named>, events: seq<Upstream>, d: Decoder) {
    |frames| == |events| && forall i :: 0 <= i < |frames| ==> Says(frames[i], events[i], d)
  }

  lemma FrameSays(n: Named, ev: Upstream, d: Decoder)
    requires Says(n, ev, d)
    ensures ReadFrame(Frame(n), d) == Some([ev])
  {
    FrameData(n, false);
    FrameNames(n);
    DescribesMeans(d.json(n.data).value, ev);
    hide Describes, Lines, Data, NamesOf, Frame, Stripped, EventOf;
  }

  lemma FramesSay(frames: seq<Named>, events: seq<Upstream>, d: Decoder)
    requires SaysAll(frames, events, d)
    ensures |Framed(frames)| == |frames| + 1 && Framed(frames)[|frames|] == []
    ensures ReadFrames(Framed(frames)[..|frames|], d) == Some(events)
  {
    FramedAt(frames);
    forall i | 0 <= i < |frames|
      ensures ReadFrame(Framed(frames)[i], d) == Some([events[i]])
    {
      FrameSays(frames[i], events[i], d);
    }
    hide ReadFrame, Says, Framed;
    ReadEach(Framed(frames)[..|frames|], events, d);
  }

  lemma {:induction false} FramedAt(frames: seq<Named>)
    ensures |Framed(frames)| == |frames| + 1 && Framed(frames)[|frames|] == []
    ensures forall i :: 0 <= i < |frames| ==> Framed(frames)[i] == Frame(frames[i])
  {
    if frames != [] { FramedAt(frames[1..]); }
  }

  lemma {:induction false} ReadEach(frames: seq<Bytes>, events: seq<Upstream>, d: Decoder)
    requires |frames| == |events| && forall i :: 0 <= i < |frames| ==> ReadFrame(frames[i], d) == Some([events[i]])
    ensures ReadFrames(frames, d) == Some(events)
  {
    hide ReadFrame;
    if frames != [] {
      var last := |frames| - 1;
      ReadEach(frames[..last], events[..last], d);
      ReadOneMore(frames, d);
      assert events[..last] + [events[last]] == events;
    }
  }

  lemma ReadOneMore(frames: seq<Bytes>, d: Decoder)
    requires frames != []
    ensures var before, last := ReadFrames(frames[..|frames| - 1], d), ReadFrame(frames[|frames| - 1], d);
      before.Some? && last.Some? ==> ReadFrames(frames, d) == Some(before.value + last.value)
  {
    hide ReadFrame;
  }

  /** Events framed under their own names are read back, within the limits. */
  lemma EventsComeBack(frames: seq<Named>, events: seq<Upstream>, d: Decoder)
    requires SaysAll(frames, events, d) && |Written(frames)| <= 4 * 1024 * 1024
    ensures EventsOf(Written(frames), d) == Some(events)
  {
    FramesSay(frames, events, d);
    WrittenSplits(frames);
    hide Frames, Unix, Framed, ReadFrames, Says, Written;
  }

  /** From the bytes of any interleaving to the response with its items in index order. */
  lemma BytesRestoreOrder(frames: seq<Named>, events: seq<Upstream>, items: seq<Item>, response: Response, d: Decoder)
    requires SaysAll(frames, events + [Completed(Some(response))], d) && |Written(frames)| <= 4 * 1024 * 1024
    requires Interleaves(events, items) && Complete(events, items) && items != []
    requires response.output == [] || response.output == items
    ensures Understood(Written(frames), d) == Some(response.(output := items))
  {
    hide SaysAll, Interleaves, Complete, GatherAll, Rebuilt, EventsOf;
    EventsComeBack(frames, events + [Completed(Some(response))], d);
    OrderIsRestored(events, items, response);
  }

  /** A stream in which the provider says it failed is never understood as a response. */
  lemma FailureIsRefused(frames: seq<Named>, events: seq<Upstream>, d: Decoder)
    requires SaysAll(frames, events, d) && |Written(frames)| <= 4 * 1024 * 1024 && Failed in events
    ensures Understood(Written(frames), d).None?
  {
    EventsComeBack(frames, events, d);
    NeverMends(events);
    hide SaysAll, GatherAll, EventsOf, Written;
  }

  lemma {:induction false} NeverMends(events: seq<Upstream>)
    requires Failed in events
    ensures GatherAll(events).None?
  {
    var before, last := events[..|events| - 1], events[|events| - 1];
    if !last.Failed? { NeverMends(before); }
  }

  /** Nor is one that stops before its completion, or goes on after it. */
  lemma CompletionIsLast(frames: seq<Named>, events: seq<Upstream>, d: Decoder)
    requires SaysAll(frames, events, d) && |Written(frames)| <= 4 * 1024 * 1024 && Understood(Written(frames), d).Some?
    ensures events != [] && events[|events| - 1].Completed?
    ensures forall i :: 0 <= i < |events| - 1 ==> !events[i].Completed?
  {
    EventsComeBack(frames, events, d);
    hide SaysAll, EventsOf, Written, Rebuilt;
    CompletesOnce(events);
  }

  lemma {:induction false} CompletesOnce(events: seq<Upstream>)
    requires GatherAll(events).Some?
    ensures GatherAll(events).value.result.Some? <==> events != [] && events[|events| - 1].Completed?
    ensures forall i :: 0 <= i < |events| - 1 ==> !events[i].Completed?
  {
    if events != [] { CompletesOnce(events[..|events| - 1]); }
  }

  /** The frame is too large, is no JSON, or gives its event another name than its own. */
  ghost predicate Unfit(n: Named, d: Decoder) {
    || |Frame(n)| > 256 * 1024
    || d.json(n.data).None?
    || d.json(n.data).value.kind.None?
    || d.json(n.data).value.kind != d.text(n.kind)
  }

  lemma UnfitFrame(n: Named, d: Decoder)
    requires Clean(n) && Stripped(n.kind) == n.kind && Unfit(n, d)
    ensures ReadFrame(Frame(n), d).None?
  {
    FrameData(n, false);
    FrameNames(n);
    hide Lines, Data, NamesOf, Frame, Stripped, EventOf;
  }

  lemma UnfitFrames(frames: seq<Named>, i: nat, d: Decoder)
    requires i < |frames| && Clean(frames[i]) && Stripped(frames[i].kind) == frames[i].kind && Unfit(frames[i], d)
    ensures |Framed(frames)| == |frames| + 1 && ReadFrames(Framed(frames)[..|frames|], d).None?
  {
    FramedAt(frames);
    UnfitFrame(frames[i], d);
    hide Frame, Framed, ReadFrame, ReadFrames, Unfit, Stripped;
    NoneRead(Framed(frames)[..|frames|], i, d);
  }

  lemma NotRead(raw: Bytes, frames: seq<Bytes>, d: Decoder)
    requires Frames(Unix(raw)) == frames && frames != []
    requires |raw| > 4 * 1024 * 1024 || ReadFrames(frames[..|frames| - 1], d).None?
    ensures Understood(raw, d).None?
  {
    hide Frames, Unix, ReadFrames, Stripped, GatherAll, Rebuilt;
  }

  /** One unfit frame anywhere, or more bytes than the limit, and nothing is understood. */
  lemma UnfitIsRefused(frames: seq<Named>, d: Decoder)
    requires forall k :: 0 <= k < |frames| ==> Clean(frames[k]) && Stripped(frames[k].kind) == frames[k].kind
    requires |Written(frames)| > 4 * 1024 * 1024 || exists k :: 0 <= k < |frames| && Unfit(frames[k], d)
    ensures Understood(Written(frames), d).None?
  {
    if |Written(frames)| <= 4 * 1024 * 1024 {
      var i :| 0 <= i < |frames| && Unfit(frames[i], d);
      UnfitFrames(frames, i, d);
    }
    WrittenSplits(frames);
    FramedAt(frames);
    hide *;
    NotRead(Written(frames), Framed(frames), d);
  }

  lemma {:induction false} NoneRead(frames: seq<Bytes>, i: nat, d: Decoder)
    requires i < |frames| && ReadFrame(frames[i], d).None?
    ensures ReadFrames(frames, d).None?
  {
    if i < |frames| - 1 { NoneRead(frames[..|frames| - 1], i, d); }
    hide ReadFrame;
  }
}
