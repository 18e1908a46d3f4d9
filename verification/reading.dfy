/** What the reader of a native stream takes, event by event, and what it makes of any stream it
    takes: every block as it was started, grown by its own deltas in the order they came. */
module Reading {
  import opened Domain
  import opened Json
  import opened Translator
  import opened Stream

  // ---------------------------------------------------------------- what has been said

  predicate Begun(events: seq<Event>) { exists i :: 0 <= i < |events| && events[i].MessageStart? }

  /** The block an index was started with. */
  function Opening(events: seq<Event>, index: int): Option<Json> {
    if events == [] then None
    else
      var last := events[|events| - 1];
      if last.BlockStart? && last.index == index then Some(last.block) else Opening(events[..|events| - 1], index)
  }

  /** The indices, as their blocks were started. */
  function Order(events: seq<Event>): seq<int> {
    if events == [] then []
    else
      var last := events[|events| - 1];
      Order(events[..|events| - 1]) + if last.BlockStart? then [last.index] else []
  }

  function Kind(delta: Delta): string {
    match delta
    case ThinkingDelta(_) => "thinking"
    case SignatureDelta(_) => "signature"
    case TextDelta(_) => "text"
    case InputDelta(_) => "input"
    case OtherDelta => ""
  }

  predicate Adds(ev: Event, index: int, kind: string) {
    ev.BlockDelta? && ev.index == index && !ev.delta.OtherDelta? && Kind(ev.delta) == kind
  }

  /** What a block's deltas of one kind say, one after the other; None where there is none. */
  function Told(events: seq<Event>, index: int, kind: string): Option<string> {
    if events == [] then None
    else
      var before, last := Told(events[..|events| - 1], index, kind), events[|events| - 1];
      if !Adds(last, index, kind) then before
      else if before.None? then Some(last.delta.text)
      else Some(before.value + last.delta.text)
  }

  function Arguments(events: seq<Event>, index: int): string {
    var told := Told(events, index, "input");
    if told.None? then "" else told.value
  }

  // ----------------------------------------------------------------- what may come next

  /** The field is a text that can grow. */
  predicate Growable(block: Json, field: string) { Get(block, field).None? || GetText(block, field).Some? }

  /** The event may follow these. */
  predicate May(before: seq<Event>, ev: Event, expected: Option<string>) {
    && MessageStop !in before
    && match ev
       case MessageStart(_, model, content, _, _) =>
         !Begun(before) && content == [] && (expected.Some? ==> model == expected.value)
       case BlockStart(index, block) =>
         && Begun(before) && Opening(before, index).None? && block.Object?
         && (Get(block, "type") == Some(Text("tool_use")) ==> Get(block, "input") == Some(Object(map[])))
       case BlockDelta(index, delta) =>
         && Begun(before) && Opening(before, index).Some? && BlockStop(index) !in before
         && (delta.InputDelta? || delta.OtherDelta? || Growable(Opening(before, index).value, Kind(delta)))
       case BlockStop(index) => Begun(before) && Opening(before, index).Some? && BlockStop(index) !in before
       case MessageStop => Begun(before) && forall i :: 0 <= i < |before| && before[i].BlockStart? ==> BlockStop(before[i].index) in before
       case ErrorEvent => false
       case _ => true
  }

  ghost predicate Proper(events: seq<Event>, expected: Option<string>) {
    forall i :: 0 <= i < |events| ==> May(events[..i], events[i], expected)
  }

  // -------------------------------------------------------------- what the reader holds

  /** A field after its deltas. */
  predicate Field(opening: Json, block: Json, told: Option<string>, field: string) {
    if told.None? then Get(block, field) == Get(opening, field)
    else
      && Growable(opening, field)
      && Get(block, field) ==
          Some(Text((if GetText(opening, field).Some? then GetText(opening, field).value else "") + told.value))
  }

  /** The block as it was started, its texts grown by their deltas and nothing else of it moved. */
  ghost predicate Grows(events: seq<Event>, index: int, block: Json) {
    var opening := Opening(events, index);
    && opening.Some? && opening.value.Object? && block.Object?
    && (forall k :: k != "thinking" && k != "signature" && k != "text" ==> Get(block, k) == Get(opening.value, k))
    && forall k :: k == "thinking" || k == "signature" || k == "text" ==> Field(opening.value, block, Told(events, index, k), k)
  }

  /** Nothing is told of an index before its block is started. */
  ghost predicate NothingTold(events: seq<Event>, index: int) {
    Opening(events, index).None? ==> forall kind :: Told(events, index, kind).None?
  }

  ghost predicate HoldsAt(r: Reader, events: seq<Event>, index: int) {
    && (index in r.blocks <==> Opening(events, index).Some?)
    && (index in r.blocks ==> Grows(events, index, r.blocks[index]))
    && (index in r.stopped <==> BlockStop(index) in events)
    && (index in r.stopped ==> index in r.blocks)
    && (index in r.tools ==> index in r.blocks)
    && Arguments(events, index) == (if index in r.tools then r.tools[index] else "")
    && (Told(events, index, "input").Some? ==> index in r.tools)
    && NothingTold(events, index)
  }

  ghost predicate Holds(r: Reader, events: seq<Event>) {
    && (r.started <==> Begun(events)) && (r.terminal <==> MessageStop in events) && r.order == Order(events)
    && forall index :: HoldsAt(r, events, index)
  }

  lemma Last(events: seq<Event>, ev: Event)
    ensures Begun(events + [ev]) <==> Begun(events) || ev.MessageStart?
    ensures forall x :: x in events + [ev] <==> x in events || x == ev
    ensures (events + [ev])[..|events|] == events
  {
    var more := events + [ev];
    if Begun(events) {
      var i :| 0 <= i < |events| && events[i].MessageStart?;
      assert more[i].MessageStart?;
    }
    if ev.MessageStart? { assert more[|events|].MessageStart?; }
  }

  /** An event that says nothing of an index leaves what is held of it. */
  lemma Elsewhere(r: Reader, next: Reader, events: seq<Event>, ev: Event, index: int)
    requires HoldsAt(r, events, index)
    requires (ev.BlockStart? || ev.BlockStop? || ev.BlockDelta?) ==> ev.index != index
    requires index in next.blocks <==> index in r.blocks
    requires index in r.blocks ==> next.blocks[index] == r.blocks[index]
    requires index in next.tools <==> index in r.tools
    requires index in r.tools ==> next.tools[index] == r.tools[index]
    requires index in next.stopped <==> index in r.stopped
    ensures HoldsAt(next, events + [ev], index)
  {
    Last(events, ev);
    assert forall kind :: Told(events + [ev], index, kind) == Told(events, index, kind);
    hide Field;
  }

  lemma OpensAt(r: Reader, events: seq<Event>, index: int, block: Json)
    requires HoldsAt(r, events, index) && ReadStart(r, index, block).Some?
    ensures HoldsAt(ReadStart(r, index, block).value, events + [BlockStart(index, block)], index)
  {
    var ev := BlockStart(index, block);
    Last(events, ev);
    assert forall kind :: Told(events + [ev], index, kind) == Told(events, index, kind);
  }

  lemma StopsAt(r: Reader, next: Reader, events: seq<Event>, index: int)
    requires HoldsAt(r, events, index) && index in r.blocks && next == r.(stopped := r.stopped + {index})
    ensures HoldsAt(next, events + [BlockStop(index)], index)
  {
    var ev := BlockStop(index);
    Last(events, ev);
    assert forall kind :: Told(events + [ev], index, kind) == Told(events, index, kind);
    hide Field;
  }

  lemma ToldMore(events: seq<Event>, ev: Event, index: int, kind: string)
    ensures Told(events + [ev], index, kind) ==
      if !Adds(ev, index, kind) then Told(events, index, kind)
      else if Told(events, index, kind).None? then Some(ev.delta.text)
      else Some(Told(events, index, kind).value + ev.delta.text)
  {
    assert (events + [ev])[..|events|] == events;
  }

  lemma OpeningMore(events: seq<Event>, ev: Event, index: int)
    ensures Opening(events + [ev], index) == if ev.BlockStart? && ev.index == index then Some(ev.block) else Opening(events, index)
    ensures Order(events + [ev]) == Order(events) + if ev.BlockStart? then [ev.index] else []
  {
    assert (events + [ev])[..|events|] == events;
  }

  /** A text grows its own field. */
  lemma FieldGrows(opening: Json, block: Json, told: Option<string>, field: string, text: string)
    requires block.Object? && Field(opening, block, told, field)
    ensures Append(block, field, text).Some? <==> Growable(opening, field)
    ensures Append(block, field, text).Some? ==>
      Field(opening, Append(block, field, text).value, Some(if told.None? then text else told.value + text), field)
  {
    if told.Some? {
      var first := if GetText(opening, field).Some? then GetText(opening, field).value else "";
      assert first + told.value + text == first + (told.value + text);
    } else if Get(opening, field).None? {
      assert "" + text == text;
    }
  }

  lemma AppendsOnly(block: Json, field: string, text: string, k: string)
    requires block.Object? && Append(block, field, text).Some? && k != field
    ensures Append(block, field, text).value.Object? && Get(Append(block, field, text).value, k) == Get(block, k)
  {
  }

  lemma TextGrows(events: seq<Event>, index: int, block: Json, delta: Delta)
    requires Grows(events, index, block) && !delta.InputDelta? && !delta.OtherDelta?
    ensures FieldOf(delta) == Kind(delta)
    ensures Append(block, Kind(delta), delta.text).Some? <==> Growable(Opening(events, index).value, Kind(delta))
    ensures Append(block, Kind(delta), delta.text).Some? ==>
      Grows(events + [BlockDelta(index, delta)], index, Append(block, Kind(delta), delta.text).value)
  {
    var ev, field := BlockDelta(index, delta), Kind(delta);
    var opening := Opening(events, index).value;
    OpeningMore(events, ev, index);
    FieldGrows(opening, block, Told(events, index, field), field, delta.text);
    var next := Append(block, field, delta.text);
    if next.Some? {
      forall k
        ensures Told(events + [ev], index, k) == (
          if k != field then Told(events, index, k)
          else if Told(events, index, field).None? then Some(delta.text)
          else Some(Told(events, index, field).value + delta.text))
      {
        ToldMore(events, ev, index, k);
      }
      forall k | k != field
        ensures next.value.Object? && Get(next.value, k) == Get(block, k)
      {
        AppendsOnly(block, field, delta.text, k);
      }
      hide Append, Told, Opening;
    }
  }

  lemma DeltaAt(r: Reader, events: seq<Event>, index: int, delta: Delta)
    requires HoldsAt(r, events, index) && ReadDelta(r, index, delta).Some?
    ensures HoldsAt(ReadDelta(r, index, delta).value, events + [BlockDelta(index, delta)], index)
  {
    var ev := BlockDelta(index, delta);
    Last(events, ev);
    OpeningMore(events, ev, index);
    forall kind
      ensures !Adds(ev, index, kind) ==> Told(events + [ev], index, kind) == Told(events, index, kind)
    {
      ToldMore(events, ev, index, kind);
    }
    ToldMore(events, ev, index, "input");
    if !delta.InputDelta? && !delta.OtherDelta? { TextGrows(events, index, r.blocks[index], delta); }
    hide Append, Told, Opening, Begun, Growable, Field;
  }

  lemma DeltaMay(r: Reader, events: seq<Event>, index: int, delta: Delta, expected: Option<string>)
    requires HoldsAt(r, events, index) && (r.started <==> Begun(events)) && (r.terminal <==> MessageStop in events)
    ensures Read(r, BlockDelta(index, delta), expected).Some? <==> May(events, BlockDelta(index, delta), expected)
  {
    if index in r.blocks && !delta.InputDelta? && !delta.OtherDelta? { TextGrows(events, index, r.blocks[index], delta); }
    hide Append, Told, Opening, Begun, Growable, Field;
  }

  lemma {:induction false} OpenedAt(events: seq<Event>, index: int)
    ensures Opening(events, index).Some? <==> exists i :: 0 <= i < |events| && events[i].BlockStart? && events[i].index == index
  {
    if events != [] {
      var before := events[..|events| - 1];
      OpenedAt(before, index);
      assert forall i :: 0 <= i < |before| ==> before[i] == events[i];
    }
  }

  lemma AllStopped(started: set<int>, stopped: set<int>)
    requires forall index :: index in stopped ==> index in started
    ensures started == stopped <==> forall index :: index in started ==> index in stopped
  {
    if forall index :: index in started ==> index in stopped {
      assert forall index :: index in started <==> index in stopped;
    }
  }

  lemma StopMay(r: Reader, events: seq<Event>, expected: Option<string>)
    requires Holds(r, events)
    ensures Read(r, MessageStop, expected).Some? <==> May(events, MessageStop, expected)
  {
    forall index
      ensures index in r.blocks <==> exists i :: 0 <= i < |events| && events[i].BlockStart? && events[i].index == index
      ensures index in r.stopped <==> BlockStop(index) in events
      ensures index in r.stopped ==> index in r.blocks
    {
      assert HoldsAt(r, events, index);
      OpenedAt(events, index);
    }
    hide Opening, Begun, Told;
    AllStopped(r.blocks.Keys, r.stopped);
  }

  /** An event is taken exactly when it may come next. */
  lemma StepMay(r: Reader, events: seq<Event>, ev: Event, expected: Option<string>)
    requires Holds(r, events)
    ensures Read(r, ev, expected).Some? <==> May(events, ev, expected)
  {
    match ev
    case MessageStop => StopMay(r, events, expected);
    case BlockDelta(index, delta) =>
      assert HoldsAt(r, events, index);
      DeltaMay(r, events, index, delta, expected);
    case BlockStart(index, block) =>
      assert HoldsAt(r, events, index);
      hide Opening, Begun, Told, Grows;
    case BlockStop(index) =>
      assert HoldsAt(r, events, index);
      hide Opening, Begun, Told, Grows;
    case _ =>
  }

  lemma StepAt(r: Reader, events: seq<Event>, ev: Event, expected: Option<string>, index: int)
    requires HoldsAt(r, events, index) && Read(r, ev, expected).Some?
    ensures HoldsAt(Read(r, ev, expected).value, events + [ev], index)
  {
    var next := Read(r, ev, expected).value;
    if (ev.BlockStart? || ev.BlockStop? || ev.BlockDelta?) && ev.index == index {
      match ev
      case BlockStart(_, block) => OpensAt(r, events, index, block);
      case BlockStop(_) => StopsAt(r, next, events, index);
      case BlockDelta(_, delta) => DeltaAt(r, events, index, delta);
    } else {
      hide HoldsAt;
      Elsewhere(r, next, events, ev, index);
    }
  }

  lemma StepHolds(r: Reader, events: seq<Event>, ev: Event, expected: Option<string>)
    requires Holds(r, events) && Read(r, ev, expected).Some?
    ensures Holds(Read(r, ev, expected).value, events + [ev])
  {
    forall index
      ensures HoldsAt(Read(r, ev, expected).value, events + [ev], index)
    {
      StepAt(r, events, ev, expected, index);
    }
    Last(events, ev);
    OpeningMore(events, ev, 0);
    hide HoldsAt, Begun, Order, Opening;
  }

  lemma ProperLast(before: seq<Event>, last: Event, expected: Option<string>)
    ensures Proper(before + [last], expected) <==> Proper(before, expected) && May(before, last, expected)
  {
    var events := before + [last];
    assert forall i :: 0 <= i < |before| ==> before[..i] == events[..i] && before[i] == events[i];
    assert events[..|before|] == before && events[|before|] == last;
    hide May;
  }

  /** A stream is taken exactly when each of its events may follow those before it; and then each
      block is what its own events make it. */
  lemma {:induction false} ReadsWhen(events: seq<Event>, expected: Option<string>)
    ensures ReadAll(UNREAD, events, expected).Some? <==> Proper(events, expected)
    ensures ReadAll(UNREAD, events, expected).Some? ==> Holds(ReadAll(UNREAD, events, expected).value, events)
  {
    if events != [] {
      var before, last := events[..|events| - 1], events[|events| - 1];
      ReadsWhen(before, expected);
      assert events == before + [last];
      ProperLast(before, last, expected);
      hide Holds, May, Read, Proper;
      if ReadAll(UNREAD, before, expected).Some? {
        var r := ReadAll(UNREAD, before, expected).value;
        StepMay(r, before, last, expected);
        if Read(r, last, expected).Some? { StepHolds(r, before, last, expected); }
      }
    }
  }

  // --------------------------------------------------------------------- what is collected

  /** The arguments told are none, or can be parsed. */
  predicate Argued(events: seq<Event>, index: int, codec: Codec) {
    Arguments(events, index) == "" || codec.parse(Arguments(events, index)).Some?
  }

  /** The block grown, and with the arguments told of it if there are any. */
  ghost predicate Collects(seen: Json, events: seq<Event>, index: int, codec: Codec) {
    && Argued(events, index, codec)
    && exists block :: Grows(events, index, block)
         && seen == if Arguments(events, index) == "" then block
                    else Set(block, "input", codec.parse(Arguments(events, index)).value)
  }

  lemma OneCollects(r: Reader, events: seq<Event>, index: int, codec: Codec)
    requires HoldsAt(r, events, index) && index in r.blocks
    ensures var block := Resolved(r.blocks[index], Lookup(r.tools, index), codec);
      (block.Some? <==> Argued(events, index, codec)) && (block.Some? ==> Collects(block.value, events, index, codec))
  {
    hide Told, Field, Opening;
  }

  lemma {:induction false} AllCollect(r: Reader, events: seq<Event>, order: seq<int>, codec: Codec)
    requires forall n :: 0 <= n < |order| ==> HoldsAt(r, events, order[n]) && order[n] in r.blocks
    ensures ResolvedAll(r, order, codec).Some? <==> forall n :: 0 <= n < |order| ==> Argued(events, order[n], codec)
    ensures ResolvedAll(r, order, codec).Some? ==> (
      var seen := ResolvedAll(r, order, codec).value;
      |seen| == |order| && forall n :: 0 <= n < |order| ==> Collects(seen[n], events, order[n], codec))
  {
    if order != [] {
      var last := |order| - 1;
      AllCollect(r, events, order[..last], codec);
      OneCollects(r, events, order[last], codec);
      hide HoldsAt, Collects, Argued, Resolved;
      assert forall n :: 0 <= n < last ==> order[..last][n] == order[n];
    }
  }

  lemma {:induction false} OrderOpens(events: seq<Event>)
    ensures forall n :: 0 <= n < |Order(events)| ==> Opening(events, Order(events)[n]).Some?
  {
    if events != [] { OrderOpens(events[..|events| - 1]); }
  }

  /** A stream is understood exactly when its events come properly, it stops, and every block's
      arguments can be parsed; then it is its blocks, in the order they were started, each grown by
      its own deltas, however they were interleaved. */
  lemma CollectedMeans(events: seq<Event>, expected: Option<string>, codec: Codec)
    ensures Collected(events, expected, codec).Some? <==>
      && Proper(events, expected) && MessageStop in events
      && forall n :: 0 <= n < |Order(events)| ==> Argued(events, Order(events)[n], codec)
    ensures Collected(events, expected, codec).Some? ==> (
      var seen := Collected(events, expected, codec).value;
      |seen| == |Order(events)| && forall n :: 0 <= n < |seen| ==> Collects(seen[n], events, Order(events)[n], codec))
  {
    ReadsWhen(events, expected);
    var read := ReadAll(UNREAD, events, expected);
    if read.Some? {
      OrderOpens(events);
      forall n | 0 <= n < |Order(events)|
        ensures HoldsAt(read.value, events, Order(events)[n]) && Order(events)[n] in read.value.blocks
      {
        assert HoldsAt(read.value, events, Order(events)[n]);
      }
      AllCollect(read.value, events, read.value.order, codec);
    }
    hide ReadAll, ResolvedAll, Proper, HoldsAt, Collects, Argued, Order;
  }
}
