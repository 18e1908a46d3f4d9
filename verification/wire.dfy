/** Events as bytes: what one side frames, the other side's splitting gives back. */
module Wire {
  import opened Domain
  import opened Json
  import opened Framing
  import opened Translator
  import opened Responses
  import opened Stream

  function Carried(frames: seq<Bytes>): seq<Bytes> {
    if frames == [] then []
    else
      var data := Data(Lines(frames[0]), true);
      (if data.None? || data.value == [] then [] else [data.value]) + Carried(frames[1..])
  }

  /** Everything a stream's frames carry. */
  function Payloads(raw: Bytes): seq<Bytes> { Carried(Frames(Unix(raw))) }

  function DataOf(events: seq<Named>): seq<Bytes> {
    if events == [] then [] else [events[0].data] + DataOf(events[1..])
  }

  lemma {:induction false} CarriedBack(events: seq<Named>)
    requires forall i :: 0 <= i < |events| ==> Clean(events[i])
    ensures Carried(Framed(events)) == DataOf(events)
  {
    if events == [] {
      var none: seq<Bytes> := [];
      var blank: Bytes := [];
      assert Lines(blank) == [blank] && [blank][1..] == none && Data(none, true) == None && Data([blank], true) == None;
      assert Framed(events) == [blank] && Framed(events)[1..] == none && Carried(none) == [];
    } else {
      FrameData(events[0], true);
      CarriedBack(events[1..]);
      hide Lines, Frame, Data;
      assert Framed(events)[1..] == Framed(events[1..]);
    }
  }

  /** Whatever is framed is carried, in order and unchanged. */
  lemma FramingRoundTrip(events: seq<Named>)
    requires forall i :: 0 <= i < |events| ==> Clean(events[i])
    ensures Payloads(Written(events)) == DataOf(events)
  {
    WrittenSplits(events);
    CarriedBack(events);
    hide *;
  }

  // ----------------------------------------------------------------- stream round trip

  /** Events as text and back; any encoding faithful to the events spoken, and whose text frames
      cleanly, will do. */
  datatype EventCodec = EventCodec(name: Event -> Bytes, encode: Event -> Bytes, decode: Bytes -> Option<Event>)
  {
    ghost predicate Faithful(events: seq<Event>) {
      forall ev :: ev in events ==> decode(encode(ev)) == Some(ev) && Clean(Named(name(ev), encode(ev)))
    }
  }

  function Encoded(events: seq<Event>, c: EventCodec): seq<Named> {
    if events == [] then [] else [Named(c.name(events[0]), c.encode(events[0]))] + Encoded(events[1..], c)
  }

  function Decoded(payloads: seq<Bytes>, c: EventCodec): Option<seq<Event>> {
    if payloads == [] then Some([])
    else
      var rest := Decoded(payloads[1..], c);
      if c.decode(payloads[0]).None? || rest.None? then None else Some([c.decode(payloads[0]).value] + rest.value)
  }

  lemma {:induction false} DecodesBack(events: seq<Event>, c: EventCodec)
    requires c.Faithful(events)
    ensures Decoded(DataOf(Encoded(events, c)), c) == Some(events)
    ensures forall i :: 0 <= i < |Encoded(events, c)| ==> Clean(Encoded(events, c)[i])
  {
    if events != [] {
      DecodesBack(events[1..], c);
      assert c.decode(c.encode(events[0])) == Some(events[0]) && Clean(Named(c.name(events[0]), c.encode(events[0])));
      hide Clean;
      assert events == [events[0]] + events[1..];
    }
  }

  /** The bytes a completed response is spoken in, read by the stream reader, give back
      exactly its blocks in order. */
  lemma WireRoundTrip(r: Response, model: string, names: set<string>, codec: Codec, fits: seq<Event> -> bool, c: EventCodec)
    requires codec.Faithful() && Replied(r, model, names, codec, fits).Some?
    requires c.Faithful(Replied(r, model, names, codec, fits).value.events)
    ensures var raw := Written(Encoded(Replied(r, model, names, codec, fits).value.events, c));
      && Decoded(Payloads(raw), c).Some?
      && Collected(Decoded(Payloads(raw), c).value, Some(model), codec)
        == Some(Jsons(SpeakAll(r.output, names, codec).value.blocks))
  {
    var events := Replied(r, model, names, codec, fits).value.events;
    DecodesBack(events, c);
    FramingRoundTrip(Encoded(events, c));
    StreamRoundTrip(r, model, names, codec, fits);
  }
}
