/** Framed streams of event messages, the reader that walks them, and the session that keeps
    what one player has seen. */
module EventStreams {
  import opened Bytes
  import opened SafeState
  import opened SafeStateBoundary
  import opened EventMessages

  // ---------------------------------------------------------------- streams

  /** The first frame of a stream and what follows it. */
  function GetFrame(b: Bytes): Parsed<Bytes> {
    var (length, b) :- GetLE32(b);
    if length == 0 || length > |b| then None else Some((b[..length], b[length..]))
  }

  lemma FrameConsumes(b: Bytes)
    ensures GetFrame(b).Some? ==> |GetFrame(b).value.1| < |b|
  {
  }

  function ShowFrame(engine: Engine, perspective: Byte, frame: Bytes): Option<seq<VisibleEvent>> {
    var m :- Parse(engine, frame);
    Some(Show(engine, perspective, m))
  }

  /** The events of a stream, in order; none of it when any frame of it is malformed. */
  function Project(engine: Engine, perspective: Byte, b: Bytes): Option<seq<VisibleEvent>>
    decreases |b|
  {
    if b == [] then Some([])
    else
      FrameConsumes(b);
      var (frame, rest) :- GetFrame(b);
      var events :- ShowFrame(engine, perspective, frame);
      var more :- Project(engine, perspective, rest);
      Some(events + more)
  }

  lemma FrameExtends(a: Bytes, b: Bytes)
    requires GetFrame(a).Some?
    ensures GetFrame(a + b) == Some((GetFrame(a).value.0, GetFrame(a).value.1 + b))
  {
    hide FromLE;
    var length := FromLE(a[..4]);
    assert (a + b)[..4] == a[..4] && (a + b)[4..] == a[4..] + b;
    assert (a[4..] + b)[..length] == a[4..][..length] && (a[4..] + b)[length..] == a[4..][length..] + b;
  }

  /** Projection is a homomorphism: after a whole stream, more of it gives the events of the
      first part, then those of the second. */
  lemma {:induction false} ProjectionOfMore(engine: Engine, perspective: Byte, a: Bytes, b: Bytes)
    requires Project(engine, perspective, a).Some?
    ensures Project(engine, perspective, a + b) ==
      match Project(engine, perspective, b)
      case None => None
      case Some(events) => Some(Project(engine, perspective, a).value + events)
    decreases |a|
  {
    hide ShowFrame, GetFrame;
    if a == [] {
      assert a + b == b;
      if Project(engine, perspective, b).Some? {
        assert [] + Project(engine, perspective, b).value == Project(engine, perspective, b).value;
      }
    } else {
      FrameConsumes(a);
      FrameExtends(a, b);
      var (frame, rest) := GetFrame(a).value;
      ProjectionOfMore(engine, perspective, rest, b);
      var events, more := ShowFrame(engine, perspective, frame).value, Project(engine, perspective, rest).value;
      if Project(engine, perspective, b).Some? {
        var after := Project(engine, perspective, b).value;
        assert (events + more) + after == events + (more + after);
      }
    }
  }

  // ---------------------------------------------------------------- what a player can tell

  function SeenOf(engine: Engine, perspective: Byte, frame: Bytes): Option<Message> {
    var m :- Parse(engine, frame);
    Some(Hide(engine, perspective, m))
  }

  /** Two streams that agree, frame by frame, on all but what is hidden from the player. */
  predicate SameToPlayer(engine: Engine, perspective: Byte, a: Bytes, b: Bytes)
    decreases |a|
  {
    if a == [] || b == [] then a == b
    else
      FrameConsumes(a);
      match (GetFrame(a), GetFrame(b))
      case (Some((f, s)), Some((g, t))) =>
        SeenOf(engine, perspective, f) == SeenOf(engine, perspective, g) && SameToPlayer(engine, perspective, s, t)
      case (None, None) => true
      case _ => false
  }

  lemma SameFrames(engine: Engine, perspective: Byte, f: Bytes, g: Bytes)
    requires SeenOf(engine, perspective, f) == SeenOf(engine, perspective, g)
    ensures ShowFrame(engine, perspective, f) == ShowFrame(engine, perspective, g)
  {
    hide Parse, Show, Hide;
    if Parse(engine, f).Some? {
      HiddenIsNotShown(engine, perspective, Parse(engine, f).value);
      HiddenIsNotShown(engine, perspective, Parse(engine, g).value);
    }
  }

  /** Streams that differ only in what is hidden from a player show that player the same events. */
  lemma {:induction false} HiddenLeavesNoTrace(engine: Engine, perspective: Byte, a: Bytes, b: Bytes)
    requires SameToPlayer(engine, perspective, a, b)
    ensures Project(engine, perspective, a) == Project(engine, perspective, b)
    decreases |a|
  {
    hide GetFrame, SeenOf, ShowFrame;
    if a != [] && b != [] && GetFrame(a).Some? {
      FrameConsumes(a);
      SameFrames(engine, perspective, GetFrame(a).value.0, GetFrame(b).value.0);
      HiddenLeavesNoTrace(engine, perspective, GetFrame(a).value.1, GetFrame(b).value.1);
    }
  }

  // ---------------------------------------------------------------- numbered events

  function Numbered(events: seq<VisibleEvent>, step: U64, first: nat): (es: seq<VisibleGameEvent>)
    ensures |es| == |events|
  {
    seq(|events|, i requires 0 <= i < |events| =>
      VisibleGameEvent(step, events[i].(eventIndex := (first + i) % 0x1_0000_0000_0000_0000)))
  }

  /** The numbers carry on across a cut. */
  lemma NumberedParts(a: seq<VisibleEvent>, b: seq<VisibleEvent>, step: U64, first: nat)
    ensures Numbered(a + b, step, first) == Numbered(a, step, first) + Numbered(b, step, first + |a|)
  {
  }
}
