/** What a player is told of a message, field by field and without the functions that build the
    events, and what follows for whole streams: which cards are ever located or named. */
module EventMeaning {
  import opened Bytes
  import opened Sorting
  import opened SafeState
  import opened EventMessages
  import opened EventStreams

  const NOTHING: VisibleEvent := VisibleEvent(
    0, VisibleEventKind.Unknown, None, None, None, None, None, None, None, None, None, None, None, None, [])

  // ---------------------------------------------------------------- one field

  function PlaceText(engine: Engine, l: Location): Bytes {
    engine.locatorText(l.controller, engine.zoneOf(l.place, l.controller, l.sequence), l.sequence)
  }

  function Zone(engine: Engine, l: Location): SemanticZone {
    engine.zoneOf(l.place, l.controller, l.sequence)
  }

  /** A card is located exactly when it is not concealed, and then by its controller, zone and
      sequence. */
  predicate Locates(engine: Engine, perspective: Byte, entity: Option<Bytes>, l: Location) {
    entity == if Concealed(engine, perspective, l) then None else Some(PlaceText(engine, l))
  }

  /** A code other than zero of a card that is face up and somebody's. */
  predicate Recognised(engine: Engine, code: U32, l: Location) {
    code != 0 && l.controller != 2 && engine.faceUp(l.position)
  }

  predicate NamesIf(shown: bool, passcode: Option<U32>, code: U32) {
    passcode.Some? == shown && (shown ==> passcode.value == code)
  }

  /** Places of some elements of a list: all those kept, ascending. */
  ghost predicate Picks<T>(xs: seq<T>, keep: T -> bool, places: seq<nat>) {
    && (forall i, j :: 0 <= i < j < |places| ==> places[i] < places[j])
    && (forall i :: 0 <= i < |places| ==> places[i] < |xs| && keep(xs[places[i]]))
    && (forall k :: 0 <= k < |xs| && keep(xs[k]) ==> k in places)
  }

  function Learnt(engine: Engine, perspective: Byte, player: Byte): CardDrawn -> bool {
    (c: CardDrawn) => player == perspective || engine.faceUp(c.position)
  }

  function Evident(engine: Engine, perspective: Byte): Location -> bool {
    (l: Location) => !Concealed(engine, perspective, l)
  }

  // ---------------------------------------------------------------- one message

  ghost predicate MoveTold(engine: Engine, perspective: Byte, code: U32, from: Location, to: Location, reason: U32,
                           e: VisibleEvent)
  {
    && e.(kind := VisibleEventKind.Unknown, entity := None, publicPasscode := None) ==
       NOTHING.(player := Some(to.controller), fromZone := Some(Zone(engine, from)), toZone := Some(Zone(engine, to)))
    && Locates(engine, perspective, e.entity, to)
    && NamesIf(Recognised(engine, code, from) || Recognised(engine, code, to), e.publicPasscode, code)
    && e.kind in {CardMoved, CardBanished, CardDestroyed, CardReturned}
    && (e.kind == CardBanished <==> Zone(engine, to) == Banished)
    && (e.kind == CardDestroyed <==> Zone(engine, to) == Graveyard && engine.destroyed(reason))
    && (e.kind == CardMoved ==> Zone(engine, from) !in {Banished, Graveyard})
    && (e.kind == CardReturned ==> Zone(engine, from) in {Banished, Graveyard})
  }

  ghost predicate TurnTold(engine: Engine, perspective: Byte, code: U32, at: Location, oldPosition: U32,
                           e: VisibleEvent)
  {
    && e.(entity := None, publicPasscode := None) ==
       NOTHING.(kind := PositionChanged, player := Some(at.controller), toZone := Some(Zone(engine, at)))
    && Locates(engine, perspective, e.entity, at)
    && NamesIf(engine.faceUp(oldPosition) || engine.faceUp(at.position), e.publicPasscode, code)
  }

  ghost predicate PlacingTold(engine: Engine, perspective: Byte, isSet: bool, code: U32, at: Location,
      e: VisibleEvent)
  {
    && e.(kind := VisibleEventKind.Unknown, entity := None, publicPasscode := None) ==
       NOTHING.(player := Some(at.controller), toZone := Some(Zone(engine, at)))
    && (if isSet then e.kind == VisibleEventKind.Set else e.kind == VisibleEventKind.Summoned)
    && Locates(engine, perspective, e.entity, at) && NamesIf(Recognised(engine, code, at), e.publicPasscode, code)
  }

  /** The count, and one reveal for every card the player learns, in the order drawn. */
  ghost predicate DrawTold(engine: Engine, perspective: Byte, player: Byte, cards: seq<CardDrawn>,
                           es: seq<VisibleEvent>)
  {
    && |es| > 0
    && es[0] == NOTHING.(kind := Draw, player := Some(player), count := Some(|cards| % 0x1_0000_0000))
    && exists places :: RevealsTold(engine, perspective, player, cards, places, es[1..])
  }

  ghost predicate RevealsTold(engine: Engine, perspective: Byte, player: Byte, cards: seq<CardDrawn>,
                              places: seq<nat>, es: seq<VisibleEvent>)
  {
    && |places| == |es| && Picks(cards, Learnt(engine, perspective, player), places)
    && forall i :: 0 <= i < |places| ==> RevealTold(player, cards[places[i]].code, es[i])
  }

  predicate RevealTold(player: Byte, code: U32, e: VisibleEvent) {
    e == NOTHING.(kind := CardRevealed, player := Some(player), publicPasscode := Some(code))
  }

  /** Everyone learns that a card of a controller in a zone was shown; whom it was shown to
      learns which card and, outside main decks, where. */
  ghost predicate SeenTold(engine: Engine, perspective: Byte, recipient: Byte, c: CardSeen, e: VisibleEvent) {
    && e.(entity := None, publicPasscode := None) ==
       NOTHING.(kind := CardRevealed, player := Some(c.location.controller), toZone := Some(Zone(engine, c.location)))
    && NamesIf(recipient == perspective, e.publicPasscode, c.code)
    && e.entity == (if recipient != perspective || Zone(engine, c.location) == MainDeck then None
                    else Some(PlaceText(engine, c.location)))
  }

  ghost predicate ChainingTold(engine: Engine, perspective: Byte, code: U32, at: Location, player: Byte,
                               description: U64, chainCount: U32, e: VisibleEvent)
  {
    && e.(entity := None, publicPasscode := None, effectDescription := None) == NOTHING.(
         kind := ChainActivated, player := Some(player), toZone := Some(Zone(engine, at)), count := Some(chainCount))
    && Locates(engine, perspective, e.entity, at) && NamesIf(Recognised(engine, code, at), e.publicPasscode, code)
    && e.effectDescription == (if Recognised(engine, code, at) then Some(description) else None)
  }

  /** Targets are listed by place, in order, without the concealed ones. */
  ghost predicate TargetsTold(engine: Engine, perspective: Byte, ls: seq<Location>, texts: seq<Bytes>) {
    exists places :: TextsTold(engine, perspective, ls, places, texts)
  }

  ghost predicate TextsTold(engine: Engine, perspective: Byte, ls: seq<Location>, places: seq<nat>, texts: seq<Bytes>) {
    && |places| == |texts| && Picks(ls, Evident(engine, perspective), places)
    && forall i :: 0 <= i < |places| ==> texts[i] == PlaceText(engine, ls[places[i]])
  }

  ghost predicate RelatedTold(engine: Engine, perspective: Byte, kind: VisibleEventKind, source: Location,
                              target: Location, e: VisibleEvent)
  {
    && e.(entity := None, targets := []) == NOTHING.(kind := kind, player := Some(source.controller))
    && Locates(engine, perspective, e.entity, source)
    && e.targets == (if Concealed(engine, perspective, target) then [] else [PlaceText(engine, target)])
  }

  ghost predicate CountTold(engine: Engine, perspective: Byte, counterType: U16, at: Location, count: U16,
                            e: VisibleEvent)
  {
    && e.(entity := None) == NOTHING.(kind := CounterChanged, player := Some(at.controller),
         counterType := Some(counterType), amount := Some(count))
    && Locates(engine, perspective, e.entity, at)
  }

  predicate ShuffleTold(player: Option<Byte>, es: seq<VisibleEvent>) {
    && |es| == 2 && es[0] == NOTHING.(kind := Shuffle, player := player)
    && es[1] == NOTHING.(kind := RandomizationBoundary, player := player, count := Some(0))
  }

  /** The events of a message tell the player this. */
  ghost predicate Told(engine: Engine, perspective: Byte, m: Message, es: seq<VisibleEvent>) {
    match m
    case NewTurn(player) => es == [NOTHING.(kind := TurnStarted, player := Some(player))]
    case NewPhase(phase) => es == [NOTHING.(kind := PhaseChanged, phase := Some(phase))]
    case WinBy(winner, reason) => es == [NOTHING.(kind := Win, winner := Some(winner), winReason := Some(reason))]
    case Shuffled(player, _) => ShuffleTold(player, es)
    case Moved(code, from, to, reason) => |es| == 1 && MoveTold(engine, perspective, code, from, to, reason, es[0])
    case Turned(code, at, oldPosition) => |es| == 1 && TurnTold(engine, perspective, code, at, oldPosition, es[0])
    case Placing(isSet, code, at) => |es| == 1 && PlacingTold(engine, perspective, isSet, code, at, es[0])
    case Summoned => es == [NOTHING.(kind := VisibleEventKind.Summoned)]
    case Drawn(player, cards) => DrawTold(engine, perspective, player, cards, es)
    case Confirmed(recipient, seen) =>
      |es| == |seen| && forall i :: 0 <= i < |es| ==> SeenTold(engine, perspective, recipient, seen[i], es[i])
    case LifeChanged(player, amount) =>
      es == [NOTHING.(kind := LifePointsChanged, player := Some(player), amount := Some(amount))]
    case Chaining(code, at, player, description, chainCount) =>
      |es| == 1 && ChainingTold(engine, perspective, code, at, player, description, chainCount, es[0])
    case Chained(links) => es == [NOTHING.(kind := ChainActivated, count := Some(links))]
    case Resolved(links) => es == [NOTHING.(kind := ChainResolved, count := Some(links))]
    case ChainDone => es == [NOTHING.(kind := ChainEnded)]
    case Targets(targets) =>
      |es| == 1 && es[0].(targets := []) == NOTHING.(kind := Targeted)
      && TargetsTold(engine, perspective, targets, es[0].targets)
    case Related(kind, source, target) =>
      |es| == 1 && RelatedTold(engine, perspective, kind, source, target, es[0])
    case Counted(counterType, at, count) =>
      |es| == 1 && CountTold(engine, perspective, counterType, at, count, es[0])
    case NotShown => es == []
  }

  // ---------------------------------------------------------------- it is told, and nothing else

  /** Only one list of places picks what is kept. */
  lemma PicksOnce<T>(xs: seq<T>, keep: T -> bool, p: seq<nat>, q: seq<nat>)
    requires Picks(xs, keep, p) && Picks(xs, keep, q)
    ensures p == q
  {
    forall k ensures k in p <==> k in q {
      if k in p {
        var i :| 0 <= i < |p| && p[i] == k;
      }
      if k in q {
        var i :| 0 <= i < |q| && q[i] == k;
      }
    }
    StrictIsUnique((a: nat, b: nat) => a < b, p, q);
  }

  lemma PickLast<T>(xs: seq<T>, keep: T -> bool, p: seq<nat>)
    requires xs != [] && Picks(xs[..|xs| - 1], keep, p)
    ensures Picks(xs, keep, if keep(xs[|xs| - 1]) then p + [|xs| - 1] else p)
  {
    var init := xs[..|xs| - 1];
    var q := if keep(xs[|xs| - 1]) then p + [|xs| - 1] else p;
    assert forall i :: 0 <= i < |p| ==> init[p[i]] == xs[p[i]];
    forall k | 0 <= k < |xs| && keep(xs[k]) ensures k in q {
      if k < |xs| - 1 {
        assert init[k] == xs[k];
        assert k in p;
      } else {
        assert q[|p|] == k;
      }
    }
  }

  lemma {:induction false} DrawnPicks(engine: Engine, perspective: Byte, player: Byte, cards: seq<CardDrawn>)
    returns (places: seq<nat>)
    ensures RevealsTold(engine, perspective, player, cards, places, DrawnShown(engine, perspective, player, cards))
  {
    if cards == [] {
      places := [];
    } else {
      var init, last := cards[..|cards| - 1], cards[|cards| - 1];
      var before := DrawnPicks(engine, perspective, player, init);
      PickLast(cards, Learnt(engine, perspective, player), before);
      hide Picks, RevealsTold;
      var shown := DrawnShown(engine, perspective, player, init);
      places := before;
      if Learnt(engine, perspective, player)(last) {
        places := before + [|cards| - 1];
      }
      OneMoreReveal(engine, perspective, player, cards, before, shown, places,
        DrawnShown(engine, perspective, player, cards));
    }
  }

  lemma OneMoreReveal(engine: Engine, perspective: Byte, player: Byte, cards: seq<CardDrawn>, before: seq<nat>,
                      es: seq<VisibleEvent>, places: seq<nat>, more: seq<VisibleEvent>)
    requires cards != [] && RevealsTold(engine, perspective, player, cards[..|cards| - 1], before, es)
    requires Picks(cards, Learnt(engine, perspective, player), places)
    requires
      if Learnt(engine, perspective, player)(cards[|cards| - 1]) then
        && places == before + [|cards| - 1] && |more| == |es| + 1 && more[..|es|] == es
        && RevealTold(player, cards[|cards| - 1].code, more[|es|])
      else places == before && more == es + []
    ensures RevealsTold(engine, perspective, player, cards, places, more)
  {
    var init := cards[..|cards| - 1];
    forall i | 0 <= i < |places| ensures RevealTold(player, cards[places[i]].code, more[i]) {
      if i < |before| {
        assert more[i] == es[i] && init[before[i]] == cards[before[i]];
      }
    }
    hide Picks, RevealTold;
  }

  lemma {:induction false} TargetPicks(engine: Engine, perspective: Byte, ls: seq<Location>)
    returns (places: seq<nat>)
    ensures TextsTold(engine, perspective, ls, places, LocatorsShown(engine, perspective, ls))
  {
    if ls == [] {
      places := [];
    } else {
      var init, last := ls[..|ls| - 1], ls[|ls| - 1];
      var before := TargetPicks(engine, perspective, init);
      PickLast(ls, Evident(engine, perspective), before);
      hide Picks, TextsTold;
      places := before;
      if Evident(engine, perspective)(last) {
        places := before + [|ls| - 1];
      }
      OneMoreText(engine, perspective, ls, before, LocatorsShown(engine, perspective, init), places,
        LocatorsShown(engine, perspective, ls));
    }
  }

  lemma OneMoreText(engine: Engine, perspective: Byte, ls: seq<Location>, before: seq<nat>, texts: seq<Bytes>,
                    places: seq<nat>, more: seq<Bytes>)
    requires ls != [] && TextsTold(engine, perspective, ls[..|ls| - 1], before, texts)
    requires Picks(ls, Evident(engine, perspective), places)
    requires
      if Evident(engine, perspective)(ls[|ls| - 1]) then
        places == before + [|ls| - 1] && more == texts + [PlaceText(engine, ls[|ls| - 1])]
      else places == before && more == texts + []
    ensures TextsTold(engine, perspective, ls, places, more)
  {
    var init := ls[..|ls| - 1];
    forall i | 0 <= i < |places| ensures more[i] == PlaceText(engine, ls[places[i]]) {
      if i < |before| {
        assert more[i] == texts[i] && init[before[i]] == ls[before[i]];
      }
    }
    hide Picks, PlaceText;
  }

  lemma DrawIsTold(engine: Engine, perspective: Byte, player: Byte, cards: seq<CardDrawn>, es: seq<VisibleEvent>)
    ensures es == Show(engine, perspective, Drawn(player, cards)) <==>
      DrawTold(engine, perspective, player, cards, es)
  {
    var after := DrawnShown(engine, perspective, player, cards);
    var places := DrawnPicks(engine, perspective, player, cards);
    hide DrawnShown, Picks;
    var shown := Show(engine, perspective, Drawn(player, cards));
    assert shown[1..] == after;
    if DrawTold(engine, perspective, player, cards, es) {
      var p :| RevealsTold(engine, perspective, player, cards, p, es[1..]);
      PicksOnce(cards, Learnt(engine, perspective, player), p, places);
      assert es[1..] == after;
      assert es == [es[0]] + es[1..];
    }
  }

  lemma TargetsAreTold(engine: Engine, perspective: Byte, ls: seq<Location>, texts: seq<Bytes>)
    ensures texts == LocatorsShown(engine, perspective, ls) <==> TargetsTold(engine, perspective, ls, texts)
  {
    var places := TargetPicks(engine, perspective, ls);
    hide Picks, LocatorsShown;
    if TargetsTold(engine, perspective, ls, texts) {
      var p :| TextsTold(engine, perspective, ls, p, texts);
      PicksOnce(ls, Evident(engine, perspective), p, places);
    }
  }

  lemma OneLocated(engine: Engine, perspective: Byte, l: Location)
    ensures Locates(engine, perspective, SafeLocator(engine, l, perspective, false), l)
    ensures LocatorsShown(engine, perspective, [l]) ==
      if Concealed(engine, perspective, l) then [] else [PlaceText(engine, l)]
  {
    assert [l][..0] == [];
  }

  lemma MoveIsTold(engine: Engine, perspective: Byte, code: U32, from: Location, to: Location, reason: U32,
                   e: VisibleEvent)
    ensures [e] == Show(engine, perspective, Moved(code, from, to, reason)) <==>
      MoveTold(engine, perspective, code, from, to, reason, e)
  {
    OneLocated(engine, perspective, to);
    hide SafeLocator, Concealed, PlaceText;
    var shown := Show(engine, perspective, Moved(code, from, to, reason))[0];
    assert MoveTold(engine, perspective, code, from, to, reason, shown);
    if MoveTold(engine, perspective, code, from, to, reason, e) {
      SameButThree(e, shown);
    }
  }

  /** Events that agree on kind, entity and code, and on the rest. */
  lemma SameButThree(e: VisibleEvent, f: VisibleEvent)
    requires e.kind == f.kind && e.entity == f.entity && e.publicPasscode == f.publicPasscode
    requires e.(kind := VisibleEventKind.Unknown, entity := None, publicPasscode := None)
          == f.(kind := VisibleEventKind.Unknown, entity := None, publicPasscode := None)
    ensures e == f
  {
    assert e == e.(kind := VisibleEventKind.Unknown, entity := None, publicPasscode := None).(
      kind := e.kind, entity := e.entity, publicPasscode := e.publicPasscode);
  }

  lemma TurnIsTold(engine: Engine, perspective: Byte, code: U32, at: Location, oldPosition: U32, e: VisibleEvent)
    ensures [e] == Show(engine, perspective, Turned(code, at, oldPosition)) <==>
      TurnTold(engine, perspective, code, at, oldPosition, e)
  {
    OneLocated(engine, perspective, at);
    hide SafeLocator, Concealed, PlaceText;
    var shown := Show(engine, perspective, Turned(code, at, oldPosition))[0];
    assert TurnTold(engine, perspective, code, at, oldPosition, shown);
  }

  lemma PlacingIsTold(engine: Engine, perspective: Byte, isSet: bool, code: U32, at: Location, e: VisibleEvent)
    ensures [e] == Show(engine, perspective, Placing(isSet, code, at)) <==>
      PlacingTold(engine, perspective, isSet, code, at, e)
  {
    OneLocated(engine, perspective, at);
    hide SafeLocator, Concealed, PlaceText;
    var shown := Show(engine, perspective, Placing(isSet, code, at))[0];
    assert PlacingTold(engine, perspective, isSet, code, at, shown);
    if PlacingTold(engine, perspective, isSet, code, at, e) {
      SameButThree(e, shown);
    }
  }

  lemma ChainingIsTold(engine: Engine, perspective: Byte, code: U32, at: Location, player: Byte, description: U64,
                       chainCount: U32, e: VisibleEvent)
    ensures [e] == Show(engine, perspective, Chaining(code, at, player, description, chainCount)) <==>
      ChainingTold(engine, perspective, code, at, player, description, chainCount, e)
  {
    OneLocated(engine, perspective, at);
    hide SafeLocator, Concealed, PlaceText;
    var shown := Show(engine, perspective, Chaining(code, at, player, description, chainCount))[0];
    assert ChainingTold(engine, perspective, code, at, player, description, chainCount, shown);
  }

  lemma RelatedIsTold(engine: Engine, perspective: Byte, kind: VisibleEventKind, source: Location, target: Location,
                      e: VisibleEvent)
    ensures [e] == Show(engine, perspective, Related(kind, source, target)) <==>
      RelatedTold(engine, perspective, kind, source, target, e)
  {
    OneLocated(engine, perspective, source);
    OneLocated(engine, perspective, target);
    hide SafeLocator, LocatorsShown, Concealed, PlaceText;
    var shown := Show(engine, perspective, Related(kind, source, target))[0];
    assert RelatedTold(engine, perspective, kind, source, target, shown);
  }

  lemma CountIsTold(engine: Engine, perspective: Byte, counterType: U16, at: Location, count: U16, e: VisibleEvent)
    ensures [e] == Show(engine, perspective, Counted(counterType, at, count)) <==>
      CountTold(engine, perspective, counterType, at, count, e)
  {
    OneLocated(engine, perspective, at);
    hide SafeLocator, Concealed, PlaceText;
    var shown := Show(engine, perspective, Counted(counterType, at, count))[0];
    assert CountTold(engine, perspective, counterType, at, count, shown);
  }

  lemma SeenIsTold(engine: Engine, perspective: Byte, recipient: Byte, c: CardSeen, e: VisibleEvent)
    ensures e == SeenShown(engine, perspective, recipient, c) <==> SeenTold(engine, perspective, recipient, c, e)
  {
    var shown := SeenShown(engine, perspective, recipient, c);
    assert SeenTold(engine, perspective, recipient, c, shown);
    hide PlaceText;
  }

  lemma ConfirmIsTold(engine: Engine, perspective: Byte, recipient: Byte, seen: seq<CardSeen>, es: seq<VisibleEvent>)
    ensures es == Show(engine, perspective, Confirmed(recipient, seen)) <==>
      |es| == |seen| && forall i :: 0 <= i < |es| ==> SeenTold(engine, perspective, recipient, seen[i], es[i])
  {
    forall c, e ensures e == SeenShown(engine, perspective, recipient, c) <==>
      SeenTold(engine, perspective, recipient, c, e)
    {
      SeenIsTold(engine, perspective, recipient, c, e);
    }
    hide SeenShown, SeenTold;
    var shown := AllSeenShown(engine, perspective, recipient, seen);
    assert Show(engine, perspective, Confirmed(recipient, seen)) == shown;
  }

  /** What the player is shown of a message is exactly what tells it. */
  lemma ShownIsTold(engine: Engine, perspective: Byte, m: Message, es: seq<VisibleEvent>)
    ensures es == Show(engine, perspective, m) <==> Told(engine, perspective, m, es)
  {
    hide MoveTold, TurnTold, PlacingTold, ChainingTold, RelatedTold, CountTold, SeenTold, DrawTold, TargetsTold,
      AllSeenShown, DrawnShown, LocatorsShown, SafeLocator, MoveKind;
    var e := if |es| == 1 then es[0] else NOTHING;
    assert |es| == 1 ==> es == [e];
    match m
    case Moved(code, from, to, reason) => MoveIsTold(engine, perspective, code, from, to, reason, e);
    case Turned(code, at, oldPosition) => TurnIsTold(engine, perspective, code, at, oldPosition, e);
    case Placing(isSet, code, at) => PlacingIsTold(engine, perspective, isSet, code, at, e);
    case Chaining(code, at, player, description, chainCount) =>
      ChainingIsTold(engine, perspective, code, at, player, description, chainCount, e);
    case Related(kind, source, target) => RelatedIsTold(engine, perspective, kind, source, target, e);
    case Counted(counterType, at, count) => CountIsTold(engine, perspective, counterType, at, count, e);
    case Drawn(player, cards) => DrawIsTold(engine, perspective, player, cards, es);
    case Confirmed(recipient, seen) => ConfirmIsTold(engine, perspective, recipient, seen, es);
    case Targets(targets) => TargetsAreTold(engine, perspective, targets, e.targets);
    case _ =>
  }

  // ---------------------------------------------------------------- whole streams

  /** The events of a stream tell what its messages tell, frame by frame. */
  ghost predicate StreamTold(engine: Engine, perspective: Byte, b: Bytes, es: seq<VisibleEvent>)
    decreases |b|
  {
    if b == [] then es == []
    else
      FrameConsumes(b);
      && GetFrame(b).Some? && Parse(engine, GetFrame(b).value.0).Some?
      && exists n :: 0 <= n <= |es| && Told(engine, perspective, Parse(engine, GetFrame(b).value.0).value, es[..n])
           && StreamTold(engine, perspective, GetFrame(b).value.1, es[n..])
  }

  /** A stream projects to events exactly when these tell its messages. */
  lemma {:induction false} ProjectionIsTold(engine: Engine, perspective: Byte, b: Bytes, es: seq<VisibleEvent>)
    ensures Project(engine, perspective, b) == Some(es) <==> StreamTold(engine, perspective, b, es)
    decreases |b|
  {
    hide GetFrame, Parse, Show, Told;
    if b != [] && GetFrame(b).Some? && Parse(engine, GetFrame(b).value.0).Some? {
      FrameConsumes(b);
      var (frame, rest) := GetFrame(b).value;
      var m := Parse(engine, frame).value;
      var first := Show(engine, perspective, m);
      ShownIsTold(engine, perspective, m, first);
      if Project(engine, perspective, b) == Some(es) {
        var more := Project(engine, perspective, rest).value;
        ProjectionIsTold(engine, perspective, rest, more);
        assert es[..|first|] == first && es[|first|..] == more;
      }
      if StreamTold(engine, perspective, b, es) {
        var n :| 0 <= n <= |es| && Told(engine, perspective, m, es[..n])
          && StreamTold(engine, perspective, rest, es[n..]);
        ShownIsTold(engine, perspective, m, es[..n]);
        ProjectionIsTold(engine, perspective, rest, es[n..]);
        assert es == es[..n] + es[n..];
      }
    }
  }

  /** The cards a message places. */
  function PlacedBy(m: Message): seq<Location> {
    match m
    case Moved(_, _, to, _) => [to]
    case Turned(_, at, _) => [at]
    case Placing(_, _, at) => [at]
    case Chaining(_, at, _, _, _) => [at]
    case Targets(targets) => targets
    case Related(_, source, target) => [source, target]
    case Counted(_, at, _) => [at]
    case _ => []
  }

  predicate Points(e: VisibleEvent, x: Bytes) {
    e.entity == Some(x) || x in e.targets
  }

  /** Outside a confirmation to the player, no concealed card is ever pointed at: every locator
      an event shows is that of a card the message places and nothing conceals. */
  lemma ConcealedIsNotShown(engine: Engine, perspective: Byte, m: Message, k: nat, x: Bytes)
    requires !(m.Confirmed? && m.recipient == perspective)
    requires k < |Show(engine, perspective, m)| && Points(Show(engine, perspective, m)[k], x)
    ensures exists l :: l in PlacedBy(m) && !Concealed(engine, perspective, l) && x == PlaceText(engine, l)
  {
    var es := Show(engine, perspective, m);
    ShownIsTold(engine, perspective, m, es);
    hide Show, Concealed, PlaceText, Picks;
    match m
    case Drawn(player, cards) =>
      DrawPointsNowhere(engine, perspective, player, cards, es, k, x);
    case Targets(targets) =>
      TargetIsEvident(engine, perspective, targets, es[0].targets, x);
    case Moved(_, _, to, _) => assert to in PlacedBy(m);
    case Turned(_, at, _) => assert at in PlacedBy(m);
    case Placing(_, _, at) => assert at in PlacedBy(m);
    case Chaining(_, at, _, _, _) => assert at in PlacedBy(m);
    case Counted(_, at, _) => assert at in PlacedBy(m);
    case Related(_, source, target) =>
      assert source in PlacedBy(m) && target in PlacedBy(m);
    case _ =>
  }

  lemma TargetIsEvident(engine: Engine, perspective: Byte, ls: seq<Location>, texts: seq<Bytes>, x: Bytes)
    requires TargetsTold(engine, perspective, ls, texts) && x in texts
    ensures exists l :: l in ls && !Concealed(engine, perspective, l) && x == PlaceText(engine, l)
  {
    var places :| TextsTold(engine, perspective, ls, places, texts);
    var i :| 0 <= i < |texts| && texts[i] == x;
    PickKept(ls, Evident(engine, perspective), places, i);
    hide Concealed, PlaceText, Picks;
    assert ls[places[i]] in ls && Evident(engine, perspective)(ls[places[i]]);
  }

  lemma PickKept<T>(xs: seq<T>, keep: T -> bool, places: seq<nat>, i: nat)
    requires Picks(xs, keep, places) && i < |places|
    ensures places[i] < |xs| && keep(xs[places[i]])
  {
  }

  lemma DrawPointsNowhere(engine: Engine, perspective: Byte, player: Byte, cards: seq<CardDrawn>,
                          es: seq<VisibleEvent>, k: nat, x: Bytes)
    requires DrawTold(engine, perspective, player, cards, es) && k < |es|
    ensures !Points(es[k], x)
  {
    hide Picks;
    if k > 0 {
      var places :| RevealsTold(engine, perspective, player, cards, places, es[1..]);
      PickKept(cards, Learnt(engine, perspective, player), places, k - 1);
      assert RevealTold(player, cards[places[k - 1]].code, es[1..][k - 1]);
    }
  }
}
