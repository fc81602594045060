/** The MLT XML writer of contrib/opentimelineio_contrib/adapters/mlt_xml.py.
    Clips become producers kept in two namespaces (`video` and `audio`) keyed
    by media name, tracks become playlists of `entry` and `blank` elements,
    transitions become small tractors, and `write_to_string` gathers all of
    them under the `mlt` root in front of the main tractor. The module-level
    `root`, `producers`, `playlists` and `transitions` are the fields of one
    `Writer`. */
module ContribMltXml {
  import opened Wrappers
  import opened Decimal
  import opened Elements

  /** A time range in frames: RationalTime values are taken as whole frames. */
  datatype Range = Range(start: int, duration: int)

  /** `LinearTimeWarp` with its `time_scalar` already rendered as text, or any
      other effect (which the writer ignores). */
  datatype Effect = LinearTimeWarp(scalar: string) | OtherEffect(name: string)

  /** A clip's media reference: one with `target_url`, an image sequence whose
      `abstract_target_url(symbol)` is `urlHead + symbol + urlTail`, or one with
      neither attribute (a missing or generator reference). */
  datatype MediaReference =
    | ExternalReference(name: string, targetUrl: string)
    | ImageSequenceReference(name: string, urlHead: string, urlTail: string, framePadding: nat)
    | OtherReference(name: string)

  /** What an expanded track holds. `range` is `trimmed_range()` (for a gap
      also its `source_range`); a transition lasts `in_offset + out_offset`.
      `Expanded` is the `(item_a, transition, item_b)` tuple that
      `track_with_expanded_transitions` puts in place of a transition, and a
      nested `Stack` carries its own expanded children. `Other` is anything
      no branch of `assemble_track` recognises, such as a `Track` held by a
      nested `Stack`. */
  datatype Item =
    | Clip(name: string, media: MediaReference, range: Range, effects: seq<Effect>)
    | Gap(name: string, range: Range, effects: seq<Effect>)
    | Transition(name: string, inOffset: int, outOffset: int)
    | Stack(name: string, range: Range, items: seq<Item>, effects: seq<Effect>)
    | Expanded(a: Item, transition: Item, b: Item)
    | Other(name: string, range: Range, effects: seq<Effect>)

  datatype TrackKind = Video | Audio

  /** A track with its items already expanded. */
  datatype Track = Track(name: string, kind: TrackKind, items: seq<Item>)

  /** What `write_to_string` accepts: a Timeline's, a Stack's or a single
      Track's tracks, a Clip (wrapped in an unnamed video track), or anything
      else. */
  datatype Input =
    | TimelineInput(tracks: seq<Track>)
    | TrackInput(track: Track)
    | StackInput(tracks: seq<Track>)
    | ClipInput(clip: Item)
    | OtherInput

  // ---------------------------------------------------------------------
  // Element builders

  /** `create_color_producer`: a producer `solid_{color}` spanning
      [0, length - 1] that plays the colour with MLT's `color` service. */
  function ColorProducer(color: string, length: int): Element {
    Element("producer",
      map["title" := "color", "id" := "solid_" + color, "in" := "0", "out" := IntToString(length - 1)],
      [Property("length", Some(IntToString(length))),
       Property("eof", Some("pause")),
       Property("resource", Some(color)),
       Property("mlt_service", Some("color"))],
      None)
  }

  /** A colour producer is named after its colour alone, spans `length`
      frames, records that length, and plays the colour itself. */
  lemma ColorProducerDescribes(color: string, length: int)
    ensures var p := ColorProducer(color, length);
      && IntAttr(p, "in") == Some(0) && IntAttr(p, "out") == Some(length - 1)
      && Span(p) == Some(length - 1)
      && ParseInt(PropertyText(p, "length").value) == Some(length)
      && PropertyText(p, "mlt_service") == Some("color")
  {
    var p := ColorProducer(color, length);
    IntToStringParses(0);
    IntToStringParses(length - 1);
    IntToStringParses(length);
    FindPropertyAt(p.children, "length", 0);
    FindPropertyAt(p.children, "mlt_service", 3);
  }

  /** The black fill's id is `solid_black`, whatever its length. */
  lemma ColorProducerRegistered(color: string, length: int)
    ensures Registered(ColorProducer(color, length), "solid_" + color)
    ensures PropertyText(ColorProducer(color, length), "resource") == Some(color)
    ensures "solid_" + "black" == "solid_black"
  {
    FindPropertyAt(ColorProducer(color, length).children, "resource", 2);
    assert ("solid_" + "black")[6..] == "black";
  }

  /** `item.duration()`; a tuple has no such method. */
  function Duration(item: Item): (r: Result<int>)
    ensures r.Failure? <==> item.Expanded?
  {
    match item
    case Clip(_, _, range, _) => Success(range.duration)
    case Gap(_, range, _) => Success(range.duration)
    case Transition(_, i, o) => Success(i + o)
    case Stack(_, range, _, _) => Success(range.duration)
    case Other(_, range, _) => Success(range.duration)
    case Expanded(_, _, _) => Failure(AttributeError)
  }

  /** The key `get_producer` files an item's producer under: the black fill
      for gaps and transitions, the media reference's name (else the clip's
      name) for clips, the name for anything else that has one. */
  function ProducerKey(item: Item): (r: Result<string>)
    ensures r.Failure? <==> item.Expanded?
    ensures (item.Gap? || item.Transition?) ==> r == Success("solid_black")
    ensures item.Clip? && item.media.name != "" ==> r == Success(item.media.name)
    ensures item.Clip? && item.media.name == "" ==> r == Success(item.name)
  {
    match item
    case Gap(_, _, _) => Success("solid_black")
    case Transition(_, _, _) => Success("solid_black")
    case Clip(name, media, _, _) => Success(if media.name != "" then media.name else name)
    case Stack(name, _, _, _) => Success(name)
    case Other(name, _, _) => Success(name)
    case Expanded(_, _, _) => Failure(AttributeError)
  }

  /** The `%0{padding}d` frame-number pattern of an image sequence. */
  function FramePattern(padding: nat): string {
    "%0" + NatToString(padding) + "d"
  }

  /** The resource text of a new producer: the reference's target URL, the
      image-sequence pattern, or, when that is empty or absent, the key. */
  function ResourceUrl(item: Item, key: string): (url: string)
    ensures !item.Clip? ==> url == key
    ensures item.Clip? && item.media.ExternalReference? ==>
              url == if item.media.targetUrl != "" then item.media.targetUrl else key
    ensures item.Clip? && item.media.ImageSequenceReference? ==>
              url == item.media.urlHead + FramePattern(item.media.framePadding) + item.media.urlTail
    ensures item.Clip? && item.media.OtherReference? ==> url == key
  {
    if !item.Clip? then key
    else match item.media
      case ExternalReference(_, targetUrl) => if targetUrl != "" then targetUrl else key
      case ImageSequenceReference(_, head, tail, padding) => head + FramePattern(padding) + tail
      case OtherReference(_) => key
  }

  /** The producer a first `get_producer` call for an item files: a black
      colour producer for gaps and transitions (it already has a resource), a
      bare producer with the resource appended for everything else. */
  function NewProducer(item: Item, key: string): Element
    requires !item.Expanded?
  {
    if item.Gap? || item.Transition? then ColorProducer("black", Duration(item).value)
    else Element("producer", map["id" := key], [Property("resource", Some(ResourceUrl(item, key)))], None)
  }

  /** What a producer filed under `key` always is: a producer with that id and
      a resource with text. */
  predicate Registered(p: Element, key: string) {
    p.tag == "producer" && Matches(p, "id", key) && PropertyText(p, "resource").Some?
  }

  predicate Registry(m: map<string, Element>) {
    forall k :: k in m ==> Registered(m[k], k)
  }

  /** Filing a registered producer under its key keeps the registry. */
  lemma RegistryUpdate(m: map<string, Element>, key: string, p: Element)
    requires Registry(m) && Registered(p, key)
    ensures Registry(m[key := p])
  {
  }

  /** A new producer is registered under its key, with the resource
      `ResourceUrl` picks (the colour, for gaps and transitions). */
  lemma NewProducerRegistered(item: Item)
    requires !item.Expanded?
    ensures var key := ProducerKey(item).value;
      && Registered(NewProducer(item, key), key)
      && (item.Gap? || item.Transition? ==> NewProducer(item, key) == ColorProducer("black", Duration(item).value))
      && (!item.Gap? && !item.Transition? ==> PropertyText(NewProducer(item, key), "resource") == Some(ResourceUrl(item, key)))
  {
    var key := ProducerKey(item).value;
    var p := NewProducer(item, key);
    if item.Gap? || item.Transition? {
      ColorProducerRegistered("black", Duration(item).value);
    } else {
      FindPropertyAt(p.children, "resource", 0);
    }
  }

  /** `setdefault` changes no entry that was already there. */
  lemma SetdefaultKeeps(m: map<string, Element>, key: string, v: Element)
    requires key in m ==> v == m[key]
    ensures forall k :: k in m ==> k in m[key := v] && m[key := v][k] == m[k]
  {
  }

  /** Filing under one key changes no entry under another. */
  lemma UpdateKeepsOthers(m: map<string, Element>, key: string, v: Element)
    ensures forall k :: k in m && k != key ==> k in m[key := v] && m[key := v][k] == m[k]
  {
  }

  /** `create_element`: an entry playing a producer from `first` to `last`;
      KeyError when the producer has no id. */
  function CreateElement(producer: Element, first: int, last: int): (r: Result<Element>)
    ensures r.Success? <==> "id" in producer.attrs
  {
    if "id" !in producer.attrs then Failure(KeyError)
    else Success(Element("entry",
      map["producer" := producer.attrs["id"], "in" := IntToString(first), "out" := IntToString(last)],
      [], None))
  }

  /** An entry plays the producer named by the producer's id over the frames
      asked for. */
  lemma CreateElementPlays(producer: Element, first: int, last: int)
    requires "id" in producer.attrs
    ensures var e := CreateElement(producer, first, last).value;
      && e.tag == "entry" && Matches(e, "producer", producer.attrs["id"])
      && IntAttr(e, "in") == Some(first) && IntAttr(e, "out") == Some(last)
      && Span(e) == Some(last - first)
  {
    IntToStringParses(first);
    IntToStringParses(last);
  }

  /** `create_clip`: an entry from the clip's trimmed start to that start
      plus its duration. */
  function CreateClip(item: Item, producer: Element): (r: Result<Element>)
    requires item.Clip?
    ensures r.Success? <==> "id" in producer.attrs
  {
    CreateElement(producer, item.range.start, item.range.start + item.range.duration)
  }

  /** `create_blank`: a blank as long as the gap. */
  function CreateBlank(item: Item): (b: Element)
    requires item.Gap?
    ensures b.tag == "blank" && "producer" !in b.attrs
    ensures IntAttr(b, "length") == Some(item.range.duration)
  {
    IntToStringParses(item.range.duration);
    Element("blank", map["length" := IntToString(item.range.duration)], [], None)
  }

  /** The background playlist of `create_background_track`: one entry
      playing the black fill over [0, length - 1]. */
  function BackgroundPlaylist(length: int): Element {
    Element("playlist", map["id" := "background"],
      [CreateElement(ColorProducer("black", length), 0, length - 1).value], None)
  }

  /** A clip entry's `out` lies a full duration after its `in`, so it covers
      one frame more than the clip lasts, while the background entry's `out`
      is its length minus one: the same length gives spans one apart. */
  lemma ClipEntryOneFrameLonger(item: Item, producer: Element, length: int)
    requires item.Clip? && "id" in producer.attrs && item.range.duration == length
    ensures Span(CreateClip(item, producer).value) == Some(length)
    ensures Span(BackgroundPlaylist(length).children[0]) == Some(length - 1)
  {
    CreateElementPlays(producer, item.range.start, item.range.start + item.range.duration);
    CreateElementPlays(ColorProducer("black", length), 0, length - 1);
  }

  // ---------------------------------------------------------------------
  // Transition tractors

  /** The frames a transition leg plays: a transition on the A side plays
      [0, in_offset - 1] and on the B side [0, out_offset - 1]; anything else
      plays its trimmed range. A tuple has no range. */
  function LegRange(item: Item, sideA: bool): (r: Result<(int, int)>)
    ensures r.Failure? <==> item.Expanded?
  {
    match item
    case Transition(_, i, o) => Success((0, (if sideA then i else o) - 1))
    case Expanded(_, _, _) => Failure(AttributeError)
    case _ => Success((item.range.start, item.range.start + item.range.duration - 1))
  }

  /** A `track` leg of a transition tractor. */
  function Leg(producer: string, first: int, last: int): Element {
    Element("track", map["producer" := producer, "in" := IntToString(first), "out" := IntToString(last)], [], None)
  }

  /** The `transition` descriptor: a luma wipe from track 0 to track 1. */
  function LumaTransition(id: string, last: int): Element {
    Element("transition", map["id" := id, "out" := IntToString(last)],
      [Property("a_track", Some("0")),
       Property("b_track", Some("1")),
       Property("factory", None),
       Property("mlt_service", Some("luma"))],
      None)
  }

  /** The tractor `create_transition` builds under `name` once the two leg
      producers and their frames are known. */
  function TransitionTractor(name: string, last: int, producerA: string, a: (int, int),
                             producerB: string, b: (int, int)): Element
  {
    Element("tractor", map["id" := name, "in" := "0", "out" := IntToString(last)],
      [Leg(producerA, a.0, a.1), Leg(producerB, b.0, b.1), LumaTransition("transition_" + name, last)],
      None)
  }

  /** A leg plays its producer from `first` to `last`. */
  lemma LegPlays(producer: string, first: int, last: int)
    ensures var e := Leg(producer, first, last);
      e.tag == "track" && Matches(e, "producer", producer)
      && IntAttr(e, "in") == Some(first) && IntAttr(e, "out") == Some(last)
  {
    IntToStringParses(first);
    IntToStringParses(last);
  }

  /** The descriptor ends at `last` and wipes track 0 into track 1 with the
      `luma` service. */
  lemma LumaTransitionWipes(id: string, last: int)
    ensures var e := LumaTransition(id, last);
      && e.tag == "transition" && Matches(e, "id", id) && IntAttr(e, "out") == Some(last)
      && PropertyText(e, "a_track") == Some("0")
      && PropertyText(e, "b_track") == Some("1")
      && PropertyText(e, "mlt_service") == Some("luma")
  {
    var e := LumaTransition(id, last);
    IntToStringParses(last);
    FindPropertyAt(e.children, "a_track", 0);
    FindPropertyAt(e.children, "b_track", 1);
    FindPropertyAt(e.children, "mlt_service", 3);
  }

  /** A transition tractor spans [0, last], and its descriptor
      `transition_{name}` ends with it. */
  lemma TransitionTractorSpan(name: string, last: int, producerA: string, a: (int, int),
                              producerB: string, b: (int, int))
    ensures var t := TransitionTractor(name, last, producerA, a, producerB, b);
      && t.tag == "tractor" && Matches(t, "id", name)
      && IntAttr(t, "in") == Some(0) && IntAttr(t, "out") == Some(last)
      && |t.children| == 3 && t.children[2] == LumaTransition("transition_" + name, last)
  {
    IntToStringParses(0);
    IntToStringParses(last);
  }

  /** Its first two children are the legs: A plays `producerA` over `a`, B
      plays `producerB` over `b`. */
  lemma TransitionTractorLegs(name: string, last: int, producerA: string, a: (int, int),
                              producerB: string, b: (int, int))
    ensures var t := TransitionTractor(name, last, producerA, a, producerB, b);
      && |t.children| == 3
      && Matches(t.children[0], "producer", producerA)
      && IntAttr(t.children[0], "in") == Some(a.0) && IntAttr(t.children[0], "out") == Some(a.1)
      && Matches(t.children[1], "producer", producerB)
      && IntAttr(t.children[1], "in") == Some(b.0) && IntAttr(t.children[1], "out") == Some(b.1)
  {
    LegPlays(producerA, a.0, a.1);
    LegPlays(producerB, b.0, b.1);
  }

  /** A transition leg lasts as long as the neighbour it plays: an
      A-side transition neighbour for its in-offset, a B-side one for its
      out-offset, and any other item for its trimmed duration. */
  lemma LegRangeLength(item: Item, sideA: bool)
    requires !item.Expanded?
    ensures var r := LegRange(item, sideA).value;
      && (item.Transition? ==> r.0 == 0 && r.1 - r.0 + 1 == (if sideA then item.inOffset else item.outOffset))
      && (!item.Transition? ==> r.0 == item.range.start && r.1 - r.0 + 1 == item.range.duration)
  {
  }

  /** The playlist entry for a transition tractor: it plays the tractor over
      the tractor's own `in` and `out`; KeyError when one is missing. */
  function TransitionEntry(t: Element): (r: Result<Element>)
    ensures r.Success? <==> "id" in t.attrs && "in" in t.attrs && "out" in t.attrs
  {
    if "id" !in t.attrs || "in" !in t.attrs || "out" !in t.attrs then Failure(KeyError)
    else Success(Element("entry", map["producer" := t.attrs["id"], "in" := t.attrs["in"], "out" := t.attrs["out"]], [], None))
  }

  /** The entry for a transition tractor plays that tractor over its frames. */
  lemma TransitionEntryCopies(t: Element)
    requires "id" in t.attrs && "in" in t.attrs && "out" in t.attrs
    ensures var e := TransitionEntry(t).value;
      e.tag == "entry" && Matches(e, "producer", t.attrs["id"])
      && IntAttr(e, "in") == IntAttr(t, "in") && IntAttr(e, "out") == IntAttr(t, "out")
      && Span(e) == Span(t)
  {
  }

  /** Transition tractors are named `transition_tractor{n}` after the number
      made before them, so their names are pairwise distinct. */
  lemma TransitionNamesDistinct(ts: seq<Element>, i: nat, j: nat)
    requires Numbered(ts, "transition_tractor") && i < |ts| && j < |ts| && i != j
    ensures "id" in ts[i].attrs && "id" in ts[j].attrs && ts[i].attrs["id"] != ts[j].attrs["id"]
  {
    NumberedAt(ts, "transition_tractor", i);
    NumberedAt(ts, "transition_tractor", j);
    NumberedIdsDistinct(ts, "transition_tractor");
  }

  // ---------------------------------------------------------------------
  // Time warps

  /** The clone `apply_timewarp` makes of a producer: renamed `id`, with an
      `mlt_service` of `timewarp` appended and its first resource prefixed
      `scalar:`. Fails as Python does when there is no resource, or it has no
      text. */
  function Timewarped(orig: Element, id: string, scalar: string): Result<Element> {
    var children := orig.children + [Property("mlt_service", Some("timewarp"))];
    match FindProperty(children, "resource")
    case None => Failure(AttributeError)
    case Some(j) =>
      match children[j].text
      case None => Failure(TypeError)
      case Some(t) =>
        Success(orig.(attrs := orig.attrs["id" := id],
                      children := children[j := children[j].(text := Some(scalar + ":" + t))]))
  }

  /** The first property of a name is found where it is, whatever follows. */
  lemma FindPropertyAt(cs: seq<Element>, name: string, i: nat)
    requires i < |cs| && IsProperty(cs[i], name)
    requires forall j :: 0 <= j < i ==> !IsProperty(cs[j], name)
    ensures FindProperty(cs, name) == Some(i)
  {
  }

  /** The clone of a registered producer is registered under its new id, keeps
      every other attribute, plays the resource through `scalar:` and, when
      the original named no service, runs the `timewarp` service. */
  lemma TimewarpedClone(orig: Element, key: string, id: string, scalar: string)
    requires Registered(orig, key)
    ensures Timewarped(orig, id, scalar).Success?
    ensures var c := Timewarped(orig, id, scalar).value;
      && Registered(c, id)
      && c.attrs == orig.attrs["id" := id]
      && PropertyText(c, "resource") == Some(scalar + ":" + PropertyText(orig, "resource").value)
      && (!HasProperty(orig, "mlt_service") ==> PropertyText(c, "mlt_service") == Some("timewarp"))
  {
    var q := Property("mlt_service", Some("timewarp"));
    var children := orig.children + [q];
    var j := FindProperty(orig.children, "resource").value;
    FindPropertyAt(children, "resource", j);
    var t := children[j].text.value;
    var c := Timewarped(orig, id, scalar).value;
    FindPropertyAt(c.children, "resource", j);
    if !HasProperty(orig, "mlt_service") {
      FindPropertyAt(c.children, "mlt_service", |orig.children|);
    }
  }

  /** What the time warps do to an item's element: each `LinearTimeWarp`
      renames the producer it plays to `scalar:producer`; an element with no
      producer (a blank) makes the join fail. */
  function Rewired(e: Element, effects: seq<Effect>): (r: Result<Element>)
    decreases |effects|
  {
    if |effects| == 0 then Success(e)
    else match effects[0]
      case OtherEffect(_) => Rewired(e, effects[1..])
      case LinearTimeWarp(s) =>
        if "producer" !in e.attrs then Failure(TypeError)
        else Rewired(SetAttr(e, "producer", s + ":" + e.attrs["producer"]), effects[1..])
  }

  /** The id an entry ends up playing: one `scalar:` prefix per warp, the
      last warp outermost. */
  function WarpedId(p: string, effects: seq<Effect>): string
    decreases |effects|
  {
    if |effects| == 0 then p
    else match effects[0]
      case OtherEffect(_) => WarpedId(p, effects[1..])
      case LinearTimeWarp(s) => WarpedId(s + ":" + p, effects[1..])
  }

  /** Warps only rename the producer: an entry playing `p` ends up playing
      `WarpedId(p, effects)` and is otherwise unchanged. */
  lemma {:induction false} RewiredRenames(e: Element, effects: seq<Effect>)
    requires "producer" in e.attrs
    ensures Rewired(e, effects) == Success(SetAttr(e, "producer", WarpedId(e.attrs["producer"], effects)))
    decreases |effects|
  {
    if |effects| == 0 {
      assert e.attrs["producer" := e.attrs["producer"]] == e.attrs;
    } else {
      match effects[0]
      case OtherEffect(_) =>
        RewiredRenames(e, effects[1..]);
      case LinearTimeWarp(s) =>
        var e' := SetAttr(e, "producer", s + ":" + e.attrs["producer"]);
        RewiredRenames(e', effects[1..]);
        assert e'.attrs["producer" := WarpedId(e'.attrs["producer"], effects[1..])]
            == e.attrs["producer" := WarpedId(e.attrs["producer"], effects)];
    }
  }

  /** One step of `Rewired`: a leading time warp renames the producer, any
      other effect is skipped. */
  lemma RewiredStep(e: Element, effects: seq<Effect>)
    requires |effects| > 0
    ensures effects[0].OtherEffect? ==> Rewired(e, effects) == Rewired(e, effects[1..])
    ensures effects[0].LinearTimeWarp? && "producer" in e.attrs ==>
      Rewired(e, effects) == Rewired(SetAttr(e, "producer", effects[0].scalar + ":" + e.attrs["producer"]), effects[1..])
  {
  }

  /** An element with no producer survives the warps only when there are
      none: a time warp on a gap fails. */
  lemma {:induction false} RewiredBlank(e: Element, effects: seq<Effect>)
    requires "producer" !in e.attrs
    ensures Rewired(e, effects).Success? <==> forall k :: 0 <= k < |effects| ==> effects[k].OtherEffect?
    ensures Rewired(e, effects).Success? ==> Rewired(e, effects).value == e
    decreases |effects|
  {
    if |effects| > 0 {
      RewiredBlank(e, effects[1..]);
      assert forall k :: 1 <= k < |effects| ==> effects[k] == effects[1..][k - 1];
    }
  }

  // ---------------------------------------------------------------------
  // What the steps leave in the producer dictionaries

  /** A prefix of a prefix is a prefix. */
  lemma PrefixOfPrefix<T>(a: seq<T>, b: seq<T>, c: seq<T>)
    requires |a| <= |b| <= |c| && c[..|b|] == b && b[..|a|] == a
    ensures c[..|a|] == a
  {
    assert c[..|a|] == c[..|b|][..|a|];
  }

  /** `producers['video']`, `producers['audio']` and
      `producers['producer_order_']`. */
  datatype Producers = Producers(video: map<string, Element>, audio: map<string, Element>, order: seq<Element>)

  /** What `get_producer` puts in the producer order: a producer it files
      new, unless that is a colour producer. */
  function NewInOrder(ns: map<string, Element>, item: Item): (added: seq<Element>)
    requires !item.Expanded?
    ensures |added| <= 1
    ensures ProducerKey(item).value in ns ==> added == []
  {
    var key := ProducerKey(item).value;
    if key in ns || item.Gap? || item.Transition? then [] else [NewProducer(item, key)]
  }

  /** The dictionaries after `get_producer(item, video_track)`: the item's key
      is filed in the namespace of the track kind, keeping a producer already
      there, and a new producer is ordered last. */
  function AfterGet(ps: Producers, item: Item, videoTrack: bool): (after: Producers)
    requires !item.Expanded?
    ensures var key := ProducerKey(item).value;
      && (videoTrack ==> key in after.video && after.audio == ps.audio)
      && (!videoTrack ==> key in after.audio && after.video == ps.video)
      && |ps.order| <= |after.order| <= |ps.order| + 1 && after.order[..|ps.order|] == ps.order
  {
    var key := ProducerKey(item).value;
    var ns := if videoTrack then ps.video else ps.audio;
    var p := if key in ns then ns[key] else NewProducer(item, key);
    if videoTrack then Producers(ps.video[key := p], ps.audio, ps.order + NewInOrder(ns, item))
    else Producers(ps.video, ps.audio[key := p], ps.order + NewInOrder(ns, item))
  }

  /** The producer `get_producer(item, video_track)` returns. */
  function Fetched(ps: Producers, item: Item, videoTrack: bool): Element
    requires !item.Expanded?
  {
    var after := AfterGet(ps, item, videoTrack);
    (if videoTrack then after.video else after.audio)[ProducerKey(item).value]
  }

  /** `setdefault` makes a second `get_producer` of the same item a no-op. */
  lemma AfterGetIdempotent(ps: Producers, item: Item, videoTrack: bool)
    requires !item.Expanded?
    ensures AfterGet(AfterGet(ps, item, videoTrack), item, videoTrack) == AfterGet(ps, item, videoTrack)
    ensures Fetched(AfterGet(ps, item, videoTrack), item, videoTrack) == Fetched(ps, item, videoTrack)
  {
    var key := ProducerKey(item).value;
    var after := AfterGet(ps, item, videoTrack);
    assert NewInOrder(if videoTrack then after.video else after.audio, item) == [];
    if videoTrack {
      assert after.video[key := after.video[key]] == after.video;
    } else {
      assert after.audio[key := after.audio[key]] == after.audio;
    }
  }

  /** Filing keeps a namespace a registry, and the producer fetched is
      registered under the item's key. */
  lemma AfterGetRegistry(ps: Producers, item: Item, videoTrack: bool)
    requires !item.Expanded? && Registry(ps.video) && Registry(ps.audio)
    ensures var after := AfterGet(ps, item, videoTrack);
      && Registry(after.video) && Registry(after.audio)
      && Registered(Fetched(ps, item, videoTrack), ProducerKey(item).value)
  {
    var key := ProducerKey(item).value;
    var ns := if videoTrack then ps.video else ps.audio;
    NewProducerRegistered(item);
    RegistryUpdate(ns, key, if key in ns then ns[key] else NewProducer(item, key));
  }

  /** The dictionaries after one `apply_timewarp` whose clone is named `id`:
      the item's producer fetched from the video namespace, and its clone
      filed there under `id` and ordered last. */
  function WarpOnce(ps: Producers, item: Item, id: string, scalar: string): Result<Producers>
    requires !item.Expanded?
  {
    var after := AfterGet(ps, item, true);
    match Timewarped(after.video[ProducerKey(item).value], id, scalar)
    case Failure(err) => Failure(err)
    case Success(clone) => Success(after.(video := after.video[id := clone], order := after.order + [clone]))
  }

  /** The dictionaries after the effects loop over an item whose element is
      `e`: one `WarpOnce` per `LinearTimeWarp`, each naming its clone after
      the producer the element plays by then. */
  function WarpAll(ps: Producers, item: Item, e: Element, effects: seq<Effect>): Result<Producers>
    requires !item.Expanded?
    decreases |effects|
  {
    if |effects| == 0 then Success(ps)
    else match effects[0]
      case OtherEffect(_) => WarpAll(ps, item, e, effects[1..])
      case LinearTimeWarp(s) =>
        if "producer" !in e.attrs then Failure(TypeError)
        else
          var id := s + ":" + e.attrs["producer"];
          (match WarpOnce(ps, item, id, s)
           case Failure(err) => Failure(err)
           case Success(next) => WarpAll(next, item, SetAttr(e, "producer", id), effects[1..]))
  }

  /** The number of `LinearTimeWarp`s among the effects. */
  function WarpCount(effects: seq<Effect>): (n: nat)
    ensures n <= |effects|
    decreases |effects|
  {
    if |effects| == 0 then 0 else (if effects[0].LinearTimeWarp? then 1 else 0) + WarpCount(effects[1..])
  }

  /** What the warps of an item's element leave: success, the audio
      namespace untouched, a registry still, and the old order followed by
      the item's own producer when the first warp files it new, then one
      clone per warp. */
  ghost predicate WarpsGrow(ps: Producers, item: Item, e: Element, effects: seq<Effect>)
    requires !item.Expanded?
  {
    WarpAll(ps, item, e, effects).Success? &&
    var after := WarpAll(ps, item, e, effects).value;
    && after.audio == ps.audio && Registry(after.video)
    && |after.order| == |ps.order| + WarpCount(effects) + (if WarpCount(effects) == 0 then 0 else |NewInOrder(ps.video, item)|)
    && after.order[..|ps.order|] == ps.order
  }

  /** The warps of an element that plays a producer always succeed, and
      each adds exactly one clone to the order. */
  lemma {:induction false} WarpAllGrows(ps: Producers, item: Item, e: Element, effects: seq<Effect>)
    requires !item.Expanded? && Registry(ps.video) && Registry(ps.audio) && "producer" in e.attrs
    ensures WarpsGrow(ps, item, e, effects)
    decreases |effects|, 1
  {
    if |effects| > 0 {
      if effects[0].OtherEffect? {
        WarpAllSkips(ps, item, e, effects);
        WarpAllGrows(ps, item, e, effects[1..]);
      } else {
        WarpAllGrowsStep(ps, item, e, effects);
      }
    }
  }

  /** The step of `WarpAllGrows` for a leading time warp. */
  lemma {:induction false} WarpAllGrowsStep(ps: Producers, item: Item, e: Element, effects: seq<Effect>)
    requires !item.Expanded? && Registry(ps.video) && Registry(ps.audio) && "producer" in e.attrs
    requires |effects| > 0 && effects[0].LinearTimeWarp?
    ensures WarpsGrow(ps, item, e, effects)
    decreases |effects|, 0
  {
    var s := effects[0].scalar;
    var id := s + ":" + e.attrs["producer"];
    WarpOnceStep(ps, item, id, s);
    WarpAllSteps(ps, item, e, effects);
    var next := WarpOnce(ps, item, id, s).value;
    var e' := SetAttr(e, "producer", id);
    WarpAllGrows(next, item, e', effects[1..]);
    assert next.order[..|ps.order|] == ps.order;
    PrefixOfPrefix(ps.order, next.order, WarpAll(next, item, e', effects[1..]).value.order);
  }

  /** The effects loop skips an effect that is not a time warp. */
  lemma WarpAllSkips(ps: Producers, item: Item, e: Element, effects: seq<Effect>)
    requires !item.Expanded? && |effects| > 0 && effects[0].OtherEffect?
    ensures WarpAll(ps, item, e, effects) == WarpAll(ps, item, e, effects[1..])
    ensures "producer" in e.attrs ==> WarpedId(e.attrs["producer"], effects) == WarpedId(e.attrs["producer"], effects[1..])
    ensures WarpCount(effects) == WarpCount(effects[1..])
  {
  }

  /** A time warp that succeeds hands its dictionaries and the rewired
      element on to the rest of the effects. */
  lemma WarpAllSteps(ps: Producers, item: Item, e: Element, effects: seq<Effect>)
    requires !item.Expanded? && "producer" in e.attrs && |effects| > 0 && effects[0].LinearTimeWarp?
    requires WarpOnce(ps, item, effects[0].scalar + ":" + e.attrs["producer"], effects[0].scalar).Success?
    ensures var id := effects[0].scalar + ":" + e.attrs["producer"];
      && WarpAll(ps, item, e, effects)
         == WarpAll(WarpOnce(ps, item, id, effects[0].scalar).value, item, SetAttr(e, "producer", id), effects[1..])
      && WarpedId(e.attrs["producer"], effects) == WarpedId(id, effects[1..])
      && WarpCount(effects) == 1 + WarpCount(effects[1..])
  {
  }

  /** One warp of a registered video namespace succeeds, files the clone
      under `id` and orders it last, right after the item's own producer if
      it was new; afterwards the item's key is filed. */
  lemma WarpOnceStep(ps: Producers, item: Item, id: string, scalar: string)
    requires !item.Expanded? && Registry(ps.video) && Registry(ps.audio)
    ensures WarpOnce(ps, item, id, scalar).Success?
    ensures var next := WarpOnce(ps, item, id, scalar).value;
      && next.audio == ps.audio && Registry(next.video) && Registry(next.audio)
      && id in next.video && next.order == ps.order + NewInOrder(ps.video, item) + [next.video[id]]
      && NewInOrder(next.video, item) == []
  {
    var key := ProducerKey(item).value;
    AfterGetRegistry(ps, item, true);
    var after := AfterGet(ps, item, true);
    TimewarpedClone(Fetched(ps, item, true), key, id, scalar);
    var clone := Timewarped(Fetched(ps, item, true), id, scalar).value;
    RegistryUpdate(after.video, id, clone);
  }

  /** The clip branch with its warps, as `ClipItem` takes them: nothing
      for an audio clip whose key has a video producer; otherwise the
      producer fetched in the track's own namespace, an entry playing it, and
      the warps applied to that entry. */
  function ClipItemEffect(ps: Producers, item: Item, audioTrack: bool): Result<(Producers, seq<Element>)>
    requires item.Clip?
  {
    if audioTrack && ProducerKey(item).value in ps.video then Success((ps, []))
    else match CreateClip(item, Fetched(ps, item, !audioTrack))
      case Failure(err) => Failure(err)
      case Success(entry) =>
        (match (WarpAll(AfterGet(ps, item, !audioTrack), item, entry, item.effects), Rewired(entry, item.effects))
         case (Failure(err), _) => Failure(err)
         case (_, Failure(err)) => Failure(err)
         case (Success(after), Success(warped)) => Success((after, [warped])))
  }

  /** A clip's branch always succeeds on registries, adding at most one
      entry; it adds none, and changes nothing, exactly for an audio clip
      whose key already has a video producer. */
  lemma ClipItemEffectSkips(ps: Producers, item: Item, audioTrack: bool)
    requires item.Clip? && Registry(ps.video) && Registry(ps.audio)
    ensures ClipItemEffect(ps, item, audioTrack).Success?
    ensures var (after, es) := ClipItemEffect(ps, item, audioTrack).value;
      && |es| <= 1
      && (|es| == 0 <==> audioTrack && ProducerKey(item).value in ps.video)
      && (|es| == 0 ==> after == ps)
  {
    if !(audioTrack && ProducerKey(item).value in ps.video) {
      ClipItemEffectPlays(ps, item, audioTrack);
    }
  }

  /** A clip that is not skipped gets one entry, playing the clip's key
      under one `scalar:` prefix per warp; the order gains the clip's
      producer if it was new, then one clone per warp. A warped audio clip is
      also filed in the video namespace, so its first warp orders a second
      producer. */
  lemma ClipItemEffectPlays(ps: Producers, item: Item, audioTrack: bool)
    requires item.Clip? && Registry(ps.video) && Registry(ps.audio)
    requires !(audioTrack && ProducerKey(item).value in ps.video)
    ensures ClipItemEffect(ps, item, audioTrack).Success?
    ensures var (after, es) := ClipItemEffect(ps, item, audioTrack).value;
      var n := WarpCount(item.effects);
      && |es| == 1 && Matches(es[0], "producer", WarpedId(ProducerKey(item).value, item.effects))
      && |ps.order| <= |after.order| && after.order[..|ps.order|] == ps.order
      && (!audioTrack ==> after.audio == ps.audio && |after.order| == |ps.order| + |NewInOrder(ps.video, item)| + n)
      && (audioTrack ==> |after.order| == |ps.order| + |NewInOrder(ps.audio, item)| + n + (if n == 0 then 0 else 1))
  {
    AfterGetRegistry(ps, item, !audioTrack);
    var mid := AfterGet(ps, item, !audioTrack);
    var p := Fetched(ps, item, !audioTrack);
    CreateElementPlays(p, item.range.start, item.range.start + item.range.duration);
    var entry := CreateClip(item, p).value;
    RewiredRenames(entry, item.effects);
    WarpAllGrows(mid, item, entry, item.effects);
    PrefixOfPrefix(ps.order, mid.order, WarpAll(mid, item, entry, item.effects).value.order);
  }

  /** The dictionaries after `create_transition`: the neighbours' producers
      fetched from the video namespace, A's first; at most two new ones are
      ordered. */
  function TransitionProducers(ps: Producers, triple: Item): (after: Producers)
    requires triple.Expanded? && !triple.a.Expanded? && !triple.b.Expanded?
    ensures after.audio == ps.audio
    ensures |ps.order| <= |after.order| <= |ps.order| + 2 && after.order[..|ps.order|] == ps.order
  {
    var mid := AfterGet(ps, triple.a, true);
    var after := AfterGet(mid, triple.b, true);
    PrefixOfPrefix(ps.order, mid.order, after.order);
    after
  }

  /** The tractor `create_transition` builds for a tuple under `name`. */
  function TransitionTractorOf(triple: Item, name: string): Element
    requires triple.Expanded? && !triple.transition.Expanded? && !triple.a.Expanded? && !triple.b.Expanded?
  {
    TransitionTractor(name, Duration(triple.transition).value - 1,
      ProducerKey(triple.a).value, LegRange(triple.a, true).value,
      ProducerKey(triple.b).value, LegRange(triple.b, false).value)
  }

  /** The tractor for a tuple carries its name, and a playlist entry for it
      can be made. */
  lemma TransitionTractorOfNamed(triple: Item, name: string)
    requires triple.Expanded? && !triple.transition.Expanded? && !triple.a.Expanded? && !triple.b.Expanded?
    ensures var t := TransitionTractorOf(triple, name);
      Matches(t, "id", name) && TransitionEntry(t).Success?
  {
    TransitionTractorSpan(name, Duration(triple.transition).value - 1,
      ProducerKey(triple.a).value, LegRange(triple.a, true).value,
      ProducerKey(triple.b).value, LegRange(triple.b, false).value);
  }

  // ---------------------------------------------------------------------
  // Effects of an item (finding: tuples have no `effects`)

  /** `item.effects` as written: asked of every item of the expanded track,
      including the `(item_a, transition, item_b)` tuples, which have no such
      attribute. */
  function ItemEffectsAsWritten(item: Item): (r: Result<seq<Effect>>)
    ensures r.Failure? <==> item.Expanded? || item.Transition?
  {
    match item
    case Clip(_, _, _, effects) => Success(effects)
    case Gap(_, _, effects) => Success(effects)
    case Stack(_, _, _, effects) => Success(effects)
    case Other(_, _, effects) => Success(effects)
    case Transition(_, _, _) => Failure(AttributeError)
    case Expanded(_, _, _) => Failure(AttributeError)
  }

  /** The effects of an item, with a tuple contributing none: every item an
      expanded track can hold has its effects read without error. */
  function ItemEffects(item: Item): (r: Result<seq<Effect>>)
    ensures r.Failure? <==> item.Transition?
    ensures item.Expanded? ==> r == Success([])
    ensures !item.Expanded? ==> r == ItemEffectsAsWritten(item)
  {
    if item.Expanded? then Success([]) else ItemEffectsAsWritten(item)
  }

  // ---------------------------------------------------------------------
  // Playlists, tracks and the document

  /** A playlist's id: the track's name, else `playlist{index}`. */
  function PlaylistId(name: string, index: nat): (id: string)
    ensures name != "" ==> id == name
    ensures name == "" ==> id == "playlist" + NatToString(index) && id != ""
  {
    if name != "" then name else "playlist" + NatToString(index)
  }

  /** The element that places a playlist in its parent: an `entry` inside
      another playlist, a `track` inside the multitrack. */
  function PlaylistRef(id: string, inPlaylist: bool): Element {
    Node(if inPlaylist then "entry" else "track", map["producer" := id])
  }

  /** The main tractor: a multitrack holding one reference per playlist. */
  function MainTractor(refs: seq<Element>): Element {
    Element("tractor", map["id" := "tractor0"],
      [Element("multitrack", map["id" := "multitrack0"], refs, None)], None)
  }

  /** The main multitrack's references: the background playlist's first,
      then one per track, in order. */
  function MultitrackRefs(tracks: seq<Track>): seq<Element> {
    [PlaylistRef("background", false)]
      + seq(|tracks|, k requires 0 <= k < |tracks| => PlaylistRef(PlaylistId(tracks[k].name, k), false))
  }

  /** The tracks `write_to_string` assembles; ValueError for any other input. */
  function TracksOf(input: Input): (r: Result<seq<Track>>)
    ensures r.Failure? <==> input.OtherInput? || (input.ClipInput? && !input.clip.Clip?)
    ensures r.Failure? ==> r.error == ValueError
    ensures input.TrackInput? ==> r == Success([input.track])
    ensures input.ClipInput? && input.clip.Clip? ==> r == Success([Track("", Video, [input.clip])])
  {
    match input
    case TimelineInput(tracks) => Success(tracks)
    case TrackInput(track) => Success([track])
    case StackInput(tracks) => Success(tracks)
    case ClipInput(clip) => if clip.Clip? then Success([Track("", Video, [clip])]) else Failure(ValueError)
    case OtherInput => Failure(ValueError)
  }

  /** Python's `list.insert(i, x)`: a negative index counts from the end, and
      an index outside the list is clamped to it. */
  function ListInsert<T>(s: seq<T>, i: int, x: T): (r: seq<T>)
    ensures |r| == |s| + 1
    ensures i == 0 ==> r == [x] + s
    ensures |s| > 0 && i == -1 ==> r == s[..|s| - 1] + [x, s[|s| - 1]]
    ensures |s| > 0 && (i == 0 || i == -1) ==> r[|r| - 1] == s[|s| - 1]
  {
    var j := if i < 0 then (if i + |s| < 0 then 0 else i + |s|) else (if i > |s| then |s| else i);
    s[..j] + [x] + s[j..]
  }

  /** `s` back to front. */
  function Reverse<T>(s: seq<T>): (r: seq<T>)
    ensures |r| == |s|
    ensures forall k :: 0 <= k < |s| ==> r[k] == s[|s| - 1 - k]
    decreases |s|
  {
    if |s| == 0 then [] else [s[|s| - 1]] + Reverse(s[..|s| - 1])
  }

  // ---------------------------------------------------------------------
  // The writer's state and steps

  /** The module-level state: `root`'s children, the `video` and `audio`
      producer dictionaries, `producers['producer_order_']`, `playlists` and
      `transitions`. */
  class Writer {
    var root: seq<Element>
    var video: map<string, Element>
    var audio: map<string, Element>
    var order: seq<Element>
    var playlists: seq<Element>
    var transitions: seq<Element>

    /** Every producer is filed under its own id and has a resource, and the
        i-th transition tractor is `transition_tractor{i}`. */
    ghost predicate Valid()
      reads this`video, this`audio, this`transitions
    {
      Registry(video) && Registry(audio) && Numbered(transitions, "transition_tractor")
    }

    /** The three producer dictionaries as one value. */
    ghost function ProducerState(): Producers
      reads this`video, this`audio, this`order
    {
      Producers(video, audio, order)
    }

    /** The state at module import. */
    constructor ()
      ensures Valid()
      ensures root == [] && video == map[] && audio == map[] && order == []
      ensures playlists == [] && transitions == []
    {
      root, video, audio, order, playlists, transitions := [], map[], map[], [], [], [];
    }

    /** The `setdefault` of `get_producer` in one namespace: the producer
        already filed under `key`, else a new one, which joins the producer
        order unless it is a colour producer (which comes with its resource
        and so never misses one). */
    method FiledOrNew(ns: map<string, Element>, item: Item, key: string) returns (p: Element)
      requires Registry(ns) && !item.Expanded? && key == ProducerKey(item).value
      modifies this`order
      ensures Registry(ns[key := p]) && Registered(p, key)
      ensures key in ns ==> p == ns[key] && order == old(order)
      ensures key !in ns ==>
        p == NewProducer(item, key) && order == old(order) + (if item.Gap? || item.Transition? then [] else [p])
    {
      if key in ns {
        // `setdefault` finds it, and it already has its resource
        p := ns[key];
      } else if item.Gap? || item.Transition? {
        // a colour producer comes with its resource, so it is neither given
        // one nor put in the producer order
        p := ColorProducer("black", Duration(item).value);
        NewProducerRegistered(item);
      } else {
        p := Node("producer", map["id" := key]);
        p := p.(children := p.children + [Property("resource", Some(ResourceUrl(item, key)))]);
        NewProducerRegistered(item);
        order := order + [p];
      }
      RegistryUpdate(ns, key, p);
    }

    /** `get_producer`: the producer filed under the item's key in the
        namespace of the track kind. The first call files `NewProducer` and,
        unless it is a colour producer (which already has a resource), puts it
        in the producer order; every later call with the same key returns the
        same producer and changes nothing. */
    method GetProducer(item: Item, videoTrack: bool) returns (r: Result<Element>)
      requires Valid()
      modifies this`video, this`audio, this`order
      ensures Valid()
      ensures r.Failure? <==> item.Expanded?
      ensures r.Failure? ==> video == old(video) && audio == old(audio) && order == old(order)
      ensures videoTrack ==> audio == old(audio)
      ensures !videoTrack ==> video == old(video)
      ensures r.Success? ==> Registered(r.value, ProducerKey(item).value)
      ensures r.Success? && videoTrack ==> video == old(video)[ProducerKey(item).value := r.value]
      ensures r.Success? && !videoTrack ==> audio == old(audio)[ProducerKey(item).value := r.value]
      ensures r.Success? ==>
        var key := ProducerKey(item).value;
        var before := if videoTrack then old(video) else old(audio);
        && (key in before ==> r.value == before[key] && order == old(order))
        && (key !in before ==>
              r.value == NewProducer(item, key)
              && order == old(order) + (if item.Gap? || item.Transition? then [] else [r.value]))
      ensures r.Success? ==>
        ProducerState() == AfterGet(old(ProducerState()), item, videoTrack)
        && r.value == Fetched(old(ProducerState()), item, videoTrack)
    {
      if item.Expanded? {
        // a tuple has no `name`
        return Failure(AttributeError);
      }
      var key := ProducerKey(item).value;
      if videoTrack {
        var producer := FiledOrNew(video, item, key);
        video := video[key := producer];
        r := Success(producer);
      } else {
        var producer := FiledOrNew(audio, item, key);
        audio := audio[key := producer];
        r := Success(producer);
      }
    }

    /** The clip branch of `assemble_track` as written: the producer is
        fetched for the video namespace, so in an audio track its id is
        always found there and every audio clip is skipped. */
    method AddClipAsWritten(item: Item, audioTrack: bool) returns (r: Option<Element>)
      requires Valid() && item.Clip?
      modifies this`video, this`audio, this`order
      ensures Valid()
      ensures audioTrack ==> r == None
      ensures !audioTrack ==>
        (ProducerKey(item).value in video && r == Some(CreateClip(item, video[ProducerKey(item).value]).value))
      ensures var key := ProducerKey(item).value;
        && audio == old(audio)
        && video == old(video)[key := if key in old(video) then old(video)[key] else NewProducer(item, key)]
        && order == old(order) + (if key in old(video) then [] else [NewProducer(item, key)])
    {
      var producer := GetProducer(item, true);
      var p := producer.value;
      if audioTrack && p.attrs["id"] in video {
        return None;
      }
      r := Some(CreateClip(item, p).value);
    }

    /** The clip branch of `assemble_track` as intended: an audio clip is
        skipped exactly when a video producer with its key exists; otherwise
        its entry plays a producer of its own track kind. */
    method AddClip(item: Item, audioTrack: bool) returns (r: Option<Element>)
      requires Valid() && item.Clip?
      modifies this`video, this`audio, this`order
      ensures Valid()
      ensures r.None? <==> audioTrack && ProducerKey(item).value in old(video)
      ensures audioTrack ==> video == old(video)
      ensures !audioTrack ==> audio == old(audio)
      ensures r.None? ==> ProducerState() == old(ProducerState())
      ensures r.Some? ==>
        && ProducerState() == AfterGet(old(ProducerState()), item, !audioTrack)
        && CreateClip(item, Fetched(old(ProducerState()), item, !audioTrack)).Success?
        && r.value == CreateClip(item, Fetched(old(ProducerState()), item, !audioTrack)).value
      ensures r.Some? ==>
        var key := ProducerKey(item).value;
        var ns := if audioTrack then audio else video;
        key in ns && r.value == CreateClip(item, ns[key]).value
      ensures r.Some? ==>
        var key := ProducerKey(item).value;
        var before := if audioTrack then old(audio) else old(video);
        order == old(order) + (if key in before then [] else [NewProducer(item, key)])
    {
      var key := ProducerKey(item).value;
      if audioTrack && key in video {
        return None;
      }
      var producer := GetProducer(item, !audioTrack);
      r := Some(CreateClip(item, producer.value).value);
    }

    /** The filing half of `apply_timewarp`: a clone of the producer `orig`
        is filed in the video namespace and put in the producer order under
        `id`. The clone is a copy, so every other producer is left as it was. */
    method FileClone(orig: Element, key: string, id: string, scalar: string)
      requires Valid() && Registered(orig, key)
      modifies this`video, this`order
      ensures Valid()
      ensures Timewarped(orig, id, scalar).Success?
      ensures video == old(video)[id := Timewarped(orig, id, scalar).value]
      ensures order == old(order) + [Timewarped(orig, id, scalar).value]
    {
      TimewarpedClone(orig, key, id, scalar);
      var clone := Timewarped(orig, id, scalar).value;
      RegistryUpdate(video, id, clone);
      video := video[id := clone];
      order := order + [clone];
    }

    /** The producer half of `apply_timewarp`: the item's producer is
        fetched from (or filed in) the video namespace, and its clone `id` is
        filed and ordered last. No producer but the clone and, when it was
        new, the item's own changes. */
    method WarpProducer(item: Item, id: string, scalar: string) returns (r: Result<Element>)
      requires Valid()
      modifies this`video, this`audio, this`order
      ensures Valid() && audio == old(audio)
      ensures r.Success? <==> !item.Expanded?
      ensures r.Failure? ==> video == old(video) && order == old(order)
      ensures r.Success? ==> id in video && r.value == video[id]
      ensures r.Success? ==>
        var key := ProducerKey(item).value;
        key != id ==> key in video && Timewarped(video[key], id, scalar) == Success(video[id])
      ensures r.Success? ==> forall k :: k in old(video) && k != id ==> k in video && video[k] == old(video)[k]
      ensures r.Success? ==>
        var key := ProducerKey(item).value;
        order == old(order) + (if key in old(video) || item.Gap? || item.Transition? then [] else [NewProducer(item, key)])
                            + [video[id]]
      ensures r.Success? ==> WarpOnce(old(ProducerState()), item, id, scalar) == Success(ProducerState())
    {
      ghost var before := video;
      var orig :- GetProducer(item, true);
      var key := ProducerKey(item).value;
      ghost var added := if key in before || item.Gap? || item.Transition? then [] else [NewProducer(item, key)];
      assert order == old(order) + added;
      SetdefaultKeeps(before, key, orig);
      ghost var mid := video;
      ghost var midOrder := order;
      FileClone(orig, key, id, scalar);
      UpdateKeepsOthers(mid, id, video[id]);
      assert order == midOrder + [video[id]];
      r := Success(video[id]);
    }

    /** `apply_timewarp`: nothing without an element; otherwise the clone
        `scalar:producer` is filed (`WarpProducer`) and the element is
        rewired to it. An element with no producer (a blank) fails. */
    method ApplyTimewarp(item: Item, itemE: Option<Element>, scalar: string) returns (r: Result<Option<Element>>)
      requires Valid()
      modifies this`video, this`audio, this`order
      ensures Valid() && audio == old(audio)
      ensures itemE.None? ==> r == Success(None) && video == old(video) && order == old(order)
      ensures itemE.Some? && "producer" !in itemE.value.attrs ==>
        r == Failure(TypeError) && ProducerState() == old(ProducerState())
      ensures r.Success? && itemE.Some? && !item.Expanded? ==>
        WarpOnce(old(ProducerState()), item, scalar + ":" + itemE.value.attrs["producer"], scalar) == Success(ProducerState())
      ensures itemE.Some? && "producer" in itemE.value.attrs ==> (r.Success? <==> !item.Expanded?)
      ensures r.Success? && itemE.Some? ==>
        var id := scalar + ":" + itemE.value.attrs["producer"];
        && r.value == Some(SetAttr(itemE.value, "producer", id))
        && id in video && |order| > 0 && order[|order| - 1] == video[id]
      ensures r.Success? && itemE.Some? ==>
        var id := scalar + ":" + itemE.value.attrs["producer"];
        var key := ProducerKey(item).value;
        key != id ==> key in video && Timewarped(video[key], id, scalar) == Success(video[id])
      ensures r.Success? && itemE.Some? ==>
        var id := scalar + ":" + itemE.value.attrs["producer"];
        forall k :: k in old(video) && k != id ==> k in video && video[k] == old(video)[k]
      ensures r.Success? && itemE.Some? ==>
        var id := scalar + ":" + itemE.value.attrs["producer"];
        var key := ProducerKey(item).value;
        order == old(order) + (if key in old(video) || item.Gap? || item.Transition? then [] else [NewProducer(item, key)])
                            + [video[id]]
    {
      if itemE.None? {
        return Success(None);
      }
      var e := itemE.value;
      if "producer" !in e.attrs {
        // `':'.join` over a None
        return Failure(TypeError);
      }
      var id := scalar + ":" + e.attrs["producer"];
      var clone :- WarpProducer(item, id, scalar);
      r := Success(Some(SetAttr(e, "producer", id)));
    }

    /** One turn of the effects loop: the first of `effects`, applied when it
        is a `LinearTimeWarp`; the rest are left to the following turns. */
    method ApplyEffect(item: Item, cur: Option<Element>, effects: seq<Effect>) returns (r: Result<Option<Element>>)
      requires Valid() && |effects| > 0
      modifies this`video, this`audio, this`order
      ensures Valid() && audio == old(audio)
      ensures cur.None? ==> r == Success(None) && ProducerState() == old(ProducerState())
      ensures cur.Some? && "producer" !in cur.value.attrs ==>
        ProducerState() == old(ProducerState()) && (r.Success? ==> r == Success(cur))
      ensures cur.Some? && r.Failure? && !item.Expanded? ==> Rewired(cur.value, effects).Failure?
      ensures cur.Some? && r.Success? ==>
        r.value.Some? && Rewired(cur.value, effects) == Rewired(r.value.value, effects[1..])
      ensures cur.Some? && r.Success? && !item.Expanded? ==>
        WarpAll(old(ProducerState()), item, cur.value, effects) == WarpAll(ProducerState(), item, r.value.value, effects[1..])
    {
      ghost var before := ProducerState();
      if cur.Some? {
        RewiredStep(cur.value, effects);
      }
      match effects[0] {
        case LinearTimeWarp(s) =>
          r := ApplyTimewarp(item, cur, s);
          if r.Success? && cur.Some? && !item.Expanded? {
            WarpAllSteps(before, item, cur.value, effects);
          }
        case OtherEffect(_) =>
          if cur.Some? && !item.Expanded? {
            WarpAllSkips(before, item, cur.value, effects);
          }
          r := Success(cur);
      }
    }

    /** The effects loop of `assemble_track`: each `LinearTimeWarp` in turn,
        so the element ends up as `Rewired` says. */
    method ApplyEffects(item: Item, itemE: Option<Element>, effects: seq<Effect>) returns (r: Result<Option<Element>>)
      requires Valid()
      modifies this`video, this`audio, this`order
      ensures Valid()
      ensures audio == old(audio)
      ensures itemE.None? ==> r == Success(None) && ProducerState() == old(ProducerState())
      ensures itemE.Some? && "producer" !in itemE.value.attrs ==> ProducerState() == old(ProducerState())
      ensures itemE.Some? && !item.Expanded? ==> (r.Success? <==> Rewired(itemE.value, effects).Success?)
      ensures r.Success? && itemE.Some? ==> r.value.Some? && Rewired(itemE.value, effects) == Success(r.value.value)
      ensures r.Success? && itemE.Some? && !item.Expanded? ==>
        WarpAll(old(ProducerState()), item, itemE.value, effects) == Success(ProducerState())
    {
      var cur := itemE;
      var i := 0;
      while i < |effects|
        invariant 0 <= i <= |effects|
        invariant Valid() && audio == old(audio)
        invariant itemE.None? ==> cur.None? && ProducerState() == old(ProducerState())
        invariant itemE.Some? ==> cur.Some? && Rewired(itemE.value, effects) == Rewired(cur.value, effects[i..])
        invariant itemE.Some? && "producer" !in itemE.value.attrs ==>
          cur == itemE && ProducerState() == old(ProducerState())
        invariant itemE.Some? && !item.Expanded? ==>
          WarpAll(old(ProducerState()), item, itemE.value, effects) == WarpAll(ProducerState(), item, cur.value, effects[i..])
      {
        assert effects[i..][1..] == effects[i + 1..];
        cur :- ApplyEffect(item, cur, effects[i..]);
        i := i + 1;
      }
      r := Success(cur);
    }

    /** The two `get_producer` calls of `create_transition`: A's neighbour
        first, then B's, both in the video namespace. */
    method FetchNeighbours(triple: Item) returns (r: Result<(Element, Element)>)
      requires Valid() && triple.Expanded?
      modifies this`video, this`audio, this`order
      ensures Valid() && audio == old(audio)
      ensures r.Success? <==> !triple.a.Expanded? && !triple.b.Expanded?
      ensures r.Success? ==>
        && Registered(r.value.0, ProducerKey(triple.a).value) && Registered(r.value.1, ProducerKey(triple.b).value)
        && ProducerState() == TransitionProducers(old(ProducerState()), triple)
      ensures triple.a.Expanded? ==> ProducerState() == old(ProducerState())
      ensures !triple.a.Expanded? && triple.b.Expanded? ==> ProducerState() == AfterGet(old(ProducerState()), triple.a, true)
    {
      var producerA :- GetProducer(triple.a, true);
      var producerB :- GetProducer(triple.b, true);
      r := Success((producerA, producerB));
    }

    /** `create_transition`: the tractor for a `(item_a, transition, item_b)`
        tuple, its legs playing the neighbours' producers (filed in the video
        namespace) over the frames `LegRange` gives. */
    method CreateTransition(triple: Item, name: string) returns (r: Result<Element>)
      requires Valid() && triple.Expanded?
      modifies this`video, this`audio, this`order
      ensures Valid() && audio == old(audio)
      ensures r.Success? <==> !triple.transition.Expanded? && !triple.a.Expanded? && !triple.b.Expanded?
      ensures r.Success? ==>
        && ProducerKey(triple.a).value in video && ProducerKey(triple.b).value in video
        && r.value == TransitionTractorOf(triple, name)
      ensures r.Success? ==> ProducerState() == TransitionProducers(old(ProducerState()), triple)
      ensures triple.transition.Expanded? || triple.a.Expanded? ==> ProducerState() == old(ProducerState())
      ensures !triple.transition.Expanded? && !triple.a.Expanded? && triple.b.Expanded? ==>
        ProducerState() == AfterGet(old(ProducerState()), triple.a, true)
    {
      var dur :- Duration(triple.transition);
      var producers :- FetchNeighbours(triple);
      var a := LegRange(triple.a, true).value;
      var b := LegRange(triple.b, false).value;
      r := Success(TransitionTractor(name, dur - 1, producers.0.attrs["id"], a, producers.1.attrs["id"], b));
    }

    /** A clip of an expanded track: its entry, rewired by its time warps, or
        nothing when it is skipped (its effects too). It builds on the
        corrected clip branch `AddClip`, not on `AddClipAsWritten`. */
    method ClipItem(item: Item, audioTrack: bool) returns (r: seq<Element>)
      requires Valid() && item.Clip?
      modifies this`video, this`audio, this`order
      ensures Valid()
      ensures |r| == 0 <==> audioTrack && ProducerKey(item).value in old(video)
      ensures |r| <= 1
      ensures |r| == 1 ==>
        && r[0].tag == "entry"
        && Matches(r[0], "producer", WarpedId(ProducerKey(item).value, item.effects))
        && IntAttr(r[0], "in") == Some(item.range.start)
        && IntAttr(r[0], "out") == Some(item.range.start + item.range.duration)
      ensures ClipItemEffect(old(ProducerState()), item, audioTrack) == Success((ProducerState(), r))
    {
      var entry := AddClip(item, audioTrack);
      if entry.None? {
        return [];
      }
      var key := ProducerKey(item).value;
      ghost var producer := if audioTrack then audio[key] else video[key];
      CreateElementPlays(producer, item.range.start, item.range.start + item.range.duration);
      RewiredRenames(entry.value, item.effects);
      var warped := ApplyEffects(item, entry, item.effects);
      r := [warped.value.value];
    }

    /** A gap of an expanded track: a blank, which no time warp can rewire. */
    method GapItem(item: Item) returns (r: Result<seq<Element>>)
      requires Valid() && item.Gap?
      modifies this`video, this`audio, this`order
      ensures Valid()
      ensures r.Success? <==> forall k :: 0 <= k < |item.effects| ==> item.effects[k].OtherEffect?
      ensures r.Success? ==> r.value == [CreateBlank(item)]
      ensures ProducerState() == old(ProducerState())
    {
      var blank := CreateBlank(item);
      RewiredBlank(blank, item.effects);
      var warped :- ApplyEffects(item, Some(blank), item.effects);
      r := Success([warped.value]);
    }

    /** A transition of an expanded track: its tractor
        `transition_tractor{n}` joins the transitions and an entry playing it
        joins the playlist. As `ItemEffects` corrects it, the tuple has no
        effects to read, where the code as written raises AttributeError. */
    method TransitionItem(item: Item) returns (r: Result<seq<Element>>)
      requires Valid() && item.Expanded?
      modifies this`video, this`audio, this`order, this`transitions
      ensures Valid()
      ensures r.Success? <==> !item.transition.Expanded? && !item.a.Expanded? && !item.b.Expanded?
      ensures r.Failure? ==> transitions == old(transitions)
      ensures r.Success? ==>
        && ProducerState() == TransitionProducers(old(ProducerState()), item)
        && transitions == old(transitions) + [TransitionTractorOf(item, "transition_tractor" + NatToString(|old(transitions)|))]
      ensures item.transition.Expanded? || item.a.Expanded? ==> ProducerState() == old(ProducerState())
      ensures !item.transition.Expanded? && !item.a.Expanded? && item.b.Expanded? ==>
        ProducerState() == AfterGet(old(ProducerState()), item.a, true)
      ensures r.Success? ==>
        && |transitions| == |old(transitions)| + 1 && transitions[..|old(transitions)|] == old(transitions)
        && Matches(transitions[|old(transitions)|], "id", "transition_tractor" + NatToString(|old(transitions)|))
        && |r.value| == 1 && TransitionEntry(transitions[|old(transitions)|]) == Success(r.value[0])
    {
      var name := "transition_tractor" + NatToString(|transitions|);
      var tractor :- CreateTransition(item, name);
      TransitionTractorOfNamed(item, name);
      NumberedAppended(transitions, "transition_tractor", tractor);
      transitions := transitions + [tractor];
      r := Success([TransitionEntry(tractor).value]);
    }

    /** One item of an expanded track: the playlist children it contributes
        and what it files on the way, with the corrected clip branch and
        effects reading (`AddClip`, `ItemEffects`). */
    method AddItem(items: seq<Item>, i: nat, audioTrack: bool, trackIndex: nat) returns (r: Result<seq<Element>>)
      requires Valid() && i < |items|
      modifies this`video, this`audio, this`order, this`playlists, this`transitions
      ensures Valid()
      ensures |playlists| >= |old(playlists)| && |transitions| >= |old(transitions)|
      ensures r.Success? ==> |r.value| <= 1
      ensures items[i].Clip? ==> r.Success?
      ensures items[i].Clip? ==> (r.value == [] <==> audioTrack && ProducerKey(items[i]).value in old(video))
      ensures items[i].Gap? && r.Success? ==> r.value == [CreateBlank(items[i])]
      ensures items[i].Expanded? && r.Success? ==>
        |transitions| == |old(transitions)| + 1 && |r.value| == 1
        && TransitionEntry(transitions[|old(transitions)|]) == Success(r.value[0])
      ensures items[i].Stack? && r.Success? ==> r.value == [PlaylistRef(PlaylistId(items[i].name, trackIndex), true)]
      ensures items[i].Transition? ==> r == Failure(AttributeError)
      ensures items[i].Other? ==> r == Success([])
      ensures !items[i].Stack? && !items[i].Expanded? ==> transitions == old(transitions) && playlists == old(playlists)
      ensures items[i].Gap? || items[i].Transition? || items[i].Other? ==> ProducerState() == old(ProducerState())
      ensures items[i].Clip? ==> ClipItemEffect(old(ProducerState()), items[i], audioTrack) == Success((ProducerState(), r.value))
      ensures items[i].Clip? && |r.value| == 1 ==>
        && r.value[0].tag == "entry"
        && Matches(r.value[0], "producer", WarpedId(ProducerKey(items[i]).value, items[i].effects))
        && IntAttr(r.value[0], "in") == Some(items[i].range.start)
        && IntAttr(r.value[0], "out") == Some(items[i].range.start + items[i].range.duration)
      ensures items[i].Expanded? ==> playlists == old(playlists)
      ensures items[i].Expanded? ==>
        (r.Success? <==> !items[i].transition.Expanded? && !items[i].a.Expanded? && !items[i].b.Expanded?)
      ensures items[i].Expanded? && r.Failure? ==> transitions == old(transitions)
      ensures items[i].Expanded? && r.Success? ==>
        && ProducerState() == TransitionProducers(old(ProducerState()), items[i])
        && transitions == old(transitions) + [TransitionTractorOf(items[i], "transition_tractor" + NatToString(|old(transitions)|))]
      decreases items, 0
    {
      var item := items[i];
      match item {
        case Clip(_, _, _, _) =>
          var added := ClipItem(item, audioTrack);
          r := Success(added);
        case Gap(_, _, _) =>
          r := GapItem(item);
        case Expanded(_, _, _) =>
          r := TransitionItem(item);
        case Stack(name, _, children, _) =>
          // the nested playlist's entry goes in first; a stack has no
          // element of its own, so its time warps do nothing
          var ref :- AssembleTrack(name, false, children, trackIndex, true);
          r := Success([ref]);
        case Transition(_, _, _) =>
          // a bare transition has no `effects`
          r := Failure(ItemEffects(item).error);
        case Other(_, _, _) =>
          // no branch adds an element, so its time warps do nothing
          r := Success([]);
      }
    }

    /** `assemble_track`: a playlist named after the track (or
        `playlist{index}`) is reserved in `playlists` before the items fill
        it, so nested stacks' playlists come after it; the element returned
        places it in its parent. */
    method AssembleTrack(name: string, audioTrack: bool, items: seq<Item>, trackIndex: nat, inPlaylist: bool)
      returns (r: Result<Element>)
      requires Valid()
      modifies this`video, this`audio, this`order, this`playlists, this`transitions
      ensures Valid()
      ensures |playlists| > |old(playlists)| && |transitions| >= |old(transitions)|
      ensures r.Success? ==> r.value == PlaylistRef(PlaylistId(name, trackIndex), inPlaylist)
      ensures r.Success? ==>
        playlists[|old(playlists)|].tag == "playlist"
        && Matches(playlists[|old(playlists)|], "id", PlaylistId(name, trackIndex))
      decreases items, 1
    {
      var id := PlaylistId(name, trackIndex);
      playlists := playlists + [Node("playlist", map["id" := id])];
      var slot := |playlists| - 1;
      var children: seq<Element> := [];
      for i := 0 to |items|
        invariant Valid()
        invariant slot == |old(playlists)| < |playlists|
        invariant |transitions| >= |old(transitions)|
      {
        var added :- AddItem(items, i, audioTrack, trackIndex);
        children := children + added;
      }
      playlists := playlists[slot := Element("playlist", map["id" := id], children, None)];
      r := Success(PlaylistRef(id, inPlaylist));
    }

    /** `create_background_track`: the black fill as long as the tracks,
        filed once but put in the producer order on every call, and a
        `background` playlist playing it over [0, length - 1]. */
    method CreateBackgroundTrack(length: int) returns (ref: Element)
      requires Valid()
      modifies this`video, this`order, this`playlists
      ensures Valid()
      ensures "solid_black" in old(video) ==> video == old(video)
      ensures "solid_black" !in old(video) ==> video == old(video)["solid_black" := ColorProducer("black", length)]
      ensures "solid_black" in video && order == old(order) + [video["solid_black"]]
      ensures playlists == old(playlists) + [BackgroundPlaylist(length)]
      ensures ref == PlaylistRef("background", false)
    {
      var bg := ColorProducer("black", length);
      ColorProducerRegistered("black", length);
      if "solid_black" !in video {
        RegistryUpdate(video, "solid_black", bg);
        video := video["solid_black" := bg];
      }
      order := order + [video["solid_black"]];
      playlists := playlists + [BackgroundPlaylist(length)];
      ref := PlaylistRef("background", false);
    }

    /** The track loop of `assemble_timeline`: every track assembled in
        turn, the first failure ending it; one reference per track, in
        order. */
    method AssembleTracks(tracks: seq<Track>) returns (r: Result<seq<Element>>)
      requires Valid()
      modifies this`video, this`audio, this`order, this`playlists, this`transitions
      ensures Valid()
      ensures r.Success? ==>
        && |r.value| == |tracks|
        && forall k :: 0 <= k < |tracks| ==> r.value[k] == PlaylistRef(PlaylistId(tracks[k].name, k), false)
    {
      var refs := [];
      for k := 0 to |tracks|
        invariant Valid()
        invariant |refs| == k
        invariant forall j :: 0 <= j < k ==> refs[j] == PlaylistRef(PlaylistId(tracks[j].name, j), false)
      {
        var ref :- AssembleTrack(tracks[k].name, tracks[k].kind == Audio, tracks[k].items, k, false);
        ghost var before := refs;
        refs := refs + [ref];
        forall j | 0 <= j < k + 1
          ensures refs[j] == PlaylistRef(PlaylistId(tracks[j].name, j), false)
        {
          if j < k {
            assert refs[j] == before[j];
          }
        }
      }
      r := Success(refs);
    }

    /** The multitrack's references in `assemble_timeline`: the background
        track's first, then the tracks'. */
    method AssembleReferences(tracks: seq<Track>, length: int) returns (r: Result<seq<Element>>)
      requires Valid()
      modifies this`video, this`audio, this`order, this`playlists, this`transitions
      ensures Valid()
      ensures r.Success? ==>
        && |r.value| == |tracks| + 1 && r.value[0] == PlaylistRef("background", false)
        && forall k :: 0 <= k < |tracks| ==> r.value[k + 1] == PlaylistRef(PlaylistId(tracks[k].name, k), false)
    {
      var background := CreateBackgroundTrack(length);
      var refs :- AssembleTracks(tracks);
      var all := [background] + refs;
      assert forall k :: 0 <= k < |refs| ==> all[k + 1] == refs[k];
      r := Success(all);
    }

    /** `assemble_timeline`: the main tractor `tractor0` joins the root
        first, with an empty multitrack; then the background and the tracks
        (`AssembleReferences`) are referenced from that multitrack, in order.
        On failure the tractor stays in the root. */
    method AssembleTimeline(tracks: seq<Track>, length: int) returns (r: Result<seq<Element>>)
      requires Valid()
      modifies this`root, this`video, this`audio, this`order, this`playlists, this`transitions
      ensures Valid()
      ensures |root| == |old(root)| + 1 && root[..|old(root)|] == old(root)
      ensures root[|old(root)|].tag == "tractor" && Matches(root[|old(root)|], "id", "tractor0")
      ensures r.Success? ==>
        && |r.value| == |tracks| + 1 && r.value[0] == PlaylistRef("background", false)
        && (forall k :: 0 <= k < |tracks| ==> r.value[k + 1] == PlaylistRef(PlaylistId(tracks[k].name, k), false))
        && r.value == MultitrackRefs(tracks)
        && root == old(root) + [MainTractor(r.value)]
    {
      root := root + [MainTractor([])];
      var refs :- AssembleReferences(tracks, length);
      assert refs == MultitrackRefs(tracks);
      root := root[|root| - 1 := MainTractor(refs)];
      r := Success(refs);
    }

    /** The producer loop of `write_to_string`: `root.insert(0, p)` for each
        producer in order, which leaves them in reverse. */
    method InsertProducers()
      modifies this`root
      ensures root == Reverse(order) + old(root)
    {
      var i := 0;
      while i < |order|
        invariant 0 <= i <= |order|
        invariant root == Reverse(order[..i]) + old(root)
      {
        assert order[..i + 1][..i] == order[..i];
        root := ListInsert(root, 0, order[i]);
        i := i + 1;
      }
      assert order[..|order|] == order;
    }

    /** `root.insert(-1, x)` for each x in turn: they land, in order, just
        before the last child. */
    method InsertBeforeLast(xs: seq<Element>)
      requires |root| > 0
      modifies this`root
      ensures root == old(root)[..|old(root)| - 1] + xs + [old(root)[|old(root)| - 1]]
    {
      ghost var front := root[..|root| - 1];
      ghost var last := root[|root| - 1];
      var i := 0;
      while i < |xs|
        invariant 0 <= i <= |xs|
        invariant root == front + xs[..i] + [last]
      {
        assert root[..|root| - 1] == front + xs[..i];
        assert xs[..i + 1] == xs[..i] + [xs[i]];
        root := ListInsert(root, -1, xs[i]);
        i := i + 1;
      }
      assert xs[..|xs|] == xs;
    }

    /** The three insertion loops of `write_to_string`: producers in reverse
        at the front, then transition tractors and playlists just before the
        last child, which stays last. */
    method GatherIntoRoot()
      requires |root| > 0
      modifies this`root
      ensures root == Reverse(order) + old(root)[..|old(root)| - 1] + transitions + playlists + [old(root)[|old(root)| - 1]]
    {
      ghost var front := root[..|root| - 1];
      ghost var last := root[|root| - 1];
      InsertProducers();
      assert root == (Reverse(order) + front) + [last];
      InsertBeforeLast(transitions);
      assert root == (Reverse(order) + front + transitions) + [last];
      InsertBeforeLast(playlists);
    }

    /** `write_to_string`: ValueError for an unsupported input; otherwise the
        root holds the producers in reverse order, then whatever it held
        before, the transition tractors, the playlists, and last the main
        tractor. */
    method WriteToString(input: Input, length: int) returns (r: Result<Element>)
      requires Valid()
      modifies this`root, this`video, this`audio, this`order, this`playlists, this`transitions
      ensures Valid()
      ensures TracksOf(input).Failure? ==> r == Failure(ValueError) && root == old(root)
      ensures r.Success? ==> r.value == Element("mlt", map[], root, None) && |root| > 0
      ensures r.Success? ==> root == Reverse(order) + old(root) + transitions + playlists + [root[|root| - 1]]
      ensures r.Success? ==> root[|root| - 1].tag == "tractor" && Matches(root[|root| - 1], "id", "tractor0")
      ensures r.Success? ==> root[|root| - 1] == MainTractor(MultitrackRefs(TracksOf(input).value))
    {
      var tracks :- TracksOf(input);
      var refs :- AssembleTimeline(tracks, length);
      GatherIntoRoot();
      r := Success(Element("mlt", map[], root, None));
    }
  }
}
