/** The MLT XML writer of opentimelineio_contrib/adapters/mlt_xml.py: it turns
    an editorial timeline into `producer`, `playlist`, `entry`, `blank` and
    `tractor` elements. The module-level holders `_producers`, `_playlists`,
    `_tracks`, `_tractors` and `_transitions` are the fields of one `Writer`.
    The read path is represented only by `_add_clip`, the inverse of
    `_create_producer` and `_create_entry`. */
module MltXml {
  import opened Wrappers
  import opened Decimal
  import opened Elements

  /** A time range in frames: RationalTime values are taken as whole frames. */
  datatype Range = Range(start: int, duration: int)

  /** `TimeEffect` (LinearTimeWarp, FreezeFrame) with its `time_scalar`
      already rendered as text, or any other effect. */
  datatype Effect = TimeEffect(scalar: string) | OtherEffect(name: string)

  datatype MediaReference = ExternalReference(targetUrl: string) | OtherReference

  /** The items of a track as the writer meets them. `Other` stands for any
      other composable (a nested Stack, say): the writer emits nothing for it
      and it has no usable `source_range`. */
  datatype Item =
    | Clip(name: string, sourceRange: Range, availableRange: Range,
           media: MediaReference, effects: seq<Effect>)
    | Gap(name: string, sourceRange: Range)
    | Transition(name: string, inOffset: int, outOffset: int)
    | Other(name: string)

  datatype TrackKind = Video | Audio

  datatype Track = Track(name: string, kind: TrackKind, items: seq<Item>)

  /** The tracks and their overall duration (`tracks.duration()`). */
  datatype Timeline = Timeline(tracks: seq<Track>, duration: int)

  datatype TransitionType = Dissolve | FadeIn | FadeOut

  /** The argument of `_producer_lookup`: an OTIO object is matched by its
      name against `title`, anything else by its text against `id`. */
  datatype LookupArg = Object(item: Item) | Plain(text: string)

  /** The background fill colour and the transparent fill used by fades. */
  const Black := "black"
  const Transparent := "#00000000"

  // ---------------------------------------------------------------------
  // String helpers

  /** Python's `pat in s`. */
  predicate Contains(s: string, pat: string)
    decreases |s|
  {
    |pat| <= |s| && (s[..|pat|] == pat || Contains(s[1..], pat))
  }

  /** `pat` occurs in `s` starting at index i. */
  predicate OccursAt(s: string, pat: string, i: nat) {
    i + |pat| <= |s| && s[i..i + |pat|] == pat
  }

  /** Python's `s.replace(pat, '')`: one left-to-right pass removing
      non-overlapping occurrences. A string without `pat` comes back as it
      is; one with it loses at least one occurrence. */
  function RemoveAll(s: string, pat: string): (r: string)
    requires |pat| > 0
    ensures |r| <= |s|
    ensures !Contains(s, pat) ==> r == s
    ensures Contains(s, pat) ==> |r| <= |s| - |pat|
    decreases |s|
  {
    if |s| < |pat| then s
    else if s[..|pat|] == pat then RemoveAll(s[|pat|..], pat)
    else [s[0]] + RemoveAll(s[1..], pat)
  }

  /** The pass drops the leftmost occurrence: everything before it is kept
      as it is and the pass carries on right after it. */
  lemma {:induction false} RemoveAllLeftmost(x: string, pat: string, y: string)
    requires |pat| > 0
    requires forall i :: 0 <= i < |x| ==> !OccursAt(x + pat + y, pat, i)
    ensures RemoveAll(x + pat + y, pat) == x + RemoveAll(y, pat)
    decreases |x|
  {
    var s := x + pat + y;
    if |x| == 0 {
      assert s == pat + y;
      assert s[..|pat|] == pat && s[|pat|..] == y;
      assert RemoveAll(s, pat) == RemoveAll(y, pat);
    } else {
      assert !OccursAt(s, pat, 0);
      assert s[0..0 + |pat|] == s[..|pat|];
      assert s[1..] == x[1..] + pat + y;
      forall i | 0 <= i < |x[1..]|
        ensures !OccursAt(x[1..] + pat + y, pat, i)
      {
        assert !OccursAt(s, pat, i + 1);
        assert (x[1..] + pat + y)[i..i + |pat|] == s[i + 1..i + 1 + |pat|];
      }
      RemoveAllLeftmost(x[1..], pat, y);
      assert RemoveAll(s, pat) == [s[0]] + RemoveAll(s[1..], pat);
      assert s[0] == x[0] && x == [x[0]] + x[1..];
    }
  }

  // ---------------------------------------------------------------------
  // Search over element lists (`_producer_lookup`, `_get_tractor`,
  // `_get_producer`)

  /** The linear search loop of `_producer_lookup` and `_get_tractor`. It
      returns the first element whose `key` attribute equals `value`. */
  method LinearSearch(es: seq<Element>, key: string, value: string) returns (r: Option<Element>)
    ensures r.Some? <==> FirstMatch(es, key, value).Some?
    ensures r.Some? ==> r.value == es[FirstMatch(es, key, value).value]
  {
    var i := 0;
    while i < |es|
      invariant 0 <= i <= |es|
      invariant forall j :: 0 <= j < i ==> !Matches(es[j], key, value)
    {
      if key in es[i].attrs && es[i].attrs[key] == value {
        return Some(es[i]);
      }
      i := i + 1;
    }
    return None;
  }

  // ---------------------------------------------------------------------
  // Frame-range arithmetic and element builders

  /** `source_range` of an item; Transitions and other composables have none. */
  function SourceRange(item: Item): (r: Result<Range>)
    ensures r.Success? <==> item.Clip? || item.Gap?
  {
    match item
    case Clip(_, range, _, _, _) => Success(range)
    case Gap(_, range) => Success(range)
    case _ => Failure(AttributeError)
  }

  /** `_create_entry` with an OTIO item: the entry covers the item's source
      range, `in = start` and `out = start + duration - 1`. */
  function EntryForItem(producerId: string, item: Item): (r: Result<Element>)
    ensures r.Success? <==> SourceRange(item).Success?
    ensures r.Success? ==> r.value.tag == "entry" && r.value.children == []
    ensures r.Success? ==> "producer" in r.value.attrs && r.value.attrs["producer"] == producerId
    ensures r.Success? ==> IntAttr(r.value, "in") == Some(SourceRange(item).value.start)
    ensures r.Success? ==> IntAttr(r.value, "out")
                           == Some(SourceRange(item).value.start + SourceRange(item).value.duration - 1)
    ensures r.Success? ==> Span(r.value) == Some(SourceRange(item).value.duration - 1)
  {
    var range :- SourceRange(item);
    IntToStringParses(range.start);
    IntToStringParses(range.start + range.duration - 1);
    Success(Node("entry", map["producer" := producerId,
                              "in" := IntToString(range.start),
                              "out" := IntToString(range.start + range.duration - 1)]))
  }

  /** `_create_entry` with an element: the entry copies the element's
      in/out points, read back with `int`. */
  function EntryForElement(producerId: string, e: Element): (r: Result<Element>)
    ensures r.Success? <==> IntAttr(e, "in").Some? && IntAttr(e, "out").Some?
    ensures r.Success? ==> r.value.tag == "entry" && r.value.children == []
    ensures r.Success? ==> "producer" in r.value.attrs && r.value.attrs["producer"] == producerId
    ensures r.Success? ==> IntAttr(r.value, "in") == IntAttr(e, "in")
    ensures r.Success? ==> IntAttr(r.value, "out") == IntAttr(e, "out")
    ensures r.Success? ==> Span(r.value) == Span(e)
  {
    var i :- IntAttrOr(e, "in");
    var o :- IntAttrOr(e, "out");
    IntToStringParses(i);
    IntToStringParses(o);
    Success(Node("entry", map["producer" := producerId,
                              "in" := IntToString(i),
                              "out" := IntToString(o)]))
  }

  /** `_get_transition_type`: the offsets that are nonzero decide. */
  function TransitionTypeOf(inOffset: int, outOffset: int): (r: Option<TransitionType>)
    ensures r == Some(Dissolve) <==> inOffset != 0 && outOffset != 0
    ensures r == Some(FadeIn) <==> inOffset != 0 && outOffset == 0
    ensures r == Some(FadeOut) <==> inOffset == 0 && outOffset != 0
    ensures r == None <==> inOffset == 0 && outOffset == 0
  {
    if inOffset != 0 && outOffset != 0 then Some(Dissolve)
    else if inOffset != 0 && outOffset == 0 then Some(FadeIn)
    else if outOffset != 0 && inOffset == 0 then Some(FadeOut)
    else None
  }

  /** `_create_blank`: a blank as long as the gap. */
  function CreateBlank(gap: Item): (b: Element)
    requires gap.Gap?
    ensures b.tag == "blank" && b.children == [] && "producer" !in b.attrs
    ensures IntAttr(b, "length") == Some(gap.sourceRange.duration)
  {
    IntToStringParses(gap.sourceRange.duration);
    Node("blank", map["length" := IntToString(gap.sourceRange.duration)])
  }

  /** The range a producer is given: the media's available range for an
      external reference, else the clip's own source range. */
  function ProducerRange(clip: Item): Range
    requires clip.Clip?
  {
    if clip.media.ExternalReference? then clip.availableRange else clip.sourceRange
  }

  /** The resource text before any time effect: the target URL with every
      `localhost` removed, or the empty string without an external reference. */
  function ProducerUrl(clip: Item): string
    requires clip.Clip?
  {
    match clip.media
    case ExternalReference(url) =>
      if Contains(url, "localhost") then RemoveAll(url, "localhost") else url
    case OtherReference => ""
  }

  /** The scalar of the first TimeEffect, if any. */
  function FirstTimeEffect(effects: seq<Effect>): (r: Option<string>)
    ensures r.None? <==> forall k :: 0 <= k < |effects| ==> !effects[k].TimeEffect?
    ensures r.Some? ==> exists k :: 0 <= k < |effects| && effects[k] == TimeEffect(r.value)
                                    && forall j :: 0 <= j < k ==> !effects[j].TimeEffect?
  {
    if |effects| == 0 then None
    else if effects[0].TimeEffect? then Some(effects[0].scalar)
    else
      var r := FirstTimeEffect(effects[1..]);
      assert forall k :: 0 <= k < |effects| - 1 ==> effects[1..][k] == effects[k + 1];
      r
  }

  /** The properties of a clip's producer: the resource, prefixed `scalar:`
      by the first TimeEffect, which also adds `mlt_service=timewarp`. */
  function ProducerProperties(clip: Item): seq<Element>
    requires clip.Clip?
  {
    match FirstTimeEffect(clip.effects)
    case None => [Property("resource", Some(ProducerUrl(clip)))]
    case Some(ts) =>
      [Property("resource", Some(ts + ":" + ProducerUrl(clip))), Property("mlt_service", Some("timewarp"))]
  }

  /** The producer element `_create_producer` builds for a clip under `id`:
      titled like the clip, over [start, start + duration - 1] of its range. */
  function ProducerElement(id: string, clip: Item): (p: Element)
    requires clip.Clip?
    ensures p.tag == "producer" && p.text == None
    ensures Matches(p, "id", id) && Matches(p, "title", clip.name)
    ensures IntAttr(p, "in") == Some(ProducerRange(clip).start)
    ensures IntAttr(p, "out") == Some(ProducerRange(clip).start + ProducerRange(clip).duration - 1)
  {
    var range := ProducerRange(clip);
    IntToStringParses(range.start);
    IntToStringParses(range.start + range.duration - 1);
    Element("producer", map["id" := id, "title" := clip.name,
                            "in" := IntToString(range.start),
                            "out" := IntToString(range.start + range.duration - 1)],
            ProducerProperties(clip), None)
  }

  /** The producer's first property is its resource: the URL, prefixed with
      the scalar of the first TimeEffect if there is one; only then does it
      carry an `mlt_service` (the timewarp). */
  lemma ProducerElementResource(id: string, clip: Item)
    requires clip.Clip?
    ensures var p := ProducerElement(id, clip);
      && FindProperty(p.children, "resource") == Some(0)
      && PropertyText(p, "resource")
         == Some(match FirstTimeEffect(clip.effects)
                 case None => ProducerUrl(clip)
                 case Some(ts) => ts + ":" + ProducerUrl(clip))
      && (HasProperty(p, "mlt_service") <==> FirstTimeEffect(clip.effects).Some?)
  {
    var props := ProducerProperties(clip);
    if FirstTimeEffect(clip.effects).Some? {
      assert FindProperty(props[1..], "mlt_service") == Some(0);
    }
  }

  /** `_create_color_producer`'s element: a producer titled `color` spanning
      [0, length - 1]. */
  function ColorProducer(id: string, color: string, length: int): (p: Element)
    ensures p.tag == "producer"
    ensures Matches(p, "id", id) && Matches(p, "title", "color")
    ensures IntAttr(p, "in") == Some(0) && IntAttr(p, "out") == Some(length - 1)
  {
    IntToStringParses(0);
    IntToStringParses(length - 1);
    Element("producer",
      map["title" := "color", "id" := id, "in" := IntToString(0), "out" := IntToString(length - 1)],
      [Property("resource", Some(color)), Property("mlt_service", Some("color"))], None)
  }

  /** A colour producer plays the colour itself with MLT's `color` service. */
  lemma ColorProducerFill(id: string, color: string, length: int)
    ensures var p := ColorProducer(id, color, length);
      && PropertyText(p, "resource") == Some(color)
      && PropertyText(p, "mlt_service") == Some("color")
  {
    var p := ColorProducer(id, color, length);
    assert FindProperty(p.children[1..], "mlt_service") == Some(0);
  }

  /** The shape every transition tractor has: two `track` legs, each naming
      the producer it plays, followed by a `transition`. */
  predicate IsTransitionTractor(t: Element) {
    && t.tag == "tractor" && "id" in t.attrs && |t.children| == 3
    && t.children[0].tag == "track" && t.children[1].tag == "track"
    && t.children[2].tag == "transition"
    && "producer" in t.children[0].attrs && "producer" in t.children[1].attrs
  }

  /** The producer id leg `k` (0 for A, 1 for B) of a transition tractor plays. */
  function LegProducer(t: Element, k: nat): string
    requires IsTransitionTractor(t) && k < 2
  {
    t.children[k].attrs["producer"]
  }

  /** A `track` leg of a transition tractor: a producer played from `first`
      to `last`. */
  function Leg(producer: string, first: int, last: int): (e: Element)
    ensures e.tag == "track" && Matches(e, "producer", producer)
  {
    Node("track", map["producer" := producer, "in" := IntToString(first), "out" := IntToString(last)])
  }

  /** The four properties of the `transition` descriptor. */
  function LumaProperties(): seq<Element> {
    [Property("a_track", Some("0")), Property("b_track", Some("1")),
     Property("factory", Some("loader")), Property("mlt_service", Some("luma"))]
  }

  /** The `transition` descriptor ending at frame `last`. */
  function LumaTransition(id: string, last: int): (e: Element)
    ensures e.tag == "transition"
  {
    Element("transition", map["id" := id, "out" := IntToString(last)], LumaProperties(), None)
  }

  /** The descriptor is a luma wipe from track 0 to track 1, loaded by the
      `loader` factory. */
  lemma LumaTransitionWipes(id: string, last: int)
    ensures var e := LumaTransition(id, last);
      && PropertyText(e, "a_track") == Some("0")
      && PropertyText(e, "b_track") == Some("1")
      && PropertyText(e, "factory") == Some("loader")
      && PropertyText(e, "mlt_service") == Some("luma")
  {
    var props := LumaProperties();
    assert FindProperty(props[1..], "b_track") == Some(0);
    assert FindProperty(props[2..], "factory") == Some(0);
    assert FindProperty(props[1..], "factory") == Some(1);
    assert FindProperty(props[3..], "mlt_service") == Some(0);
    assert FindProperty(props[2..], "mlt_service") == Some(1);
    assert FindProperty(props[1..], "mlt_service") == Some(2);
  }

  /** Three children of which the first two are `track`s and the third is not. */
  lemma TracksOfTractor(a: Element, b: Element, c: Element)
    requires a.tag == "track" && b.tag == "track" && c.tag != "track"
    ensures ChildrenTagged([a, b, c], "track") == [a, b]
  {
    assert [c][1..] == [];
    assert ChildrenTagged([c], "track") == [];
    assert [b, c][1..] == [c];
    assert ChildrenTagged([b, c], "track") == [b];
    assert [a, b, c][1..] == [b, c];
  }

  /** The tractor `_create_transition` builds once the two producers and the
      two leg start frames are known: it spans [0, in + out - 1] and holds leg
      A, leg B and the luma transition, in that order. */
  function TransitionTractor(tractorId: string, transitionId: string,
                             producerA: string, aIn: int, producerB: string, bIn: int,
                             inOffset: int, outOffset: int): (t: Element)
    ensures IsTransitionTractor(t) && t.attrs["id"] == tractorId
    ensures LegProducer(t, 0) == producerA && LegProducer(t, 1) == producerB
  {
    var trackA := Leg(producerA, aIn + 1, aIn + inOffset + outOffset);
    var trackB := Leg(producerB, bIn - inOffset, bIn + outOffset - 1);
    var trans := LumaTransition(transitionId, inOffset + outOffset - 1);
    Element("tractor", map["id" := tractorId, "in" := IntToString(0),
                           "out" := IntToString(inOffset + outOffset - 1)],
            [trackA, trackB, trans], None)
  }

  /** A transition tractor spans [0, in + out - 1], and its transition ends
      where the tractor ends. */
  lemma TransitionTractorSpan(tractorId: string, transitionId: string,
                              producerA: string, aIn: int, producerB: string, bIn: int,
                              inOffset: int, outOffset: int)
    ensures var t := TransitionTractor(tractorId, transitionId, producerA, aIn, producerB, bIn,
                                       inOffset, outOffset);
      && IntAttr(t, "in") == Some(0) && IntAttr(t, "out") == Some(inOffset + outOffset - 1)
      && IntAttr(t.children[2], "out") == IntAttr(t, "out")
  {
    IntToStringParses(0);
    IntToStringParses(inOffset + outOffset - 1);
  }

  /** The legs of a transition tractor last as long as the tractor: leg A
      starts one frame after its start frame; leg B starts in-offset frames
      before its start frame and ends out-offset - 1 frames after it. */
  lemma TransitionTractorLegs(tractorId: string, transitionId: string,
                              producerA: string, aIn: int, producerB: string, bIn: int,
                              inOffset: int, outOffset: int)
    ensures var t := TransitionTractor(tractorId, transitionId, producerA, aIn, producerB, bIn,
                                       inOffset, outOffset);
      && IntAttr(t.children[0], "in") == Some(aIn + 1)
      && IntAttr(t.children[0], "out") == Some(aIn + inOffset + outOffset)
      && IntAttr(t.children[1], "in") == Some(bIn - inOffset)
      && IntAttr(t.children[1], "out") == Some(bIn + outOffset - 1)
      && Span(t.children[0]) == Some(inOffset + outOffset - 1)
      && Span(t.children[1]) == Some(inOffset + outOffset - 1)
  {
    IntToStringParses(aIn + 1);
    IntToStringParses(aIn + inOffset + outOffset);
    IntToStringParses(bIn - inOffset);
    IntToStringParses(bIn + outOffset - 1);
  }

  /** The layout of a transition tractor: `findall('track')` yields its two
      legs, and its transition wipes from track 0 to track 1 with `luma`. */
  lemma TransitionTractorLayout(tractorId: string, transitionId: string,
                                producerA: string, aIn: int, producerB: string, bIn: int,
                                inOffset: int, outOffset: int)
    ensures var t := TransitionTractor(tractorId, transitionId, producerA, aIn, producerB, bIn,
                                       inOffset, outOffset);
      && ChildrenTagged(t.children, "track") == t.children[..2]
      && PropertyText(t.children[2], "a_track") == Some("0")
      && PropertyText(t.children[2], "b_track") == Some("1")
      && PropertyText(t.children[2], "mlt_service") == Some("luma")
  {
    var t := TransitionTractor(tractorId, transitionId, producerA, aIn, producerB, bIn,
                               inOffset, outOffset);
    TracksOfTractor(t.children[0], t.children[1], t.children[2]);
    assert t.children == [t.children[0], t.children[1], t.children[2]];
    assert t.children[..2] == [t.children[0], t.children[1]];
    LumaTransitionWipes(transitionId, inOffset + outOffset - 1);
  }

  // ---------------------------------------------------------------------
  // Numbered ids

  /** Every element is a producer with a title. */
  predicate AllTitledProducers(ps: seq<Element>)
    decreases |ps|
  {
    |ps| == 0 ||
    (AllTitledProducers(ps[..|ps| - 1]) && ps[|ps| - 1].tag == "producer" && "title" in ps[|ps| - 1].attrs)
  }

  /** Every element is a transition tractor. */
  predicate AllTransitionTractors(ts: seq<Element>)
    decreases |ts|
  {
    |ts| == 0 || (AllTransitionTractors(ts[..|ts| - 1]) && IsTransitionTractor(ts[|ts| - 1]))
  }

  /** The shape `_create_producer` and `_create_color_producer` keep: the i-th
      producer is `producer{i}` and carries a title. */
  predicate ProducersNumbered(ps: seq<Element>) {
    Numbered(ps, "producer") && AllTitledProducers(ps)
  }

  /** The shape `_create_transition` keeps: the i-th tractor is `tractor{i}`. */
  predicate TractorsNumbered(ts: seq<Element>) {
    Numbered(ts, "tractor") && AllTransitionTractors(ts)
  }

  /** Every producer of a numbered list is titled. */
  lemma {:induction false} TitledAt(ps: seq<Element>, i: nat)
    requires AllTitledProducers(ps) && i < |ps|
    ensures ps[i].tag == "producer" && "title" in ps[i].attrs
    decreases |ps|
  {
    if i < |ps| - 1 {
      var front := ps[..|ps| - 1];
      TitledAt(front, i);
      assert front[i] == ps[i];
    }
  }

  /** Every tractor of a numbered list is a transition tractor. */
  lemma {:induction false} TransitionTractorAt(ts: seq<Element>, i: nat)
    requires AllTransitionTractors(ts) && i < |ts|
    ensures IsTransitionTractor(ts[i])
    decreases |ts|
  {
    if i < |ts| - 1 {
      var front := ts[..|ts| - 1];
      TransitionTractorAt(front, i);
      assert front[i] == ts[i];
    }
  }

  /** Appending `producer{n}` to n numbered producers keeps them numbered. */
  lemma ProducerAppended(ps: seq<Element>, p: Element)
    requires ProducersNumbered(ps)
    requires p.tag == "producer" && "title" in p.attrs && Matches(p, "id", "producer" + NatToString(|ps|))
    ensures ProducersNumbered(ps + [p])
  {
    assert (ps + [p])[..|ps|] == ps;
  }

  /** Appending a transition tractor `tractor{n}` to n numbered tractors keeps
      them numbered. */
  lemma TractorAppended(ts: seq<Element>, t: Element)
    requires TractorsNumbered(ts)
    requires IsTransitionTractor(t) && Matches(t, "id", "tractor" + NatToString(|ts|))
    ensures TractorsNumbered(ts + [t])
  {
    assert (ts + [t])[..|ts|] == ts;
  }

  // ---------------------------------------------------------------------
  // Specification of the write steps

  function LookupKey(arg: LookupArg): string {
    if arg.Object? then "title" else "id"
  }

  function LookupValue(arg: LookupArg): string {
    if arg.Object? then arg.item.name else arg.text
  }

  /** Some element of `es` has this id. */
  predicate HasId(es: seq<Element>, id: string) {
    exists j :: 0 <= j < |es| && Matches(es[j], "id", id)
  }

  /** `p` carries an id that some element of `es` has. */
  predicate IdIn(p: Element, es: seq<Element>) {
    "id" in p.attrs && HasId(es, p.attrs["id"])
  }

  /** A member of a numbered list carries an id found in that list. */
  lemma MemberIdIn(p: Element, es: seq<Element>, prefix: string)
    requires Numbered(es, prefix) && p in es
    ensures IdIn(p, es)
  {
    var j :| 0 <= j < |es| && es[j] == p;
    NumberedAt(es, prefix, j);
  }

  /** Ids found in a list stay found when the list only grows at its end. */
  lemma IdInGrows(p: Element, es: seq<Element>, es': seq<Element>)
    requires IdIn(p, es) && es <= es'
    ensures IdIn(p, es')
  {
    var j :| 0 <= j < |es| && Matches(es[j], "id", p.attrs["id"]);
    assert es'[j] == es[j];
  }

  /** The producers chosen for the two legs of a transition tractor and the
      frames their legs start from. */
  datatype LegChoice = LegChoice(a: Option<Element>, aIn: int, b: Element, bIn: int)

  /** The frames at which the two legs of a dissolve start (before the +1 /
      -in adjustment of `_create_transition`): leg A from the previous entry's
      out minus the in-offset, leg B from the next item's source start. */
  function DissolveStarts(inOffset: int, clipNum: int, track: seq<Item>,
                          playlist: seq<Element>): Result<(int, int)>
  {
    var entryA :- PyAt(playlist, clipNum - 1);
    var next :- PyAt(track, clipNum + 1);
    var aOut :- IntAttrOr(entryA, "out");
    var range :- SourceRange(next);
    Success((aOut - inOffset, range.start))
  }

  /** A fade-in: leg A from the previous item's source start, leg B (the
      transparent fill) from 0. */
  function FadeInStarts(clipNum: int, track: seq<Item>): Result<(int, int)>
  {
    var prev :- PyAt(track, clipNum - 1);
    var range :- SourceRange(prev);
    Success((range.start, 0))
  }

  /** A fade-out: leg A (the transparent fill) from 0, leg B from out-offset
      frames before the next item's end. */
  function FadeOutStarts(outOffset: int, clipNum: int, track: seq<Item>): Result<(int, int)>
  {
    var next :- PyAt(track, clipNum + 1);
    var range :- SourceRange(next);
    Success((0, range.start + range.duration - outOffset))
  }

  /** The leg start frames for the transition type the offsets select, or the
      exception Python raises while computing them. */
  function LegStarts(inOffset: int, outOffset: int, clipNum: int, track: seq<Item>,
                     playlist: seq<Element>): Result<(int, int)>
  {
    match TransitionTypeOf(inOffset, outOffset)
    case None => Failure(NameError)
    case Some(Dissolve) => DissolveStarts(inOffset, clipNum, track, playlist)
    case Some(FadeIn) => FadeInStarts(clipNum, track)
    case Some(FadeOut) => FadeOutStarts(outOffset, clipNum, track)
  }

  /** The compensation before a transition: a preceding non-blank element
      ends one frame before track A starts. */
  function TrimBeforeTransition(playlist: seq<Element>, clipNum: int, tractor: Element): (r: Result<seq<Element>>)
    ensures r.Success? ==> |r.value| == |playlist|
  {
    if clipNum == 0 then Success(playlist)
    else
      var prev :- PyAt(playlist, -1);
      if prev.tag == "blank" then Success(playlist)
      else
        var trackA :- PyAt(ChildrenTagged(tractor.children, "track"), 0);
        var aIn :- IntAttrOr(trackA, "in");
        Success(playlist[..|playlist| - 1] + [SetAttr(prev, "out", IntToString(aIn - 1))])
  }

  /** The `in` a clip's entry is moved to: right after an entry that plays
      a tractor, one frame after that tractor's track B ends; None when the
      entry keeps its source start. */
  function InAfterTransition(playlist: seq<Element>, clipNum: int, tractors: seq<Element>): Result<Option<int>> {
    if clipNum <= 0 then Success(None)
    else
      var prev :- PyAt(playlist, -1);
      if prev.tag == "blank" then Success(None)
      else if "producer" !in prev.attrs then Failure(KeyError)
      else if !Contains(prev.attrs["producer"], "tractor") then Success(None)
      else match FirstMatch(tractors, "id", prev.attrs["producer"])
        case None => Failure(AttributeError)
        case Some(k) =>
          var trackB :- PyAt(ChildrenTagged(tractors[k].children, "track"), -1);
          var bOut :- IntAttrOr(trackB, "out");
          Success(Some(bOut + 1))
  }

  /** An entry with its `in` moved to `newIn`, if one is given. */
  function Compensated(entry: Element, newIn: Option<int>): Element {
    match newIn
    case None => entry
    case Some(i) => SetAttr(entry, "in", IntToString(i))
  }

  /** The playlist once a transition's tractor `t` is added: the preceding
      element trimmed, then an entry copying the tractor's in/out. */
  function AfterTransition(playlist: seq<Element>, clipNum: int, t: Element): (r: Result<seq<Element>>)
    ensures r.Success? ==> |r.value| == |playlist| + 1
  {
    var trimmed :- TrimBeforeTransition(playlist, clipNum, t);
    if "id" !in t.attrs then Failure(KeyError)
    else
      var entry :- EntryForElement(t.attrs["id"], t);
      Success(trimmed + [entry])
  }

  /** The id of the producer a clip's entry refers to: the first producer
      titled like the clip, else the one about to be created. */
  function ClipProducerId(producers: seq<Element>, clip: Item): string
    requires ProducersNumbered(producers)
  {
    match FirstMatch(producers, "title", clip.name)
    case Some(i) => NumberedAt(producers, "producer", i); producers[i].attrs["id"]
    case None => "producer" + NatToString(|producers|)
  }

  /** `_producer_lookup(item)` on a producer list: the first producer titled
      like the item, or None. */
  function TitledLike(producers: seq<Element>, item: Item): Option<Element> {
    match FirstMatch(producers, "title", item.name)
    case Some(i) => Some(producers[i])
    case None => None
  }

  /** `_producer_lookup(item) or _create_producer(item)` on a producer list:
      the producer found or made and the list afterwards. None when the item
      has no producer titled like it and, not being a clip, cannot get one. */
  function LookupOrCreated(producers: seq<Element>, item: Item): Option<(Element, seq<Element>)> {
    match TitledLike(producers, item)
    case Some(p) => Some((p, producers))
    case None =>
      if item.Clip? then
        var p := ProducerElement("producer" + NatToString(|producers|), item);
        Some((p, producers + [p]))
      else None
  }

  /** The lookup-or-create step leaves the list as it was when a producer is
      titled like the item and otherwise appends exactly the new producer;
      either way the list stays numbered and the producer is in it, titled
      like the item, under the id `ClipProducerId` names. */
  lemma LookupOrCreatedAppendsOnce(producers: seq<Element>, item: Item)
    requires ProducersNumbered(producers)
    ensures LookupOrCreated(producers, item).Some? <==> TitledLike(producers, item).Some? || item.Clip?
    ensures LookupOrCreated(producers, item).Some? ==>
      var (p, after) := LookupOrCreated(producers, item).value;
      && (TitledLike(producers, item).Some? ==> after == producers)
      && (TitledLike(producers, item).None? ==> after == producers + [p] && Matches(p, "id", "producer" + NatToString(|producers|)))
      && ProducersNumbered(after) && IdIn(p, after) && Matches(p, "title", item.name)
      && Matches(p, "id", ClipProducerId(producers, item))
  {
    match FirstMatch(producers, "title", item.name)
    case Some(i) =>
      MemberIdIn(producers[i], producers, "producer");
      NumberedAt(producers, "producer", i);
    case None =>
      if item.Clip? {
        var p := ProducerElement("producer" + NatToString(|producers|), item);
        ProducerAppended(producers, p);
        MemberIdIn(p, producers + [p], "producer");
      }
  }

  /** The producers a transition tractor's legs play and the producer list
      once the branch of `_create_transition` has looked them up or made
      them. */
  datatype Picked = Picked(a: Option<Element>, b: Element, after: seq<Element>)

  /** What each branch of `_create_transition` picks, from the producer list
      before it; None when the next item is missing or gets no producer.
      - dissolve: A is the producer titled like the previous item, B the
        next item's, created if missing;
      - fade-in: B is a new transparent fill as long as the in-offset, then A
        is the producer titled like the previous item (looked up after the
        fill was added);
      - fade-out: B is the next item's producer, created if missing, then A
        is a new transparent fill as long as the out-offset. */
  function PickProducers(ttype: TransitionType, inOffset: int, outOffset: int, clipNum: nat,
                         track: seq<Item>, producers: seq<Element>): Option<Picked>
    requires clipNum < |track|
  {
    var prev := PyAt(track, clipNum - 1).value;
    match ttype
    case Dissolve =>
      if clipNum + 1 >= |track| then None
      else (match LookupOrCreated(producers, track[clipNum + 1])
        case None => None
        case Some((b, after)) => Some(Picked(TitledLike(producers, prev), b, after)))
    case FadeIn =>
      var b := ColorProducer("producer" + NatToString(|producers|), Transparent, inOffset);
      Some(Picked(TitledLike(producers + [b], prev), b, producers + [b]))
    case FadeOut =>
      if clipNum + 1 >= |track| then None
      else (match LookupOrCreated(producers, track[clipNum + 1])
        case None => None
        case Some((b, mid)) =>
          var a := ColorProducer("producer" + NatToString(|mid|), Transparent, outOffset);
          Some(Picked(Some(a), b, mid + [a])))
  }

  /** The producer list `p.after` grew from `producers`, stays numbered and
      holds both picked producers. */
  predicate PickedIn(producers: seq<Element>, p: Picked) {
    && producers <= p.after && ProducersNumbered(p.after)
    && IdIn(p.b, p.after) && (p.a.Some? ==> IdIn(p.a.value, p.after))
  }

  /** Whatever a branch picks is in the producer list afterwards, which
      only grew and stays numbered. A fade's fill is the transparent colour
      producer appended last, as long as the fade's offset. */
  lemma PickedRegistered(ttype: TransitionType, inOffset: int, outOffset: int, clipNum: nat,
                         track: seq<Item>, producers: seq<Element>)
    requires clipNum < |track| && ProducersNumbered(producers)
    requires PickProducers(ttype, inOffset, outOffset, clipNum, track, producers).Some?
    ensures var p := PickProducers(ttype, inOffset, outOffset, clipNum, track, producers).value;
      && PickedIn(producers, p)
      && (ttype == FadeIn ==>
            p.after == producers + [p.b]
            && p.b == ColorProducer("producer" + NatToString(|producers|), Transparent, inOffset))
      && (ttype == FadeOut ==>
            p.a.Some? && |p.after| > |producers| && p.after[|p.after| - 1] == p.a.value
            && p.a.value == ColorProducer("producer" + NatToString(|p.after| - 1), Transparent, outOffset))
  {
    match ttype {
      case Dissolve => DissolvePicked(inOffset, outOffset, clipNum, track, producers);
      case FadeIn => FadeInPicked(inOffset, outOffset, clipNum, track, producers);
      case FadeOut => FadeOutPicked(inOffset, outOffset, clipNum, track, producers);
    }
  }

  lemma DissolvePicked(inOffset: int, outOffset: int, clipNum: nat, track: seq<Item>, producers: seq<Element>)
    requires clipNum < |track| && ProducersNumbered(producers)
    requires PickProducers(Dissolve, inOffset, outOffset, clipNum, track, producers).Some?
    ensures PickedIn(producers, PickProducers(Dissolve, inOffset, outOffset, clipNum, track, producers).value)
  {
    LookupOrCreatedAppendsOnce(producers, track[clipNum + 1]);
    TitledLikeRegistered(producers, LookupOrCreated(producers, track[clipNum + 1]).value.1,
                         PyAt(track, clipNum - 1).value);
  }

  lemma FadeInPicked(inOffset: int, outOffset: int, clipNum: nat, track: seq<Item>, producers: seq<Element>)
    requires clipNum < |track| && ProducersNumbered(producers)
    ensures PickedIn(producers, PickProducers(FadeIn, inOffset, outOffset, clipNum, track, producers).value)
  {
    var b := ColorProducer("producer" + NatToString(|producers|), Transparent, inOffset);
    FillAppended(producers, b);
    TitledLikeRegistered(producers + [b], producers + [b], PyAt(track, clipNum - 1).value);
  }

  lemma FadeOutPicked(inOffset: int, outOffset: int, clipNum: nat, track: seq<Item>, producers: seq<Element>)
    requires clipNum < |track| && ProducersNumbered(producers)
    requires PickProducers(FadeOut, inOffset, outOffset, clipNum, track, producers).Some?
    ensures PickedIn(producers, PickProducers(FadeOut, inOffset, outOffset, clipNum, track, producers).value)
  {
    LookupOrCreatedAppendsOnce(producers, track[clipNum + 1]);
    var (b, mid) := LookupOrCreated(producers, track[clipNum + 1]).value;
    var a := ColorProducer("producer" + NatToString(|mid|), Transparent, outOffset);
    FillAppended(mid, a);
    IdInGrows(b, mid, mid + [a]);
  }

  /** A producer found by title is in every list the lookup's list grows into. */
  lemma TitledLikeRegistered(producers: seq<Element>, after: seq<Element>, item: Item)
    requires ProducersNumbered(producers) && producers <= after
    ensures TitledLike(producers, item).Some? ==> IdIn(TitledLike(producers, item).value, after)
  {
    match FirstMatch(producers, "title", item.name) {
      case Some(i) =>
        MemberIdIn(producers[i], producers, "producer");
        IdInGrows(producers[i], producers, after);
      case None =>
    }
  }

  /** Appending a colour fill named after the list's length keeps the list
      numbered and puts the fill in it. */
  lemma FillAppended(producers: seq<Element>, fill: Element)
    requires ProducersNumbered(producers) && fill.tag == "producer" && "title" in fill.attrs
    requires Matches(fill, "id", "producer" + NatToString(|producers|))
    ensures ProducersNumbered(producers + [fill]) && IdIn(fill, producers + [fill])
  {
    ProducerAppended(producers, fill);
    MemberIdIn(fill, producers + [fill], "producer");
  }

  /** The `track` element of the main tractor that plays a playlist. */
  function TrackRef(id: string): Element {
    Node("track", map["producer" := id])
  }

  /** One track element per playlist, the i-th referring to the i-th
      playlist's id. */
  predicate TracksReferTo(ts: seq<Element>, ps: seq<Element>)
    decreases |ts|
  {
    && |ts| == |ps|
    && (|ts| == 0 ||
        (TracksReferTo(ts[..|ts| - 1], ps[..|ps| - 1])
         && "id" in ps[|ps| - 1].attrs
         && ts[|ts| - 1] == TrackRef(ps[|ps| - 1].attrs["id"])))
  }

  /** Appending a playlist together with a track referring to it keeps the
      correspondence. */
  lemma TracksAppended(ts: seq<Element>, ps: seq<Element>, p: Element)
    requires TracksReferTo(ts, ps) && "id" in p.attrs
    ensures TracksReferTo(ts + [TrackRef(p.attrs["id"])], ps + [p])
  {
    assert (ts + [TrackRef(p.attrs["id"])])[..|ts|] == ts;
    assert (ps + [p])[..|ps|] == ps;
  }

  /** The i-th track element refers to the i-th playlist. */
  lemma {:induction false} TrackRefersAt(ts: seq<Element>, ps: seq<Element>, i: nat)
    requires TracksReferTo(ts, ps) && i < |ts|
    ensures "id" in ps[i].attrs && ts[i] == TrackRef(ps[i].attrs["id"])
    decreases |ts|
  {
    if i < |ts| - 1 {
      TrackRefersAt(ts[..|ts| - 1], ps[..|ps| - 1], i);
    }
  }

  /** The `track` elements referring to the playlists with these ids. */
  function TrackRefs(ids: seq<string>): seq<Element>
    decreases |ids|
  {
    if |ids| == 0 then [] else TrackRefs(ids[..|ids| - 1]) + [TrackRef(ids[|ids| - 1])]
  }

  /** The playlist id of the track at `tracknum`: its name, else `V{n}`. */
  function PlaylistId(track: Track, tracknum: nat): string {
    if track.name != "" then track.name else "V" + NatToString(tracknum + 1)
  }

  /** The ids of the playlists written for the tracks: one per track that is
      not an audio track, in track order. */
  function VideoPlaylistIds(ts: seq<Track>): seq<string>
    decreases |ts|
  {
    if |ts| == 0 then []
    else
      var last := |ts| - 1;
      VideoPlaylistIds(ts[..last]) + (if ts[last].kind == Audio then [] else [PlaylistId(ts[last], last)])
  }

  lemma ConcatAssoc<T>(a: seq<T>, b: seq<T>, c: seq<T>)
    ensures a + b + c == a + (b + c)
  {
  }

  /** The track elements for the first i + 1 tracks: those for the first i,
      then one for track i unless it is an audio track. */
  lemma TrackRefsStep(ts: seq<Track>, i: nat)
    requires i < |ts|
    ensures TrackRefs(VideoPlaylistIds(ts[..i + 1]))
            == TrackRefs(VideoPlaylistIds(ts[..i]))
               + (if ts[i].kind == Audio then [] else [TrackRef(PlaylistId(ts[i], i))])
  {
    assert ts[..i + 1][..i] == ts[..i];
    var ids := VideoPlaylistIds(ts[..i]);
    if ts[i].kind == Audio {
      assert VideoPlaylistIds(ts[..i + 1]) == ids;
    } else {
      var id := PlaylistId(ts[i], i);
      assert VideoPlaylistIds(ts[..i + 1]) == ids + [id];
      assert (ids + [id])[..|ids|] == ids;
    }
  }

  /** Audio tracks are skipped and every other track is written: an id is
      listed exactly when it belongs to some non-audio track. */
  lemma {:induction false} VideoPlaylistIdsExact(ts: seq<Track>)
    ensures |VideoPlaylistIds(ts)| <= |ts|
    ensures forall i :: 0 <= i < |ts| && ts[i].kind != Audio ==> PlaylistId(ts[i], i) in VideoPlaylistIds(ts)
    ensures forall id :: id in VideoPlaylistIds(ts) ==>
              exists i :: 0 <= i < |ts| && ts[i].kind != Audio && id == PlaylistId(ts[i], i)
    decreases |ts|
  {
    if |ts| > 0 {
      var front := ts[..|ts| - 1];
      VideoPlaylistIdsExact(front);
      assert forall i :: 0 <= i < |front| ==> front[i] == ts[i];
    }
  }

  /** The main tractor: `tractor{n}` holding one track per playlist. */
  function MainTractor(n: nat, tracks: seq<Element>): Element {
    Element("tractor", map["id" := "tractor" + NatToString(n)], tracks, None)
  }

  function PlaylistNamed(id: string, children: seq<Element>): Element {
    Element("playlist", map["id" := id], children, None)
  }

  /** The number of elements a track's items add to its playlist: one per
      clip, gap and transition, none for anything else. */
  function WrittenItems(items: seq<Item>): nat
    decreases |items|
  {
    if |items| == 0 then 0
    else WrittenItems(items[..|items| - 1]) + (if items[|items| - 1].Other? then 0 else 1)
  }

  // ---------------------------------------------------------------------
  // Transition compensation

  /** Adding a transition's tractor keeps the playlist's length and appends
      an entry over the tractor's [0, in + out - 1]; a preceding non-blank
      element is made to end one frame before track A starts, which is at
      A's start frame, and anything else is left alone. */
  lemma TransitionTrimsPrevious(playlist: seq<Element>, clipNum: int, tractorId: string,
                                transitionId: string, producerA: string, aIn: int,
                                producerB: string, bIn: int, inOffset: int, outOffset: int)
    requires clipNum == 0 || |playlist| > 0
    ensures var t := TransitionTractor(tractorId, transitionId, producerA, aIn, producerB, bIn,
                                       inOffset, outOffset);
      var r := AfterTransition(playlist, clipNum, t);
      var n := |playlist|;
      && r.Success? && |r.value| == n + 1
      && IntAttr(t.children[0], "in") == Some(aIn + 1)
      && Matches(r.value[n], "producer", tractorId)
      && IntAttr(r.value[n], "in") == Some(0) && IntAttr(r.value[n], "out") == Some(inOffset + outOffset - 1)
      && (if clipNum != 0 && playlist[n - 1].tag != "blank"
          then r.value[..n] == playlist[..n - 1] + [SetAttr(playlist[n - 1], "out", IntToString(aIn))]
          else r.value[..n] == playlist)
  {
    var t := TransitionTractor(tractorId, transitionId, producerA, aIn, producerB, bIn,
                               inOffset, outOffset);
    TransitionTractorSpan(tractorId, transitionId, producerA, aIn, producerB, bIn, inOffset, outOffset);
    TransitionTractorLegs(tractorId, transitionId, producerA, aIn, producerB, bIn, inOffset, outOffset);
    TransitionTractorLayout(tractorId, transitionId, producerA, aIn, producerB, bIn, inOffset, outOffset);
    var trimmed := TrimBeforeTransition(playlist, clipNum, t).value;
    var entry := EntryForElement(tractorId, t).value;
    assert (trimmed + [entry])[..|playlist|] == trimmed;
  }

  /** What the compensation after a transition reads of its tractor: the
      id, numeric in/out points, and a first `track` with a numeric `in`. */
  predicate Compensable(t: Element) {
    && "id" in t.attrs && IntAttr(t, "in").Some? && IntAttr(t, "out").Some?
    && |ChildrenTagged(t.children, "track")| > 0
    && IntAttr(ChildrenTagged(t.children, "track")[0], "in").Some?
  }

  /** Every transition tractor can be compensated for. */
  lemma TransitionTractorCompensable(tractorId: string, transitionId: string, producerA: string,
                                     aIn: int, producerB: string, bIn: int,
                                     inOffset: int, outOffset: int)
    ensures Compensable(TransitionTractor(tractorId, transitionId, producerA, aIn, producerB, bIn,
                                          inOffset, outOffset))
  {
    TransitionTractorSpan(tractorId, transitionId, producerA, aIn, producerB, bIn, inOffset, outOffset);
    TransitionTractorLegs(tractorId, transitionId, producerA, aIn, producerB, bIn, inOffset, outOffset);
    TransitionTractorLayout(tractorId, transitionId, producerA, aIn, producerB, bIn, inOffset, outOffset);
  }

  /** A dissolve after an entry (one element written per item before it)
      makes that entry end in-offset frames earlier than it did. */
  lemma DissolveShortensPrevious(playlist: seq<Element>, clipNum: nat, track: seq<Item>,
                                 inOffset: int, outOffset: int, tractorId: string,
                                 transitionId: string, producerA: string, producerB: string)
    requires TransitionTypeOf(inOffset, outOffset) == Some(Dissolve)
    requires clipNum > 0 && |playlist| == clipNum && playlist[clipNum - 1].tag != "blank"
    requires LegStarts(inOffset, outOffset, clipNum, track, playlist).Success?
    ensures var starts := LegStarts(inOffset, outOffset, clipNum, track, playlist).value;
      var t := TransitionTractor(tractorId, transitionId, producerA, starts.0, producerB, starts.1,
                                 inOffset, outOffset);
      var r := AfterTransition(playlist, clipNum, t);
      && r.Success? && IntAttr(playlist[clipNum - 1], "out").Some?
      && IntAttr(r.value[clipNum - 1], "out") == Some(IntAttr(playlist[clipNum - 1], "out").value - inOffset)
  {
    var starts := LegStarts(inOffset, outOffset, clipNum, track, playlist).value;
    TransitionTrimsPrevious(playlist, clipNum, tractorId, transitionId, producerA, starts.0,
                            producerB, starts.1, inOffset, outOffset);
    IntToStringParses(starts.0);
  }

  /** A clip right after a transition's entry starts one frame after the
      tractor's track B ends: at leg B's start frame plus the out-offset. */
  lemma ClipAfterTransition(playlist: seq<Element>, clipNum: int, tractors: seq<Element>, k: nat,
                            transitionId: string, producerA: string, aIn: int,
                            producerB: string, bIn: int, inOffset: int, outOffset: int)
    requires TractorsNumbered(tractors) && k < |tractors| && clipNum > 0
    requires tractors[k] == TransitionTractor("tractor" + NatToString(k), transitionId,
                                              producerA, aIn, producerB, bIn, inOffset, outOffset)
    requires |playlist| > 0
    requires EntryForElement("tractor" + NatToString(k), tractors[k]) == Success(playlist[|playlist| - 1])
    ensures InAfterTransition(playlist, clipNum, tractors) == Success(Some(bIn + outOffset))
  {
    var id := "tractor" + NatToString(k);
    var t := tractors[k];
    TransitionTractorLegs(id, transitionId, producerA, aIn, producerB, bIn, inOffset, outOffset);
    TransitionTractorLayout(id, transitionId, producerA, aIn, producerB, bIn, inOffset, outOffset);
    NumberedLookup(tractors, "tractor", k);
    TractorIdMentionsTractor(k);
    var prev := playlist[|playlist| - 1];
    assert prev.tag == "entry" && prev.attrs["producer"] == id;
    assert PyAt(ChildrenTagged(t.children, "track"), -1) == Success(t.children[1]);
  }

  /** `'tractor' in 'tractor{k}'`. */
  lemma TractorIdMentionsTractor(k: nat)
    ensures Contains("tractor" + NatToString(k), "tractor")
  {
    var id := "tractor" + NatToString(k);
    assert id[..|"tractor"|] == "tractor";
  }

  // ---------------------------------------------------------------------
  // The read path: `_add_clip` as the inverse of `_create_entry` and
  // `_create_producer`

  /** The clip `_add_clip` reconstructs from an entry: the producer's title,
      the entry's range, the producer's range and the media path. */
  datatype ClipRecord = ClipRecord(name: Option<string>, sourceRange: Range,
                                   availableRange: Range, targetUrl: Option<string>)

  /** `_get_producer`: the first producer with that id; a producer without
      an id raises KeyError when the search reaches it. */
  function GetProducer(producers: seq<Element>, id: string): (r: Result<Option<Element>>)
    ensures r.Success? && r.value.Some? ==> r.value.value in producers
    decreases |producers|
  {
    if |producers| == 0 then Success(None)
    else if "id" !in producers[0].attrs then Failure(KeyError)
    else if producers[0].attrs["id"] == id then Success(Some(producers[0]))
    else GetProducer(producers[1..], id)
  }

  /** `_get_media_path`: the text of the first child named `resource`; a
      child without a name raises KeyError. */
  function MediaPath(children: seq<Element>): Result<Option<string>>
    decreases |children|
  {
    if |children| == 0 then Success(None)
    else if "name" !in children[0].attrs then Failure(KeyError)
    else if children[0].attrs["name"] == "resource" then Success(children[0].text)
    else MediaPath(children[1..])
  }

  /** A range read back from in/out points: `duration = out - in + 1`. */
  function RangeOf(first: int, last: int): (r: Range)
    ensures r.start == first && r.start + r.duration - 1 == last
  {
    Range(first, last - first + 1)
  }

  /** `_add_clip`: the clip an `entry` element describes. */
  function ReadClip(entry: Element, producers: seq<Element>): Result<ClipRecord> {
    var first :- IntAttrOr(entry, "in");
    var last :- IntAttrOr(entry, "out");
    if "producer" !in entry.attrs then Failure(KeyError)
    else
      var found :- GetProducer(producers, entry.attrs["producer"]);
      match found
      case None => Failure(AttributeError)  // `producer_e.attrib` on None
      case Some(p) =>
        var pFirst :- IntAttrOr(p, "in");
        var pLast :- IntAttrOr(p, "out");
        var url :- MediaPath(p.children);
        Success(ClipRecord(if "title" in p.attrs then Some(p.attrs["title"]) else None,
                           RangeOf(first, last), RangeOf(pFirst, pLast), url))
  }

  /** The search finds element k when no element before it lacks an id or
      has the one sought. */
  lemma {:induction false} GetProducerFinds(producers: seq<Element>, id: string, k: nat)
    requires k < |producers| && Matches(producers[k], "id", id)
    requires forall j :: 0 <= j < k ==> "id" in producers[j].attrs && producers[j].attrs["id"] != id
    ensures GetProducer(producers, id) == Success(Some(producers[k]))
    decreases k
  {
    if k > 0 {
      GetProducerFinds(producers[1..], id, k - 1);
    }
  }

  /** Reading back a clip's entry finds the clip's producer by id and gives
      back the clip's name, source range and producer range; the media path
      is the producer's resource. */
  lemma ReadBackClip(producers: seq<Element>, k: nat, clip: Item)
    requires clip.Clip? && ProducersNumbered(producers) && k < |producers|
    requires producers[k] == ProducerElement("producer" + NatToString(k), clip)
    ensures var r := ReadClip(EntryForItem("producer" + NatToString(k), clip).value, producers);
      && r.Success?
      && r.value.name == Some(clip.name)
      && r.value.sourceRange == clip.sourceRange
      && r.value.availableRange == ProducerRange(clip)
      && r.value.targetUrl == PropertyText(producers[k], "resource")
  {
    var id := "producer" + NatToString(k);
    NumberedGetProducer(producers, "producer", k);
    ProducerElementResource(id, clip);
    var p := producers[k];
    assert MediaPath(p.children) == Success(p.children[0].text);
  }

  /** In a numbered list the search for `{prefix}{k}` finds element k. */
  lemma NumberedGetProducer(es: seq<Element>, prefix: string, k: nat)
    requires Numbered(es, prefix) && k < |es|
    ensures GetProducer(es, prefix + NatToString(k)) == Success(Some(es[k]))
  {
    var id := prefix + NatToString(k);
    NumberedAt(es, prefix, k);
    NumberedIdsDistinct(es, prefix);
    forall j | 0 <= j < k
      ensures "id" in es[j].attrs && es[j].attrs["id"] != id
    {
      NumberedAt(es, prefix, j);
    }
    GetProducerFinds(es, id, k);
  }

  /** For a clip on a plain external file without a time effect the read-back
      is exact: the media path is the target URL itself. */
  lemma ReadBackPlainClip(producers: seq<Element>, k: nat, clip: Item)
    requires clip.Clip? && ProducersNumbered(producers) && k < |producers|
    requires producers[k] == ProducerElement("producer" + NatToString(k), clip)
    requires clip.media.ExternalReference? && !Contains(clip.media.targetUrl, "localhost")
    requires FirstTimeEffect(clip.effects).None?
    ensures ReadClip(EntryForItem("producer" + NatToString(k), clip).value, producers)
            == Success(ClipRecord(Some(clip.name), clip.sourceRange, clip.availableRange,
                                  Some(clip.media.targetUrl)))
  {
    ReadBackClip(producers, k, clip);
  }

  // ---------------------------------------------------------------------
  // The writer and its holders

  class Writer {
    var producers: seq<Element>
    var playlists: seq<Element>
    var tracks: seq<Element>
    var tractors: seq<Element>
    var transitions: seq<Element>

    ghost predicate Valid()
      reads this`producers, this`tractors
    {
      ProducersNumbered(producers) && TractorsNumbered(tractors)
    }

    /** Empty holders, as at module import. */
    constructor ()
      ensures Valid()
      ensures producers == [] && playlists == [] && tracks == []
      ensures tractors == [] && transitions == []
    {
      producers, playlists, tracks, tractors, transitions := [], [], [], [], [];
    }

    /** `_producer_lookup`: the first producer whose title is the object's
        name, or whose id is the text; the holders are left alone. */
    method ProducerLookup(arg: LookupArg) returns (r: Option<Element>)
      ensures r.Some? <==> FirstMatch(producers, LookupKey(arg), LookupValue(arg)).Some?
      ensures r.Some? ==> r.value == producers[FirstMatch(producers, LookupKey(arg), LookupValue(arg)).value]
      ensures r.Some? ==> r.value in producers
    {
      r := LinearSearch(producers, LookupKey(arg), LookupValue(arg));
    }

    /** `_get_tractor`: the first transition tractor with that id. */
    method GetTractor(id: string) returns (r: Option<Element>)
      ensures r.Some? <==> FirstMatch(tractors, "id", id).Some?
      ensures r.Some? ==> r.value == tractors[FirstMatch(tractors, "id", id).value]
    {
      r := LinearSearch(tractors, "id", id);
    }

    /** `_create_producer`: a clip gets a new producer `producer{n}`, n being
        the number of producers so far, appended exactly once. Anything but a
        clip has no media reference and raises. */
    method CreateProducer(item: Item) returns (r: Result<Element>)
      requires Valid()
      modifies this`producers
      ensures Valid()
      ensures r.Success? <==> item.Clip?
      ensures r.Success? ==> r.value == ProducerElement("producer" + NatToString(|old(producers)|), item)
      ensures producers == if r.Success? then old(producers) + [r.value] else old(producers)
    {
      if !item.Clip? {
        return Failure(AttributeError);
      }
      var id := "producer" + NatToString(|producers|);
      if item.media.ExternalReference? {
        var existing := ProducerLookup(Plain(id));
        NextIdIsFree(producers, "producer");
        if existing.Some? {
          // `return producer_e`: never taken, the id is not yet in use
          assert false;
        }
      }
      var p := ProducerElement(id, item);
      ProducerAppended(producers, p);
      producers := producers + [p];
      r := Success(p);
    }

    /** `_producer_lookup(item) or _create_producer(item)`: the producer
        titled like the item if there is one, else a new one for it. */
    method LookupOrCreate(item: Item) returns (r: Result<Element>)
      requires Valid()
      modifies this`producers
      ensures Valid()
      ensures old(producers) <= producers
      ensures r.Success? <==> LookupOrCreated(old(producers), item).Some?
      ensures r.Success? ==> LookupOrCreated(old(producers), item) == Some((r.value, producers))
      ensures r.Failure? ==> producers == old(producers)
      ensures TitledLike(old(producers), item).Some? ==> producers == old(producers)
      ensures TitledLike(old(producers), item).None? && item.Clip? ==>
        producers == old(producers) + [ProducerElement("producer" + NatToString(|old(producers)|), item)]
      ensures r.Success? ==> IdIn(r.value, producers)
      ensures r.Success? ==> r.value.attrs["id"] == ClipProducerId(old(producers), item)
    {
      LookupOrCreatedAppendsOnce(producers, item);
      var found := ProducerLookup(Object(item));
      if found.Some? {
        return Success(found.value);
      }
      r := CreateProducer(item);
    }

    /** `_create_color_producer`: its lookup of the id `producer` never hits,
        so every call appends a new colour producer spanning [0, length - 1]. */
    method CreateColorProducer(color: string, length: int) returns (p: Element)
      requires Valid()
      modifies this`producers
      ensures Valid()
      ensures p == ColorProducer("producer" + NatToString(|old(producers)|), color, length)
      ensures producers == old(producers) + [p]
    {
      var found := ProducerLookup(Plain("producer"));
      BareIdIsFree(producers, "producer");
      if found.Some? {
        // `if black_e: return black_e`: never taken
        assert false;
      }
      p := ColorProducer("producer" + NatToString(|producers|), color, length);
      ProducerAppended(producers, p);
      producers := producers + [p];
    }

    /** The common contract of the three leg choosers below: the legs start
        where `starts` says and play the producers `picked` names, which
        the producer list now holds. */
    ghost predicate LegsChosen(starts: Result<(int, int)>, picked: Option<Picked>, r: Result<LegChoice>)
      reads this`producers
    {
      && (starts.Failure? ==> r == Failure(starts.error))
      && (r.Success? <==> starts.Success? && picked.Some?)
      && (r.Success? ==>
        && starts == Success((r.value.aIn, r.value.bIn))
        && picked == Some(Picked(r.value.a, r.value.b, producers))
        && (r.value.a.Some? ==> IdIn(r.value.a.value, producers))
        && IdIn(r.value.b, producers))
    }

    /** The dissolve branch of `_create_transition`: leg A is the previous
        item's producer from its entry's out minus the in-offset, leg B the next
        item's producer, created if missing, from its source start. */
    method DissolveLegs(inOffset: int, outOffset: int, clipNum: nat, track: seq<Item>,
                        playlist: seq<Element>) returns (r: Result<LegChoice>)
      requires Valid() && clipNum < |track|
      modifies this`producers
      ensures Valid()
      ensures old(producers) <= producers
      ensures LegsChosen(DissolveStarts(inOffset, clipNum, track, playlist),
                         PickProducers(Dissolve, inOffset, outOffset, clipNum, track, old(producers)), r)
    {
      // the transition itself is in the track, so `track[clip_num - 1]` exists
      var prev := PyAt(track, clipNum - 1).value;
      var pa := ProducerLookup(Object(prev));
      // Every exception of the frame reads comes before any producer is
      // created: a next item that is neither clip nor gap makes the lookup or
      // creation fail just as its `source_range` would.
      var starts :- DissolveStarts(inOffset, clipNum, track, playlist);
      var next := PyAt(track, clipNum + 1).value;
      assert next == track[clipNum + 1];
      ghost var start := producers;
      var pb :- LookupOrCreate(next);
      assert PickProducers(Dissolve, inOffset, outOffset, clipNum, track, start) == Some(Picked(pa, pb, producers));
      DissolvePicked(inOffset, outOffset, clipNum, track, start);
      r := Success(LegChoice(pa, starts.0, pb, starts.1));
    }

    /** The fade-in branch: leg B is a new transparent fill as long as the
        in-offset, played from 0; leg A the previous item's producer from its
        source start. */
    method FadeInLegs(inOffset: int, outOffset: int, clipNum: nat, track: seq<Item>,
                      playlist: seq<Element>) returns (r: Result<LegChoice>)
      requires Valid() && clipNum < |track|
      modifies this`producers
      ensures Valid()
      ensures old(producers) <= producers
      ensures LegsChosen(FadeInStarts(clipNum, track),
                         PickProducers(FadeIn, inOffset, outOffset, clipNum, track, old(producers)), r)
      ensures var fill := ColorProducer("producer" + NatToString(|old(producers)|), Transparent, inOffset);
        producers == old(producers) + [fill] && (r.Success? ==> r.value.b == fill)
    {
      var pb := CreateColorProducer(Transparent, inOffset);
      MemberIdIn(pb, producers, "producer");
      var prev := PyAt(track, clipNum - 1).value;
      var pa := ProducerLookup(Object(prev));
      if pa.Some? {
        MemberIdIn(pa.value, producers, "producer");
      }
      var starts :- FadeInStarts(clipNum, track);
      r := Success(LegChoice(pa, starts.0, pb, starts.1));
    }

    /** The fade-out branch: leg B is the next item's producer, created if
        missing, from out-offset frames before its end; leg A a new transparent
        fill as long as the out-offset, played from 0. */
    method FadeOutLegs(inOffset: int, outOffset: int, clipNum: nat, track: seq<Item>,
                       playlist: seq<Element>) returns (r: Result<LegChoice>)
      requires Valid() && clipNum < |track|
      modifies this`producers
      ensures Valid()
      ensures old(producers) <= producers
      ensures LegsChosen(FadeOutStarts(outOffset, clipNum, track),
                         PickProducers(FadeOut, inOffset, outOffset, clipNum, track, old(producers)), r)
    {
      var starts :- FadeOutStarts(outOffset, clipNum, track);
      var next := PyAt(track, clipNum + 1).value;
      assert next == track[clipNum + 1];
      ghost var start := producers;
      var pb :- LookupOrCreate(next);
      ghost var mid := producers;
      var pa := CreateColorProducer(Transparent, outOffset);
      assert PickProducers(FadeOut, inOffset, outOffset, clipNum, track, start) == Some(Picked(Some(pa), pb, producers));
      FadeOutPicked(inOffset, outOffset, clipNum, track, start);
      r := Success(LegChoice(Some(pa), starts.0, pb, starts.1));
    }

    /** The branch of `_create_transition` the transition type selects. */
    method ChooseLegs(inOffset: int, outOffset: int, clipNum: nat, track: seq<Item>,
                      playlist: seq<Element>) returns (r: Result<LegChoice>)
      requires Valid() && clipNum < |track| && TransitionTypeOf(inOffset, outOffset).Some?
      modifies this`producers
      ensures Valid()
      ensures old(producers) <= producers
      ensures LegsChosen(LegStarts(inOffset, outOffset, clipNum, track, playlist),
                         PickProducers(TransitionTypeOf(inOffset, outOffset).value, inOffset, outOffset,
                                       clipNum, track, old(producers)), r)
    {
      match TransitionTypeOf(inOffset, outOffset).value {
        case Dissolve => r := DissolveLegs(inOffset, outOffset, clipNum, track, playlist);
        case FadeIn => r := FadeInLegs(inOffset, outOffset, clipNum, track, playlist);
        case FadeOut => r := FadeOutLegs(inOffset, outOffset, clipNum, track, playlist);
      }
    }

    /** The end of `_create_transition`: the tractor `tractor{n}`, n being
        the number of tractors so far, is built from the chosen legs and
        appended to the tractors. */
    method AddTransitionTractor(pa: string, aIn: int, pb: string, bIn: int,
                                inOffset: int, outOffset: int) returns (t: Element)
      requires Valid()
      modifies this`tractors
      ensures Valid()
      ensures tractors == old(tractors) + [t]
      ensures Compensable(t)
      ensures t == TransitionTractor("tractor" + NatToString(|old(tractors)|),
                                           "transition" + NatToString(|transitions|),
                                           pa, aIn, pb, bIn, inOffset, outOffset)
    {
      t := TransitionTractor("tractor" + NatToString(|tractors|),
                             "transition" + NatToString(|transitions|),
                             pa, aIn, pb, bIn, inOffset, outOffset);
      TransitionTractorCompensable("tractor" + NatToString(|tractors|),
                                   "transition" + NatToString(|transitions|),
                                   pa, aIn, pb, bIn, inOffset, outOffset);
      TractorAppended(tractors, t);
      tractors := tractors + [t];
    }

    /** `_create_transition`: a tractor `tractor{n}` over [0, in + out - 1],
        n being the number of tractors so far, whose legs come from the
        branch the transition type selects. */
    method CreateTransition(inOffset: int, outOffset: int, clipNum: nat, track: seq<Item>,
                            playlist: seq<Element>) returns (r: Result<Element>)
      requires Valid() && clipNum < |track|
      modifies this`producers, this`tractors
      ensures Valid()
      ensures old(producers) <= producers
      ensures TransitionTypeOf(inOffset, outOffset).None? ==> producers == old(producers)
      ensures LegStarts(inOffset, outOffset, clipNum, track, playlist).Failure? ==>
                r == Failure(LegStarts(inOffset, outOffset, clipNum, track, playlist).error)
      ensures tractors == old(tractors) + if r.Success? then [r.value] else []
      ensures r.Success? ==>
        var legs := LegStarts(inOffset, outOffset, clipNum, track, playlist);
        && legs.Success? && IsTransitionTractor(r.value) && Compensable(r.value)
        && HasId(producers, LegProducer(r.value, 0)) && HasId(producers, LegProducer(r.value, 1))
        && r.value == TransitionTractor("tractor" + NatToString(|old(tractors)|),
                                        "transition" + NatToString(|transitions|),
                                        LegProducer(r.value, 0), legs.value.0,
                                        LegProducer(r.value, 1), legs.value.1, inOffset, outOffset)
      ensures r.Success? <==>
        && TransitionTypeOf(inOffset, outOffset).Some?
        && LegStarts(inOffset, outOffset, clipNum, track, playlist).Success?
        && var picked := PickProducers(TransitionTypeOf(inOffset, outOffset).value, inOffset, outOffset,
                                       clipNum, track, old(producers));
           picked.Some? && picked.value.a.Some?
      ensures r.Success? ==>
        && TransitionTypeOf(inOffset, outOffset).Some?
        && var picked := PickProducers(TransitionTypeOf(inOffset, outOffset).value, inOffset, outOffset,
                                       clipNum, track, old(producers));
        && picked.Some? && picked.value.a.Some? && producers == picked.value.after
        && Matches(picked.value.a.value, "id", LegProducer(r.value, 0))
        && Matches(picked.value.b, "id", LegProducer(r.value, 1))
    {
      var ttype := TransitionTypeOf(inOffset, outOffset);
      if ttype.None? {
        // `producer_a` is read before any branch assigned it
        return Failure(NameError);
      }
      var legs :- ChooseLegs(inOffset, outOffset, clipNum, track, playlist);
      if legs.a.None? {
        // `producer_a.attrib` on None
        return Failure(AttributeError);
      }
      var t := AddTransitionTractor(legs.a.value.attrs["id"], legs.aIn, legs.b.attrs["id"], legs.bIn,
                                    inOffset, outOffset);
      r := Success(t);
    }

    /** `_create_background_track`: a black colour producer over the whole
        timeline, played by a one-entry playlist `background` spanning
        [0, length - 1], and a track referring to that playlist. */
    method CreateBackgroundTrack(length: int)
      requires Valid() && TracksReferTo(tracks, playlists)
      modifies this`producers, this`playlists, this`tracks
      ensures Valid() && TracksReferTo(tracks, playlists)
      ensures producers == old(producers) + [ColorProducer("producer" + NatToString(|old(producers)|), Black, length)]
      ensures tracks == old(tracks) + [TrackRef("background")]
      ensures old(playlists) <= playlists && |playlists| == |old(playlists)| + 1
      ensures var bg := playlists[|old(playlists)|];
        && bg.tag == "playlist" && Matches(bg, "id", "background") && |bg.children| == 1
        && bg.children[0].tag == "entry"
        && Matches(bg.children[0], "producer", "producer" + NatToString(|old(producers)|))
        && IntAttr(bg.children[0], "in") == Some(0) && IntAttr(bg.children[0], "out") == Some(length - 1)
    {
      var bg := CreateColorProducer(Black, length);
      var playlist := PlaylistNamed("background", [EntryForElement(bg.attrs["id"], bg).value]);
      TracksAppended(tracks, playlists, playlist);
      playlists := playlists + [playlist];
      tracks := tracks + [TrackRef(playlist.attrs["id"])];
    }

    /** The compensation of a clip's entry in `write_to_string`: right after
        an element playing a tractor, the clip starts one frame after that
        tractor's track B ends. */
    method ClipIn(playlist: seq<Element>, clipNum: nat) returns (r: Result<Option<int>>)
      ensures r == InAfterTransition(playlist, clipNum, tractors)
    {
      if clipNum == 0 {
        return Success(None);
      }
      var prev :- PyAt(playlist, -1);
      if prev.tag == "blank" {
        return Success(None);
      }
      if "producer" !in prev.attrs {
        return Failure(KeyError);
      }
      if !Contains(prev.attrs["producer"], "tractor") {
        return Success(None);
      }
      var trans := GetTractor(prev.attrs["producer"]);
      if trans.None? {
        // `trans_e.findall` on None
        return Failure(AttributeError);
      }
      var trackB :- PyAt(ChildrenTagged(trans.value.children, "track"), -1);
      var bOut :- IntAttrOr(trackB, "out");
      r := Success(Some(bOut + 1));
    }

    /** The clip branch of `write_to_string`: an entry over the clip's source
        range on the producer titled like the clip (created if missing),
        whose `in` is moved right after a transition's entry. The producers
        are as the lookup-or-create step leaves them. */
    method AddClip(playlist: seq<Element>, clipNum: nat, clip: Item) returns (r: Result<seq<Element>>)
      requires Valid() && clip.Clip?
      modifies this`producers
      ensures Valid()
      ensures producers == LookupOrCreated(old(producers), clip).value.1
      ensures var newIn := InAfterTransition(playlist, clipNum, tractors);
        && (newIn.Failure? ==> r == Failure(newIn.error))
        && (newIn.Success? ==>
              r == Success(playlist + [Compensated(EntryForItem(ClipProducerId(old(producers), clip), clip).value,
                                                   newIn.value)]))
    {
      var found := LookupOrCreate(clip);
      var producer := found.value;
      var entry := EntryForItem(producer.attrs["id"], clip).value;
      var newIn :- ClipIn(playlist, clipNum);
      r := Success(playlist + [Compensated(entry, newIn)]);
    }

    /** The compensation after `_create_transition` in `write_to_string`:
        the preceding non-blank element is trimmed to end one frame before
        track A starts, and an entry copying the tractor's in/out follows. */
    method CompensateTransition(playlist: seq<Element>, clipNum: nat, t: Element)
        returns (r: Result<seq<Element>>)
      requires Compensable(t)
      ensures r == AfterTransition(playlist, clipNum, t)
    {
      var pl := playlist;
      if clipNum != 0 {
        var prev :- PyAt(pl, -1);
        if prev.tag != "blank" {
          var trackA := ChildrenTagged(t.children, "track")[0];
          var aIn := IntAttrOr(trackA, "in").value;
          pl := pl[..|pl| - 1] + [SetAttr(prev, "out", IntToString(aIn - 1))];
        }
      }
      var entry := EntryForElement(t.attrs["id"], t).value;
      r := Success(pl + [entry]);
    }

    /** The transition branch of `write_to_string`: the tractor
        `_create_transition` builds joins the transitions and the playlist is
        compensated for it. */
    method AddTransition(playlist: seq<Element>, clipNum: nat, track: seq<Item>,
                         inOffset: int, outOffset: int) returns (r: Result<seq<Element>>)
      requires Valid() && clipNum < |track|
      modifies this`producers, this`tractors, this`transitions
      ensures Valid()
      ensures LegStarts(inOffset, outOffset, clipNum, track, playlist).Failure? ==> r.Failure?
      ensures r.Success? ==>
        var starts := LegStarts(inOffset, outOffset, clipNum, track, playlist);
        && |tractors| == |old(tractors)| + 1 && starts.Success?
        && var t := tractors[|old(tractors)|];
        && tractors == old(tractors) + [t]
        && transitions == old(transitions) + [t]
        && IsTransitionTractor(t)
        && t == TransitionTractor("tractor" + NatToString(|old(tractors)|),
                                  "transition" + NatToString(|old(transitions)|),
                                  LegProducer(t, 0), starts.value.0,
                                  LegProducer(t, 1), starts.value.1, inOffset, outOffset)
        && r == AfterTransition(playlist, clipNum, t)
    {
      var t :- CreateTransition(inOffset, outOffset, clipNum, track, playlist);
      r := CompensateTransition(playlist, clipNum, t);
      if r.Success? {
        transitions := transitions + [t];
      }
    }

    /** One item of a track, as the `if`/`elif` chain of `write_to_string`
        dispatches it: a clip, gap or transition adds one element to the
        playlist (a clip its compensated entry, a gap its blank, a transition
        the entry of its new tractor after trimming the element before it);
        anything else adds nothing and changes nothing. */
    method AddItem(playlist: seq<Element>, clipNum: nat, items: seq<Item>) returns (r: Result<seq<Element>>)
      requires Valid() && transitions == tractors && clipNum < |items|
      modifies this`producers, this`tractors, this`transitions
      ensures Valid() && (r.Success? ==> transitions == tractors)
      ensures r.Success? ==> |r.value| == |playlist| + (if items[clipNum].Other? then 0 else 1)
      ensures !items[clipNum].Transition? ==> tractors == old(tractors) && transitions == old(transitions)
      ensures items[clipNum].Clip? ==>
        var newIn := InAfterTransition(playlist, clipNum, tractors);
        && producers == LookupOrCreated(old(producers), items[clipNum]).value.1
        && (newIn.Failure? ==> r == Failure(newIn.error))
        && (newIn.Success? ==>
              r == Success(playlist + [Compensated(EntryForItem(ClipProducerId(old(producers), items[clipNum]),
                                                                items[clipNum]).value, newIn.value)]))
      ensures items[clipNum].Gap? ==> r == Success(playlist + [CreateBlank(items[clipNum])]) && producers == old(producers)
      ensures items[clipNum].Other? ==> r == Success(playlist) && producers == old(producers)
      ensures items[clipNum].Transition? && r.Success? ==>
        |tractors| == |old(tractors)| + 1 && r == AfterTransition(playlist, clipNum, tractors[|old(tractors)|])
    {
      var item := items[clipNum];
      match item {
        case Clip(_, _, _, _, _) =>
          r := AddClip(playlist, clipNum, item);
        case Gap(_, _) =>
          r := Success(playlist + [CreateBlank(item)]);
        case Transition(_, inOffset, outOffset) =>
          r := AddTransition(playlist, clipNum, items, inOffset, outOffset);
        case Other(_) =>
          r := Success(playlist);
      }
    }

    /** The inner loop of `write_to_string`: each clip, gap and transition of
        a track adds one element to its playlist, in order; anything else
        adds nothing. Every tractor made joins the transitions. */
    method AssemblePlaylist(items: seq<Item>) returns (r: Result<seq<Element>>)
      requires Valid() && transitions == tractors
      modifies this`producers, this`tractors, this`transitions
      ensures Valid() && (r.Success? ==> transitions == tractors)
      ensures r.Success? ==> |r.value| == WrittenItems(items)
    {
      var playlist: seq<Element> := [];
      var clipNum := 0;
      while clipNum < |items|
        invariant 0 <= clipNum <= |items|
        invariant Valid() && transitions == tractors
        invariant |playlist| == WrittenItems(items[..clipNum])
      {
        assert items[..clipNum + 1][..clipNum] == items[..clipNum];
        playlist :- AddItem(playlist, clipNum, items);
        clipNum := clipNum + 1;
      }
      assert items[..clipNum] == items;
      r := Success(playlist);
    }

    /** One pass of the track loop of `write_to_string`: an audio track is
        skipped; any other gets a playlist named after it and a track
        referring to that playlist. */
    method AddTrack(track: Track, tracknum: nat) returns (r: Result<()>)
      requires Valid() && transitions == tractors && TracksReferTo(tracks, playlists)
      modifies this`producers, this`tractors, this`transitions, this`playlists, this`tracks
      ensures Valid() && (r.Success? ==> transitions == tractors && TracksReferTo(tracks, playlists))
      ensures r.Success? ==>
        tracks == old(tracks) + (if track.kind == Audio then [] else [TrackRef(PlaylistId(track, tracknum))])
    {
      if track.kind == Audio {
        return Success(());
      }
      var id := PlaylistId(track, tracknum);
      var children :- AssemblePlaylist(track.items);
      var playlist := PlaylistNamed(id, children);
      TracksAppended(tracks, playlists, playlist);
      playlists := playlists + [playlist];
      tracks := tracks + [TrackRef(id)];
      r := Success(());
    }

    /** The track loop of `write_to_string`: one playlist and one track per
        non-audio track, in order. */
    method AddTracks(ts: seq<Track>) returns (r: Result<()>)
      requires Valid() && transitions == tractors && TracksReferTo(tracks, playlists)
      modifies this`producers, this`tractors, this`transitions, this`playlists, this`tracks
      ensures Valid() && (r.Success? ==> transitions == tractors && TracksReferTo(tracks, playlists))
      ensures r.Success? ==> tracks == old(tracks) + TrackRefs(VideoPlaylistIds(ts))
    {
      var tracknum := 0;
      while tracknum < |ts|
        invariant 0 <= tracknum <= |ts|
        invariant Valid() && transitions == tractors && TracksReferTo(tracks, playlists)
        invariant tracks == old(tracks) + TrackRefs(VideoPlaylistIds(ts[..tracknum]))
      {
        ghost var written := TrackRefs(VideoPlaylistIds(ts[..tracknum]));
        var track := ts[tracknum];
        var done :- AddTrack(track, tracknum);
        ghost var added := if track.kind == Audio then [] else [TrackRef(PlaylistId(track, tracknum))];
        TrackRefsStep(ts, tracknum);
        ConcatAssoc(old(tracks), written, added);
        tracknum := tracknum + 1;
      }
      assert ts[..tracknum] == ts;
      r := Success(());
    }

    /** `write_to_string`: the background track first, then one playlist and
        one track per non-audio track; the document holds the producers, the
        transition tractors, the playlists and last the main tractor, whose
        id no transition tractor has. */
    method WriteToString(timeline: Timeline) returns (r: Result<Element>)
      requires Valid() && transitions == tractors && TracksReferTo(tracks, playlists)
      modifies this`producers, this`tractors, this`transitions, this`playlists, this`tracks
      ensures Valid() && (r.Success? ==> transitions == tractors && TracksReferTo(tracks, playlists))
      ensures r.Success? ==>
        tracks == old(tracks) + [TrackRef("background")] + TrackRefs(VideoPlaylistIds(timeline.tracks))
      ensures r.Success? ==>
        r.value == Element("mlt", map[], producers + transitions + playlists + [MainTractor(|tractors|, tracks)], None)
      ensures r.Success? ==> !HasId(transitions, "tractor" + NatToString(|tractors|))
    {
      CreateBackgroundTrack(timeline.duration);
      var done :- AddTracks(timeline.tracks);
      NextIdIsFree(tractors, "tractor");
      r := Success(Element("mlt", map[], producers + transitions + playlists + [MainTractor(|tractors|, tracks)], None));
    }
  }
}
