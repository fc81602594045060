# MLT XML writers of OpenTimelineIO

This project models the two MLT XML adapters of the OpenTimelineIO contrib
package. Each one turns an editorial timeline into the XML document that the
MLT framework (melt, Shotcut, Kdenlive) plays:

- media become `producer` elements;
- tracks become `playlist` elements of `entry` and `blank` children;
- transitions become small `tractor` elements with two `track` legs and a
  `luma` `transition`;
- a main `tractor` refers to every playlist.

The two files are two generations of the same adapter.

- **`opentimelineio_contrib/adapters/mlt_xml.py`** (module `MltXml`, file
  `mlt_xml.dfy`). The older writer keeps five module-level lists. Producers
  are named `producer{n}` and tractors `tractor{n}`, after the list length at
  creation. A clip reuses the producer titled like it. A transition's
  tractor trims the element before it, and a clip that follows a transition
  is moved to start after it. Of the read path, `_add_clip` is modelled, as
  the inverse of `_create_producer` and `_create_entry`.
- **`contrib/opentimelineio_contrib/adapters/mlt_xml.py`** (module
  `ContribMltXml`, file `contrib_mlt_xml.dfy`). The newer writer keeps:
  - a `root` element;
  - two producer dictionaries (`video`, `audio`), keyed by media name;
  - a producer order;
  - playlists and transitions.

  It works on tracks whose transitions were expanded into
  `(item_a, transition, item_b)` tuples. A stack among a track's items
  becomes a nested playlist of the clips, gaps, tuples and stacks it holds
  directly; anything else in it, such as the tracks a stack usually holds,
  matches no branch and is dropped, so a stack of tracks becomes an empty
  playlist. `LinearTimeWarp` effects clone the producer as
  `scalar:producer`.

Shared pieces:

- `wrappers.dfy`: `Option`, `Result` and the Python exceptions the writers
  can raise, plus Python's negative indexing.
- `decimal.dfy`: `str(n)` and `int(s)` on integers, with the round trip
  between them.
- `elements.dfy`: the ElementTree element as a value (tag, attribute
  dictionary, children, text), property lookup, attribute search, and lists
  whose i-th element is `{prefix}{i}`.

Each module-level state becomes one Dafny class (`MltXml.Writer`,
`ContribMltXml.Writer`) whose methods update its fields. Pure element
builders are functions. The properties are lemmas about those functions, and
`Valid()` invariants are kept by every method:

- old writer: producers and tractors numbered from 0;
- newer writer: every producer filed under its own id with a resource, and
  transition tractors numbered from 0.

## Model

| member | source | states |
|---|---|---|
| Wrappers.PyAt | opentimelineio_contrib/adapters/mlt_xml.py:317 | `s[i]` succeeds exactly for -len <= i < len. A negative index counts from the end. Anything else is IndexError. |
| Decimal.NatToStringParses | opentimelineio_contrib/adapters/mlt_xml.py:432-433 | `int(str(n)) == n` for every natural n. |
| Decimal.IntToStringParses | opentimelineio_contrib/adapters/mlt_xml.py:432-433 | `int(str(i)) == i` for every integer, negative ones included. So every `in`/`out` written reads back as written. |
| Decimal.ParsedIsDigits | opentimelineio_contrib/adapters/mlt_xml.py:432 | Only non-empty digit strings parse as naturals. |
| Decimal.PrefixedNumeralsDistinct | opentimelineio_contrib/adapters/mlt_xml.py:77 | `prefix{i}` and `prefix{j}` differ whenever i != j. |
| Decimal.PrefixedNumeralNotPrefix | opentimelineio_contrib/adapters/mlt_xml.py:162 | `prefix{n}` is never the bare prefix. |
| Elements.FindProperty | contrib/opentimelineio_contrib/adapters/mlt_xml.py:113 | `find('./property/[@name=...]')` returns the index of the FIRST property child of that name, or None exactly when there is none. |
| Elements.IntAttrOr | opentimelineio_contrib/adapters/mlt_xml.py:134-135 | `int(e.attrib[key])` succeeds exactly when the attribute is a numeral, and then yields its value. Otherwise it is KeyError or ValueError. |
| Elements.ChildrenTagged | opentimelineio_contrib/adapters/mlt_xml.py:322 | `findall(tag)` keeps only children with that tag and is no longer than the children. |
| Elements.ChildrenTaggedKeeps | opentimelineio_contrib/adapters/mlt_xml.py:322 | `findall(tag)` keeps every child with the tag and nothing else. |
| Elements.ChildrenTaggedSplit | opentimelineio_contrib/adapters/mlt_xml.py:322 | `findall` keeps the children's order: on a concatenation it finds the first part's children, then the second's. |
| Elements.FirstMatch | opentimelineio_contrib/adapters/mlt_xml.py:67-71 | Returns the index of the first element whose attribute matches. It is None exactly when no element matches. |
| Elements.NumberedAt | opentimelineio_contrib/adapters/mlt_xml.py:77 | In a list built by appending `{prefix}{len}` each time, element i has id `{prefix}{i}`. |
| Elements.NumberedIdsDistinct | opentimelineio_contrib/adapters/mlt_xml.py:77 | Such ids are pairwise distinct. |
| Elements.NumberedLookup | opentimelineio_contrib/adapters/mlt_xml.py:411-416 | The search for `{prefix}{k}` finds element k. |
| Elements.NextIdIsFree | opentimelineio_contrib/adapters/mlt_xml.py:87-90 | The next id is not taken yet. So the lookup in `_create_producer` never returns an old producer. |
| Elements.BareIdIsFree | opentimelineio_contrib/adapters/mlt_xml.py:162-164 | No producer has the id `producer`. So `_create_color_producer` never reuses one. |
| Elements.NumberedAppended | contrib/opentimelineio_contrib/adapters/mlt_xml.py:286-290 | Appending `{prefix}{len}` keeps the list numbered. |
| MltXml.RemoveAll | opentimelineio_contrib/adapters/mlt_xml.py:84-85 | `url.replace('localhost', '')` never lengthens the URL. A URL without `localhost` comes back unchanged; one with it loses at least one occurrence. |
| MltXml.RemoveAllLeftmost | opentimelineio_contrib/adapters/mlt_xml.py:84-85 | The pass drops the leftmost occurrence: the text before it is kept and the pass goes on right after it. |
| MltXml.LinearSearch | opentimelineio_contrib/adapters/mlt_xml.py:67-71 | The loop returns the first element whose attribute equals the value. It returns None exactly when there is none. |
| MltXml.SourceRange | opentimelineio_contrib/adapters/mlt_xml.py:129 | Only clips and gaps have a `source_range`. |
| MltXml.EntryForItem | opentimelineio_contrib/adapters/mlt_xml.py:127-147 | An entry for an OTIO item plays the producer over [start, start + duration - 1], so its span is duration - 1. It fails exactly without a source range. |
| MltXml.EntryForElement | opentimelineio_contrib/adapters/mlt_xml.py:127-147 | An entry for an element copies its `in` and `out`. It succeeds exactly when both are numerals. |
| MltXml.TransitionTypeOf | opentimelineio_contrib/adapters/mlt_xml.py:150-158 | Dissolve, fade-in and fade-out are each selected exactly by which offsets are nonzero. With both zero there is no type. |
| MltXml.CreateBlank | opentimelineio_contrib/adapters/mlt_xml.py:266-269 | A blank plays no producer and is as long as the gap. |
| MltXml.FirstTimeEffect | opentimelineio_contrib/adapters/mlt_xml.py:111-116 | The scalar of the FIRST TimeEffect, with no TimeEffect before it. It is None exactly when there is none. |
| MltXml.ProducerElement | opentimelineio_contrib/adapters/mlt_xml.py:74-106 | The producer is titled like the clip and spans the available range for an external reference, else the source range. |
| MltXml.ProducerElementResource | opentimelineio_contrib/adapters/mlt_xml.py:108-116 | The first property is the resource: the URL without `localhost`, prefixed `scalar:` by the first TimeEffect. A `mlt_service` is present exactly when there is a TimeEffect. |
| MltXml.ColorProducer | opentimelineio_contrib/adapters/mlt_xml.py:166-171 | A colour producer titled `color` spans [0, length - 1]. |
| MltXml.ColorProducerFill | opentimelineio_contrib/adapters/mlt_xml.py:172-173 | Its resource is the colour and its service is `color`. |
| MltXml.Leg | opentimelineio_contrib/adapters/mlt_xml.py:230-247 | A tractor leg is a `track` playing the producer. |
| MltXml.LumaTransitionWipes | opentimelineio_contrib/adapters/mlt_xml.py:249-258 | The descriptor wipes track 0 into track 1 with the `luma` service of the `loader` factory. |
| MltXml.TracksOfTractor | opentimelineio_contrib/adapters/mlt_xml.py:322 | `findall('track')` on a transition tractor yields its two legs. |
| MltXml.TransitionTractor | opentimelineio_contrib/adapters/mlt_xml.py:184-263 | The tractor has the given id and three children (two tracks, then a transition). Its legs play producer A and producer B. |
| MltXml.TransitionTractorSpan | opentimelineio_contrib/adapters/mlt_xml.py:184-191 | The tractor and its transition span [0, in + out - 1]. |
| MltXml.TransitionTractorLegs | opentimelineio_contrib/adapters/mlt_xml.py:230-247 | Leg A plays [aIn + 1, aIn + in + out] and leg B plays [bIn - in, bIn + out - 1]. Both span in + out - 1. |
| MltXml.TransitionTractorLayout | opentimelineio_contrib/adapters/mlt_xml.py:230-260 | `findall('track')` gives the two legs, and the third child carries the luma properties. |
| MltXml.ProducerAppended | opentimelineio_contrib/adapters/mlt_xml.py:122 | Appending the titled `producer{n}` keeps the producers numbered. |
| MltXml.TractorAppended | opentimelineio_contrib/adapters/mlt_xml.py:261 | Appending `tractor{n}` keeps the tractors numbered. |
| MltXml.MemberIdIn | opentimelineio_contrib/adapters/mlt_xml.py:313 | A producer taken from the numbered list has an id found in it. |
| MltXml.IdInGrows | opentimelineio_contrib/adapters/mlt_xml.py:122 | An id stays found when the list only grows at its end. |
| MltXml.TrimBeforeTransition | opentimelineio_contrib/adapters/mlt_xml.py:340-347 | Trimming the previous element keeps the playlist length. |
| MltXml.AfterTransition | opentimelineio_contrib/adapters/mlt_xml.py:340-352 | The transition branch adds exactly one element to the playlist. |
| MltXml.TracksAppended | opentimelineio_contrib/adapters/mlt_xml.py:354-357 | Appending a playlist and a track referring to it keeps "track i refers to playlist i". |
| MltXml.TrackRefersAt | opentimelineio_contrib/adapters/mlt_xml.py:354-357 | The i-th track refers to the i-th playlist's id. |
| MltXml.TrackRefsStep | opentimelineio_contrib/adapters/mlt_xml.py:297-304 | One more track adds a reference to its playlist, or none for an audio track. |
| MltXml.VideoPlaylistIdsExact | opentimelineio_contrib/adapters/mlt_xml.py:297-304 | The playlist ids written are exactly the ids (name, else `V{n}`) of the non-audio tracks. There is at most one per track. |
| MltXml.TransitionTrimsPrevious | opentimelineio_contrib/adapters/mlt_xml.py:340-352 | The element before a transition now ends at leg A's start minus one. The new last entry plays the tractor over [0, in + out - 1]. Nothing else changes. |
| MltXml.TransitionTractorCompensable | opentimelineio_contrib/adapters/mlt_xml.py:341-351 | Every transition tractor has what the compensation reads: an id, in/out, and a first track with an `in`. |
| MltXml.DissolveShortensPrevious | opentimelineio_contrib/adapters/mlt_xml.py:195-200 | A dissolve shortens the previous entry by exactly the in-offset. |
| MltXml.ClipAfterTransition | opentimelineio_contrib/adapters/mlt_xml.py:316-325 | A clip after a transition's entry starts at leg B's start + out-offset, one frame after leg B ends. |
| MltXml.TractorIdMentionsTractor | opentimelineio_contrib/adapters/mlt_xml.py:319 | `'tractor' in 'tractor{k}'` holds. So the compensation always recognises a transition's entry. |
| MltXml.GetProducer | opentimelineio_contrib/adapters/mlt_xml.py:411-416 | The producer it finds is one of the producers. |
| MltXml.RangeOf | opentimelineio_contrib/adapters/mlt_xml.py:432-439 | A range read from in/out starts at `in` and ends at `out` (duration = out - in + 1). |
| MltXml.GetProducerFinds | opentimelineio_contrib/adapters/mlt_xml.py:411-416 | The search returns element k when no earlier element lacks an id or has the one sought. |
| MltXml.NumberedGetProducer | opentimelineio_contrib/adapters/mlt_xml.py:411-416 | In the numbered producers, `producer{k}` finds element k. |
| MltXml.ReadBackClip | opentimelineio_contrib/adapters/mlt_xml.py:431-463 | Reading back a written clip entry gives the clip's name and source range, the producer's range as available range, and the producer's resource as URL. |
| MltXml.ReadBackPlainClip | opentimelineio_contrib/adapters/mlt_xml.py:431-463 | For an external reference without `localhost` and with no TimeEffect, write-then-read gives back name, source range, available range and target URL exactly. |
| MltXml.Writer.constructor | opentimelineio_contrib/adapters/mlt_xml.py:33-37 | All holders start empty. |
| MltXml.Writer.ProducerLookup | opentimelineio_contrib/adapters/mlt_xml.py:58-71 | An OTIO object is matched by name against `title`, anything else by text against `id`. Returns the first match, None exactly when there is none. |
| MltXml.Writer.GetTractor | opentimelineio_contrib/adapters/mlt_xml.py:284-289 | The first tractor with that id, or None exactly when there is none. |
| MltXml.Writer.CreateProducer | opentimelineio_contrib/adapters/mlt_xml.py:74-124 | A clip gets `producer{n}`, which is appended exactly once. A non-clip raises and changes nothing. The producers stay numbered. |
| MltXml.LookupOrCreatedAppendsOnce | opentimelineio_contrib/adapters/mlt_xml.py:309-311 | `_producer_lookup(item) or _create_producer(item)` leaves the producers as they were when one is titled like the item, and otherwise appends exactly the new `producer{n}`. The list stays numbered, and the producer is in it, titled like the item. |
| MltXml.PickedRegistered | opentimelineio_contrib/adapters/mlt_xml.py:193-228 | Every producer a transition branch picks is in the producer list afterwards, which only grew and stays numbered. A fade's fill is the transparent colour producer appended last, as long as the fade's offset. |
| MltXml.Writer.LookupOrCreate | opentimelineio_contrib/adapters/mlt_xml.py:309-311 | Succeeds exactly when a producer is titled like the item or the item is a clip. On a title hit the producers are unchanged; otherwise exactly `producer{n}` for the clip is appended. The id returned is found among the producers. |
| MltXml.Writer.CreateColorProducer | opentimelineio_contrib/adapters/mlt_xml.py:161-176 | Every call appends a new colour producer `producer{n}`. |
| MltXml.Writer.DissolveLegs | opentimelineio_contrib/adapters/mlt_xml.py:195-206 | Leg A plays the first producer titled like the previous item (or None), from the previous entry's out minus the in-offset. Leg B plays the next item's producer, created if missing, from its source start. Both producers are among the producers. Failures are the ones Python raises. |
| MltXml.Writer.FadeInLegs | opentimelineio_contrib/adapters/mlt_xml.py:208-214 | Leg B is the new transparent fill `producer{n}` as long as the in-offset, appended to the producers and played from 0. Leg A is the first producer titled like the previous item (or None), from its source start. |
| MltXml.Writer.FadeOutLegs | opentimelineio_contrib/adapters/mlt_xml.py:216-228 | Leg B is the next item's producer, created if missing, from out-offset frames before its end. Leg A is then a new transparent fill as long as the out-offset, appended last and played from 0. |
| MltXml.Writer.ChooseLegs | opentimelineio_contrib/adapters/mlt_xml.py:193-228 | Takes the branch the transition type selects: its leg starts and the producers `PickProducers` names for it. |
| MltXml.Writer.AddTransitionTractor | opentimelineio_contrib/adapters/mlt_xml.py:230-263 | The tractor `tractor{n}` with descriptor `transition{m}` is appended to the tractors, which stay numbered. |
| MltXml.Writer.CreateTransition | opentimelineio_contrib/adapters/mlt_xml.py:179-263 | A tractor over the legs `LegStarts` computes, playing the producers `PickProducers` names for the selected branch; the producers end as that branch leaves them. It succeeds exactly when the starts exist, the producers can be picked and leg A has one. Offsets both zero raise NameError (`producer_a` unbound) after no producer was made. |
| MltXml.Writer.CreateBackgroundTrack | opentimelineio_contrib/adapters/mlt_xml.py:272-281 | A new black producer, plus a `background` playlist whose one entry plays it over [0, length - 1], and a track referring to it. |
| MltXml.Writer.ClipIn | opentimelineio_contrib/adapters/mlt_xml.py:315-325 | After an element playing a tractor, a clip starts one frame after that tractor's leg B ends; otherwise it keeps its start. The errors are those of `InAfterTransition`. |
| MltXml.Writer.AddClip | opentimelineio_contrib/adapters/mlt_xml.py:306-327 | The entry plays the clip's producer over its source range. After a transition's entry, its `in` moves to one frame after leg B. The producers end as the lookup-or-create step leaves them. |
| MltXml.Writer.CompensateTransition | opentimelineio_contrib/adapters/mlt_xml.py:340-352 | The playlist becomes `AfterTransition`. |
| MltXml.Writer.AddTransition | opentimelineio_contrib/adapters/mlt_xml.py:333-352 | One new numbered tractor joins both tractors and transitions, and the playlist is compensated for it. |
| MltXml.Writer.AddItem | opentimelineio_contrib/adapters/mlt_xml.py:306-352 | A clip adds its compensated entry and a gap its blank, with no tractor made. A transition adds its new tractor's entry after trimming the element before it. Anything else adds nothing and changes nothing. |
| MltXml.Writer.AssemblePlaylist | opentimelineio_contrib/adapters/mlt_xml.py:306-352 | A track's playlist has one element per clip, gap and transition. |
| MltXml.Writer.AddTrack | opentimelineio_contrib/adapters/mlt_xml.py:297-357 | An audio track is skipped. Any other adds a playlist named after it (or `V{n}`) and a track referring to it. |
| MltXml.Writer.AddTracks | opentimelineio_contrib/adapters/mlt_xml.py:297-357 | The tracks referring to playlists are exactly those of the non-audio tracks, in order. |
| MltXml.Writer.WriteToString | opentimelineio_contrib/adapters/mlt_xml.py:292-371 | The document holds the producers, transitions and playlists, then the main tractor. The main tractor refers to the background and every video playlist. Its id `tractor{n}` clashes with no transition tractor. |
| ContribMltXml.ColorProducerDescribes | contrib/opentimelineio_contrib/adapters/mlt_xml.py:55-68 | The colour producer spans [0, length - 1], records its length (`int` reads it back) and plays with the `color` service. |
| ContribMltXml.ColorProducerRegistered | contrib/opentimelineio_contrib/adapters/mlt_xml.py:59 | It is filed under `solid_{color}` (for black, `solid_black`) whatever its length. Its resource is the colour. |
| ContribMltXml.Duration | contrib/opentimelineio_contrib/adapters/mlt_xml.py:129 | `duration()` fails only for a tuple. A transition lasts in + out. |
| ContribMltXml.ProducerKey | contrib/opentimelineio_contrib/adapters/mlt_xml.py:74-85 | The key is `solid_black` for gaps and transitions, the media reference's name (else the clip's) for clips. It is AttributeError for a tuple. |
| ContribMltXml.ResourceUrl | contrib/opentimelineio_contrib/adapters/mlt_xml.py:84-111 | The resource is the target URL, or the `%0{padding}d` image-sequence URL. An empty or absent one falls back to the key. |
| ContribMltXml.NewProducerRegistered | contrib/opentimelineio_contrib/adapters/mlt_xml.py:74-123 | A new producer is registered under its key. For gaps and transitions it is the black colour producer. Otherwise its resource is `ResourceUrl`. |
| ContribMltXml.RegistryUpdate | contrib/opentimelineio_contrib/adapters/mlt_xml.py:105-108 | Filing a registered producer under its key keeps every producer filed under its own id. |
| ContribMltXml.CreateElement | contrib/opentimelineio_contrib/adapters/mlt_xml.py:194-204 | Fails (KeyError) exactly when the producer has no id. |
| ContribMltXml.CreateElementPlays | contrib/opentimelineio_contrib/adapters/mlt_xml.py:194-204 | The entry plays the producer's id from `in_` to `out_`. |
| ContribMltXml.CreateClip | contrib/opentimelineio_contrib/adapters/mlt_xml.py:207-213 | A clip entry exists exactly when the producer has an id. |
| ContribMltXml.CreateBlank | contrib/opentimelineio_contrib/adapters/mlt_xml.py:216-222 | A blank plays no producer and is as long as the gap. |
| ContribMltXml.ClipEntryOneFrameLonger | contrib/opentimelineio_contrib/adapters/mlt_xml.py:207-213 | A clip entry's out is start + duration, a frame past the clip. The background entry's out is length - 1. |
| ContribMltXml.LegRange | contrib/opentimelineio_contrib/adapters/mlt_xml.py:141-165 | A leg's frames fail exactly for a tuple. |
| ContribMltXml.LegRangeLength | contrib/opentimelineio_contrib/adapters/mlt_xml.py:141-165 | A transition leg lasts its in-offset (A side) or out-offset (B side) from 0. Any other leg lasts its trimmed duration from its trimmed start. |
| ContribMltXml.LegPlays | contrib/opentimelineio_contrib/adapters/mlt_xml.py:149-174 | A leg is a `track` playing its producer over the frames given. |
| ContribMltXml.LumaTransitionWipes | contrib/opentimelineio_contrib/adapters/mlt_xml.py:179-187 | The descriptor ends at the tractor's last frame and wipes track 0 into track 1 with `luma`. |
| ContribMltXml.TransitionTractorSpan | contrib/opentimelineio_contrib/adapters/mlt_xml.py:129-138 | The tractor is named as asked, spans [0, duration - 1], and its third child is `transition_{name}`. |
| ContribMltXml.TransitionTractorLegs | contrib/opentimelineio_contrib/adapters/mlt_xml.py:149-177 | Leg A plays producer A over A's frames, and leg B producer B over B's. |
| ContribMltXml.TransitionEntry | contrib/opentimelineio_contrib/adapters/mlt_xml.py:292-301 | The entry exists exactly when the tractor has id, in and out. |
| ContribMltXml.TransitionEntryCopies | contrib/opentimelineio_contrib/adapters/mlt_xml.py:292-301 | The entry plays the tractor over the tractor's own in/out. |
| ContribMltXml.TransitionNamesDistinct | contrib/opentimelineio_contrib/adapters/mlt_xml.py:286-290 | Transition tractors `transition_tractor{n}` have pairwise distinct names. |
| ContribMltXml.TimewarpedClone | contrib/opentimelineio_contrib/adapters/mlt_xml.py:232-236 | The clone of a registered producer is registered under its new id and keeps every other attribute. Its resource is `scalar:` + the original's. It runs `timewarp` when the original named no service. |
| ContribMltXml.RewiredRenames | contrib/opentimelineio_contrib/adapters/mlt_xml.py:306-309 | The time warps only rename the entry's producer, one `scalar:` prefix per warp, the last outermost. |
| ContribMltXml.RewiredBlank | contrib/opentimelineio_contrib/adapters/mlt_xml.py:229 | An element without a producer survives the warps exactly when there are none, and unchanged. |
| ContribMltXml.ItemEffectsAsWritten | contrib/opentimelineio_contrib/adapters/mlt_xml.py:306-307 | As written: reading `item.effects` fails for tuples and transitions. |
| ContribMltXml.ItemEffects | contrib/opentimelineio_contrib/adapters/mlt_xml.py:306-307 | Corrected: it fails only for a bare transition, and a tuple has no effects. |
| ContribMltXml.PlaylistId | contrib/opentimelineio_contrib/adapters/mlt_xml.py:245-248 | The playlist id is the track's name, else `playlist{index}`. It is never empty. |
| ContribMltXml.TracksOf | contrib/opentimelineio_contrib/adapters/mlt_xml.py:352-375 | A Timeline's or Stack's tracks, a Track alone, a Clip in an unnamed track. Anything else raises ValueError. |
| ContribMltXml.ListInsert | contrib/opentimelineio_contrib/adapters/mlt_xml.py:381-389 | `insert(0, x)` puts x first. `insert(-1, x)` puts it just before the last element, which stays last. |
| ContribMltXml.Reverse | contrib/opentimelineio_contrib/adapters/mlt_xml.py:380-381 | Element k of the result is element len - 1 - k of the input. |
| ContribMltXml.NewInOrder | contrib/opentimelineio_contrib/adapters/mlt_xml.py:114-121 | At most one producer joins the order, and none when the key is already filed. |
| ContribMltXml.AfterGet | contrib/opentimelineio_contrib/adapters/mlt_xml.py:95-121 | After `get_producer` the key is filed in the track kind's namespace only, the other is untouched, and the order keeps its prefix and grows by at most one. |
| ContribMltXml.AfterGetIdempotent | contrib/opentimelineio_contrib/adapters/mlt_xml.py:105-121 | A second `get_producer` of the same item changes nothing and returns the same producer. |
| ContribMltXml.AfterGetRegistry | contrib/opentimelineio_contrib/adapters/mlt_xml.py:99-118 | Filing keeps both namespaces registries, and the producer returned is registered under the item's key. |
| ContribMltXml.WarpOnceStep | contrib/opentimelineio_contrib/adapters/mlt_xml.py:229-239 | One warp succeeds, leaves `audio` alone, files the clone under its id, and orders exactly the item's new producer (if any) then the clone; afterwards the item's key is filed. |
| ContribMltXml.WarpAllGrows | contrib/opentimelineio_contrib/adapters/mlt_xml.py:306-309 | The warps of an element that plays a producer always succeed, keep `audio`, and append exactly one clone per warp, after the item's new producer when the first warp files it. |
| ContribMltXml.WarpAllGrowsStep | contrib/opentimelineio_contrib/adapters/mlt_xml.py:225-241 | The same for effects that start with a time warp. |
| ContribMltXml.ClipItemEffectSkips | contrib/opentimelineio_contrib/adapters/mlt_xml.py:269-279 | A clip's branch succeeds on registries with at most one element; none, and no change, exactly for an audio clip with a video producer of its key. |
| ContribMltXml.ClipItemEffectPlays | contrib/opentimelineio_contrib/adapters/mlt_xml.py:266-309 | A clip that is not skipped gets one entry playing its key under one prefix per warp; the order gains its producer if new, then one clone per warp, plus, for a warped audio clip, its producer filed in `video` too. |
| ContribMltXml.TransitionProducers | contrib/opentimelineio_contrib/adapters/mlt_xml.py:140-158 | `create_transition` leaves `audio` alone and orders at most two new producers after the old ones. |
| ContribMltXml.Writer.FetchNeighbours | contrib/opentimelineio_contrib/adapters/mlt_xml.py:140-158 | A's producer is fetched first, then B's, both registered under their keys; the dictionaries become `TransitionProducers`, or stop after A when B fails. |
| ContribMltXml.Writer.ApplyEffect | contrib/opentimelineio_contrib/adapters/mlt_xml.py:307-309 | One turn of the effects loop: the first effect is applied when it is a time warp, moving `Rewired` and `WarpAll` on by one effect. |
| ContribMltXml.Writer.constructor | contrib/opentimelineio_contrib/adapters/mlt_xml.py:31-41 | All state starts empty. |
| ContribMltXml.Writer.FiledOrNew | contrib/opentimelineio_contrib/adapters/mlt_xml.py:105-121 | Returns the producer already filed under the key, else `NewProducer`. A new non-colour producer joins the order. |
| ContribMltXml.Writer.GetProducer | contrib/opentimelineio_contrib/adapters/mlt_xml.py:71-123 | Files the producer in the track kind's namespace only, under its key. Fails exactly for a tuple. Every producer stays filed under its own id with a resource. The new dictionaries are exactly `AfterGet` of the old ones, and the producer returned is `Fetched`. |
| ContribMltXml.Writer.AddClipAsWritten | contrib/opentimelineio_contrib/adapters/mlt_xml.py:269-279 | As written: in an audio track every clip is skipped. Its producer is still filed in `video` and, when new, appended to the order, so it is still written. |
| ContribMltXml.Writer.AddClip | contrib/opentimelineio_contrib/adapters/mlt_xml.py:269-279 | Corrected: an audio clip is skipped exactly when a video producer with its key exists, and then nothing changes. Otherwise the dictionaries become exactly `AfterGet` in the clip's own namespace (the old entry kept, or `NewProducer` filed and, being new, ordered), and the entry plays that producer. |
| ContribMltXml.Writer.FileClone | contrib/opentimelineio_contrib/adapters/mlt_xml.py:232-239 | The clone is filed in `video` under the new id and appended to the order. Nothing else changes. |
| ContribMltXml.Writer.WarpProducer | contrib/opentimelineio_contrib/adapters/mlt_xml.py:230-239 | The item's producer is fetched from or filed in `video`; its clone is filed under the new id and ordered last. The dictionaries become exactly `WarpOnce` of the old ones, so `audio` is untouched and no other key changes. |
| ContribMltXml.Writer.ApplyTimewarp | contrib/opentimelineio_contrib/adapters/mlt_xml.py:225-241 | No element: nothing happens. No producer: TypeError and nothing changes. Otherwise the entry is rewired to `scalar:producer`, and the dictionaries become exactly `WarpOnce` of the old ones: the clone of the item's producer filed under that id and ordered last. |
| ContribMltXml.Writer.ApplyEffects | contrib/opentimelineio_contrib/adapters/mlt_xml.py:306-309 | The element ends up as `Rewired` says, and fails exactly when it does. The dictionaries end up exactly as `WarpAll` says (one clone per warp); without an element, or for one without a producer, nothing changes. |
| ContribMltXml.Writer.CreateTransition | contrib/opentimelineio_contrib/adapters/mlt_xml.py:126-191 | The tractor is exactly `TransitionTractorOf`: its legs play the neighbours' video producers over their `LegRange`. It fails exactly when a part is itself a tuple, which has no duration or name. The dictionaries become `TransitionProducers` (A's producer filed first, then B's); a failure before or after A's lookup leaves what was filed by then. |
| ContribMltXml.Writer.ClipItem | contrib/opentimelineio_contrib/adapters/mlt_xml.py:266-309 | Corrected (built on `AddClip`): a clip gives no element exactly when skipped. Otherwise its entry plays the warped producer over [start, start + duration]. The dictionaries and the element are exactly what `ClipItemEffect` gives. |
| ContribMltXml.Writer.GapItem | contrib/opentimelineio_contrib/adapters/mlt_xml.py:281-283 | A gap gives its blank and changes no producer. Any time warp on it raises. |
| ContribMltXml.Writer.TransitionItem | contrib/opentimelineio_contrib/adapters/mlt_xml.py:285-301 | Corrected (no `item.effects` read for the tuple, as `ItemEffects`): exactly `TransitionTractorOf(item, "transition_tractor{n}")` joins the transitions, the playlist gets the entry playing it, and the dictionaries become `TransitionProducers`. |
| ContribMltXml.Writer.AddItem | contrib/opentimelineio_contrib/adapters/mlt_xml.py:266-309 | Corrected (built on `AddClip` and `ItemEffects`). Per kind: a clip gives exactly `ClipItemEffect` (entry facts included), a gap its blank, a tuple its tractor entry with the exact tractor and dictionaries, a stack the nested playlist's reference; any other item (a track inside a stack) adds nothing and changes nothing. A bare transition raises AttributeError. Only a stack touches the playlists, only a stack or tuple the transitions. |
| ContribMltXml.Writer.AssembleTrack | contrib/opentimelineio_contrib/adapters/mlt_xml.py:244-309 | The playlist is reserved before its items, so nested playlists follow it. It returns the `track` or `entry` that places it. |
| ContribMltXml.Writer.CreateBackgroundTrack | contrib/opentimelineio_contrib/adapters/mlt_xml.py:312-332 | `solid_black` is filed once but ordered on every call. The `background` playlist plays it over [0, length - 1]. |
| ContribMltXml.Writer.AssembleTracks | contrib/opentimelineio_contrib/adapters/mlt_xml.py:347-348 | One reference per track, in order. |
| ContribMltXml.Writer.AssembleReferences | contrib/opentimelineio_contrib/adapters/mlt_xml.py:345-348 | The background's reference first, then the tracks', in order. |
| ContribMltXml.Writer.AssembleTimeline | contrib/opentimelineio_contrib/adapters/mlt_xml.py:335-348 | `tractor0` joins the root first, so it is there even when a track then fails. On success it is `MainTractor(MultitrackRefs(tracks))`: the background and every track, in order. |
| ContribMltXml.Writer.InsertProducers | contrib/opentimelineio_contrib/adapters/mlt_xml.py:380-381 | The producers end up at the front of the root in REVERSE order. |
| ContribMltXml.Writer.InsertBeforeLast | contrib/opentimelineio_contrib/adapters/mlt_xml.py:384-389 | Repeated `insert(-1, x)` places the xs in order just before the last child. |
| ContribMltXml.Writer.GatherIntoRoot | contrib/opentimelineio_contrib/adapters/mlt_xml.py:379-389 | The root becomes: reversed producers, the old front, transitions, playlists, then the last child. |
| ContribMltXml.Writer.WriteToString | contrib/opentimelineio_contrib/adapters/mlt_xml.py:351-389 | An unsupported input raises ValueError. Otherwise the document is reversed producers, transition tractors, playlists, and last the main tractor `MainTractor(MultitrackRefs(tracks))`, referring to the background and every track in order. |

## Left out

- XML serialisation (`et.tostring`, `minidom` pretty-printing) is not modelled. The documents are the element values before serialisation.
- The old writer's `resolution` metadata copied onto the root is not modelled, because it holds arbitrary dictionaries.
- OTIO itself is not modelled. These are given as inputs: `track_with_expanded_transitions`, `trimmed_range()`, `duration()`, `available_range()`, `abstract_target_url`, and `schema_name()`. Items arrive already expanded.
- RationalTime values are whole frames (`int`). Floats and their `str` rendering (`10.0`) are not modelled, and `time_scalar` is given as its rendered text.
- The old read path other than `_add_clip` is not modelled: `read_from_string`, `_add_gap`, `_get_rate`, `_get_playlist`, and the empty `_add_transition`.
- After an exception, the state Python leaves behind is not modelled. A method that fails may have changed the state in ways its contract does not state.
- ElementTree's shared references (mutating an element after appending it) are modelled by value. The playlist slot is reserved, then written back, and the main tractor is appended once filled; nothing reads them in between.
- `deepcopy` is a value copy, and `Timewarped` fails as Python does on a missing resource.
- ContribMltXml.Writer.AssembleTrack: states the playlist's id, its position and the reference returned, not the list of its children nor the producers, producer order and transitions its items leave (each item's contribution is stated by `AddItem`, not accumulated over the loop).
- ContribMltXml.Writer.AddItem: for a stack it states the reference to the nested playlist, not that playlist's contents, nor the producers, order, playlists and transitions its items leave.
- ContribMltXml.Writer.AssembleTracks: states one reference per track, in order, not the playlists, producers, producer order and transitions the tracks leave (each item's contribution is stated by `AddItem`, not accumulated over the loop).
- ContribMltXml.Writer.AssembleReferences: states the background's reference and the tracks', not the playlists, producers, producer order and transitions it leaves (see `AssembleTracks`).
- ContribMltXml.Writer.AssembleTimeline: states the root exactly, not the playlists, producers, producer order and transitions it leaves (see `AssembleTracks`).
- ContribMltXml.Writer.WriteToString: states the root in terms of the producer order, transitions and playlists it ends with, not those themselves as a function of the input (see `AssembleTracks`).
- MltXml.LinearSearch: skips an element that lacks the attribute, where Python would raise KeyError. Every producer and tractor the writer makes has both `id` and `title` (`Valid()`), so the case cannot arise.
- MltXml.Writer.AssemblePlaylist: states the number of playlist elements, not their contents. Each item's contribution is stated one step at a time by `AddItem`, not accumulated over the loop.
- MltXml.Writer.AddTrack: states the track reference and the playlist's id, not the playlist's children (see `AssemblePlaylist`).
- MltXml.Writer.AddTracks: states the track references and playlist ids, not the playlists' children (see `AssemblePlaylist`).
- Decimal.ParseNat: accepts only plain digit strings. Python's `int()` also takes surrounding whitespace, a leading `+` and `_` separators. The writers only read back numerals they wrote themselves.
- Three behaviours of the newer writer's code that a reader might not expect are modelled as the code has them:
  - producers are inserted at index 0 one at a time, so they end up at the front of the root in reverse order of first use;
  - a time-warp clone is made on every warp and never reused;
  - the colour producer's id is `solid_{color}`, without the length.
- `extern_rv.py` is not part of this model.

## Findings

| source | as written | input that shows it | evidently intended | confidence | as-written member | corrected member |
|---|---|---|---|---|---|---|
| contrib/opentimelineio_contrib/adapters/mlt_xml.py:269-276 | `get_producer(item)` uses its default `video_track=True`, so the clip's id is always in `producers['video']` and the audio-track test always skips | any clip in a track of kind `Audio` | skip an audio clip only when a video producer already exists for it, and otherwise give it its own audio producer | not executed | ContribMltXml.Writer.AddClipAsWritten | ContribMltXml.Writer.AddClip |
| contrib/opentimelineio_contrib/adapters/mlt_xml.py:306-309 | `item.effects` is read for every item of the expanded track, including the `(item_a, transition, item_b)` tuples | any track holding a transition (AttributeError on the tuple) | a tuple contributes no effects | not executed | ContribMltXml.ItemEffectsAsWritten | ContribMltXml.ItemEffects |

The newer writer's chain from `ContribMltXml.Writer.ClipItem`, `TransitionItem` and `AddItem` up through `AssembleTrack`, `AssembleTracks`, `AssembleReferences`, `AssembleTimeline` and `WriteToString` builds on the corrected `AddClip` and `ItemEffects`, not on their as-written versions. As written, every clip in an audio track is skipped, and any track holding a transition raises AttributeError right after its `transition_tractor{n}` joined the transitions.
