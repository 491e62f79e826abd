/**
 * The element-level decisions of the hildon-welcome sequence player
 * (src/tmp.c:56-186): reading the caps of an element's source pads, finding
 * the type-finder inside a decoder, deciding whether a still image needs a
 * freeze element, and the linking round that connects a clip's decoded
 * streams to the two shared sinks.
 *
 * Elements are values: an id, a GType name, whether it is a bin, the first
 * caps structure name of each source pad and, for a bin, its children.
 * Whether GStreamer accepts a link is an oracle on the two ids.
 */
module Linking {
  import opened Options

  type ElementId = nat

  /** The first structure name of a source pad's caps, or none (no caps, empty caps, no name). */
  datatype PadCaps = Unnamed | Named(name: string)

  datatype Element = Element(id: ElementId, typeName: string, isBin: bool, srcPads: seq<PadCaps>, children: seq<Element>)

  datatype Link = Link(src: ElementId, dst: ElementId)

  /** Whether gst_element_link(src, dst) succeeds. */
  type Linkable = (ElementId, ElementId) -> bool

  const TypeFindTypeName: string := "GstTypeFindElement"
  const FreezeTypeName: string := "GstFreeze"

  /** !strncmp(name, wanted, strlen(wanted)): `wanted` is a prefix of `name`. */
  predicate IsPrefix(wanted: string, name: string) {
    |wanted| <= |name| && name[..|wanted|] == wanted
  }

  /** Some source pad's first caps structure name starts with `wanted`. */
  predicate HasPadPrefixed(pads: seq<PadCaps>, wanted: string) {
    exists i :: 0 <= i < |pads| && pads[i].Named? && IsPrefix(wanted, pads[i].name)
  }

  /**
   * gst_element_has_src_pad() (src/tmp.c:56-92): for each wanted prefix the
   * caller's flag is OR-ed with "some source pad's first caps name starts
   * with it"; a flag that is already set stays set.
   */
  method HasSrcPad(element: Element, wanted: seq<string>, flags: seq<bool>) returns (r: seq<bool>)
    requires |flags| == |wanted|
    ensures |r| == |wanted|
    ensures forall j :: 0 <= j < |wanted| ==> (r[j] <==> flags[j] || HasPadPrefixed(element.srcPads, wanted[j]))
  {
    var pads := element.srcPads;
    r := flags;
    var i := 0;
    while i < |pads|
      invariant 0 <= i <= |pads|
      invariant |r| == |wanted|
      invariant forall j :: 0 <= j < |wanted| ==> (r[j] <==> flags[j] || HasPadPrefixed(pads[..i], wanted[j]))
    {
      assert forall w :: HasPadPrefixed(pads[..i + 1], w) <==>
        HasPadPrefixed(pads[..i], w) || (pads[i].Named? && IsPrefix(w, pads[i].name)) by {
        forall w ensures HasPadPrefixed(pads[..i + 1], w) ==>
          HasPadPrefixed(pads[..i], w) || (pads[i].Named? && IsPrefix(w, pads[i].name)) {
          if HasPadPrefixed(pads[..i + 1], w) {
            var k :| 0 <= k < i + 1 && pads[..i + 1][k].Named? && IsPrefix(w, pads[..i + 1][k].name);
            if k < i {
              assert pads[..i][k] == pads[k];
            }
          }
        }
        forall w ensures HasPadPrefixed(pads[..i], w) ==> HasPadPrefixed(pads[..i + 1], w) {
          if HasPadPrefixed(pads[..i], w) {
            var k :| 0 <= k < i && pads[..i][k].Named? && IsPrefix(w, pads[..i][k].name);
            assert pads[..i + 1][k] == pads[k];
          }
        }
        forall w | pads[i].Named? && IsPrefix(w, pads[i].name) ensures HasPadPrefixed(pads[..i + 1], w) {
          assert pads[..i + 1][i] == pads[i];
        }
      }
      var pad := pads[i];
      if pad.Named? {
        var j := 0;
        while j < |wanted|
          invariant 0 <= j <= |wanted|
          invariant |r| == |wanted|
          invariant forall k :: 0 <= k < j ==> (r[k] <==> flags[k] || HasPadPrefixed(pads[..i + 1], wanted[k]))
          invariant forall k :: j <= k < |wanted| ==> (r[k] <==> flags[k] || HasPadPrefixed(pads[..i], wanted[k]))
        {
          r := r[j := r[j] || IsPrefix(wanted[j], pad.name)];
          j := j + 1;
        }
      }
      i := i + 1;
    }
    assert pads[..i] == pads;
  }

  /** The elements gst_bin_iterate_recurse() visits: each child, then, for a bin child, everything inside it. */
  function Descendants(e: Element): seq<Element>
    decreases e, 1
  {
    DescendantsOf(e.children)
  }

  function DescendantsOf(cs: seq<Element>): seq<Element>
    decreases cs, 0
  {
    if cs == [] then []
    else [cs[0]] + (if cs[0].isBin then Descendants(cs[0]) else []) + DescendantsOf(cs[1..])
  }

  predicate IsTypeFind(e: Element) {
    e.typeName == TypeFindTypeName
  }

  /** The first type-finder in a list of elements. */
  function FirstTypeFind(es: seq<Element>): (r: Option<Element>)
    ensures r.Some? ==> IsTypeFind(r.value) && r.value in es
  {
    if es == [] then None
    else if IsTypeFind(es[0]) then Some(es[0])
    else FirstTypeFind(es[1..])
  }

  /** FirstTypeFind finds a type-finder iff there is one, and no type-finder comes before it. */
  lemma {:induction false} FirstTypeFindIsFirst(es: seq<Element>)
    ensures FirstTypeFind(es).Some? <==> exists i :: 0 <= i < |es| && IsTypeFind(es[i])
    ensures FirstTypeFind(es).Some? ==>
      exists k :: 0 <= k < |es| && es[k] == FirstTypeFind(es).value && forall j :: 0 <= j < k ==> !IsTypeFind(es[j])
  {
    if es != [] && !IsTypeFind(es[0]) {
      FirstTypeFindIsFirst(es[1..]);
      if FirstTypeFind(es).Some? {
        var k :| 0 <= k < |es[1..]| && es[1..][k] == FirstTypeFind(es).value
          && forall j :: 0 <= j < k ==> !IsTypeFind(es[1..][j]);
        assert es[k + 1] == FirstTypeFind(es).value;
        forall j | 0 <= j < k + 1 ensures !IsTypeFind(es[j]) {
          if j > 0 { assert es[j] == es[1..][j - 1]; }
        }
      }
      if exists i :: 0 <= i < |es| && IsTypeFind(es[i]) {
        var i :| 0 <= i < |es| && IsTypeFind(es[i]);
        assert es[1..][i - 1] == es[i];
      }
    }
  }

  /** What find_typefind() returns: the element itself if it is a type-finder, else for a bin the first type-finder inside it. */
  function TypeFindOf(e: Element): (r: Option<Element>)
    ensures IsTypeFind(e) ==> r == Some(e)
    ensures r.Some? ==> IsTypeFind(r.value)
    ensures r.Some? && r != Some(e) ==> e.isBin && r.value in Descendants(e)
    ensures !IsTypeFind(e) && !e.isBin ==> r.None?
  {
    if IsTypeFind(e) then Some(e)
    else if e.isBin then FirstTypeFind(Descendants(e))
    else None
  }

  /** find_typefind() (src/tmp.c:94-110). */
  method FindTypefind(element: Element) returns (typefind: Option<Element>)
    ensures typefind == TypeFindOf(element)
  {
    typefind := if IsTypeFind(element) then Some(element) else None;
    if typefind.None? && element.isBin {
      var items := Descendants(element);
      var i := 0;
      while i < |items| && typefind.None?
        invariant 0 <= i <= |items|
        invariant typefind.None? ==> FirstTypeFind(items) == FirstTypeFind(items[i..])
        invariant typefind.Some? ==> typefind == FirstTypeFind(items)
      {
        assert items[i..][1..] == items[i + 1..];
        if IsTypeFind(items[i]) {
          typefind := Some(items[i]);
        }
        i := i + 1;
      }
    }
  }

  /** maybe_add_freeze() inserts a freeze iff a type-finder is found and it shows an "image" pad. */
  predicate NeedsFreeze(src: Element) {
    var t := TypeFindOf(src);
    t.Some? && HasPadPrefixed(t.value.srcPads, "image")
  }

  /** The freeze element maybe_add_freeze() creates, with a fresh id. */
  function FreezeElement(id: ElementId): Element {
    Element(id, FreezeTypeName, false, [], [])
  }

  /**
   * What a piece of linking adds: the links made, the elements added to the
   * clip's bin, the next free id; and, for the returned stream end, which
   * element the next link starts from.
   */
  datatype Growth = Growth(links: seq<Link>, added: seq<Element>, nextId: ElementId)

  datatype Freeze = Freeze(end: Element, growth: Growth)

  /**
   * maybe_add_freeze() (src/tmp.c:112-136): for image content a new freeze
   * element is added to the bin and linked after `src`, and is the new end
   * of the stream; otherwise nothing changes.
   */
  function MaybeFreeze(src: Element, nextId: ElementId, linkable: Linkable): (f: Freeze)
    requires src.id < nextId
    ensures f.end != src <==> NeedsFreeze(src)
    ensures f.end == src ==> f.growth == Growth([], [], nextId)
    ensures f.end != src ==>
      && f.end.typeName == FreezeTypeName && f.end.id == nextId
      && f.growth.added == [f.end] && f.growth.nextId == nextId + 1
      && (f.growth.links == if linkable(src.id, f.end.id) then [Link(src.id, f.end.id)] else [])
  {
    if NeedsFreeze(src) then
      var freeze := FreezeElement(nextId);
      Freeze(freeze, Growth(if linkable(src.id, nextId) then [Link(src.id, nextId)] else [], [freeze], nextId + 1))
    else Freeze(src, Growth([], [], nextId))
  }

  /** The state one do_one_link() call leaves: what it added and the two shared flags. */
  datatype Offer = Offer(growth: Growth, hadAudio: bool, hadVideo: bool)

  /** The two shared sinks of the pipeline. */
  datatype Sinks = Sinks(audio: ElementId, video: ElementId)

  function Then(g: Growth, h: Growth): Growth {
    Growth(g.links + h.links, g.added + h.added, h.nextId)
  }

  /**
   * do_one_link() (src/tmp.c:138-168): a video stream not yet served goes,
   * through a freeze for still images, to the video sink; an audio stream not
   * yet served goes to the audio sink; a flag is set only when its link succeeds.
   */
  function OneLink(src: Element, hadAudio: bool, hadVideo: bool, nextId: ElementId, linkable: Linkable, sinks: Sinks): (o: Offer)
    requires src.id < nextId
    ensures nextId <= o.growth.nextId
    ensures o.hadAudio <==> hadAudio || (HasPadPrefixed(src.srcPads, "audio") && linkable(src.id, sinks.audio))
    ensures o.hadVideo <==> hadVideo || (HasPadPrefixed(src.srcPads, "video") && linkable(VideoEnd(src, nextId, linkable).id, sinks.video))
    ensures o.hadAudio && !hadAudio ==> Link(src.id, sinks.audio) in o.growth.links
    ensures o.hadVideo && !hadVideo ==> Link(VideoEnd(src, nextId, linkable).id, sinks.video) in o.growth.links
  {
    var hasAudio := HasPadPrefixed(src.srcPads, "audio");
    var hasVideo := HasPadPrefixed(src.srcPads, "video");
    var video :=
      if hasVideo && !hadVideo then
        var f := MaybeFreeze(src, nextId, linkable);
        if linkable(f.end.id, sinks.video) then
          Offer(Then(f.growth, Growth([Link(f.end.id, sinks.video)], [], f.growth.nextId)), hadAudio, true)
        else Offer(f.growth, hadAudio, hadVideo)
      else Offer(Growth([], [], nextId), hadAudio, hadVideo);
    if hasAudio && !hadAudio && linkable(src.id, sinks.audio) then
      Offer(Then(video.growth, Growth([Link(src.id, sinks.audio)], [], video.growth.nextId)), true, video.hadVideo)
    else video
  }

  lemma AppendEmpty<T>(s: seq<T>)
    ensures s + [] == s && [] + s == s
  {
  }

  lemma AppendAssoc<T>(a: seq<T>, b: seq<T>, c: seq<T>)
    ensures a + b + c == a + (b + c)
  {
  }

  /** The only element do_one_link() ever adds to the bin is the freeze in front of a video stream it has not served yet. */
  lemma OneLinkAddsOnlyFreeze(src: Element, hadAudio: bool, hadVideo: bool, nextId: ElementId, linkable: Linkable, sinks: Sinks)
    requires src.id < nextId
    ensures OneLink(src, hadAudio, hadVideo, nextId, linkable, sinks).growth.added ==
      if HasPadPrefixed(src.srcPads, "video") && !hadVideo then MaybeFreeze(src, nextId, linkable).growth.added else []
  {
    var f := MaybeFreeze(src, nextId, linkable);
    AppendEmpty(f.growth.added);
  }

  /** link_to_sink()'s guard (src/tmp.c:176-177): every branch the clip has is marked finished. */
  predicate Joined(videoSrc: Option<Element>, audioSrc: Option<Element>, finished: set<ElementId>) {
    (videoSrc.None? || videoSrc.value.id in finished) && (audioSrc.None? || audioSrc.value.id in finished)
  }

  /**
   * The linking round of link_to_sink() (src/tmp.c:178-184): do_one_link()
   * on the video source, then on the audio source, with shared flags that
   * both start false.
   */
  function LinkRound(videoSrc: Option<Element>, audioSrc: Option<Element>, nextId: ElementId, linkable: Linkable, sinks: Sinks): (o: Offer)
    requires videoSrc.Some? ==> videoSrc.value.id < nextId
    requires audioSrc.Some? ==> audioSrc.value.id < nextId
    ensures nextId <= o.growth.nextId
  {
    var afterVideo :=
      if videoSrc.Some? then OneLink(videoSrc.value, false, false, nextId, linkable, sinks)
      else Offer(Growth([], [], nextId), false, false);
    if audioSrc.Some? then
      var o := OneLink(audioSrc.value, afterVideo.hadAudio, afterVideo.hadVideo, afterVideo.growth.nextId, linkable, sinks);
      Offer(Then(afterVideo.growth, o.growth), o.hadAudio, o.hadVideo)
    else afterVideo
  }

  /**
   * Every element a linking round adds to the bin takes a fresh id: one at
   * or above the round's first free id and below the next free id after it.
   */
  lemma LinkRoundAddsFreshIds(videoSrc: Option<Element>, audioSrc: Option<Element>, nextId: ElementId, linkable: Linkable, sinks: Sinks)
    requires videoSrc.Some? ==> videoSrc.value.id < nextId
    requires audioSrc.Some? ==> audioSrc.value.id < nextId
    ensures var o := LinkRound(videoSrc, audioSrc, nextId, linkable, sinks);
      forall e :: e in o.growth.added ==> nextId <= e.id < o.growth.nextId
  {
    var afterVideo :=
      if videoSrc.Some? then OneLink(videoSrc.value, false, false, nextId, linkable, sinks)
      else Offer(Growth([], [], nextId), false, false);
    if videoSrc.Some? {
      OneLinkAddsOnlyFreeze(videoSrc.value, false, false, nextId, linkable, sinks);
    }
    if audioSrc.Some? {
      OneLinkAddsOnlyFreeze(audioSrc.value, afterVideo.hadAudio, afterVideo.hadVideo, afterVideo.growth.nextId, linkable, sinks);
    }
  }

  /** The number of links in `links` that end at `dst`. */
  function LinksTo(links: seq<Link>, dst: ElementId): nat {
    if links == [] then 0 else (if links[0].dst == dst then 1 else 0) + LinksTo(links[1..], dst)
  }

  lemma {:induction false} LinksToAppend(a: seq<Link>, b: seq<Link>, dst: ElementId)
    ensures LinksTo(a + b, dst) == LinksTo(a, dst) + LinksTo(b, dst)
  {
    if a == [] {
      assert a + b == b;
    } else {
      assert (a + b)[1..] == a[1..] + b;
      LinksToAppend(a[1..], b, dst);
    }
  }

  /**
   * One do_one_link() call adds a link to a sink exactly when it sets that
   * sink's flag, so a set flag means the sink is linked, and only fresh ids
   * (freeze elements) are otherwise linked to.
   */
  lemma OneLinkSinkLinks(src: Element, hadAudio: bool, hadVideo: bool, nextId: ElementId, linkable: Linkable, sinks: Sinks)
    requires src.id < nextId && sinks.audio < nextId && sinks.video < nextId && sinks.audio != sinks.video
    ensures var o := OneLink(src, hadAudio, hadVideo, nextId, linkable, sinks);
      && LinksTo(o.growth.links, sinks.video) == (if o.hadVideo && !hadVideo then 1 else 0)
      && LinksTo(o.growth.links, sinks.audio) == (if o.hadAudio && !hadAudio then 1 else 0)
  {
    var hasAudio := HasPadPrefixed(src.srcPads, "audio");
    var hasVideo := HasPadPrefixed(src.srcPads, "video");
    var g := Growth([], [], nextId);
    if hasVideo && !hadVideo {
      var f := MaybeFreeze(src, nextId, linkable);
      assert LinksTo(f.growth.links, sinks.video) == 0 && LinksTo(f.growth.links, sinks.audio) == 0;
      if linkable(f.end.id, sinks.video) {
        var l := [Link(f.end.id, sinks.video)];
        LinksToAppend(f.growth.links, l, sinks.video);
        LinksToAppend(f.growth.links, l, sinks.audio);
        g := Then(f.growth, Growth(l, [], f.growth.nextId));
      } else {
        g := f.growth;
      }
    }
    if hasAudio && !hadAudio && linkable(src.id, sinks.audio) {
      var l := [Link(src.id, sinks.audio)];
      LinksToAppend(g.links, l, sinks.video);
      LinksToAppend(g.links, l, sinks.audio);
    }
  }

  /**
   * Within one linking round each sink is linked at most once, and it is
   * linked exactly when its flag ends up set: a flag becomes true only on a
   * successful link.
   */
  lemma LinkRoundLinksEachSinkOnce(videoSrc: Option<Element>, audioSrc: Option<Element>, nextId: ElementId, linkable: Linkable, sinks: Sinks)
    requires videoSrc.Some? ==> videoSrc.value.id < nextId
    requires audioSrc.Some? ==> audioSrc.value.id < nextId
    requires sinks.audio < nextId && sinks.video < nextId && sinks.audio != sinks.video
    ensures var o := LinkRound(videoSrc, audioSrc, nextId, linkable, sinks);
      && LinksTo(o.growth.links, sinks.video) == (if o.hadVideo then 1 else 0)
      && LinksTo(o.growth.links, sinks.audio) == (if o.hadAudio then 1 else 0)
  {
    var afterVideo :=
      if videoSrc.Some? then OneLink(videoSrc.value, false, false, nextId, linkable, sinks)
      else Offer(Growth([], [], nextId), false, false);
    if videoSrc.Some? {
      OneLinkSinkLinks(videoSrc.value, false, false, nextId, linkable, sinks);
    }
    if audioSrc.Some? {
      var o := OneLink(audioSrc.value, afterVideo.hadAudio, afterVideo.hadVideo, afterVideo.growth.nextId, linkable, sinks);
      OneLinkSinkLinks(audioSrc.value, afterVideo.hadAudio, afterVideo.hadVideo, afterVideo.growth.nextId, linkable, sinks);
      LinksToAppend(afterVideo.growth.links, o.growth.links, sinks.video);
      LinksToAppend(afterVideo.growth.links, o.growth.links, sinks.audio);
    }
  }

  /** The element a source's video stream leaves from: the freeze, if one is inserted, else the source. */
  function VideoEnd(src: Element, nextId: ElementId, linkable: Linkable): Element
    requires src.id < nextId
  {
    MaybeFreeze(src, nextId, linkable).end
  }

  /**
   * The video source is served first: if it offers video and that link
   * succeeds, the video sink is linked from its stream, and if it offers
   * audio and that link succeeds, the audio sink is linked from it; the
   * audio source's later offers are then not linked.
   */
  lemma LinkRoundFirstOfferWins(v: Element, audioSrc: Option<Element>, nextId: ElementId, linkable: Linkable, sinks: Sinks)
    requires v.id < nextId
    requires audioSrc.Some? ==> audioSrc.value.id < nextId
    requires sinks.audio < nextId && sinks.video < nextId && sinks.audio != sinks.video
    ensures var o := LinkRound(Some(v), audioSrc, nextId, linkable, sinks);
      && (HasPadPrefixed(v.srcPads, "video") && linkable(VideoEnd(v, nextId, linkable).id, sinks.video) ==>
            o.hadVideo && Link(VideoEnd(v, nextId, linkable).id, sinks.video) in o.growth.links
            && LinksTo(o.growth.links, sinks.video) == 1)
      && (HasPadPrefixed(v.srcPads, "audio") && linkable(v.id, sinks.audio) ==>
            o.hadAudio && Link(v.id, sinks.audio) in o.growth.links
            && LinksTo(o.growth.links, sinks.audio) == 1)
  {
    LinkRoundLinksEachSinkOnce(Some(v), audioSrc, nextId, linkable, sinks);
  }
}
