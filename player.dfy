/**
 * The sequence player of hildon-welcome (src/tmp.c:188-416): one shared
 * pipeline with an audio and a video sink, into which each clip's bin is
 * added, played until the bus reports its end, and removed again.
 *
 * GStreamer itself is given, not modelled: what a decoder exposes for a
 * file is an oracle, whether a link succeeds is an oracle, and everything
 * that happens to a clip while it plays is a finite sequence of events:
 * the bus messages the loop polls, interleaved with the "no-more-pads"
 * callbacks of the clip's decoders, which may or may not ever arrive.
 */
module Player {
  import opened Options
  import opened Linking
  import Decimal
  import ConfFile

  const BinTypeName: string := "GstBin"
  const FileSrcTypeName: string := "GstFileSrc"
  const DecodeBinTypeName: string := "GstDecodeBin"
  const AudioTestSrcTypeName: string := "GstAudioTestSrc"
  const VolumeTypeName: string := "GstVolume"

  /** The volume element's source pad: a fixed raw-audio template, not decided by any file. */
  const VolumeSrcPads: seq<PadCaps> := [Named("audio/x-raw-float")]

  /** What a decoder ends up exposing for a file: its source pads and the elements it plugged inside itself. */
  datatype Decoded = Decoded(srcPads: seq<PadCaps>, children: seq<Element>)

  type Autoplug = string -> Decoded

  /** A per-clip bin of the pipeline. */
  datatype Bin = Bin(id: ElementId, name: string, members: seq<Element>)

  /** The arguments of one play_file() call. */
  datatype ClipArgs = ClipArgs(video: Option<string>, audio: Option<string>, duration: int)

  /** `video && video[0]`: the pointer is non-NULL and the string non-empty. */
  predicate NonEmpty(s: Option<string>) {
    s.Some? && s.value != []
  }

  /** What one branch of a bin consists of. */
  datatype Branch = Branch(members: seq<Element>, src: Option<Element>, links: seq<Link>, nextId: ElementId)

  /** The filesrc and decoder pair of add_file_play_element() (src/tmp.c:188-204), with ids `id` and `id + 1`. */
  function FilePlay(fname: string, id: ElementId, linkable: Linkable, autoplug: Autoplug): (r: Branch)
    ensures |r.members| == 2 && r.members[0].id == id && r.members[1].id == id + 1 && r.nextId == id + 2
    ensures r.members[0].typeName == FileSrcTypeName
    ensures r.src == Some(r.members[1]) && r.src.value.typeName == DecodeBinTypeName
    ensures r.src.value.srcPads == autoplug(fname).srcPads && r.src.value.children == autoplug(fname).children
    ensures (r.links == [Link(id, id + 1)] <==> linkable(id, id + 1)) && (r.links != [] ==> r.links == [Link(id, id + 1)])
  {
    var filesrc := Element(id, FileSrcTypeName, false, [], []);
    var decoded := autoplug(fname);
    var decoder := Element(id + 1, DecodeBinTypeName, true, decoded.srcPads, decoded.children);
    Branch([filesrc, decoder], Some(decoder), if linkable(id, id + 1) then [Link(id, id + 1)] else [], id + 2)
  }

  /** The muted tone generator of the silence branch (src/tmp.c:224-233): a test source feeding a volume element. */
  function Tone(id: ElementId, linkable: Linkable): (r: Branch)
    ensures |r.members| == 2 && r.members[0].id == id && r.members[1].id == id + 1 && r.nextId == id + 2
    ensures r.members[0].typeName == AudioTestSrcTypeName
    ensures r.src == Some(r.members[1]) && r.src.value.typeName == VolumeTypeName && r.src.value.srcPads == VolumeSrcPads
    ensures (r.links == [Link(id, id + 1)] <==> linkable(id, id + 1)) && (r.links != [] ==> r.links == [Link(id, id + 1)])
  {
    var testsrc := Element(id, AudioTestSrcTypeName, false, [Named("audio/x-raw-int")], []);
    var volume := Element(id + 1, VolumeTypeName, false, VolumeSrcPads, []);
    Branch([testsrc, volume], Some(volume), if linkable(id, id + 1) then [Link(id, id + 1)] else [], id + 2)
  }

  function NoBranch(id: ElementId): Branch {
    Branch([], None, [], id)
  }

  /** The video branch of create_bin() (src/tmp.c:218-221): a file source and decoder iff the name is non-empty. */
  function VideoBranch(video: Option<string>, id: ElementId, linkable: Linkable, autoplug: Autoplug): Branch {
    if NonEmpty(video) then FilePlay(video.value, id, linkable, autoplug) else NoBranch(id)
  }

  /** The audio branch of create_bin() (src/tmp.c:222-236): nothing, the muted tone for "s", or a file source and decoder. */
  function AudioBranch(audio: Option<string>, id: ElementId, linkable: Linkable, autoplug: Autoplug): Branch {
    if !NonEmpty(audio) then NoBranch(id)
    else if audio.value == ConfFile.SilenceToken then Tone(id, linkable)
    else FilePlay(audio.value, id, linkable, autoplug)
  }

  /** Every element of `br` has an id in [lo, br.nextId), in increasing order, and so has every link target. */
  predicate FreshFrom(br: Branch, lo: ElementId) {
    && lo <= br.nextId
    && (forall i :: 0 <= i < |br.members| ==> lo <= br.members[i].id < br.nextId)
    && (forall i, j :: 0 <= i < j < |br.members| ==> br.members[i].id < br.members[j].id)
    && (br.src.Some? ==> lo <= br.src.value.id < br.nextId)
    && (forall k :: 0 <= k < |br.links| ==> lo <= br.links[k].dst < br.nextId)
  }

  lemma PairFresh(br: Branch, id: ElementId)
    requires |br.members| == 2 && br.members[0].id == id && br.members[1].id == id + 1 && br.nextId == id + 2
    requires br.src == Some(br.members[1]) && (br.links == [] || br.links == [Link(id, id + 1)])
    ensures FreshFrom(br, id)
  {
    assert forall i :: 0 <= i < |br.members| ==> br.members[i].id == id + i;
  }

  lemma VideoBranchFresh(video: Option<string>, id: ElementId, linkable: Linkable, autoplug: Autoplug)
    ensures FreshFrom(VideoBranch(video, id, linkable, autoplug), id)
  {
    if NonEmpty(video) {
      PairFresh(FilePlay(video.value, id, linkable, autoplug), id);
    }
  }

  lemma AudioBranchFresh(audio: Option<string>, id: ElementId, linkable: Linkable, autoplug: Autoplug)
    ensures FreshFrom(AudioBranch(audio, id, linkable, autoplug), id)
  {
    if NonEmpty(audio) {
      if audio.value == ConfFile.SilenceToken {
        PairFresh(Tone(id, linkable), id);
      } else {
        PairFresh(FilePlay(audio.value, id, linkable, autoplug), id);
      }
    }
  }

  /** Two branches made one after the other: their members and link targets together keep the order and the range. */
  lemma JoinFresh(v: Branch, a: Branch, lo: ElementId)
    requires FreshFrom(v, lo) && FreshFrom(a, v.nextId)
    ensures forall i :: 0 <= i < |v.members + a.members| ==> lo <= (v.members + a.members)[i].id < a.nextId
    ensures forall i, j :: 0 <= i < j < |v.members + a.members| ==> (v.members + a.members)[i].id < (v.members + a.members)[j].id
    ensures forall k :: 0 <= k < |v.links + a.links| ==> lo <= (v.links + a.links)[k].dst < a.nextId
  {
    var ms := v.members + a.members;
    assert forall i :: 0 <= i < |ms| ==> ms[i] == if i < |v.members| then v.members[i] else a.members[i - |v.members|];
    var ls := v.links + a.links;
    assert forall k :: 0 <= k < |ls| ==> ls[k] == if k < |v.links| then v.links[k] else a.links[k - |v.links|];
  }

  /** What create_bin() builds: the bin, the two stream sources, the links inside the bin and the next free id. */
  datatype Built = Built(bin: Bin, videoSrc: Option<Element>, audioSrc: Option<Element>, links: seq<Link>, nextId: ElementId)

  /** create_bin() (src/tmp.c:206-239) from counter value `counter` and first free id `nextId`; the duration plays no part. */
  function BuildBin(video: Option<string>, audio: Option<string>, counter: nat, nextId: ElementId,
                    linkable: Linkable, autoplug: Autoplug): (b: Built)
    ensures SourcesBelow(b.videoSrc, b.audioSrc, b.nextId)
  {
    var v := VideoBranch(video, nextId + 1, linkable, autoplug);
    var a := AudioBranch(audio, v.nextId, linkable, autoplug);
    Built(Bin(nextId, Decimal.BinName(counter), v.members + a.members), v.src, a.src, v.links + a.links, a.nextId)
  }

  /** The number of elements of GType `typeName` in `es`. */
  function CountType(es: seq<Element>, typeName: string): nat {
    if es == [] then 0 else (if es[0].typeName == typeName then 1 else 0) + CountType(es[1..], typeName)
  }

  lemma {:induction false} CountTypeAppend(a: seq<Element>, b: seq<Element>, typeName: string)
    ensures CountType(a + b, typeName) == CountType(a, typeName) + CountType(b, typeName)
  {
    if a == [] {
      assert a + b == b;
    } else {
      assert (a + b)[1..] == a[1..] + b;
      CountTypeAppend(a[1..], b, typeName);
    }
  }

  lemma CountTypePair(a: Element, b: Element, typeName: string)
    ensures CountType([a, b], typeName) == (if a.typeName == typeName then 1 else 0) + (if b.typeName == typeName then 1 else 0)
  {
    var one := if b.typeName == typeName then 1 else 0;
    assert [b][1..] == [];
    assert CountType([b], typeName) == one + CountType([], typeName);
    assert [a, b][0] == a && [a, b][1..] == [b];
    assert CountType([a, b], typeName) == (if a.typeName == typeName then 1 else 0) + CountType([b], typeName);
  }

  /**
   * create_bin() builds a video branch iff the video name is non-empty and an
   * audio branch iff the audio name is non-empty; the silence token "s" gives
   * a muted tone source and no file source, any other audio name a file source
   * and decoder. Decoders show what the file decodes to.
   */
  lemma BuildBinSelectsBranches(video: Option<string>, audio: Option<string>, counter: nat, nextId: ElementId,
                                linkable: Linkable, autoplug: Autoplug)
    ensures var b := BuildBin(video, audio, counter, nextId, linkable, autoplug);
      && (b.videoSrc.Some? <==> NonEmpty(video))
      && (b.audioSrc.Some? <==> NonEmpty(audio))
      && (b.videoSrc.Some? ==>
            b.videoSrc.value.typeName == DecodeBinTypeName && b.videoSrc.value.srcPads == autoplug(video.value).srcPads)
      && (b.audioSrc.Some? ==> (b.audioSrc.value.typeName == VolumeTypeName <==> audio.value == ConfFile.SilenceToken))
      && (b.audioSrc.Some? && audio.value != ConfFile.SilenceToken ==>
            b.audioSrc.value.typeName == DecodeBinTypeName && b.audioSrc.value.srcPads == autoplug(audio.value).srcPads)
      && CountType(b.bin.members, FileSrcTypeName) ==
           (if NonEmpty(video) then 1 else 0) + (if NonEmpty(audio) && audio.value != ConfFile.SilenceToken then 1 else 0)
      && CountType(b.bin.members, AudioTestSrcTypeName) == (if audio == Some(ConfFile.SilenceToken) then 1 else 0)
  {
    var v := VideoBranch(video, nextId + 1, linkable, autoplug);
    var a := AudioBranch(audio, v.nextId, linkable, autoplug);
    CountTypeAppend(v.members, a.members, FileSrcTypeName);
    CountTypeAppend(v.members, a.members, AudioTestSrcTypeName);
    if |v.members| == 2 {
      CountTypePair(v.members[0], v.members[1], FileSrcTypeName);
      CountTypePair(v.members[0], v.members[1], AudioTestSrcTypeName);
    }
    if |a.members| == 2 {
      CountTypePair(a.members[0], a.members[1], FileSrcTypeName);
      CountTypePair(a.members[0], a.members[1], AudioTestSrcTypeName);
    }
  }

  /**
   * The ids of a built bin: the bin has `nextId`, every member, source and
   * link target an id between it and `b.nextId`, the members in increasing
   * order and the video source before the audio source.
   */
  predicate FreshlyNumbered(b: Built, nextId: ElementId) {
    && nextId < b.nextId
    && (forall i :: 0 <= i < |b.bin.members| ==> nextId < b.bin.members[i].id < b.nextId)
    && (forall i, j :: 0 <= i < j < |b.bin.members| ==> b.bin.members[i].id < b.bin.members[j].id)
    && (b.videoSrc.Some? ==> nextId < b.videoSrc.value.id < b.nextId)
    && (b.audioSrc.Some? ==> nextId < b.audioSrc.value.id < b.nextId)
    && (b.videoSrc.Some? && b.audioSrc.Some? ==> b.videoSrc.value.id < b.audioSrc.value.id)
    && (forall k :: 0 <= k < |b.links| ==> nextId < b.links[k].dst < b.nextId)
  }

  /** A bin put together from two fresh branches, the video branch first, right after the bin's own id. */
  lemma JoinedBinFresh(b: Built, v: Branch, a: Branch, nextId: ElementId)
    requires FreshFrom(v, nextId + 1) && FreshFrom(a, v.nextId)
    requires b.bin.members == v.members + a.members && b.links == v.links + a.links
    requires b.videoSrc == v.src && b.audioSrc == a.src && b.nextId == a.nextId
    ensures FreshlyNumbered(b, nextId)
  {
    JoinFresh(v, a, nextId + 1);
  }

  /**
   * Every element create_bin() makes gets a fresh id: the bin takes `nextId`,
   * its members the ids after it, in order, so no two share one.
   */
  lemma BuildBinFreshIds(video: Option<string>, audio: Option<string>, counter: nat, nextId: ElementId,
                         linkable: Linkable, autoplug: Autoplug)
    ensures BuildBin(video, audio, counter, nextId, linkable, autoplug).bin.id == nextId
    ensures BuildBin(video, audio, counter, nextId, linkable, autoplug).bin.name == Decimal.BinName(counter)
    ensures FreshlyNumbered(BuildBin(video, audio, counter, nextId, linkable, autoplug), nextId)
  {
    var v := VideoBranch(video, nextId + 1, linkable, autoplug);
    var a := AudioBranch(audio, v.nextId, linkable, autoplug);
    VideoBranchFresh(video, nextId + 1, linkable, autoplug);
    AudioBranchFresh(audio, v.nextId, linkable, autoplug);
    JoinedBinFresh(BuildBin(video, audio, counter, nextId, linkable, autoplug), v, a, nextId);
  }

  /** Everything that can happen while a clip plays. */
  datatype Message =
    | AsyncDone(seekAccepted: bool)    // seekAccepted: whether the pipeline would accept a seek sent now
    | StateChanged(fromPipeline: bool)
    | ErrorMessage
    | Eos
    | SegmentDone
    | ElementMessage(structName: string)
    | OtherMessage

  datatype Kind = VideoKind | AudioKind

  datatype Event =
    | Posted(msg: Message)             // a message gst_bus_poll() returns
    | NoMorePads(kind: Kind)           // the "no-more-pads" callback of the clip's video or audio source

  /** The messages that end the loop of play_file() (src/tmp.c:323-331). */
  predicate IsTerminal(e: Event) {
    e.Posted? && (e.msg.ErrorMessage? || e.msg.Eos? || e.msg.SegmentDone?)
  }

  /** The result of send_seek_event(), and whether it sent an event. */
  datatype Seek = Seek(seekSent: bool, sent: bool)

  /**
   * send_seek_event() (src/tmp.c:257-278): once a seek went through it sends
   * nothing more and reports TRUE; otherwise it sends one and reports whether
   * the pipeline took it.
   */
  function SendSeekEvent(seekSent: bool, accepted: bool): (r: Seek)
    ensures seekSent ==> r == Seek(true, false)
    ensures !seekSent ==> r.sent && (r.seekSent <==> accepted)
  {
    if !seekSent then Seek(accepted, true) else Seek(true, false)
  }

  /** How many events the loop of play_file() takes: up to and including the first terminal message, or all of them. */
  function LoopLength(events: seq<Event>): (n: nat)
    ensures n <= |events|
  {
    if events == [] then 0
    else if IsTerminal(events[0]) then 1
    else 1 + LoopLength(events[1..])
  }

  /** The loop ends exactly at the first ERROR, EOS or SEGMENT_DONE, or when the bus has nothing more. */
  lemma {:induction false} LoopEndsAtFirstTerminal(events: seq<Event>)
    ensures var n := LoopLength(events);
      && (forall j :: 0 <= j < n - 1 ==> !IsTerminal(events[j]))
      && (n == |events| || IsTerminal(events[n - 1]))
      && (n < |events| ==> n > 0 && IsTerminal(events[n - 1]))
      && ((forall j :: 0 <= j < |events| ==> !IsTerminal(events[j])) ==> n == |events|)
  {
    if events != [] && !IsTerminal(events[0]) {
      LoopEndsAtFirstTerminal(events[1..]);
      var n := LoopLength(events);
      forall j | 0 <= j < n - 1 ensures !IsTerminal(events[j]) {
        if j > 0 { assert events[j] == events[1..][j - 1]; }
      }
      if forall j :: 0 <= j < |events| ==> !IsTerminal(events[j]) {
        assert forall j :: 0 <= j < |events[1..]| ==> events[1..][j] == events[j + 1];
      }
    }
  }

  /** What one event of play_file()'s loop does to the seek state: only ASYNC_DONE runs send_seek_event(). */
  function SeekOn(e: Event, seekSent: bool): (r: Seek)
    ensures r.sent ==> e.Posted? && e.msg.AsyncDone? && !seekSent
    ensures !r.sent ==> r.seekSent == seekSent
    ensures r.sent ==> (r.seekSent <==> e.msg.seekAccepted)
  {
    if e.Posted? && e.msg.AsyncDone? then SendSeekEvent(seekSent, e.msg.seekAccepted) else Seek(seekSent, false)
  }

  /** The outcomes of the seek events play_file()'s loop sends, in order, given `seekSent` at the start. */
  function LoopSeeks(events: seq<Event>, seekSent: bool): seq<bool> {
    if events == [] || IsTerminal(events[0]) then []
    else
      var r := SeekOn(events[0], seekSent);
      (if r.sent then [events[0].msg.seekAccepted] else []) + LoopSeeks(events[1..], r.seekSent)
  }

  /** The loop of play_file() at event `i`: a terminal message ends it, any other event is taken and the loop goes on. */
  lemma LoopStep(events: seq<Event>, i: nat, seekSent: bool)
    requires i < |events|
    ensures var e := events[i];
      var r := SeekOn(e, seekSent);
      && (IsTerminal(e) ==> LoopLength(events[i..]) == 1 && LoopSeeks(events[i..], seekSent) == [])
      && (!IsTerminal(e) ==>
            && LoopLength(events[i..]) == 1 + LoopLength(events[i + 1..])
            && LoopSeeks(events[i..], seekSent) == (if r.sent then [e.msg.seekAccepted] else []) + LoopSeeks(events[i + 1..], r.seekSent))
  {
    assert events[i..][1..] == events[i + 1..];
  }

  /**
   * At most one seek per clip goes through: every seek sent fails except
   * possibly the last one, and none is sent once one went through.
   */
  lemma {:induction false} AtMostOneSeekPerClip(events: seq<Event>, seekSent: bool)
    ensures seekSent ==> LoopSeeks(events, seekSent) == []
    ensures forall i :: 0 <= i < |LoopSeeks(events, seekSent)| - 1 ==> !LoopSeeks(events, seekSent)[i]
  {
    if events != [] && !IsTerminal(events[0]) {
      var r := SeekOn(events[0], seekSent);
      AtMostOneSeekPerClip(events[1..], r.seekSent);
      var s := LoopSeeks(events, seekSent);
      var rest := LoopSeeks(events[1..], r.seekSent);
      if r.sent {
        assert s == [events[0].msg.seekAccepted] + rest;
        if events[0].msg.seekAccepted {
          assert rest == [];
        } else {
          assert !s[0];
          forall i | 0 <= i < |s| - 1 ensures !s[i] {
            if i > 0 {
              assert s[i] == rest[i - 1];
              assert i - 1 < |rest| - 1;
            }
          }
        }
      } else {
        assert s == rest;
      }
    }
  }

  /**
   * What the events of a clip change besides the seek state: the clip's bin,
   * the links made, the decoders marked finished and the next free id.
   */
  datatype LinkState = LinkState(bin: Bin, links: seq<Link>, finished: set<ElementId>, nextId: ElementId)

  /** The clip's sources, where present, have ids below `nextId`. */
  predicate SourcesBelow(v: Option<Element>, a: Option<Element>, nextId: ElementId) {
    (v.Some? ==> v.value.id < nextId) && (a.Some? ==> a.value.id < nextId)
  }

  /** The ids of the present sources whose "no-more-pads" callback is among `evs`. */
  function Marks(evs: seq<Event>, v: Option<Element>, a: Option<Element>): set<ElementId> {
    (if v.Some? && NoMorePads(VideoKind) in evs then {v.value.id} else {})
    + (if a.Some? && NoMorePads(AudioKind) in evs then {a.value.id} else {})
  }

  /** Every present source of the clip has reported "no-more-pads" among `evs`. */
  predicate Arrived(evs: seq<Event>, v: Option<Element>, a: Option<Element>) {
    (v.Some? ==> NoMorePads(VideoKind) in evs) && (a.Some? ==> NoMorePads(AudioKind) in evs)
  }

  /** No "no-more-pads" callback occurs twice in `evs`: each decoder reports at most once. */
  predicate CallbacksOnce(evs: seq<Event>) {
    forall i, j :: 0 <= i < j < |evs| && evs[i].NoMorePads? ==> evs[i] != evs[j]
  }

  /** link_to_sink() (src/tmp.c:170-186) on `decoder`, in a clip with sources `v` and `a`. */
  function Callback(decoder: ElementId, v: Option<Element>, a: Option<Element>, s: LinkState,
                    linkable: Linkable, sinks: Sinks): (r: LinkState)
    requires SourcesBelow(v, a, s.nextId)
    ensures r.finished == s.finished + {decoder}
    ensures s.nextId <= r.nextId && s.links <= r.links
    ensures !Joined(v, a, r.finished) ==> r == s.(finished := r.finished)
  {
    var marked := s.finished + {decoder};
    if Joined(v, a, marked) then
      var o := LinkRound(v, a, s.nextId, linkable, sinks);
      LinkState(s.bin.(members := s.bin.members + o.growth.added), s.links + o.growth.links, marked, o.growth.nextId)
    else s.(finished := marked)
  }

  /**
   * What one event of play_file()'s loop does to the clip's state: a bus
   * message changes none of it, and the "no-more-pads" callback of a present
   * source marks that source and, once every source is marked, links.
   */
  function OnEvent(e: Event, v: Option<Element>, a: Option<Element>, s: LinkState,
                   linkable: Linkable, sinks: Sinks): (r: LinkState)
    requires SourcesBelow(v, a, s.nextId)
    ensures s.nextId <= r.nextId && s.links <= r.links
    ensures r.finished == s.finished + Marks([e], v, a)
    ensures e.Posted? ==> r == s
  {
    match e
    case Posted(_) => s
    case NoMorePads(kind) =>
      if kind == VideoKind && v.Some? then Callback(v.value.id, v, a, s, linkable, sinks)
      else if kind == AudioKind && a.Some? then Callback(a.value.id, v, a, s, linkable, sinks)
      else s
  }

  /**
   * The clip's state after the events `evs`, taken in order from `s`. Only
   * the reported sources get marked, and until every source of the clip is
   * marked nothing else changes.
   */
  function Apply(evs: seq<Event>, v: Option<Element>, a: Option<Element>, s: LinkState,
                 linkable: Linkable, sinks: Sinks): (r: LinkState)
    requires SourcesBelow(v, a, s.nextId)
    ensures s.nextId <= r.nextId && s.links <= r.links
    ensures r.finished == s.finished + Marks(evs, v, a)
    ensures !Joined(v, a, r.finished) ==> r == s.(finished := r.finished)
    decreases |evs|
  {
    if evs == [] then s
    else OnEvent(evs[|evs| - 1], v, a, Apply(evs[..|evs| - 1], v, a, s, linkable, sinks), linkable, sinks)
  }

  /** The events of a clip keep its bin: the same id and the same name. */
  lemma {:induction false} ApplyKeepsBin(evs: seq<Event>, v: Option<Element>, a: Option<Element>, s: LinkState,
                                         linkable: Linkable, sinks: Sinks)
    requires SourcesBelow(v, a, s.nextId)
    ensures var r := Apply(evs, v, a, s, linkable, sinks);
      r.bin.id == s.bin.id && r.bin.name == s.bin.name
    decreases |evs|
  {
    if evs != [] {
      ApplyKeepsBin(evs[..|evs| - 1], v, a, s, linkable, sinks);
    }
  }

  /** Apply takes one more event after the ones before it. */
  lemma ApplySnoc(evs: seq<Event>, i: nat, v: Option<Element>, a: Option<Element>, s: LinkState,
                  linkable: Linkable, sinks: Sinks)
    requires i < |evs| && SourcesBelow(v, a, s.nextId)
    ensures Apply(evs[..i + 1], v, a, s, linkable, sinks) ==
      OnEvent(evs[i], v, a, Apply(evs[..i], v, a, s, linkable, sinks), linkable, sinks)
  {
    assert evs[..i + 1][..i] == evs[..i];
  }

  /**
   * The bin, links and next id of `r` are those of `s` after the linking
   * round `o` if `ran`, and those of `s` otherwise.
   */
  predicate RoundState(r: LinkState, ran: bool, s: LinkState, o: Offer) {
    if ran then
      r.bin == s.bin.(members := s.bin.members + o.growth.added) && r.links == s.links + o.growth.links && r.nextId == o.growth.nextId
    else r.bin == s.bin && r.links == s.links && r.nextId == s.nextId
  }

  /**
   * With each decoder reporting at most once, the events of a clip run
   * exactly one linking round, on the state the clip started with, once
   * every source has reported, and none before.
   */
  lemma {:induction false} ApplyRunsOneRound(evs: seq<Event>, v: Option<Element>, a: Option<Element>, s: LinkState,
                                             linkable: Linkable, sinks: Sinks)
    requires SourcesBelow(v, a, s.nextId)
    requires (v.Some? ==> v.value.id !in s.finished) && (a.Some? ==> a.value.id !in s.finished)
    requires v.Some? && a.Some? ==> v.value.id != a.value.id
    requires CallbacksOnce(evs)
    ensures var r := Apply(evs, v, a, s, linkable, sinks);
      && r.finished == s.finished + Marks(evs, v, a)
      && RoundState(r, (v.Some? || a.Some?) && Arrived(evs, v, a), s, LinkRound(v, a, s.nextId, linkable, sinks))
    decreases |evs|
  {
    if evs != [] {
      var n := |evs| - 1;
      var pre, e := evs[..n], evs[n];
      assert evs == pre + [e];
      assert CallbacksOnce(pre) by {
        forall i, j | 0 <= i < j < |pre| && pre[i].NoMorePads? ensures pre[i] != pre[j] {
          assert pre[i] == evs[i] && pre[j] == evs[j];
        }
      }
      ApplyRunsOneRound(pre, v, a, s, linkable, sinks);
      OneRoundStep(pre, e, v, a, s, Apply(pre, v, a, s, linkable, sinks), linkable, sinks);
    }
  }

  /** One more event, in the setting of ApplyRunsOneRound: a source reporting for the first time. */
  lemma OneRoundStep(pre: seq<Event>, e: Event, v: Option<Element>, a: Option<Element>, s: LinkState, p: LinkState,
                     linkable: Linkable, sinks: Sinks)
    requires SourcesBelow(v, a, s.nextId) && SourcesBelow(v, a, p.nextId)
    requires (v.Some? ==> v.value.id !in s.finished) && (a.Some? ==> a.value.id !in s.finished)
    requires v.Some? && a.Some? ==> v.value.id != a.value.id
    requires e.NoMorePads? ==> e !in pre
    requires p.finished == s.finished + Marks(pre, v, a)
    requires RoundState(p, (v.Some? || a.Some?) && Arrived(pre, v, a), s, LinkRound(v, a, s.nextId, linkable, sinks))
    ensures var r := OnEvent(e, v, a, p, linkable, sinks);
      && r.finished == s.finished + Marks(pre + [e], v, a)
      && RoundState(r, (v.Some? || a.Some?) && Arrived(pre + [e], v, a), s, LinkRound(v, a, s.nextId, linkable, sinks))
  {
    assert forall x :: x in pre + [e] <==> x in pre || x == e;
    if e.NoMorePads? {
      var o := LinkRound(v, a, s.nextId, linkable, sinks);
      var ran := (v.Some? || a.Some?) && Arrived(pre + [e], v, a);
      if e.kind == VideoKind && v.Some? {
        assert RoundState(Callback(v.value.id, v, a, p, linkable, sinks), ran, s, o);
      } else if e.kind == AudioKind && a.Some? {
        assert RoundState(Callback(a.value.id, v, a, p, linkable, sinks), ran, s, o);
      }
    }
  }

  /** The number of elements in `links` that end at `dst`, for the application's sinks. */
  function SinkLinks(links: seq<Link>, sinks: Sinks): nat {
    LinksTo(links, sinks.audio) + LinksTo(links, sinks.video)
  }

  /** The elements linking and the seek logic never touch, and which every play_file() ends with as it began. */
  datatype Untouched = Untouched(pipeline: set<ElementId>, videoSrc: Option<Element>, audioSrc: Option<Element>, counter: nat)

  /**
   * AppState (src/tmp.c:28-38): the shared pipeline's children, the current
   * bin and stream sources, the two sinks; with create_bin()'s static counter,
   * the "pad-creation-finished" marks set on elements, and the links made.
   * Element ids below `nextId` are taken.
   */
  class AppState {
    var pipeline: set<ElementId>
    var bin: Option<Bin>
    var videoSrc: Option<Element>
    var audioSrc: Option<Element>
    const sinks: Sinks
    var counter: nat
    var nextId: ElementId
    var finished: set<ElementId>
    var links: seq<Link>
    const linkable: Linkable
    const autoplug: Autoplug
    /** Every play_file() call so far, with its arguments. */
    ghost var calls: seq<ClipArgs>

    ghost predicate Valid()
      reads this
    {
      && sinks.audio != sinks.video && sinks.audio < nextId && sinks.video < nextId
      && (forall id :: id in pipeline ==> id < nextId)
      && (forall id :: id in finished ==> id < nextId)
      && (bin.Some? ==> bin.value.id < nextId)
      && (videoSrc.Some? ==> videoSrc.value.id < nextId)
      && (audioSrc.Some? ==> audioSrc.value.id < nextId)
    }

    /** The part of the state a clip's events change. */
    ghost function Linked(): LinkState
      reads this
      requires bin.Some?
    {
      LinkState(bin.value, links, finished, nextId)
    }

    ghost function UntouchedPart(): Untouched
      reads this
    {
      Untouched(pipeline, videoSrc, audioSrc, counter)
    }

    /** The set-up of main() (src/tmp.c:398-402): a pipeline holding just the audio and the video sink. */
    constructor (linkable: Linkable, autoplug: Autoplug)
      ensures Valid()
      ensures pipeline == {sinks.audio, sinks.video} && bin == None && videoSrc == None && audioSrc == None
      ensures counter == 0 && finished == {} && links == [] && calls == []
      ensures this.linkable == linkable && this.autoplug == autoplug
    {
      sinks := Sinks(0, 1);
      pipeline := {0, 1};
      nextId := 2;
      bin, videoSrc, audioSrc := None, None, None;
      counter := 0;
      finished := {};
      links := [];
      this.linkable := linkable;
      this.autoplug := autoplug;
      calls := [];
    }

    /** add_file_play_element() (src/tmp.c:188-204): a filesrc and a decoder added to the bin and linked. */
    method AddFilePlayElement(fname: string) returns (decoder: Element)
      requires bin.Some?
      modifies this`bin, this`links, this`nextId
      ensures var br := FilePlay(fname, old(nextId), linkable, autoplug);
        && Some(decoder) == br.src && nextId == br.nextId && links == old(links) + br.links
        && bin == Some(old(bin).value.(members := old(bin).value.members + br.members))
    {
      var filesrc := Element(nextId, FileSrcTypeName, false, [], []);
      var decoded := autoplug(fname);
      decoder := Element(nextId + 1, DecodeBinTypeName, true, decoded.srcPads, decoded.children);
      bin := Some(bin.value.(members := bin.value.members + [filesrc, decoder]));
      if linkable(filesrc.id, decoder.id) {
        links := links + [Link(filesrc.id, decoder.id)];
      }
      nextId := nextId + 2;
    }

    /** The muted tone of create_bin()'s silence branch (src/tmp.c:224-233), added to the bin and linked. */
    method AddTone() returns (volume: Element)
      requires bin.Some?
      modifies this`bin, this`links, this`nextId
      ensures var br := Tone(old(nextId), linkable);
        && Some(volume) == br.src && nextId == br.nextId && links == old(links) + br.links
        && bin == Some(old(bin).value.(members := old(bin).value.members + br.members))
    {
      var testsrc := Element(nextId, AudioTestSrcTypeName, false, [Named("audio/x-raw-int")], []);
      volume := Element(nextId + 1, VolumeTypeName, false, VolumeSrcPads, []);
      bin := Some(bin.value.(members := bin.value.members + [testsrc, volume]));
      if linkable(testsrc.id, volume.id) {
        links := links + [Link(testsrc.id, volume.id)];
      }
      nextId := nextId + 2;
    }

    /** The part of create_bin() that fills the new, empty bin (src/tmp.c:218-236). */
    method AddBranches(video: Option<string>, audio: Option<string>)
      requires bin.Some?
      modifies this`bin, this`links, this`nextId, this`videoSrc, this`audioSrc
      ensures bin.Some?
      ensures var v := VideoBranch(video, old(nextId), linkable, autoplug);
        var a := AudioBranch(audio, v.nextId, linkable, autoplug);
        && videoSrc == v.src && audioSrc == a.src && nextId == a.nextId
        && links == old(links) + (v.links + a.links)
        && bin == Some(old(bin).value.(members := old(bin).value.members + (v.members + a.members)))
    {
      ghost var b0 := bin.value;
      ghost var v := VideoBranch(video, nextId, linkable, autoplug);
      videoSrc := None;
      if NonEmpty(video) {
        var decoder := AddFilePlayElement(video.value);
        videoSrc := Some(decoder);
      } else {
        AppendEmpty(links);
        AppendEmpty(b0.members);
      }
      ghost var l1 := links;
      ghost var b1 := bin.value;
      ghost var a := AudioBranch(audio, nextId, linkable, autoplug);
      audioSrc := None;
      if NonEmpty(audio) {
        if audio.value == ConfFile.SilenceToken {
          var volume := AddTone();
          audioSrc := Some(volume);
        } else {
          var decoder := AddFilePlayElement(audio.value);
          audioSrc := Some(decoder);
        }
      } else {
        AppendEmpty(l1);
        AppendEmpty(b1.members);
      }
      AppendAssoc(b0.members, v.members, a.members);
      AppendAssoc(old(links), v.links, a.links);
    }

    /** create_bin() (src/tmp.c:206-239). */
    method CreateBin(video: Option<string>, audio: Option<string>, duration: int) returns (newBin: Bin)
      modifies this`bin, this`links, this`nextId, this`videoSrc, this`audioSrc, this`counter
      ensures var b := BuildBin(video, audio, old(counter), old(nextId), linkable, autoplug);
        && newBin == b.bin && bin == Some(b.bin) && videoSrc == b.videoSrc && audioSrc == b.audioSrc
        && links == old(links) + b.links && nextId == b.nextId
      ensures counter == old(counter) + 1
    {
      var name := Decimal.BinName(counter);
      counter := counter + 1;
      bin := Some(Bin(nextId, name, []));
      nextId := nextId + 1;
      ghost var v := VideoBranch(video, nextId, linkable, autoplug);
      ghost var a := AudioBranch(audio, v.nextId, linkable, autoplug);
      AppendEmpty(v.members + a.members);
      AddBranches(video, audio);
      newBin := bin.value;
    }

    /** maybe_add_freeze() (src/tmp.c:112-136). */
    method MaybeAddFreeze(src: Element) returns (ret: Element)
      requires bin.Some? && src.id < nextId
      modifies this`bin, this`links, this`nextId
      ensures var f := MaybeFreeze(src, old(nextId), linkable);
        && ret == f.end && links == old(links) + f.growth.links && nextId == f.growth.nextId
        && bin == Some(old(bin).value.(members := old(bin).value.members + f.growth.added))
    {
      ret := src;
      var typefind := FindTypefind(src);
      if typefind.Some? {
        var isImage := HasSrcPad(typefind.value, ["image"], [false]);
        if isImage[0] {
          ret := FreezeElement(nextId);
          nextId := nextId + 1;
          bin := Some(bin.value.(members := bin.value.members + [ret]));
          if linkable(src.id, ret.id) {
            links := links + [Link(src.id, ret.id)];
          }
        }
      }
      if ret == src {
        AppendEmpty(old(bin).value.members);
        AppendEmpty(old(links));
      }
    }

    /** do_one_link() (src/tmp.c:138-168); the two flags are passed in and handed back. */
    method DoOneLink(src: Element, hadAudio: bool, hadVideo: bool) returns (hadAudio': bool, hadVideo': bool)
      requires bin.Some? && src.id < nextId
      modifies this`bin, this`links, this`nextId
      ensures var o := OneLink(src, hadAudio, hadVideo, old(nextId), linkable, sinks);
        && hadAudio' == o.hadAudio && hadVideo' == o.hadVideo
        && links == old(links) + o.growth.links && nextId == o.growth.nextId
        && bin == Some(old(bin).value.(members := old(bin).value.members + o.growth.added))
    {
      var wanted := ["audio", "video"];
      var flags := HasSrcPad(src, wanted, [false, false]);
      var srcHasAudio, srcHasVideo := flags[0], flags[1];
      assert srcHasAudio == HasPadPrefixed(src.srcPads, "audio") by { assert wanted[0] == "audio"; }
      assert srcHasVideo == HasPadPrefixed(src.srcPads, "video") by { assert wanted[1] == "video"; }
      hadAudio', hadVideo' := hadAudio, hadVideo;
      ghost var m0 := bin.value.members;
      if srcHasVideo && !hadVideo' {
        ghost var f := MaybeFreeze(src, nextId, linkable);
        var realSrc := MaybeAddFreeze(src);
        if linkable(realSrc.id, sinks.video) {
          links := links + [Link(realSrc.id, sinks.video)];
          hadVideo' := true;
          AppendEmpty(f.growth.added);
          AppendAssoc(old(links), f.growth.links, [Link(realSrc.id, sinks.video)]);
        }
      } else {
        AppendEmpty(m0);
        AppendEmpty(links);
      }
      ghost var m1 := bin.value.members;
      ghost var l1 := links;
      if srcHasAudio && !hadAudio' {
        if linkable(src.id, sinks.audio) {
          links := links + [Link(src.id, sinks.audio)];
          hadAudio' := true;
          AppendEmpty(m1);
        }
      }
      assert l1 == links || links == l1 + [Link(src.id, sinks.audio)];
      OneLinkAddsOnlyFreeze(src, hadAudio, hadVideo, old(nextId), linkable, sinks);
    }

    /**
     * The linking round of link_to_sink() (src/tmp.c:178-184): do_one_link()
     * on the video source, then on the audio source, sharing two flags.
     */
    method RunLinkRound()
      requires bin.Some? && (videoSrc.Some? ==> videoSrc.value.id < nextId) && (audioSrc.Some? ==> audioSrc.value.id < nextId)
      modifies this`bin, this`links, this`nextId
      ensures var o := LinkRound(old(videoSrc), old(audioSrc), old(nextId), linkable, sinks);
        && links == old(links) + o.growth.links && nextId == o.growth.nextId
        && bin == Some(old(bin).value.(members := old(bin).value.members + o.growth.added))
    {
      var hadAudio, hadVideo := false, false;
      ghost var o := LinkRound(videoSrc, audioSrc, nextId, linkable, sinks);
      ghost var m0, l0 := bin.value.members, links;
      ghost var ov := Offer(Growth([], [], nextId), false, false);
      if videoSrc.Some? {
        ov := OneLink(videoSrc.value, false, false, nextId, linkable, sinks);
        hadAudio, hadVideo := DoOneLink(videoSrc.value, hadAudio, hadVideo);
      } else {
        AppendEmpty(m0);
        AppendEmpty(l0);
      }
      ghost var m1, l1 := bin.value.members, links;
      assert m1 == m0 + ov.growth.added && l1 == l0 + ov.growth.links;
      assert nextId == ov.growth.nextId && hadAudio == ov.hadAudio && hadVideo == ov.hadVideo;
      if audioSrc.Some? {
        ghost var oa := OneLink(audioSrc.value, ov.hadAudio, ov.hadVideo, ov.growth.nextId, linkable, sinks);
        assert o.growth == Then(ov.growth, oa.growth);
        hadAudio, hadVideo := DoOneLink(audioSrc.value, hadAudio, hadVideo);
        AppendAssoc(m0, ov.growth.added, oa.growth.added);
        AppendAssoc(l0, ov.growth.links, oa.growth.links);
      } else {
        assert o == ov;
      }
    }

    /**
     * link_to_sink() (src/tmp.c:170-186), the "no-more-pads" callback of
     * `decoder`: it always marks the decoder finished, and runs a linking
     * round only once every source the clip has is marked.
     */
    method LinkToSink(decoder: ElementId)
      requires bin.Some? && (videoSrc.Some? ==> videoSrc.value.id < nextId) && (audioSrc.Some? ==> audioSrc.value.id < nextId)
      modifies this`bin, this`links, this`nextId, this`finished
      ensures finished == old(finished) + {decoder}
      ensures Joined(videoSrc, audioSrc, finished) ==>
        var o := LinkRound(videoSrc, audioSrc, old(nextId), linkable, sinks);
        && links == old(links) + o.growth.links && nextId == o.growth.nextId
        && bin == Some(old(bin).value.(members := old(bin).value.members + o.growth.added))
      ensures !Joined(videoSrc, audioSrc, finished) ==> links == old(links) && nextId == old(nextId) && bin == old(bin)
    {
      finished := finished + {decoder};
      if Joined(videoSrc, audioSrc, finished) {
        RunLinkRound();
      }
    }

    /**
     * One pass of play_file()'s loop (src/tmp.c:301-345) on the next event:
     * a decoder's callback runs link_to_sink() on it, ASYNC_DONE runs
     * send_seek_event(), and ERROR, EOS or SEGMENT_DONE end the loop.
     */
    method HandleEvent(e: Event, seekSent: bool) returns (keepLooping: bool, seekSent': bool, ghost sent: seq<bool>)
      requires Valid() && bin.Some?
      modifies this`bin, this`links, this`nextId, this`finished
      ensures Valid() && bin.Some?
      ensures keepLooping <==> !IsTerminal(e)
      ensures var r := SeekOn(e, seekSent);
        seekSent' == r.seekSent && sent == (if r.sent then [e.msg.seekAccepted] else [])
      ensures Linked() == OnEvent(e, videoSrc, audioSrc, old(Linked()), linkable, sinks)
    {
      keepLooping, seekSent', sent := true, seekSent, [];
      match e
      case NoMorePads(kind) =>
        if kind == VideoKind && videoSrc.Some? {
          LinkToSink(videoSrc.value.id);
        } else if kind == AudioKind && audioSrc.Some? {
          LinkToSink(audioSrc.value.id);
        }
      case Posted(msg) =>
        match msg
        case AsyncDone(accepted) =>
          var r := SendSeekEvent(seekSent, accepted);
          if r.sent {
            sent := [accepted];
          }
          seekSent' := r.seekSent;
        case ErrorMessage =>
          keepLooping := false;
        case Eos =>
          keepLooping := false;
        case SegmentDone =>
          keepLooping := false;
        case _ =>
    }

    /**
     * The loop of play_file() (src/tmp.c:299-346) over the clip's events.
     * `consumed` is how many events it took and `seeks` the outcomes of the
     * seek events it sent.
     */
    method BusLoop(events: seq<Event>) returns (consumed: nat, ghost seeks: seq<bool>)
      requires Valid() && bin.Some?
      modifies this`bin, this`links, this`nextId, this`finished
      ensures Valid() && bin.Some?
      ensures consumed == LoopLength(events) && seeks == LoopSeeks(events, false)
      ensures Linked() == Apply(events[..consumed], videoSrc, audioSrc, old(Linked()), linkable, sinks)
    {
      var seekSent := false;
      var keepLooping := true;
      var i := 0;
      seeks := [];
      while keepLooping
        invariant Valid() && bin.Some?
        invariant 0 <= i <= |events|
        invariant Linked() == Apply(events[..i], videoSrc, audioSrc, old(Linked()), linkable, sinks)
        invariant keepLooping ==>
          && LoopLength(events) == i + LoopLength(events[i..])
          && LoopSeeks(events, false) == seeks + LoopSeeks(events[i..], seekSent)
        invariant !keepLooping ==> i == LoopLength(events) && seeks == LoopSeeks(events, false)
        decreases |events| - i, keepLooping
      {
        if i == |events| {
          break;
        }
        var e := events[i];
        LoopStep(events, i, seekSent);
        ApplySnoc(events, i, videoSrc, audioSrc, old(Linked()), linkable, sinks);
        i := i + 1;
        ghost var sent;
        keepLooping, seekSent, sent := HandleEvent(e, seekSent);
        AppendAssoc(seeks, sent, LoopSeeks(events[i..], seekSent));
        seeks := seeks + sent;
      }
      consumed := i;
    }

    /**
     * The start of a clip in play_file() (src/tmp.c:293-297): create_bin()
     * and the new bin added to the pipeline. Its links stay inside the bin,
     * and a clip with audio cannot have run a linking round yet.
     */
    method StartClip(video: Option<string>, audio: Option<string>, duration: int) returns (newBin: Bin)
      requires Valid()
      modifies this`bin, this`links, this`nextId, this`videoSrc, this`audioSrc, this`counter, this`pipeline
      ensures Valid() && bin == Some(newBin)
      ensures var b := BuildBin(video, audio, old(counter), old(nextId), linkable, autoplug);
        && newBin == b.bin && videoSrc == b.videoSrc && audioSrc == b.audioSrc
        && links == old(links) + b.links && nextId == b.nextId && counter == old(counter) + 1
      ensures newBin.id !in old(pipeline) && pipeline == old(pipeline) + {newBin.id}
      ensures NonEmpty(audio) ==> audioSrc.Some? && audioSrc.value.id !in finished
      ensures SinkLinks(links[|old(links)|..], sinks) == 0
    {
      ghost var b := BuildBin(video, audio, counter, nextId, linkable, autoplug);
      BuildBinSources(video, audio, counter, nextId, linkable, autoplug);
      newBin := CreateBin(video, audio, duration);
      assert links[|old(links)|..] == b.links;
      BuildBinLinksAvoidSinks(video, audio, old(counter), old(nextId), linkable, autoplug, sinks);
      pipeline := pipeline + {newBin.id};
    }

    /**
     * The part of play_file() that runs once the pipeline has a bus
     * (src/tmp.c:287-350): the bin `b` that create_bin() builds is added, the
     * loop runs over `events`, and the same bin is removed again.
     */
    method PlayOnBus(video: Option<string>, audio: Option<string>, duration: int, events: seq<Event>, ghost b: Built)
      returns (consumed: nat, ghost seeks: seq<bool>)
      requires Valid() && b == BuildBin(video, audio, counter, nextId, linkable, autoplug)
      modifies this`bin, this`links, this`nextId, this`videoSrc, this`audioSrc, this`counter, this`pipeline, this`finished
      ensures Valid() && pipeline == old(pipeline)
      ensures consumed == LoopLength(events) && seeks == LoopSeeks(events, false)
      ensures counter == old(counter) + 1 && b.bin.id !in pipeline && videoSrc == b.videoSrc && audioSrc == b.audioSrc
      ensures var r := Apply(events[..consumed], b.videoSrc, b.audioSrc, ClipStart(b, old(links), old(finished)), linkable, sinks);
        bin == Some(r.bin) && links == r.links && finished == r.finished && nextId == r.nextId
      ensures old(links) <= links
      ensures CallbacksOnce(events[..consumed]) ==>
        ClipLinked(links[|old(links)|..], b, Arrived(events[..consumed], b.videoSrc, b.audioSrc),
                   LinkRound(b.videoSrc, b.audioSrc, b.nextId, linkable, sinks), sinks)
      ensures NonEmpty(audio) && NoMorePads(AudioKind) !in events[..consumed] ==> SinkLinks(links[|old(links)|..], sinks) == 0
    {
      ghost var links0, finished0, nextId0 := links, finished, nextId;
      var newBin := StartClip(video, audio, duration);
      consumed, seeks := BusLoop(events);
      pipeline := pipeline - {newBin.id};
      ClipOutcome(b, video, audio, old(counter), links0, finished0, nextId0, events[..consumed], linkable, autoplug, sinks);
    }

    /**
     * play_file() (src/tmp.c:280-360). `bus` is None when the pipeline has no
     * bus, and otherwise everything that happens while the clip plays.
     * `consumed` is how many events the loop took and `seeks` the outcomes
     * of the seek events it sent.
     */
    method PlayFile(video: Option<string>, audio: Option<string>, duration: int, bus: Option<seq<Event>>)
      returns (ghost consumed: nat, ghost seeks: seq<bool>)
      requires Valid()
      modifies this
      ensures Valid()
      ensures calls == old(calls) + [ClipArgs(video, audio, duration)]
      ensures pipeline == old(pipeline)
      ensures old(links) <= links
      ensures bus.None? ==>
        && UntouchedPart() == old(UntouchedPart()) && links == old(links) && bin == old(bin)
        && finished == old(finished) && nextId == old(nextId)
      ensures bus.Some? ==> consumed == LoopLength(bus.value) && seeks == LoopSeeks(bus.value, false)
      ensures bus.Some? ==>
        var b := BuildBin(video, audio, old(counter), old(nextId), linkable, autoplug);
        var r := Apply(bus.value[..consumed], b.videoSrc, b.audioSrc, ClipStart(b, old(links), old(finished)), linkable, sinks);
        && counter == old(counter) + 1 && b.bin.id !in pipeline
        && videoSrc == b.videoSrc && audioSrc == b.audioSrc
        && bin == Some(r.bin) && links == r.links && finished == r.finished && nextId == r.nextId
      ensures bus.Some? && CallbacksOnce(bus.value[..consumed]) ==>
        var b := BuildBin(video, audio, old(counter), old(nextId), linkable, autoplug);
        ClipLinked(links[|old(links)|..], b, Arrived(bus.value[..consumed], b.videoSrc, b.audioSrc),
                   LinkRound(b.videoSrc, b.audioSrc, b.nextId, linkable, sinks), sinks)
      ensures bus.Some? && NonEmpty(audio) && NoMorePads(AudioKind) !in bus.value[..consumed] ==>
        SinkLinks(links[|old(links)|..], sinks) == 0
    {
      calls := calls + [ClipArgs(video, audio, duration)];
      consumed, seeks := 0, [];
      if bus.None? {
        return;
      }
      ghost var b := BuildBin(video, audio, counter, nextId, linkable, autoplug);
      consumed, seeks := PlayOnBus(video, audio, duration, bus.value, b);
    }

    /** What main()'s loop needs of one play_file() call. */
    method PlayClip(video: Option<string>, audio: Option<string>, duration: int, bus: Option<seq<Event>>)
      requires Valid()
      modifies this
      ensures Valid()
      ensures calls == old(calls) + [ClipArgs(video, audio, duration)]
      ensures pipeline == old(pipeline)
      ensures counter == old(counter) + (if bus.Some? then 1 else 0)
      ensures old(links) <= links && old(nextId) <= nextId
      ensures bus.None? ==>
        && bin == old(bin) && links == old(links) && finished == old(finished) && nextId == old(nextId)
        && videoSrc == old(videoSrc) && audioSrc == old(audioSrc)
      ensures bus.Some? ==>
        && bin.Some? && bin.value.id == old(nextId) && bin.value.name == Decimal.BinName(old(counter))
        && old(nextId) < nextId
    {
      BuildBinFreshIds(video, audio, counter, nextId, linkable, autoplug);
      BuildBinSources(video, audio, counter, nextId, linkable, autoplug);
      ghost var b := BuildBin(video, audio, counter, nextId, linkable, autoplug);
      ghost var links0, finished0 := links, finished;
      ghost var consumed, seeks := PlayFile(video, audio, duration, bus);
      if bus.Some? {
        ApplyKeepsBin(bus.value[..consumed], b.videoSrc, b.audioSrc, ClipStart(b, links0, finished0), linkable, sinks);
      }
    }
  }

  /** What play_file() needs of the two sources create_bin() makes: an audio source for any audio name, both new and distinct. */
  lemma BuildBinSources(video: Option<string>, audio: Option<string>, counter: nat, nextId: ElementId,
                        linkable: Linkable, autoplug: Autoplug)
    ensures var b := BuildBin(video, audio, counter, nextId, linkable, autoplug);
      && b.bin.id == nextId && nextId < b.nextId
      && (NonEmpty(audio) ==> b.audioSrc.Some?)
      && (b.videoSrc.Some? ==> nextId < b.videoSrc.value.id < b.nextId)
      && (b.audioSrc.Some? ==> nextId < b.audioSrc.value.id < b.nextId)
      && (b.videoSrc.Some? && b.audioSrc.Some? ==> b.videoSrc.value.id != b.audioSrc.value.id)
  {
    BuildBinFreshIds(video, audio, counter, nextId, linkable, autoplug);
    BuildBinSelectsBranches(video, audio, counter, nextId, linkable, autoplug);
  }

  /** No link create_bin() makes inside the bin goes to a sink, since the sinks are older than the bin. */
  lemma BuildBinLinksAvoidSinks(video: Option<string>, audio: Option<string>, counter: nat, nextId: ElementId,
                                linkable: Linkable, autoplug: Autoplug, sinks: Sinks)
    requires sinks.audio < nextId && sinks.video < nextId
    ensures SinkLinks(BuildBin(video, audio, counter, nextId, linkable, autoplug).links, sinks) == 0
  {
    BuildBinFreshIds(video, audio, counter, nextId, linkable, autoplug);
    InnerLinksAvoidSinks(BuildBin(video, audio, counter, nextId, linkable, autoplug), sinks, nextId);
  }

  lemma InnerLinksAvoidSinks(b: Built, sinks: Sinks, nextId: ElementId)
    requires sinks.audio < nextId && sinks.video < nextId
    requires forall k :: 0 <= k < |b.links| ==> b.links[k].dst > nextId
    ensures SinkLinks(b.links, sinks) == 0
  {
    LinksToNone(b.links, sinks.audio);
    LinksToNone(b.links, sinks.video);
  }

  lemma {:induction false} LinksToNone(links: seq<Link>, dst: ElementId)
    requires forall k :: 0 <= k < |links| ==> links[k].dst != dst
    ensures LinksTo(links, dst) == 0
  {
    if links != [] {
      LinksToNone(links[1..], dst);
    }
  }

  /** The state a clip's events start from: create_bin()'s bin and links, after the links and marks made so far. */
  function ClipStart(b: Built, links: seq<Link>, finished: set<ElementId>): LinkState {
    LinkState(b.bin, links + b.links, finished, b.nextId)
  }

  /**
   * The links `made` by a clip whose bin is `b`: the bin's own links, then,
   * once every decoder has reported (`arrived`), the links of the linking
   * round `o`, with each sink linked once if its flag ends up set and never
   * otherwise; before that, no sink is linked.
   */
  predicate ClipLinked(made: seq<Link>, b: Built, arrived: bool, o: Offer, sinks: Sinks) {
    if (b.videoSrc.Some? || b.audioSrc.Some?) && arrived then
      && made == b.links + o.growth.links
      && LinksTo(made, sinks.video) == (if o.hadVideo then 1 else 0)
      && LinksTo(made, sinks.audio) == (if o.hadAudio then 1 else 0)
    else made == b.links && SinkLinks(made, sinks) == 0
  }

  /**
   * The links one clip makes while it plays (src/tmp.c:170-186, 293-346):
   * with each decoder reporting at most once, its sinks are linked by exactly
   * one linking round once every decoder of the clip has reported, and not
   * at all before.
   */
  lemma ClipLinks(video: Option<string>, audio: Option<string>, counter: nat, links0: seq<Link>,
                  finished0: set<ElementId>, nextId0: ElementId, evs: seq<Event>,
                  linkable: Linkable, autoplug: Autoplug, sinks: Sinks)
    requires sinks.audio < nextId0 && sinks.video < nextId0 && sinks.audio != sinks.video
    requires forall id :: id in finished0 ==> id < nextId0
    requires CallbacksOnce(evs)
    ensures var b := BuildBin(video, audio, counter, nextId0, linkable, autoplug);
      var r := Apply(evs, b.videoSrc, b.audioSrc, ClipStart(b, links0, finished0), linkable, sinks);
      && |links0| <= |r.links|
      && ClipLinked(r.links[|links0|..], b, Arrived(evs, b.videoSrc, b.audioSrc),
                    LinkRound(b.videoSrc, b.audioSrc, b.nextId, linkable, sinks), sinks)
  {
    var b := BuildBin(video, audio, counter, nextId0, linkable, autoplug);
    BuildBinSources(video, audio, counter, nextId0, linkable, autoplug);
    BuildBinLinksAvoidSinks(video, audio, counter, nextId0, linkable, autoplug, sinks);
    BuiltClipLinks(b, links0, finished0, nextId0, evs, linkable, sinks);
  }

  /** ClipLinks and SilentAudioLinksNothing together, for the bin `b` create_bin() builds. */
  lemma ClipOutcome(b: Built, video: Option<string>, audio: Option<string>, counter: nat, links0: seq<Link>,
                    finished0: set<ElementId>, nextId0: ElementId, evs: seq<Event>,
                    linkable: Linkable, autoplug: Autoplug, sinks: Sinks)
    requires b == BuildBin(video, audio, counter, nextId0, linkable, autoplug)
    requires sinks.audio < nextId0 && sinks.video < nextId0 && sinks.audio != sinks.video
    requires forall id :: id in finished0 ==> id < nextId0
    ensures var r := Apply(evs, b.videoSrc, b.audioSrc, ClipStart(b, links0, finished0), linkable, sinks);
      && |links0| <= |r.links|
      && (CallbacksOnce(evs) ==>
            ClipLinked(r.links[|links0|..], b, Arrived(evs, b.videoSrc, b.audioSrc),
                       LinkRound(b.videoSrc, b.audioSrc, b.nextId, linkable, sinks), sinks))
      && (NonEmpty(audio) && NoMorePads(AudioKind) !in evs ==> SinkLinks(r.links[|links0|..], sinks) == 0)
  {
    if CallbacksOnce(evs) {
      ClipLinks(video, audio, counter, links0, finished0, nextId0, evs, linkable, autoplug, sinks);
    }
    if NonEmpty(audio) && NoMorePads(AudioKind) !in evs {
      SilentAudioLinksNothing(video, audio, counter, links0, finished0, nextId0, evs, linkable, autoplug, sinks);
    }
  }

  /** ClipLinks for any bin whose sources are newer than every marked decoder and whose own links avoid the sinks. */
  lemma BuiltClipLinks(b: Built, links0: seq<Link>, finished0: set<ElementId>, nextId0: ElementId, evs: seq<Event>,
                       linkable: Linkable, sinks: Sinks)
    requires SourcesBelow(b.videoSrc, b.audioSrc, b.nextId)
    requires sinks.audio < nextId0 && sinks.video < nextId0 && sinks.audio != sinks.video && nextId0 <= b.nextId
    requires forall id :: id in finished0 ==> id < nextId0
    requires (b.videoSrc.Some? ==> nextId0 <= b.videoSrc.value.id) && (b.audioSrc.Some? ==> nextId0 <= b.audioSrc.value.id)
    requires b.videoSrc.Some? && b.audioSrc.Some? ==> b.videoSrc.value.id != b.audioSrc.value.id
    requires SinkLinks(b.links, sinks) == 0
    requires CallbacksOnce(evs)
    ensures var r := Apply(evs, b.videoSrc, b.audioSrc, ClipStart(b, links0, finished0), linkable, sinks);
      && |links0| <= |r.links|
      && ClipLinked(r.links[|links0|..], b, Arrived(evs, b.videoSrc, b.audioSrc),
                    LinkRound(b.videoSrc, b.audioSrc, b.nextId, linkable, sinks), sinks)
  {
    var s := ClipStart(b, links0, finished0);
    var o := LinkRound(b.videoSrc, b.audioSrc, b.nextId, linkable, sinks);
    var r := Apply(evs, b.videoSrc, b.audioSrc, s, linkable, sinks);
    if (b.videoSrc.Some? || b.audioSrc.Some?) && Arrived(evs, b.videoSrc, b.audioSrc) {
      ApplyRunsOneRound(evs, b.videoSrc, b.audioSrc, s, linkable, sinks);
      LinkRoundLinksEachSinkOnce(b.videoSrc, b.audioSrc, b.nextId, linkable, sinks);
      RoundLinksMade(b, links0, r.links, o, sinks);
    } else {
      assert r.links[|links0|..] == b.links by {
        ApplyRunsOneRound(evs, b.videoSrc, b.audioSrc, s, linkable, sinks);
      }
    }
  }

  /**
   * If the audio decoder of a clip with audio never reports, link_to_sink()'s
   * guard stays shut: the clip's only links are its bin's own, and no sink
   * is linked while it plays.
   */
  lemma SilentAudioLinksNothing(video: Option<string>, audio: Option<string>, counter: nat, links0: seq<Link>,
                                finished0: set<ElementId>, nextId0: ElementId, evs: seq<Event>,
                                linkable: Linkable, autoplug: Autoplug, sinks: Sinks)
    requires sinks.audio < nextId0 && sinks.video < nextId0
    requires forall id :: id in finished0 ==> id < nextId0
    requires NonEmpty(audio) && NoMorePads(AudioKind) !in evs
    ensures var b := BuildBin(video, audio, counter, nextId0, linkable, autoplug);
      var r := Apply(evs, b.videoSrc, b.audioSrc, ClipStart(b, links0, finished0), linkable, sinks);
      && |links0| <= |r.links| && r.links[|links0|..] == b.links && SinkLinks(r.links[|links0|..], sinks) == 0
  {
    var b := BuildBin(video, audio, counter, nextId0, linkable, autoplug);
    BuildBinSources(video, audio, counter, nextId0, linkable, autoplug);
    BuildBinLinksAvoidSinks(video, audio, counter, nextId0, linkable, autoplug, sinks);
    var r := Apply(evs, b.videoSrc, b.audioSrc, ClipStart(b, links0, finished0), linkable, sinks);
    assert b.audioSrc.value.id !in r.finished;
    assert r.links[|links0|..] == b.links;
  }

  /** The links of a clip that ran one linking round `o` after its bin's own links. */
  lemma RoundLinksMade(b: Built, links0: seq<Link>, links: seq<Link>, o: Offer, sinks: Sinks)
    requires b.videoSrc.Some? || b.audioSrc.Some?
    requires links == links0 + b.links + o.growth.links
    requires SinkLinks(b.links, sinks) == 0
    requires LinksTo(o.growth.links, sinks.video) == (if o.hadVideo then 1 else 0)
    requires LinksTo(o.growth.links, sinks.audio) == (if o.hadAudio then 1 else 0)
    ensures |links0| <= |links| && ClipLinked(links[|links0|..], b, true, o, sinks)
  {
    assert links[|links0|..] == b.links + o.growth.links;
    LinksToAppend(b.links, o.growth.links, sinks.video);
    LinksToAppend(b.links, o.growth.links, sinks.audio);
  }

  /**
   * The clips main() plays from the arguments after the program name, one
   * per triple: video, audio, duration. main() is only defined when the
   * arguments come in whole triples, so a trailing partial triple is not read.
   */
  function ArgClips(args: seq<string>): (r: seq<ClipArgs>)
    ensures forall k :: 0 <= k < |r| ==> r[k].video.Some? && r[k].audio.Some?
  {
    if |args| < 3 then []
    else [ClipArgs(Some(args[0]), Some(args[1]), Decimal.Atoi(args[2]))] + ArgClips(args[3..])
  }

  lemma {:induction false} ArgClipsAppend(a: seq<string>, b: seq<string>, triples: nat)
    requires |a| == 3 * triples
    ensures ArgClips(a + b) == ArgClips(a) + ArgClips(b)
  {
    if triples == 0 {
      assert a + b == b;
    } else {
      assert (a + b)[3..] == a[3..] + b;
      ArgClipsAppend(a[3..], b, triples - 1);
    }
  }

  /** There is one clip per argument triple. */
  lemma {:induction false} ArgClipsLength(args: seq<string>, triples: nat)
    requires |args| == 3 * triples
    ensures |ArgClips(args)| == triples
  {
    if triples > 0 {
      ArgClipsLength(args[3..], triples - 1);
    }
  }

  /** Clip k is played from arguments 3k, 3k + 1 and 3k + 2. */
  lemma {:induction false} ArgClipAt(args: seq<string>, k: nat)
    requires 3 * k + 2 < |args|
    ensures k < |ArgClips(args)|
    ensures ArgClips(args)[k] == ClipArgs(Some(args[3 * k]), Some(args[3 * k + 1]), Decimal.Atoi(args[3 * k + 2]))
  {
    var rest := args[3..];
    var first := ClipArgs(Some(args[0]), Some(args[1]), Decimal.Atoi(args[2]));
    assert ArgClips(args) == [first] + ArgClips(rest);
    if k > 0 {
      var j := 3 * (k - 1);
      ArgClipAt(rest, k - 1);
      assert rest[j] == args[3 * k] && rest[j + 1] == args[3 * k + 1] && rest[j + 2] == args[3 * k + 2];
    }
  }

  /**
   * The argv indices main()'s loop (src/tmp.c:406-407) reads as written, from
   * `nix` on: argv[nix], argv[nix + 1] and argv[nix + 2] for every nix < argc,
   * stepping by three.
   */
  function MainReads(argc: nat, nix: nat): (r: seq<nat>)
    ensures argc <= nix ==> r == []
    ensures nix < argc ==> argc <= nix + |r| < argc + 3
    ensures forall k :: 0 <= k < |r| ==> r[k] == nix + k
    decreases argc - nix
  {
    if nix < argc then [nix, nix + 1, nix + 2] + MainReads(argc, nix + 3) else []
  }

  /** Every index in `indices` names a real argument: it lies below argc. */
  predicate OnlyArguments(indices: seq<nat>, argc: nat) {
    forall i :: i in indices ==> i < argc
  }

  lemma OnlyArgumentsAppend(a: seq<nat>, b: seq<nat>, argc: nat)
    ensures OnlyArguments(a + b, argc) <==> OnlyArguments(a, argc) && OnlyArguments(b, argc)
  {
    if OnlyArguments(a, argc) && OnlyArguments(b, argc) {
      forall i | i in a + b ensures i < argc {
        if i !in a {
          assert i in b;
        }
      }
    }
    if OnlyArguments(a + b, argc) {
      forall i | i in a ensures i < argc {
        assert i in a + b;
      }
      forall i | i in b ensures i < argc {
        assert i in a + b;
      }
    }
  }

  /**
   * As written, the loop reads only real arguments (indices below argc)
   * exactly when the arguments after the program name come in whole triples.
   */
  lemma {:induction false} MainReadsOnlyArguments(argc: nat, nix: nat)
    requires nix <= argc
    ensures OnlyArguments(MainReads(argc, nix), argc) <==> (argc - nix) % 3 == 0
    decreases argc - nix
  {
    if nix < argc {
      var head := [nix, nix + 1, nix + 2];
      var rest := MainReads(argc, nix + 3);
      OnlyArgumentsAppend(head, rest, argc);
      assert nix + 2 in head;
      if nix + 3 <= argc {
        MainReadsOnlyArguments(argc, nix + 3);
        assert (argc - nix) % 3 == (argc - (nix + 3)) % 3;
        assert OnlyArguments(head, argc);
      } else {
        assert !OnlyArguments(head, argc);
        assert argc - nix == 1 || argc - nix == 2;
      }
    }
  }

  /** With a single argument, main() reads argv[3], past the NULL that ends argv at argv[2]. */
  lemma MainOverreadsOnOneArgument()
    ensures MainReads(2, 1) == [1, 2, 3]
  {
    assert MainReads(2, 4) == [];
  }

  /** ArgClips reads whole triples only: as many as fit, leaving fewer than three arguments unread. */
  lemma {:induction false} ArgClipsWholeTriples(args: seq<string>)
    ensures 3 * |ArgClips(args)| <= |args| < 3 * |ArgClips(args)| + 3
  {
    if |args| >= 3 {
      ArgClipsWholeTriples(args[3..]);
    }
  }

  /** Playing one more argument triple appends its clip. */
  lemma ArgClipsExtend(args: seq<string>, i: nat, triples: nat)
    requires i == 3 * triples && i + 3 <= |args|
    ensures ArgClips(args[..i + 3]) == ArgClips(args[..i]) + [ClipArgs(Some(args[i]), Some(args[i + 1]), Decimal.Atoi(args[i + 2]))]
  {
    var triple := args[i..i + 3];
    assert args[..i + 3] == args[..i] + triple;
    ArgClipsAppend(args[..i], triple, triples);
    ArgClipsOne(triple);
  }

  lemma ArgClipsOne(triple: seq<string>)
    requires |triple| == 3
    ensures ArgClips(triple) == [ClipArgs(Some(triple[0]), Some(triple[1]), Decimal.Atoi(triple[2]))]
  {
    assert triple[3..] == [];
  }

  /**
   * main() (src/tmp.c:388-416). Nothing is played unless there is at least
   * one argument and the pipeline could be made (`pipelineCreated`); then
   * every argument triple is handed to play_file() in order, clip k on bus
   * `buses[k]`, and the pipeline ends holding just the two sinks again.
   */
  method Run(argv: seq<string>, pipelineCreated: bool, linkable: Linkable, autoplug: Autoplug,
             buses: seq<Option<seq<Event>>>)
    returns (app: AppState?, ghost names: seq<string>)
    requires |argv| == 1 + 3 * |buses|
    ensures app != null <==> |argv| > 1 && pipelineCreated
    ensures app != null ==>
      && fresh(app) && app.Valid()
      && app.calls == ArgClips(argv[1..])
      && app.pipeline == {app.sinks.audio, app.sinks.video}
      && app.counter == WithBus(buses)
    ensures app == null ==> names == []
    ensures |names| == (if app == null then 0 else WithBus(buses))
    ensures forall k :: 0 <= k < |names| ==> names[k] == Decimal.BinName(k)
    ensures forall i, j :: 0 <= i < j < |names| ==> names[i] != names[j]
  {
    app, names := null, [];
    if |argv| > 1 && pipelineCreated {
      app := new AppState(linkable, autoplug);
      var args := argv[1..];
      var i := 0;
      var clip := 0;
      while i < |args|
        invariant 0 <= i <= |args| && i == 3 * clip && clip <= |buses|
        invariant fresh(app) && app.Valid()
        invariant app.calls == ArgClips(args[..i])
        invariant app.pipeline == {app.sinks.audio, app.sinks.video}
        invariant app.counter == WithBus(buses[..clip]) == |names|
        invariant forall k :: 0 <= k < |names| ==> names[k] == Decimal.BinName(k)
      {
        ArgClipsExtend(args, i, clip);
        WithBusSnoc(buses, clip);
        app.PlayClip(Some(args[i]), Some(args[i + 1]), Decimal.Atoi(args[i + 2]), buses[clip]);
        if buses[clip].Some? {
          names := names + [app.bin.value.name];
        }
        i := i + 3;
        clip := clip + 1;
      }
      assert args[..i] == args;
      assert buses[..clip] == buses;
    }
    forall i, j | 0 <= i < j < |names| ensures names[i] != names[j] {
      Decimal.BinNamesDistinct(i, j);
    }
  }

  /** How many of the clips have a bus, and so make a bin. */
  function WithBus(buses: seq<Option<seq<Event>>>): (n: nat)
    ensures n <= |buses|
  {
    if buses == [] then 0 else WithBus(buses[..|buses| - 1]) + (if buses[|buses| - 1].Some? then 1 else 0)
  }

  /** One more clip adds one bin exactly when it has a bus. */
  lemma WithBusSnoc(buses: seq<Option<seq<Event>>>, i: nat)
    requires i < |buses|
    ensures WithBus(buses[..i + 1]) == WithBus(buses[..i]) + (if buses[i].Some? then 1 else 0)
  {
    assert buses[..i + 1][..i] == buses[..i];
  }
}
