# hildon-welcome: the clip iterator and the sequence player, in Dafny

hildon-welcome plays a sequence of short clips at boot. Each clip is a video file, an audio file (or the silence token `s`), and a duration. This project models the two pieces of its C code that hold the logic, and proves what they promise:

- **The clip-configuration iterator** (`src/conffile.c`). It hands out clip descriptions one call at a time:
  - the factory file `default.conf` first, on the very first call only;
  - then every other file of the configuration directory, in listing order, skipping files that do not load.

  Relative media names are resolved against `DATADIR/hildon-welcome/media`, and the silence token is left alone. The iterator is a class with the `new` flag and the directory cursor as fields. Its directory loop is a method with a `while` loop, proved against a recursive specification function.
- **The sequence player** (`src/tmp.c`). It keeps one shared pipeline holding an audio sink and a video sink. For each clip it:
  - builds a bin (a file source and decoder per stream, or a muted tone for silence);
  - adds the bin to the pipeline and polls the bus until an error, end-of-stream or segment-done message;
  - removes the bin again.

  When every decoder of the clip reports "no-more-pads", a linking round connects the decoded streams to the sinks. The model takes those callbacks one at a time, so a clip whose decoders each report once gets exactly one round (see "## Left out"). That round inserts a freeze element in front of still images and links each sink at most once. `AppState` is a class whose fields are the pipeline's children, the current bin and sources, the counter behind the bin names, the decoders marked finished, and the links made.

GStreamer, GLib and the file system are given, not modelled. They enter the model as follows:
- Loading a key file is an oracle from a path to the values found in it.
- A directory listing is a sequence of names read through a cursor.
- What a decoder ends up exposing for a file is an oracle (`autoplug`).
- Whether a link succeeds is an oracle on the two element ids (`linkable`).
- Everything that happens while a clip plays is a finite sequence of events: the bus messages the loop polls, interleaved with the decoders' "no-more-pads" callbacks. Nothing assumes those callbacks ever arrive.

Files:
- `options.dfy`: the Option type.
- `decimal.dfy`: the `%d` text of the bin names, and `atoi()`.
- `conffile.dfy`: the iterator.
- `linking.dfy`: the element-level decisions of `tmp.c` (pad caps, type-finder, freeze, linking round).
- `player.dfy`: `create_bin()`, `play_file()`, `main()`, and the state they share.

The duration is passed to `play_file()` and `create_bin()` (src/tmp.c:207, 281) and never used there, and a clip ends only on a bus message. So the model has no timer. It records the duration with each clip and gives it no effect.

## Model

| member | source | states |
|---|---|---|
| ConfFile.ResolveVideo | src/conffile.c:70-76 | The "filename" value after rewriting: present exactly when the key is, and never relative. |
| ConfFile.ResolveAudio | src/conffile.c:77-83 | The "sound" value after rewriting: present exactly when the key is, and either never relative or the silence token. |
| ConfFile.ReadConfFile | src/conffile.c:61-93 | read_conf_file() fails exactly when the key file does not load. Otherwise the duration is the file's value, video and audio are present exactly when their keys are, and they come out resolved: video never relative, audio never relative or the silence token. |
| ConfFile.ResolveVideoKeepsName | src/conffile.c:71-76 | The "filename" value stays present or absent. The name is always a suffix of the result. The name is rewritten exactly when it is non-empty and does not start with '/', and the result is then never relative. |
| ConfFile.ResolveAudioKeepsName | src/conffile.c:78-83 | The same for "sound", except that the exact one-character string "s" is never rewritten. The result is never relative (it is empty or starts with '/'), or it is the silence token. |
| ConfFile.ResolveIdempotent | src/conffile.c:71-83 | Resolving a resolved name again changes nothing, for video and for audio. |
| ConfFile.MediaPathEndsWithName | src/conffile.c:73 | The media path built for a name starts with '/' and ends with the name. |
| ConfFile.ScanFrom | src/conffile.c:117-122 | The directory loop only moves the cursor forward and within the listing. Every entry it reads lies between the old and the new cursor. It ends at the end of the listing when nothing loads. |
| ConfFile.ScanReadsInOrder | src/conffile.c:117-118 | The loop reads entries in strictly increasing order, and never one named "default.conf". |
| ConfFile.ScanSkipsOnlyFactory | src/conffile.c:117-119 | Every entry the loop moves past is read, unless it is named "default.conf". |
| ConfFile.ScanStopsAtFirstSuccess | src/conffile.c:117-122 | When the loop finds a clip, the last entry read is the one just before the new cursor, and the clip is what that entry's file holds. |
| ConfFile.ScanSkipsOnlyFailures | src/conffile.c:117-122 | Every entry read before the one that gave the result failed to load. When nothing was found, every entry read failed to load. |
| ConfFile.GetStep | src/conffile.c:95-131 | One call never moves the cursor backwards. If an output pointer is NULL, the call fails, leaves the state alone, reads nothing and hands back the caller's previous values. Otherwise `new` is false afterwards, default.conf was read exactly when the iterator was fresh, and a call that fails yields video = NULL, audio = NULL, duration = 0. |
| ConfFile.GetStepReturnsFirstSuccess | src/conffile.c:109-122 | With all outputs present: a fresh iterator tries default.conf before any directory entry. If it loads, its clip is returned, no entry is read and the cursor stays put. A success with no entry read is always that case. Otherwise the call succeeds exactly with the last entry it read, the one just before the new cursor, after default.conf failed if the iterator was fresh. Every entry read before that one, or every entry read when the call fails, failed to load. |
| ConfFile.EntryPathIsNotFactoryPath | src/conffile.c:117-119 | A directory entry other than "default.conf" never yields the factory file's path. |
| ConfFile.SessionStaysAhead | src/conffile.c:109-122 | Over any number of calls: the cursor only advances; every entry read lies between the first and the last cursor and is not "default.conf"; the factory file is read at most once, and only by a fresh iterator; after a call the `new` flag is false. |
| ConfFile.SessionReadsEachEntryOnce | src/conffile.c:117-122 | Over any number of calls the entries read strictly increase, so each directory entry is read at most once. |
| ConfFile.ConfFileIterator.constructor | src/conffile.c:43-45 | A new iterator has the configuration directory's path, `new` set, and the cursor at the start of the listing. |
| ConfFile.ConfFileIterator.Open | src/conffile.c:38-59 | Returns NULL exactly when the directory cannot be opened; otherwise a fresh iterator with `new` set and the cursor at the start. |
| ConfFile.ConfFileIterator.ReadNext | src/conffile.c:117-122 | The `while` loop over the listing leaves the cursor, the result and the entries read exactly as the scan specification says. |
| ConfFile.ConfFileIterator.Get | src/conffile.c:95-131 | If any output pointer is NULL, the call returns FALSE, leaves the state alone and leaves the caller's values as they were. Otherwise `new` is false afterwards, and default.conf was tried exactly when the iterator was fresh; a failure then yields NULL, NULL, 0. Everything else is as GetStep says. |
| Decimal.NatToString | src/tmp.c:216 | The `%d` text of a counter value is a non-empty string of digits with no leading zero. |
| Decimal.SkipSpaces | src/tmp.c:407 | atoi()'s skip of leading white space: the result is no longer than the input and does not start with a space. |
| Decimal.SkipSpacesDropsOnlySpaces | src/tmp.c:407 | What atoi() skips is a prefix made only of white space; the rest of the text is kept as it was. |
| Decimal.SkipSpacesPrefix | src/tmp.c:407 | White space in front of text that does not start with a space is skipped exactly. |
| Decimal.ReadDigitsStops | src/tmp.c:407 | atoi()'s digit loop stops at the first non-digit: whatever follows a run of digits does not change the value read. |
| Decimal.Atoi | src/tmp.c:407 | atoi(): with no digit after the white space and an optional sign, the value is 0; after a '-' the value is never positive, otherwise never negative. |
| Decimal.AtoiReads | src/tmp.c:407 | atoi() of white space, an optional sign, a run of digits and any text not starting with a digit is the digits' value, negated after a '-'. |
| Decimal.ReadDigitsSnoc | src/tmp.c:407 | atoi()'s digit loop: one more digit at the end shifts the value read one place left and adds the digit. |
| Decimal.AtoiOfNatToString | src/tmp.c:407 | atoi() reads back exactly the value `%d` wrote. |
| Decimal.BinName | src/tmp.c:215 | The name `bin%d` gives a bin is "bin" followed by a non-empty string of digits. |
| Decimal.BinNamesDistinct | src/tmp.c:209-216 | Two different counter values give different bin names "bin<n>". |
| Linking.HasSrcPad | src/tmp.c:59-92 | Each wanted flag ends up true iff it was already true or some source pad's first caps name starts with the wanted string. A set flag stays set. |
| Linking.FirstTypeFind | src/tmp.c:99-107 | A type-finder found in a list is a type-finder from that list. |
| Linking.FirstTypeFindIsFirst | src/tmp.c:102-106 | The search finds a type-finder iff the list holds one, and no type-finder comes before the one it returns. |
| Linking.TypeFindOf | src/tmp.c:94-110 | The type-finder find_typefind() looks for: the element itself if it is one. Otherwise, only for a bin, a type-finder among its descendants, and none for any other element. What it returns is always a type-finder. |
| Linking.FindTypefind | src/tmp.c:94-110 | The element itself if it is a type-finder; otherwise, for a bin, the first type-finder among everything inside it; otherwise none. |
| Linking.MaybeFreeze | src/tmp.c:112-136 | The source is returned unchanged, with nothing added, unless a type-finder is found that shows an "image" pad. In that case a new freeze element with a fresh id is added and returned, linked after the source if that link succeeds. |
| Linking.OneLink | src/tmp.c:138-168 | The video flag ends up set iff it was set, or the source offers video and the link from its stream end (the freeze, if any) to the video sink succeeds. The same holds for audio with the source itself. A flag newly set comes with the link to its sink. |
| Linking.OneLinkAddsOnlyFreeze | src/tmp.c:149-158 | The only element one call ever adds is the freeze, in front of a video stream not yet served. |
| Linking.OneLinkSinkLinks | src/tmp.c:149-167 | One call links a sink exactly when it newly sets that sink's flag, and at most once. |
| Linking.LinkRound | src/tmp.c:178-184 | A linking round never moves the next free id backwards. |
| Linking.LinkRoundAddsFreshIds | src/tmp.c:178-184 | Every element a linking round adds takes a fresh id: at or above the round's first free id and below the next free id after it. |
| Linking.LinkRoundLinksEachSinkOnce | src/tmp.c:178-184 | Within one round each sink is linked once if its flag ends up set and never otherwise. So a flag becomes true only on a successful link. |
| Linking.LinkRoundFirstOfferWins | src/tmp.c:178-184 | The video source is served first. A video stream or audio stream it offers, when that link succeeds, gets the sink, and the sink is linked exactly once. |
| Player.FilePlay | src/tmp.c:188-204 | add_file_play_element()'s pair: a file source and a decoder, with ids `id` and `id + 1`. The decoder is the branch's source and shows the pads and children the file decodes to. The source is linked to the decoder exactly when that link succeeds. The next free id is `id + 2`. |
| Player.Tone | src/tmp.c:224-233 | The silence branch: an audiotestsrc and a volume element, with ids `id` and `id + 1`. The volume element, with raw-audio pads, is the branch's source. The two are linked exactly when that link succeeds. The next free id is `id + 2`. |
| Player.BuildBin | src/tmp.c:206-239 | create_bin() from a counter value and a first free id: the bin "bin<counter>" with the video branch and then the audio branch, its stream sources, its inner links and the next free id. Each source it returns has an id below that next free id. BuildBinSelectsBranches, BuildBinFreshIds and BuildBinSources state the rest. |
| Player.BuildBinSelectsBranches | src/tmp.c:220-236 | A video branch exists iff the video name is non-empty, and an audio branch iff the audio name is non-empty. The audio stream's source is a volume element exactly when the name is "s", and then the bin holds one tone source. Any other non-empty audio name gives a decoder. The bin holds one file source per non-empty name other than "s". Decoders show what their file decodes to. |
| Player.BuildBinFreshIds | src/tmp.c:206-239 | The bin is named "bin<counter>" and takes the next free id. Its members, sources and inner link targets take ids after it, in increasing order, so no two elements share one. |
| Player.BuildBinSources | src/tmp.c:212-236 | A non-empty audio name always gives an audio source. Both sources are new and distinct. |
| Player.BuildBinLinksAvoidSinks | src/tmp.c:206-236 | No link made inside a new bin goes to either sink. |
| Player.SendSeekEvent | src/tmp.c:257-278 | Once a seek went through, nothing is sent and TRUE is returned. Otherwise one seek is sent, and the result says whether the pipeline took it. |
| Player.SeekOn | src/tmp.c:306-308 | Only ASYNC_DONE runs the seek logic. Every other event leaves `seek_sent` as it was. |
| Player.LoopLength | src/tmp.c:301-331 | The loop takes no more events than there are. |
| Player.LoopEndsAtFirstTerminal | src/tmp.c:301-331 | The loop ends exactly at the first ERROR, EOS or SEGMENT_DONE, or when the bus has nothing more. No earlier event ends it. |
| Player.Callback | src/tmp.c:170-186 | link_to_sink() always marks the calling decoder finished and never removes links or moves the next id back. While some present source is still unmarked, nothing else changes. |
| Player.OnEvent | src/tmp.c:301-345 | A bus message leaves the bin, links, marks and next id alone. A "no-more-pads" callback marks exactly its own source, if that source is present. Links are only added and ids only grow. |
| Player.Apply | src/tmp.c:299-346 | After any run of events, exactly the reported sources are marked. Links only grow. Until every present source is marked, the bin, links and next id are those the run started with. |
| Player.ApplyRunsOneRound | src/tmp.c:170-186 | If each decoder reports at most once, the events of a clip run exactly one linking round once every present source has reported, and none before. That round acts on the bin, links and next id the clip started with. |
| Player.ClipLinks | src/tmp.c:170-186 | The links a clip makes are the bin's own links, plus, once every decoder has reported, the links of one linking round. In that round each sink is linked once if its flag ends up set and never otherwise. Before that, no sink is linked. |
| Player.SilentAudioLinksNothing | src/tmp.c:170-186 | A clip with audio whose audio decoder never reports links no sink: only the bin's own links are made. |
| Player.AtMostOneSeekPerClip | src/tmp.c:288-308 | Per clip, every seek sent fails except possibly the last one, and none is sent once one went through. |
| Player.ArgClips | src/tmp.c:406-407 | The clips main() plays, one per whole argument triple. Every one has a video name and an audio name, because argv entries are never NULL. |
| Player.ArgClipsAppend | src/tmp.c:406-407 | Playing two runs of whole argument triples plays the clips of the first, then those of the second. |
| Player.ArgClipsLength | src/tmp.c:406-407 | There is one clip per argument triple. |
| Player.ArgClipAt | src/tmp.c:406-407 | Clip k is played with arguments 3k, 3k+1 and 3k+2 as video, audio and atoi(duration). |
| Player.ArgClipsExtend | src/tmp.c:406-407 | One more argument triple appends its clip. |
| Player.ArgClipsWholeTriples | src/tmp.c:406-407 | Only whole triples are played, as many as fit, leaving fewer than three arguments unread. |
| Player.MainReads | src/tmp.c:406-407 | The argv indices main()'s loop reads as written, from `nix` on. They are consecutive, starting at `nix`. When `nix < argc`, the last index read is argc - 1, argc or argc + 1; otherwise nothing is read. |
| Player.MainReadsOnlyArguments | src/tmp.c:406-407 | As written, main() reads only real arguments exactly when the arguments after the program name come in whole triples. |
| Player.MainOverreadsOnOneArgument | src/tmp.c:406-407 | As written, with a single argument main() reads argv[1], argv[2] and argv[3]. |
| Player.AppState.constructor | src/tmp.c:398-402 | The pipeline holds just the two sinks; there is no bin, no source, no link and no mark yet. |
| Player.AppState.AddFilePlayElement | src/tmp.c:188-204 | A file source and a decoder with the next two ids are added to the bin and linked if possible. The decoder is returned. |
| Player.AppState.AddTone | src/tmp.c:224-233 | A tone source and a volume element with the next two ids are added to the bin and linked if possible. The volume element is returned. |
| Player.AppState.AddBranches | src/tmp.c:218-236 | The sources are reset, then the video branch and the audio branch are appended to the bin. |
| Player.AppState.CreateBin | src/tmp.c:206-239 | The new bin, the sources, the links and the next id are exactly what BuildBin gives for the old counter. The counter goes up by one. |
| Player.AppState.MaybeAddFreeze | src/tmp.c:112-136 | The bin, the links and the returned element change exactly as MaybeFreeze says. |
| Player.AppState.DoOneLink | src/tmp.c:138-168 | The flags, links, bin and next id change exactly as OneLink says. |
| Player.AppState.RunLinkRound | src/tmp.c:178-184 | do_one_link() on the video source, then on the audio source, with shared flags starting false, changes the state exactly as LinkRound says. |
| Player.AppState.LinkToSink | src/tmp.c:170-186 | The calling decoder is always marked finished. A linking round runs iff every present source is marked; otherwise links, bin and ids are unchanged. |
| Player.AppState.HandleEvent | src/tmp.c:301-345 | The loop goes on iff the event is not ERROR, EOS or SEGMENT_DONE, and the seek state moves as SeekOn says. The bin, links, marks and next id change exactly as OnEvent says. |
| Player.AppState.BusLoop | src/tmp.c:299-346 | The loop takes LoopLength events and sends the seeks LoopSeeks lists. The bin, links, marks and next id end as Apply says for the events taken. |
| Player.AppState.StartClip | src/tmp.c:293-294 | The bin is built as BuildBin says, and its id is new to the pipeline and added to it. A clip with audio starts with the audio decoder not yet finished. No link inside the new bin goes to a sink. |
| Player.AppState.PlayOnBus | src/tmp.c:287-350 | With a bus: the bin is built as BuildBin says, and the counter goes up by one. The loop takes LoopLength events and sends the seeks LoopSeeks lists. The bin, links, marks and next id end as Apply says, starting from the new bin. The bin is removed from the pipeline again. The links made are as ClipLinks says, and none reaches a sink if the audio decoder never reports. |
| Player.AppState.PlayFile | src/tmp.c:280-360 | The call is recorded, and the pipeline's children are the same after it as before. Without a bus nothing else changes. With one, the loop ends as LoopLength says, and the final bin, links, marks and next id are Apply's result from the new bin built from the next counter value. If each decoder reports at most once, the links made are as ClipLinks says. If the audio decoder's "no-more-pads" never comes, no sink gets linked. |
| Player.WithBus | src/tmp.c:406-407 | The number of clips with a bus among those played is at most the number of clips. |
| Player.WithBusSnoc | src/tmp.c:406-407 | One more clip adds one to that number exactly when it has a bus. |
| Player.ApplyKeepsBin | src/tmp.c:306-346 | However many bus messages and pad callbacks are handled, the current bin keeps its id and its name. |
| Player.AppState.PlayClip | src/tmp.c:407 | One play_file() call records its arguments and leaves the pipeline's children as they were. The bin counter goes up by one exactly when the clip has a bus (create_bin() runs). With a bus, the new bin has the next free id and the name bin<old counter>, and no link is lost; without one, nothing else changes. |
| Player.Run | src/tmp.c:388-416 | Nothing is played unless there is an argument and the pipeline could be made. Otherwise clips are played in argument order, one per triple, and the pipeline ends holding just the two sinks. The bin counter ends at the number of clips with a bus; the bins made are named bin0, bin1, … in order and no two share a name. |

## Findings

| source | as written | input that shows it | evidently intended | confidence | as-written member | corrected member |
|---|---|---|---|---|---|---|
| src/tmp.c:406-407 | The loop runs while `Nix < argc` and reads `argv[Nix + 1]` and `argv[Nix + 2]`. | `argc == 2`, one argument: argv[3] is read, past the NULL at argv[2]. With `argc == 3`, atoi(NULL) is called. | Play whole argument triples only. | high; not executed | Player.MainReadsOnlyArguments | Player.ArgClipsWholeTriples |

`Player.MainOverreadsOnOneArgument` exhibits the failing input concretely. `Player.ArgClips`, which `Player.Run` uses, reads only the triples that fit. `Player.Run` also requires whole triples, the only case where the code as written is defined.

## Left out

- `conf_file_iterator_destroy()` (src/conffile.c:133-140) only closes the directory and frees memory; memory is not modelled.
- GKeyFile parsing and GDir I/O are oracles. A key file yields its "filename", "sound" and "duration" values directly. A malformed "duration" is taken to be 0, as g_key_file_get_integer returns it. The listing is assumed to hold no "." or ".." entries, which g_dir_read_name skips.
- Allocation failures are not modelled: `g_new`, `g_key_file_new`, `g_build_filename` and `gst_element_factory_make` returning NULL.
- `g_build_filename` is plain joining with one '/'. Its collapsing of repeated separators is not modelled. DATADIR and SYSCONFDIR are fixed as "/usr/share" and "/etc".
- Logging (`my_log_func`, its floating-point timer, every `g_debug`) and `dump_error` are left out: they have no effect on the logic.
- The X11 window handling is a foreign call and is left out: `grab_dst_window`, `release_dst_window`, and the "prepare-xwindow-id" handoff to the video sink.
- GStreamer state changes, bus flushing and dot-file dumps are left out. `gst_pipeline_get_bus` failing is the `bus == None` case of PlayFile. A NULL from `gst_bus_poll` is the end of the event sequence.
- Linking.FindTypefind: `gst_bin_iterate_recurse` is taken to visit each child, then everything inside it, in order. Iterator resyncs are not modelled.
- Linking.LinkRound: whether a link succeeds depends only on the two element ids, not on earlier links or pad state.
- Player.AppState.LinkToSink, Player.AppState.HandleEvent: the "no-more-pads" callbacks run on GStreamer's streaming threads, concurrently with each other and with the bus loop. The model serializes each callback into one atomic event. So it does not cover two decoders finishing at the same moment, both passing the check at src/tmp.c:176-177, and both running a linking round (which would add a second freeze element for an image).
- Player.ClipLinks, Player.ApplyRunsOneRound: they assume each decoder's "no-more-pads" arrives at most once per clip. Player.Apply and Player.AppState.PlayFile also cover repeated callbacks, each of which can run another round.
- Player.AppState.AddTone: `link_to_sink` is connected to the volume element's "no-more-pads" signal. Whether that signal ever fires is left to the event sequence; PlayFile's contract covers the case where it never does. The volume element's source pad is taken to be raw audio. Its caps are not decided by any file.
- Player.Run requires the arguments after the program name to come in whole triples (one bus per clip). The code as written reads past argv otherwise (see Findings).
- Decimal.Atoi: C leaves overflow undefined; here the value is unbounded. The conversion of atoi's int to play_file's `guint duration` is not modelled, because the duration is never used.
- Player.AppState.CreateBin: the static `int counter` is unbounded here; its overflow after 2^31 clips is not modelled.
- Player.AppState.PlayClip: after a clip with a bus, the final links, marks, sources and next id are as PlayFile states. PlayClip repeats only the counter, the bin's id and name, and that links and ids only grow, which is what main()'s loop needs.
