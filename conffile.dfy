/**
 * The clip-configuration iterator of hildon-welcome (src/conffile.c).
 *
 * Clip descriptions live in key files under SYSCONFDIR/hildon-welcome.d.
 * The iterator hands them out one at a time: the factory file
 * "default.conf" first, on the very first call only, then every other file
 * of the directory in listing order, skipping files that do not load.
 * Relative media names are resolved against DATADIR/hildon-welcome/media.
 *
 * What the file system does is given, not modelled: the directory listing
 * is a sequence of names read through a cursor, and loading a key file is an
 * oracle from a path to the values found in it.
 */
module ConfFile {
  import opened Options

  const PackageName: string := "hildon-welcome"
  /** Build-time installation prefixes; only their leading '/' matters below. */
  const SysConfDir: string := "/etc"
  const DataDir: string := "/usr/share"
  const FactoryConfFile: string := "default.conf"
  /** The audio value that selects silence instead of a sound file. */
  const SilenceToken: string := "s"

  /** g_build_filename(dir, name): the two parts joined by one '/'. */
  function BuildFilename(dir: string, name: string): string {
    dir + "/" + name
  }

  const ConfDir: string := BuildFilename(SysConfDir, PackageName + ".d")
  const MediaDir: string := BuildFilename(BuildFilename(DataDir, PackageName), "media")

  /**
   * What a loaded key file holds in its [hildon-welcome] group: "filename"
   * and "sound" are None when the key is missing (the NULL of
   * g_key_file_get_string), and "duration" is 0 when missing or malformed.
   */
  datatype KeyFile = KeyFile(filename: Option<string>, sound: Option<string>, duration: int)

  /** Loading the key file at a path: None when it cannot be loaded. */
  type Loader = string -> Option<KeyFile>

  /** The three outputs of conf_file_iterator_get(); None stands for NULL. */
  datatype Clip = Clip(video: Option<string>, audio: Option<string>, duration: int)

  /** The outputs of a call that found nothing. */
  const NoClip: Clip := Clip(None, None, 0)

  /** A name that gets prefixed with the media directory: non-empty and not starting with '/'. */
  predicate IsRelative(name: string) {
    name != [] && name[0] != '/'
  }

  function MediaPath(name: string): string {
    BuildFilename(MediaDir, name)
  }

  /** The rewrite of the "filename" value (src/conffile.c:71-76). */
  function ResolveVideo(v: Option<string>): (r: Option<string>)
    ensures r.Some? <==> v.Some?
    ensures r.Some? ==> !IsRelative(r.value)
  {
    match v
    case None => None
    case Some(name) => if IsRelative(name) then MediaPathEndsWithName(name); Some(MediaPath(name)) else v
  }

  /** The rewrite of the "sound" value: as for video, except that the silence token stays (src/conffile.c:78-83). */
  function ResolveAudio(a: Option<string>): (r: Option<string>)
    ensures r.Some? <==> a.Some?
    ensures r.Some? ==> !IsRelative(r.value) || r.value == SilenceToken
  {
    match a
    case None => None
    case Some(name) =>
      if IsRelative(name) && name != SilenceToken then MediaPathEndsWithName(name); Some(MediaPath(name)) else a
  }

  /** A media path is absolute and ends with the name it was built from. */
  lemma MediaPathEndsWithName(name: string)
    ensures var p := MediaPath(name);
      && !IsRelative(p) && |p| >= |name| && p[|p| - |name|..] == name
  {
    var p := MediaPath(name);
    assert p == MediaDir + "/" + name;
    assert p[0] == MediaDir[0] == '/';
    assert p[|p| - |name|..] == name;
  }

  /**
   * The video name is kept, as the suffix of the result; it is changed
   * exactly when it is relative, and what comes out is never relative.
   */
  lemma ResolveVideoKeepsName(v: Option<string>)
    ensures ResolveVideo(v).Some? <==> v.Some?
    ensures v.Some? ==>
      && |ResolveVideo(v).value| >= |v.value|
      && ResolveVideo(v).value[|ResolveVideo(v).value| - |v.value|..] == v.value
      && (ResolveVideo(v) == v <==> !IsRelative(v.value))
      && !IsRelative(ResolveVideo(v).value)
  {
    if v.Some? {
      MediaPathEndsWithName(v.value);
    }
  }

  /**
   * The sound name is kept, as the suffix of the result; it is changed
   * exactly when it is relative and not the silence token, and what comes
   * out is absolute or the silence token.
   */
  lemma ResolveAudioKeepsName(a: Option<string>)
    ensures ResolveAudio(a).Some? <==> a.Some?
    ensures a.Some? ==>
      && |ResolveAudio(a).value| >= |a.value|
      && ResolveAudio(a).value[|ResolveAudio(a).value| - |a.value|..] == a.value
      && (ResolveAudio(a) == a <==> !IsRelative(a.value) || a.value == SilenceToken)
      && (!IsRelative(ResolveAudio(a).value) || ResolveAudio(a).value == SilenceToken)
  {
    if a.Some? {
      MediaPathEndsWithName(a.value);
    }
  }

  /** Resolving a name a second time changes nothing. */
  lemma ResolveIdempotent(v: Option<string>)
    ensures ResolveVideo(ResolveVideo(v)) == ResolveVideo(v)
    ensures ResolveAudio(ResolveAudio(v)) == ResolveAudio(v)
  {
    ResolveVideoKeepsName(v);
    ResolveAudioKeepsName(v);
  }

  /**
   * read_conf_file(): None when the key file does not load; otherwise the
   * clip it describes.
   */
  function ReadConfFile(conffile: string, load: Loader): (r: Option<Clip>)
    ensures r.None? <==> load(conffile).None?
    ensures r.Some? ==>
      && r.value.duration == load(conffile).value.duration
      && (r.value.video.Some? <==> load(conffile).value.filename.Some?)
      && (r.value.audio.Some? <==> load(conffile).value.sound.Some?)
      && (r.value.video.Some? ==> !IsRelative(r.value.video.value))
      && (r.value.audio.Some? ==> !IsRelative(r.value.audio.value) || r.value.audio.value == SilenceToken)
  {
    match load(conffile)
    case None => None
    case Some(k) => Some(ClipOf(k))
  }

  /** The three values of a loaded key file, media names resolved (src/conffile.c:68-85). */
  function ClipOf(k: KeyFile): Clip {
    Clip(ResolveVideo(k.filename), ResolveAudio(k.sound), k.duration)
  }

  /**
   * The outcome of the directory scan from `cursor`: where the cursor ends,
   * the clip found, and the indices of the entries that were read.
   */
  datatype Scan = Scan(cursor: nat, result: Option<Clip>, tried: seq<nat>)

  /** The while loop of conf_file_iterator_get() (src/conffile.c:117-122). */
  function ScanFrom(path: string, entries: seq<string>, cursor: nat, load: Loader): (s: Scan)
    requires cursor <= |entries|
    ensures cursor <= s.cursor <= |entries|
    ensures forall k :: 0 <= k < |s.tried| ==> cursor <= s.tried[k] < s.cursor
    ensures s.result.None? ==> s.cursor == |entries|
    decreases |entries| - cursor
  {
    if cursor == |entries| then Scan(cursor, None, [])
    else if entries[cursor] == FactoryConfFile then ScanFrom(path, entries, cursor + 1, load)
    else match ReadConfFile(BuildFilename(path, entries[cursor]), load)
      case Some(c) => Scan(cursor + 1, Some(c), [cursor])
      case None =>
        var rest := ScanFrom(path, entries, cursor + 1, load);
        Scan(rest.cursor, rest.result, [cursor] + rest.tried)
  }

  /** A scan that has already read the entries `tried`, continued by `rest`. */
  function Resume(tried: seq<nat>, rest: Scan): Scan {
    Scan(rest.cursor, rest.result, tried + rest.tried)
  }

  /**
   * One turn of the directory loop: taking entry `cursor` keeps the scan's
   * outcome, whether it stops there or goes on from `cursor + 1`.
   */
  lemma ScanStep(path: string, entries: seq<string>, cursor: nat, tried: seq<nat>, load: Loader)
    requires cursor < |entries|
    ensures var whole := Resume(tried, ScanFrom(path, entries, cursor, load));
      var c := ReadConfFile(BuildFilename(path, entries[cursor]), load);
      && (entries[cursor] == FactoryConfFile ==> whole == Resume(tried, ScanFrom(path, entries, cursor + 1, load)))
      && (entries[cursor] != FactoryConfFile && c.Some? ==> whole == Scan(cursor + 1, c, tried + [cursor]))
      && (entries[cursor] != FactoryConfFile && c.None? ==>
            whole == Resume(tried + [cursor], ScanFrom(path, entries, cursor + 1, load)))
  {
    if entries[cursor] != FactoryConfFile {
      var rest := ScanFrom(path, entries, cursor + 1, load);
      assert tried + ([cursor] + rest.tried) == (tried + [cursor]) + rest.tried;
    }
  }

  predicate Increasing(s: seq<nat>) {
    forall i, j :: 0 <= i < j < |s| ==> s[i] < s[j]
  }

  /** The scan reads entries in increasing order, and never one named "default.conf". */
  lemma {:induction false} ScanReadsInOrder(path: string, entries: seq<string>, cursor: nat, load: Loader)
    requires cursor <= |entries|
    ensures var s := ScanFrom(path, entries, cursor, load);
      && Increasing(s.tried)
      && (forall k :: 0 <= k < |s.tried| ==> entries[s.tried[k]] != FactoryConfFile)
    decreases |entries| - cursor
  {
    if cursor < |entries| {
      ScanReadsInOrder(path, entries, cursor + 1, load);
    }
  }

  /** Every entry the scan moves past, other than "default.conf", is read. */
  lemma {:induction false} ScanSkipsOnlyFactory(path: string, entries: seq<string>, cursor: nat, load: Loader)
    requires cursor <= |entries|
    ensures var s := ScanFrom(path, entries, cursor, load);
      forall j :: cursor <= j < s.cursor && entries[j] != FactoryConfFile ==> j in s.tried
    decreases |entries| - cursor
  {
    if cursor < |entries| {
      ScanSkipsOnlyFactory(path, entries, cursor + 1, load);
    }
  }

  /** The scan stops right after the first entry that loads, and that entry gives the result. */
  predicate EndsAtResult(s: Scan, path: string, entries: seq<string>, load: Loader)
    requires s.cursor <= |entries|
  {
    s.result.Some? ==>
      && s.cursor > 0 && |s.tried| > 0 && s.tried[|s.tried| - 1] == s.cursor - 1
      && s.result == ReadConfFile(BuildFilename(path, entries[s.cursor - 1]), load)
  }

  lemma {:induction false} ScanStopsAtFirstSuccess(path: string, entries: seq<string>, cursor: nat, load: Loader)
    requires cursor <= |entries|
    ensures EndsAtResult(ScanFrom(path, entries, cursor, load), path, entries, load)
    decreases |entries| - cursor
  {
    if cursor < |entries| {
      var s := ScanFrom(path, entries, cursor, load);
      var rest := ScanFrom(path, entries, cursor + 1, load);
      var read := ReadConfFile(BuildFilename(path, entries[cursor]), load);
      if entries[cursor] == FactoryConfFile {
        ScanStopsAtFirstSuccess(path, entries, cursor + 1, load);
        assert s == rest;
      } else if read.None? {
        ScanStopsAtFirstSuccess(path, entries, cursor + 1, load);
        assert s == Scan(rest.cursor, rest.result, [cursor] + rest.tried);
        if rest.result.Some? {
          var n := |rest.tried|;
          assert |s.tried| == n + 1 && s.tried[n] == rest.tried[n - 1];
        }
      } else {
        assert s == Scan(cursor + 1, read, [cursor]);
      }
    }
  }

  /** Every entry the scan read before the one that gave its result, or every entry it read when none did, failed to load. */
  lemma {:induction false} ScanSkipsOnlyFailures(path: string, entries: seq<string>, cursor: nat, load: Loader)
    requires cursor <= |entries|
    ensures forall k ::
      (0 <= k < |ScanFrom(path, entries, cursor, load).tried| &&
       (ScanFrom(path, entries, cursor, load).result.None? || k < |ScanFrom(path, entries, cursor, load).tried| - 1)) ==>
      ReadConfFile(BuildFilename(path, entries[ScanFrom(path, entries, cursor, load).tried[k]]), load).None?
    decreases |entries| - cursor
  {
    if cursor < |entries| {
      var s := ScanFrom(path, entries, cursor, load);
      var rest := ScanFrom(path, entries, cursor + 1, load);
      ScanSkipsOnlyFailures(path, entries, cursor + 1, load);
      if entries[cursor] == FactoryConfFile {
        assert s == rest;
      } else if ReadConfFile(BuildFilename(path, entries[cursor]), load).None? {
        assert s.tried == [cursor] + rest.tried && s.result == rest.result;
        forall k | 0 <= k < |s.tried| && (s.result.None? || k < |s.tried| - 1)
          ensures ReadConfFile(BuildFilename(path, entries[s.tried[k]]), load).None?
        {
          if k > 0 {
            assert s.tried[k] == rest.tried[k - 1];
          }
        }
      }
    }
  }

  /** The state conf_file_iterator_get() changes: the `new` flag and the directory cursor. */
  datatype IterState = IterState(isNew: bool, cursor: nat)

  /**
   * One call of conf_file_iterator_get(): the new state, the result and
   * outputs, whether default.conf was read and which entries were read.
   */
  datatype Step = Step(state: IterState, ok: bool, clip: Clip, triedFactory: bool, tried: seq<nat>)

  /**
   * conf_file_iterator_get() (src/conffile.c:95-131); `outputs` says that
   * none of the three pointers is NULL, and `prev` is what the caller's
   * variables held before the call.
   */
  function GetStep(st: IterState, path: string, entries: seq<string>, load: Loader, outputs: bool, prev: Clip): (r: Step)
    requires st.cursor <= |entries|
    ensures st.cursor <= r.state.cursor <= |entries|
    ensures !outputs ==> !r.ok && r.state == st && r.clip == prev && !r.triedFactory && r.tried == []
    ensures outputs ==> !r.state.isNew && (r.triedFactory <==> st.isNew)
    ensures outputs && !r.ok ==> r.clip == NoClip
  {
    if !outputs then Step(st, false, prev, false, [])
    else
      var first := if st.isNew then ReadConfFile(BuildFilename(path, FactoryConfFile), load) else None;
      if first.Some? then Step(IterState(false, st.cursor), true, first.value, true, [])
      else
        var s := ScanFrom(path, entries, st.cursor, load);
        Step(IterState(false, s.cursor), s.result.Some?, if s.result.Some? then s.result.value else NoClip, st.isNew, s.tried)
  }

  /**
   * What a call with all three outputs returns. A fresh iterator tries
   * default.conf before any directory entry, and when it loads that is the
   * clip, with no entry read and the cursor unmoved. Otherwise the call
   * succeeds exactly with the last entry read, right before the new cursor,
   * and every entry read before it, or every one when the call fails,
   * failed to load.
   */
  lemma GetStepReturnsFirstSuccess(st: IterState, path: string, entries: seq<string>, load: Loader, prev: Clip)
    requires st.cursor <= |entries|
    ensures var r := GetStep(st, path, entries, load, true, prev);
      var factory := ReadConfFile(BuildFilename(path, FactoryConfFile), load);
      && (st.isNew && factory.Some? ==> r.ok && Some(r.clip) == factory && r.tried == [] && r.state.cursor == st.cursor)
      && (r.ok && r.tried == [] ==> st.isNew && Some(r.clip) == factory)
      && (r.ok && r.tried != [] ==>
            && (st.isNew ==> factory.None?)
            && r.tried[|r.tried| - 1] == r.state.cursor - 1
            && Some(r.clip) == ReadConfFile(BuildFilename(path, entries[r.tried[|r.tried| - 1]]), load))
      && (!r.ok ==> (st.isNew ==> factory.None?))
      && (forall k :: 0 <= k < |r.tried| && (!r.ok || k < |r.tried| - 1) ==>
            ReadConfFile(BuildFilename(path, entries[r.tried[k]]), load).None?)
  {
    ScanStopsAtFirstSuccess(path, entries, st.cursor, load);
    ScanSkipsOnlyFailures(path, entries, st.cursor, load);
  }

  /** What `calls` successive calls (all outputs present) do, taken together. */
  datatype Session = Session(final: IterState, factoryReads: nat, tried: seq<nat>, clips: seq<Clip>)

  function RunSession(st: IterState, calls: nat, path: string, entries: seq<string>, load: Loader): (s: Session)
    requires st.cursor <= |entries|
    decreases calls
  {
    if calls == 0 then Session(st, 0, [], [])
    else
      var r := GetStep(st, path, entries, load, true, NoClip);
      var rest := RunSession(r.state, calls - 1, path, entries, load);
      Session(rest.final, (if r.triedFactory then 1 else 0) + rest.factoryReads, r.tried + rest.tried,
              (if r.ok then [r.clip] else []) + rest.clips)
  }

  /** A directory entry never yields the factory file's path. */
  lemma EntryPathIsNotFactoryPath(path: string, name: string)
    requires name != FactoryConfFile
    ensures BuildFilename(path, name) != BuildFilename(path, FactoryConfFile)
  {
    var p := path + "/";
    assert BuildFilename(path, name)[|p|..] == name;
    assert BuildFilename(path, FactoryConfFile)[|p|..] == FactoryConfFile;
  }

  /**
   * Across any number of calls the cursor only advances, every entry read
   * lies between the old and the new cursor and is not named "default.conf",
   * and the factory file is read at most once, and only by a fresh iterator.
   */
  lemma {:induction false} SessionStaysAhead(st: IterState, calls: nat, path: string, entries: seq<string>, load: Loader)
    requires st.cursor <= |entries|
    ensures var s := RunSession(st, calls, path, entries, load);
      && st.cursor <= s.final.cursor <= |entries|
      && (forall k :: 0 <= k < |s.tried| ==> st.cursor <= s.tried[k] < s.final.cursor && entries[s.tried[k]] != FactoryConfFile)
      && s.factoryReads <= (if st.isNew then 1 else 0)
      && (calls > 0 ==> !s.final.isNew)
    decreases calls
  {
    if calls > 0 {
      var r := GetStep(st, path, entries, load, true, NoClip);
      SessionStaysAhead(r.state, calls - 1, path, entries, load);
      ScanReadsInOrder(path, entries, st.cursor, load);
      var rest := RunSession(r.state, calls - 1, path, entries, load);
      assert RunSession(st, calls, path, entries, load).tried == r.tried + rest.tried;
    }
  }

  /** Across any number of calls every directory entry is read at most once: the entries read strictly increase. */
  lemma {:induction false} SessionReadsEachEntryOnce(st: IterState, calls: nat, path: string, entries: seq<string>, load: Loader)
    requires st.cursor <= |entries|
    ensures Increasing(RunSession(st, calls, path, entries, load).tried)
    decreases calls
  {
    if calls > 0 {
      var r := GetStep(st, path, entries, load, true, NoClip);
      SessionReadsEachEntryOnce(r.state, calls - 1, path, entries, load);
      SessionStaysAhead(r.state, calls - 1, path, entries, load);
      ScanReadsInOrder(path, entries, st.cursor, load);
      var rest := RunSession(r.state, calls - 1, path, entries, load);
      IncreasingAppend(r.tried, rest.tried, r.state.cursor);
      assert RunSession(st, calls, path, entries, load).tried == r.tried + rest.tried;
    }
  }

  /** Two increasing runs, the first below `m` and the second from `m` on, make one increasing run. */
  lemma IncreasingAppend(a: seq<nat>, b: seq<nat>, m: nat)
    requires Increasing(a) && Increasing(b)
    requires forall k :: 0 <= k < |a| ==> a[k] < m
    requires forall k :: 0 <= k < |b| ==> m <= b[k]
    ensures Increasing(a + b)
  {
  }

  /**
   * conf_file_iterator (src/conffile.c:31-36): the configuration directory's
   * path, the `new` flag and the open directory, here its listing and a cursor.
   */
  class ConfFileIterator {
    const path: string
    const entries: seq<string>
    var isNew: bool
    var cursor: nat

    ghost predicate Valid()
      reads this
    {
      cursor <= |entries|
    }

    ghost function State(): IterState
      reads this
    {
      IterState(isNew, cursor)
    }

    constructor (listing: seq<string>)
      ensures Valid() && path == ConfDir && entries == listing
      ensures isNew && cursor == 0
    {
      path := ConfDir;
      entries := listing;
      isNew := true;
      cursor := 0;
    }

    /**
     * conf_file_iterator_new() (src/conffile.c:38-59): `listing` is the result
     * of opening the configuration directory, None when that fails.
     */
    static method Open(listing: Option<seq<string>>) returns (itr: ConfFileIterator?)
      ensures listing.None? <==> itr == null
      ensures itr != null ==>
        && fresh(itr) && itr.Valid() && itr.path == ConfDir
        && itr.entries == listing.value && itr.isNew && itr.cursor == 0
    {
      if listing.None? {
        itr := null;
      } else {
        itr := new ConfFileIterator(listing.value);
      }
    }

    /**
     * The directory loop of conf_file_iterator_get() (src/conffile.c:117-122):
     * take names until one other than "default.conf" loads.
     */
    method ReadNext(load: Loader) returns (c: Option<Clip>, ghost tried: seq<nat>)
      requires Valid()
      modifies this`cursor
      ensures Valid()
      ensures var s := ScanFrom(path, entries, old(cursor), load);
        cursor == s.cursor && c == s.result && tried == s.tried
    {
      ghost var whole := ScanFrom(path, entries, cursor, load);
      var i := cursor;
      c, tried := None, [];
      while c.None? && i < |entries|
        invariant i <= |entries|
        invariant c.None? ==> whole == Resume(tried, ScanFrom(path, entries, i, load))
        invariant c.Some? ==> whole == Scan(i, c, tried)
        decreases |entries| - i
      {
        ScanStep(path, entries, i, tried, load);
        var fname := entries[i];
        i := i + 1;
        if fname != FactoryConfFile {
          c := ReadConfFile(BuildFilename(path, fname), load);
          tried := tried + [i - 1];
        }
      }
      if c.None? {
        assert tried + [] == tried;
      }
      cursor := i;
    }

    /**
     * conf_file_iterator_get() (src/conffile.c:95-131). The three flags say
     * whether each output pointer is non-NULL, and `prev` is what the
     * caller's variables held before the call; `tried` lists the directory
     * entries this call read, `triedFactory` whether it read default.conf.
     */
    method Get(hasVideo: bool, hasAudio: bool, hasDuration: bool, prev: Clip, load: Loader)
      returns (ok: bool, video: Option<string>, audio: Option<string>, duration: int,
               ghost triedFactory: bool, ghost tried: seq<nat>)
      requires Valid()
      modifies this
      ensures Valid()
      ensures var r := GetStep(old(State()), path, entries, load, hasVideo && hasAudio && hasDuration, prev);
        && State() == r.state && ok == r.ok && Clip(video, audio, duration) == r.clip
        && triedFactory == r.triedFactory && tried == r.tried
      ensures !(hasVideo && hasAudio && hasDuration) ==>
        !ok && State() == old(State()) && Clip(video, audio, duration) == prev
      ensures hasVideo && hasAudio && hasDuration ==> !isNew && triedFactory == old(isNew)
      ensures hasVideo && hasAudio && hasDuration && !ok ==> video == None && audio == None && duration == 0
    {
      triedFactory, tried := false, [];
      if !(hasVideo && hasAudio && hasDuration) {
        return false, prev.video, prev.audio, prev.duration, triedFactory, tried;
      }
      video, audio, duration := None, None, 0;
      ok := false;
      if isNew {
        var c := ReadConfFile(BuildFilename(path, FactoryConfFile), load);
        triedFactory := true;
        if c.Some? {
          ok := true;
          video, audio, duration := c.value.video, c.value.audio, c.value.duration;
        }
        isNew := false;
      }
      if !ok {
        var c;
        c, tried := ReadNext(load);
        if c.Some? {
          ok := true;
          video, audio, duration := c.value.video, c.value.audio, c.value.duration;
        }
      }
      if !ok {
        video, audio, duration := None, None, 0;
      }
    }
  }
}
