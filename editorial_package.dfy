/** The tray publisher's editorial package check: every media file the
    timeline refers to must be among the package's resource files, compared
    by file name only. The timeline is taken as already parsed. */
module EditorialPackage {
  import opened Common

  /** A clip's media reference; only its `target_url` matters here. */
  datatype MediaReference = MediaReference(targetUrl: string)

  datatype Clip = Clip(mediaReference: Option<MediaReference>)

  type Track = seq<Clip>

  /** A parsed timeline: its tracks, each a sequence of clips. */
  datatype Timeline = Timeline(tracks: seq<Track>)

  /** The instance's `editorial_pckg` entry: the folder, the timeline file
      and the resource files found beside it, and the parsed timeline once
      validation has stored it. */
  datatype PackageData = PackageData(
    folderPath: string,
    otioPath: string,
    resourcePaths: seq<string>,
    otioData: Option<Timeline>)

  datatype ValidationError =
    | NotCollected
    | MissingOtioFile(folderPath: string)
    | MissingFiles(missing: set<string>, folderPath: string)

  /** The publish instance; `editorialPckg` is None when the entry is absent
      or empty. */
  class Instance {
    var editorialPckg: Option<PackageData>

    constructor (editorialPckg: Option<PackageData>)
      ensures this.editorialPckg == editorialPckg
    {
      this.editorialPckg := editorialPckg;
    }
  }

  /** What one clip contributes: its non-empty target URL, if it has a media
      reference. */
  function ClipUrls(clip: Clip): seq<string> {
    match clip.mediaReference
    case Some(ref) => if ref.targetUrl != "" then [ref.targetUrl] else []
    case None => []
  }

  function TrackUrls(track: Track): seq<string> {
    if track == [] then [] else TrackUrls(track[..|track| - 1]) + ClipUrls(track[|track| - 1])
  }

  /** All target URLs, track by track and clip by clip. */
  function TimelineUrls(tracks: seq<Track>): seq<string> {
    if tracks == [] then [] else TimelineUrls(tracks[..|tracks| - 1]) + TrackUrls(tracks[|tracks| - 1])
  }

  /** Clip `j` of track `i` refers to `url`. */
  predicate RefersTo(tracks: seq<Track>, i: int, j: int, url: string) {
    0 <= i < |tracks| && 0 <= j < |tracks[i]| && tracks[i][j].mediaReference == Some(MediaReference(url))
  }

  lemma {:induction false} TrackUrlsMembership(track: Track, url: string)
    ensures url in TrackUrls(track) <==>
      url != "" && exists j :: 0 <= j < |track| && track[j].mediaReference == Some(MediaReference(url))
    decreases |track|
  {
    if track != [] {
      var init := track[..|track| - 1];
      TrackUrlsMembership(init, url);
      if url != "" && exists j :: 0 <= j < |track| && track[j].mediaReference == Some(MediaReference(url)) {
        var j :| 0 <= j < |track| && track[j].mediaReference == Some(MediaReference(url));
        if j < |track| - 1 {
          assert init[j] == track[j];
        }
      }
    }
  }

  /** A URL is collected exactly when it is non-empty and some clip of some
      track refers to it. */
  lemma {:induction false} TimelineUrlsMembership(tracks: seq<Track>, url: string)
    ensures url in TimelineUrls(tracks) <==> url != "" && exists i, j :: RefersTo(tracks, i, j, url)
    decreases |tracks|
  {
    if tracks != [] {
      var init, last := tracks[..|tracks| - 1], tracks[|tracks| - 1];
      TimelineUrlsMembership(init, url);
      TrackUrlsMembership(last, url);
      if url in TrackUrls(last) {
        var j :| 0 <= j < |last| && last[j].mediaReference == Some(MediaReference(url));
        assert RefersTo(tracks, |tracks| - 1, j, url);
      }
      if url in TimelineUrls(init) {
        var i, j :| RefersTo(init, i, j, url);
        assert RefersTo(tracks, i, j, url);
      }
      if url != "" && exists i, j :: RefersTo(tracks, i, j, url) {
        var i, j :| RefersTo(tracks, i, j, url);
        if i < |tracks| - 1 {
          assert RefersTo(init, i, j, url);
        } else {
          assert last[j].mediaReference == Some(MediaReference(url));
        }
      }
    }
  }

  /** `_get_all_target_urls`: the outer loop over tracks. */
  method GetAllTargetUrls(timeline: Timeline) returns (targetUrls: seq<string>)
    ensures targetUrls == TimelineUrls(timeline.tracks)
    ensures forall u :: u in targetUrls <==> u != "" && exists i, j :: RefersTo(timeline.tracks, i, j, u)
  {
    var tracks := timeline.tracks;
    targetUrls := [];
    for i := 0 to |tracks|
      invariant targetUrls == TimelineUrls(tracks[..i])
    {
      targetUrls := AddTrackUrls(targetUrls, tracks[i]);
      assert tracks[..i + 1][..i] == tracks[..i];
    }
    assert tracks[..|tracks|] == tracks;
    forall u ensures u in targetUrls <==> u != "" && exists i, j :: RefersTo(tracks, i, j, u) {
      TimelineUrlsMembership(tracks, u);
    }
  }

  /** `_get_all_target_urls`: the inner loop over the clips of one track,
      appending each non-empty target URL. */
  method AddTrackUrls(collected: seq<string>, track: Track) returns (targetUrls: seq<string>)
    ensures targetUrls == collected + TrackUrls(track)
  {
    targetUrls := collected;
    for j := 0 to |track|
      invariant targetUrls == collected + TrackUrls(track[..j])
    {
      var clip := track[j];
      if clip.mediaReference.Some? {
        var targetUrl := clip.mediaReference.value.targetUrl;
        if targetUrl != "" {
          targetUrls := targetUrls + [targetUrl];
        }
      }
      assert track[..j + 1][..j] == track[..j];
    }
    assert track[..|track|] == track;
  }

  /** The set of resource file names, directories stripped. */
  function ResourceFileNames(resourcePaths: seq<string>): set<string> {
    set path | path in resourcePaths :: Basename(path)
  }

  /** The basenames of the referenced URLs that no resource file carries. */
  function MissingSet(targetUrls: seq<string>, resourceNames: set<string>): set<string> {
    set url | url in targetUrls && Basename(url) !in resourceNames :: Basename(url)
  }

  /** The loop of `process` that accumulates `missing_files`. */
  method CollectMissing(targetUrls: seq<string>, resourceNames: set<string>) returns (missing: set<string>)
    ensures missing == MissingSet(targetUrls, resourceNames)
    ensures forall name :: name in missing <==> name !in resourceNames && exists url :: url in targetUrls && Basename(url) == name
  {
    missing := {};
    for k := 0 to |targetUrls|
      invariant missing == MissingSet(targetUrls[..k], resourceNames)
    {
      var targetBasename := Basename(targetUrls[k]);
      if targetBasename !in resourceNames {
        missing := missing + {targetBasename};
      }
      assert targetUrls[..k + 1] == targetUrls[..k] + [targetUrls[k]];
    }
    assert targetUrls[..|targetUrls|] == targetUrls;
  }

  /** The verdict of `process` for an instance entry and the timeline that
      its `otio_path` holds: None when the package is complete. */
  function Verdict(entry: Option<PackageData>, timeline: Timeline): Option<ValidationError> {
    match entry
    case None => Some(NotCollected)
    case Some(data) =>
      if data.otioPath == "" then Some(MissingOtioFile(data.folderPath))
      else
        var missing := MissingSet(TimelineUrls(timeline.tracks), ResourceFileNames(data.resourcePaths));
        if missing != {} then Some(MissingFiles(missing, data.folderPath)) else None
  }

  /** `ValidateEditorialPackage.process`: raises the verdict's error, or
      stores the parsed timeline in the entry's `otio_data`. */
  method Process(instance: Instance, timeline: Timeline) returns (error: Option<ValidationError>)
    modifies instance
    ensures error == Verdict(old(instance.editorialPckg), timeline)
    ensures error.None? ==> instance.editorialPckg == Some(old(instance.editorialPckg).value.(otioData := Some(timeline)))
    ensures error.Some? ==> instance.editorialPckg == old(instance.editorialPckg)
  {
    if instance.editorialPckg.None? {
      return Some(NotCollected);
    }
    var data := instance.editorialPckg.value;
    if data.otioPath == "" {
      return Some(MissingOtioFile(data.folderPath));
    }
    var resourceFileNames := ResourceFileNames(data.resourcePaths);
    var targetUrls := GetAllTargetUrls(timeline);
    var missingFiles := CollectMissing(targetUrls, resourceFileNames);
    if missingFiles != {} {
      return Some(MissingFiles(missingFiles, data.folderPath));
    }
    instance.editorialPckg := Some(data.(otioData := Some(timeline)));
    error := None;
  }

  /** Without an entry the check fails as "not collected", whatever the
      timeline. */
  lemma NotCollectedFails(timeline: Timeline)
    ensures Verdict(None, timeline) == Some(NotCollected)
  {
  }

  /** An empty timeline path fails before the timeline is looked at: the
      verdict is the same for every timeline. */
  lemma MissingOtioFails(data: PackageData, t1: Timeline, t2: Timeline)
    requires data.otioPath == ""
    ensures Verdict(Some(data), t1) == Verdict(Some(data), t2) == Some(MissingOtioFile(data.folderPath))
  {
  }

  /** A name is reported missing exactly when some referenced URL has it as
      basename and no resource path does. */
  lemma MissingNameIff(data: PackageData, timeline: Timeline, name: string)
    requires data.otioPath != ""
    ensures var v := Verdict(Some(data), timeline);
      (v.Some? && name in v.value.missing) <==>
        (exists i, j, url :: RefersTo(timeline.tracks, i, j, url) && url != "" && Basename(url) == name) &&
        (forall path :: path in data.resourcePaths ==> Basename(path) != name)
  {
    var urls := TimelineUrls(timeline.tracks);
    var names := ResourceFileNames(data.resourcePaths);
    var missing := MissingSet(urls, names);
    if exists i, j, url :: RefersTo(timeline.tracks, i, j, url) && url != "" && Basename(url) == name {
      var i, j, url :| RefersTo(timeline.tracks, i, j, url) && url != "" && Basename(url) == name;
      TimelineUrlsMembership(timeline.tracks, url);
      if name !in names {
        assert name in missing;
      }
    }
    if name in missing {
      var url :| url in urls && Basename(url) !in names && Basename(url) == name;
      TimelineUrlsMembership(timeline.tracks, url);
    }
  }

  /** The check passes exactly when every referenced basename is among the
      resource basenames. */
  lemma PassesIffComplete(data: PackageData, timeline: Timeline)
    requires data.otioPath != ""
    ensures Verdict(Some(data), timeline).None? <==>
      forall url :: url in TimelineUrls(timeline.tracks) ==> exists path :: path in data.resourcePaths && Basename(path) == Basename(url)
  {
    var urls := TimelineUrls(timeline.tracks);
    var names := ResourceFileNames(data.resourcePaths);
    var missing := MissingSet(urls, names);
    assert forall url :: url in urls && Basename(url) !in names ==> Basename(url) in missing;
    if missing == {} {
      forall url | url in urls
        ensures exists path :: path in data.resourcePaths && Basename(path) == Basename(url)
      {
        assert Basename(url) in names;
      }
    } else {
      var name :| name in missing;
      var url :| url in urls && Basename(url) !in names && Basename(url) == name;
      forall path | path in data.resourcePaths ensures Basename(path) != Basename(url) {
        assert Basename(path) in names;
      }
      assert url in TimelineUrls(timeline.tracks) &&
        !exists path :: path in data.resourcePaths && Basename(path) == Basename(url);
      assert Verdict(Some(data), timeline) == Some(MissingFiles(missing, data.folderPath));
    }
  }

  /** Matching ignores directories: a clip pointing at `<anywhere>/<name>`
      is satisfied by a resource at `<elsewhere>/<name>`. */
  lemma DirectoriesIgnored(data: PackageData, clipDir: string, resourceDir: string, name: string)
    requires data.otioPath != "" && name != "" && '/' !in name
    requires resourceDir + "/" + name in data.resourcePaths
    ensures Verdict(Some(data), Timeline([[Clip(Some(MediaReference(clipDir + "/" + name)))]])).None?
  {
    var url := clipDir + "/" + name;
    var timeline := Timeline([[Clip(Some(MediaReference(url)))]]);
    BasenameAfterDirectory(clipDir, name);
    BasenameAfterDirectory(resourceDir, name);
    SingleClipUrls(url);
    PassesIffComplete(data, timeline);
  }

  /** A timeline of one track holding one clip contributes that clip's URL. */
  lemma SingleClipUrls(url: string)
    requires url != ""
    ensures TimelineUrls([[Clip(Some(MediaReference(url)))]]) == [url]
  {
    var track := [Clip(Some(MediaReference(url)))];
    assert track[..0] == [];
    assert TrackUrls(track) == TrackUrls([]) + ClipUrls(track[0]) == [url];
    var tracks: seq<Track> := [track];
    assert tracks[..0] == [];
    assert TimelineUrls(tracks) == TimelineUrls([]) + TrackUrls(track);
  }

  /** Worked case: `/old/location/shot01.mov` is satisfied by the resources
      `shot01.mov` and `shot02.mov`. */
  lemma ExampleDirectoryIgnored()
    ensures Verdict(
      Some(PackageData("/pkg", "/pkg/edit.otio", ["shot01.mov", "shot02.mov"], None)),
      Timeline([[Clip(Some(MediaReference("/old/location/shot01.mov")))]])) == None
  {
    var data := PackageData("/pkg", "/pkg/edit.otio", ["shot01.mov", "shot02.mov"], None);
    assert "/old/location/shot01.mov" == "/old/location" + "/" + "shot01.mov";
    BasenameAfterDirectory("/old/location", "shot01.mov");
    var timeline := Timeline([[Clip(Some(MediaReference("/old/location/shot01.mov")))]]);
    SingleClipUrls("/old/location/shot01.mov");
    PassesIffComplete(data, timeline);
  }

  /** Worked case: `clipA.mov` and `clipB.mov` against the single resource
      `clipA.mov` report exactly `{clipB.mov}`. */
  lemma ExampleMissingReported()
    ensures Verdict(
      Some(PackageData("/pkg", "/pkg/edit.otio", ["clipA.mov"], None)),
      Timeline([[Clip(Some(MediaReference("clipA.mov"))), Clip(Some(MediaReference("clipB.mov")))]]))
      == Some(MissingFiles({"clipB.mov"}, "/pkg"))
  {
    ExampleUrls();
    ExampleNames();
  }

  /** The worked case's timeline yields both URLs, in clip order. */
  lemma ExampleUrls()
    ensures TimelineUrls([[Clip(Some(MediaReference("clipA.mov"))), Clip(Some(MediaReference("clipB.mov")))]])
      == ["clipA.mov", "clipB.mov"]
  {
    var a, b := "clipA.mov", "clipB.mov";
    var track := [Clip(Some(MediaReference(a))), Clip(Some(MediaReference(b)))];
    assert track[..1] == [track[0]];
    assert track[..1][..0] == [];
    assert TrackUrls(track[..1]) == TrackUrls([]) + ClipUrls(track[0]) == [a];
    assert TrackUrls(track) == TrackUrls(track[..1]) + ClipUrls(track[1]) == [a, b];
    var tracks: seq<Track> := [track];
    assert tracks[..0] == [];
  }

  /** In the worked case only `clipB.mov` lacks a resource file. */
  lemma ExampleNames()
    ensures ResourceFileNames(["clipA.mov"]) == {"clipA.mov"}
    ensures MissingSet(["clipA.mov", "clipB.mov"], {"clipA.mov"}) == {"clipB.mov"}
  {
    var a, b := "clipA.mov", "clipB.mov";
    BasenameAfterDirectory("", a);
    BasenameAfterDirectory("", b);
    assert ResourceFileNames([a]) == {a};
    assert a != b;
    assert MissingSet([a, b], {a}) == {b};
  }
}
