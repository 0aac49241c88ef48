/** The clip manifest and its loader (tools/face-experiment/audio_inputs.py, `load_manifest`). */
module AudioManifest {
  import opened Outcomes
  import opened ClipPlan
  import opened FiniteSets

  const MAX_TRACKS: nat := 32
  const SAMPLE_RATE: int := 16000

  datatype Track = Track(id: string, sha256: string, duration: int)

  datatype Clip = Clip(track: string, index: int, file: string, start: int, length: Option<int>,
                       samples: int, pcmSha256: string)

  /** The private source list, and its SHA-256, which determines it. */
  datatype Document = Document(tracks: seq<Track>, rejected: seq<int>)
  datatype Digest = Sha256(document: Document) | OtherDigest

  datatype Manifest = Manifest(version: int, sampleRate: int, encoding: string, sourceDigest: Digest,
                               decodeVerified: bool, hashesVerified: bool, trackCount: int, clips: seq<Clip>)

  datatype ManifestError =
    | SOURCE_DIGEST_MISMATCH | PCM_MANIFEST_INVALID | TRACK_INVENTORY_INVALID | DUPLICATE_SOURCE_IDENTITY
    | TRACK_IDENTITY_INVALID | CLIP_INVENTORY_INVALID | CLIP_IDENTITY_INVALID | CLIP_METADATA_INVALID

  type ClipKey = (string, int)

  // ---------------------------------------------------------------- what is accepted

  predicate IsTrackId(id: string) {
    |id| == 9 && id[..6] == "track-" && forall i :: 6 <= i < 9 ==> '0' <= id[i] <= '9'
  }

  function IndexText(index: int): string
    requires 0 <= index < 3
  {
    if index == 0 then "0" else if index == 1 then "1" else "2"
  }

  function FileName(track: string, index: int): string
    requires 0 <= index < 3
  {
    track + "-clip-" + IndexText(index) + ".f32le"
  }

  predicate TrackOk(t: Track) {
    IsTrackId(t.id) && IsSha256(t.sha256) && DurationOk(t.duration)
  }

  /** Version 1 places 12-second clips at the start, the middle and the end; version 2 follows the plan. */
  predicate TimingOk(version: int, t: Track, c: Clip, seeds: Seeds)
    requires DurationOk(t.duration) && 0 <= c.index < 3
  {
    if version == 1 then
      && c.start == (if c.index == 0 then 0 else if c.index == 1 then (t.duration - 12000) / 2 else t.duration - 12000)
      && 160000 <= c.samples <= 192000
    else
      var slot := SlotOf(t.duration, c.index, seeds(t.sha256)(c.index));
      && c.start == slot.start
      && c.length == Some(slot.length)
      && (slot.length - 500) * 16 <= c.samples <= (slot.length + 100) * 16
  }

  predicate MetadataOk(version: int, t: Track, c: Clip, seeds: Seeds)
    requires DurationOk(t.duration) && 0 <= c.index < 3
  {
    TimingOk(version, t, c, seeds) && c.file == FileName(c.track, c.index) && IsSha256(c.pcmSha256)
  }

  function KeyOf(c: Clip): ClipKey {
    (c.track, c.index)
  }

  predicate HeaderOk(m: Manifest, d: Document) {
    && m.sourceDigest == Sha256(d)
    && m.version in {1, 2} && m.sampleRate == SAMPLE_RATE && m.encoding == "f32le"
    && m.decodeVerified && m.hashesVerified
    && 1 <= |d.tracks| <= MAX_TRACKS && |d.tracks| == m.trackCount
  }

  predicate TracksOk(tracks: seq<Track>) {
    && (forall i, j :: 0 <= i < j < |tracks| ==>
          tracks[i].id != tracks[j].id && tracks[i].sha256 != tracks[j].sha256)
    && (forall i :: 0 <= i < |tracks| ==> TrackOk(tracks[i]))
  }

  predicate ClipOk(version: int, tracks: seq<Track>, c: Clip, seeds: Seeds) {
    && 0 <= c.index < 3
    && exists i :: 0 <= i < |tracks| && tracks[i].id == c.track && DurationOk(tracks[i].duration)
         && MetadataOk(version, tracks[i], c, seeds)
  }

  function Keys(clips: seq<Clip>): (keys: seq<ClipKey>)
    ensures |keys| == |clips| && forall i :: 0 <= i < |clips| ==> keys[i] == KeyOf(clips[i])
  {
    seq(|clips|, i requires 0 <= i < |clips| => KeyOf(clips[i]))
  }

  function Files(clips: seq<Clip>): (files: seq<string>)
    ensures |files| == |clips| && forall i :: 0 <= i < |clips| ==> files[i] == clips[i].file
  {
    seq(|clips|, i requires 0 <= i < |clips| => clips[i].file)
  }

  predicate ManifestOk(m: Manifest, d: Document, seeds: Seeds) {
    && HeaderOk(m, d)
    && TracksOk(d.tracks)
    && |m.clips| == 3 * |d.tracks|
    && Unrepeated(Files(m.clips))
    && Unrepeated(Keys(m.clips))
    && (forall k :: 0 <= k < |m.clips| ==> ClipOk(m.version, d.tracks, m.clips[k], seeds))
  }

  // ---------------------------------------------------------------- exactly one clip a cell

  function Grid(tracks: seq<Track>): set<ClipKey> {
    set i, index | 0 <= i < |tracks| && 0 <= index < 3 :: (tracks[i].id, index)
  }

  lemma {:induction false} GridSize(tracks: seq<Track>)
    requires forall i, j :: 0 <= i < j < |tracks| ==> tracks[i].id != tracks[j].id
    ensures |Grid(tracks)| == 3 * |tracks|
  {
    if tracks != [] {
      var n := |tracks| - 1;
      var rest, id := tracks[..n], tracks[n].id;
      GridSize(rest);
      var last: set<ClipKey> := {(id, 0), (id, 1), (id, 2)};
      assert |last| == 3;
      forall key ensures key in Grid(tracks) <==> key in Grid(rest) || key in last {
        if key in Grid(rest) {
          var i :| 0 <= i < n && rest[i].id == key.0;
          assert tracks[i].id == key.0;
        }
        if key in last {
          assert tracks[n].id == key.0;
        }
        if key in Grid(tracks) && key !in last {
          var i :| 0 <= i < |tracks| && tracks[i].id == key.0;
          assert i != n && rest[i].id == key.0;
        }
      }
      assert Grid(tracks) == Grid(rest) + last;
      assert Grid(rest) !! last;
    }
  }

  /** The clips of an accepted manifest are exactly the tracks times {0, 1, 2}, each of them once:
      there are as many of them as the grid has cells, none is repeated, and none is outside. */
  lemma ClipsAreGrid(m: Manifest, d: Document, seeds: Seeds)
    requires ManifestOk(m, d, seeds)
    ensures SetOf(Keys(m.clips)) == Grid(d.tracks)
    ensures forall i, index: int :: 0 <= i < |d.tracks| && 0 <= index < 3 ==>
      exists k :: 0 <= k < |m.clips| && KeyOf(m.clips[k]) == (d.tracks[i].id, index)
  {
    var keys := Keys(m.clips);
    DistinctSize(keys);
    GridSize(d.tracks);
    forall key | key in SetOf(keys) ensures key in Grid(d.tracks) {
      var k :| 0 <= k < |keys| && keys[k] == key;
      assert ClipOk(m.version, d.tracks, m.clips[k], seeds);
    }
    SubsetSize(SetOf(keys), Grid(d.tracks));
    forall i, index: int | 0 <= i < |d.tracks| && 0 <= index < 3
      ensures exists k :: 0 <= k < |m.clips| && KeyOf(m.clips[k]) == (d.tracks[i].id, index)
    {
      assert (d.tracks[i].id, index) in SetOf(keys);
      var k :| 0 <= k < |keys| && keys[k] == (d.tracks[i].id, index);
      assert KeyOf(m.clips[k]) == (d.tracks[i].id, index);
    }
  }

  /** A file name tells its track and index apart, so distinct clips have distinct files. */
  lemma FileNamesDiffer(t: string, i: int, u: string, j: int)
    requires IsTrackId(t) && IsTrackId(u) && 0 <= i < 3 && 0 <= j < 3
    ensures FileName(t, i) == FileName(u, j) <==> t == u && i == j
  {
    var a, b := FileName(t, i), FileName(u, j);
    assert a[..9] == t && b[..9] == u;
    assert a[15] == IndexText(i)[0] && b[15] == IndexText(j)[0];
  }

  /** The loader's test for repeated file names never decides: without it the same manifests pass. */
  lemma FilesFollowKeys(m: Manifest, d: Document, seeds: Seeds)
    requires TracksOk(d.tracks) && Unrepeated(Keys(m.clips))
    requires forall k :: 0 <= k < |m.clips| ==> ClipOk(m.version, d.tracks, m.clips[k], seeds)
    ensures Unrepeated(Files(m.clips))
  {
    var files, keys := Files(m.clips), Keys(m.clips);
    forall j, k | 0 <= j < k < |files| ensures files[j] != files[k] {
      var a, b := m.clips[j], m.clips[k];
      assert ClipOk(m.version, d.tracks, a, seeds) && ClipOk(m.version, d.tracks, b, seeds);
      assert IsTrackId(a.track) && IsTrackId(b.track);
      assert keys[j] != keys[k];
      FileNamesDiffer(a.track, a.index, b.track, b.index);
    }
  }

  // ---------------------------------------------------------------- the loader

  function Ids(tracks: seq<Track>): (ids: seq<string>)
    ensures |ids| == |tracks| && forall i :: 0 <= i < |tracks| ==> ids[i] == tracks[i].id
  {
    seq(|tracks|, i requires 0 <= i < |tracks| => tracks[i].id)
  }

  function Hashes(tracks: seq<Track>): (hashes: seq<string>)
    ensures |hashes| == |tracks| && forall i :: 0 <= i < |tracks| ==> hashes[i] == tracks[i].sha256
  {
    seq(|tracks|, i requires 0 <= i < |tracks| => tracks[i].sha256)
  }

  /** The tracks by identifier, the last one winning. */
  function ById(tracks: seq<Track>): map<string, Track> {
    if tracks == [] then map[] else ById(tracks[..|tracks| - 1])[tracks[|tracks| - 1].id := tracks[|tracks| - 1]]
  }

  lemma {:induction false} ByIdKeys(tracks: seq<Track>)
    ensures ById(tracks).Keys == SetOf(Ids(tracks))
  {
    if tracks != [] {
      var n := |tracks| - 1;
      ByIdKeys(tracks[..n]);
      assert Ids(tracks) == Ids(tracks[..n]) + [tracks[n].id];
    }
  }

  lemma {:induction false} ByIdAt(tracks: seq<Track>, i: nat)
    requires i < |tracks| && Unrepeated(Ids(tracks))
    ensures tracks[i].id in ById(tracks) && ById(tracks)[tracks[i].id] == tracks[i]
  {
    var n := |tracks| - 1;
    assert Ids(tracks)[i] == tracks[i].id && Ids(tracks)[n] == tracks[n].id;
    if i < n {
      forall j, k | 0 <= j < k < n ensures Ids(tracks[..n])[j] != Ids(tracks[..n])[k] {
        assert Ids(tracks)[j] != Ids(tracks)[k];
      }
      ByIdAt(tracks[..n], i);
    }
  }

  lemma ClipOkById(version: int, tracks: seq<Track>, c: Clip, seeds: Seeds)
    requires TracksOk(tracks) && 0 <= c.index < 3
    ensures c.track in ById(tracks) <==> exists i :: 0 <= i < |tracks| && tracks[i].id == c.track
    ensures c.track in ById(tracks) ==>
      && DurationOk(ById(tracks)[c.track].duration)
      && (ClipOk(version, tracks, c, seeds) <==> MetadataOk(version, ById(tracks)[c.track], c, seeds))
  {
    hide MetadataOk;
    ByIdKeys(tracks);
    forall j, k | 0 <= j < k < |tracks| ensures Ids(tracks)[j] != Ids(tracks)[k] {
      assert tracks[j].id != tracks[k].id;
    }
    if c.track in ById(tracks) {
      var i :| 0 <= i < |tracks| && Ids(tracks)[i] == c.track;
      ByIdAt(tracks, i);
      assert TrackOk(tracks[i]);
      assert forall k :: 0 <= k < |tracks| && tracks[k].id == c.track ==> k == i;
    } else {
      forall i | 0 <= i < |tracks| ensures tracks[i].id != c.track {
        assert Ids(tracks)[i] in SetOf(Ids(tracks));
      }
    }
  }

  /** Accepts exactly the manifests that are `ManifestOk`, whatever their order of clips. */
  method LoadManifest(m: Manifest, d: Document, seeds: Seeds) returns (result: Result<Manifest, ManifestError>)
    ensures result.Ok? <==> ManifestOk(m, d, seeds)
    ensures result.Ok? ==> result.value == m
    ensures result == Err(SOURCE_DIGEST_MISMATCH) <==> m.sourceDigest != Sha256(d)
  {
    if m.sourceDigest != Sha256(d) {
      return Err(SOURCE_DIGEST_MISMATCH);
    }
    if m.version !in {1, 2} || m.sampleRate != SAMPLE_RATE || m.encoding != "f32le"
       || !m.decodeVerified || !m.hashesVerified {
      return Err(PCM_MANIFEST_INVALID);
    }
    if !(1 <= |d.tracks| <= MAX_TRACKS) || |d.tracks| != m.trackCount {
      return Err(TRACK_INVENTORY_INVALID);
    }
    var tracksChecked := CheckTracks(d.tracks);
    if tracksChecked.Err? {
      return Err(tracksChecked.error);
    }
    DistinctSize(Files(m.clips));
    if |m.clips| != |d.tracks| * 3 || |SetOf(Files(m.clips))| != |m.clips| {
      return Err(CLIP_INVENTORY_INVALID);
    }
    var clipsChecked := CheckClips(m, d, seeds);
    if clipsChecked.Err? {
      return Err(clipsChecked.error);
    }
    return Ok(m);
  }

  method CheckTracks(tracks: seq<Track>) returns (result: Result<bool, ManifestError>)
    ensures result.Ok? <==> TracksOk(tracks)
    ensures result.Err? ==> result.error in {DUPLICATE_SOURCE_IDENTITY, TRACK_IDENTITY_INVALID}
  {
    ByIdKeys(tracks);
    DistinctSize(Ids(tracks));
    DistinctSize(Hashes(tracks));
    assert |ById(tracks)| == |ById(tracks).Keys|;
    if |ById(tracks)| != |tracks| || |SetOf(Hashes(tracks))| != |tracks| {
      Repeats(tracks);
      return Err(DUPLICATE_SOURCE_IDENTITY);
    }
    hide TrackOk;
    for i := 0 to |tracks|
      invariant forall j :: 0 <= j < i ==> TrackOk(tracks[j])
    {
      if !TrackOk(tracks[i]) {
        return Err(TRACK_IDENTITY_INVALID);
      }
    }
    Repeats(tracks);
    return Ok(true);
  }

  lemma Repeats(tracks: seq<Track>)
    ensures Unrepeated(Ids(tracks)) && Unrepeated(Hashes(tracks)) <==>
      forall i, j :: 0 <= i < j < |tracks| ==>
        tracks[i].id != tracks[j].id && tracks[i].sha256 != tracks[j].sha256
  {
  }

  /** Takes every clip's identity out of the expected ones, so that none can come twice. */
  method CheckClips(m: Manifest, d: Document, seeds: Seeds) returns (result: Result<bool, ManifestError>)
    requires TracksOk(d.tracks)
    ensures result.Ok? <==>
      && Unrepeated(Keys(m.clips))
      && forall k :: 0 <= k < |m.clips| ==> ClipOk(m.version, d.tracks, m.clips[k], seeds)
    ensures result.Err? ==> result.error in {CLIP_IDENTITY_INVALID, CLIP_METADATA_INVALID}
  {
    hide MetadataOk, TracksOk, ClipOk;
    var expected := Grid(d.tracks);
    var keys := Keys(m.clips);
    for k := 0 to |m.clips|
      invariant expected == Grid(d.tracks) - SetOf(keys[..k])
      invariant Unrepeated(keys[..k])
      invariant forall j :: 0 <= j < k ==> ClipOk(m.version, d.tracks, m.clips[j], seeds)
    {
      var clip := m.clips[k];
      assert keys[..k + 1] == keys[..k] + [keys[k]];
      if KeyOf(clip) !in expected {
        NotExpected(m, d, seeds, keys, k);
        return Err(CLIP_IDENTITY_INVALID);
      }
      expected := expected - {KeyOf(clip)};
      ClipOkById(m.version, d.tracks, clip, seeds);
      if !MetadataOk(m.version, ById(d.tracks)[clip.track], clip, seeds) {
        return Err(CLIP_METADATA_INVALID);
      }
    }
    assert keys[..|m.clips|] == keys;
    return Ok(true);
  }

  lemma NotExpected(m: Manifest, d: Document, seeds: Seeds, keys: seq<ClipKey>, k: nat)
    requires k < |m.clips| && keys == Keys(m.clips)
    requires keys[k] !in Grid(d.tracks) - SetOf(keys[..k])
    ensures !Unrepeated(keys) || !ClipOk(m.version, d.tracks, m.clips[k], seeds)
  {
    if keys[k] in SetOf(keys[..k]) {
      var j :| 0 <= j < k && keys[j] == keys[k];
    }
  }
}
